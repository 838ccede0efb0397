/** User payment mandates: resolution, spending aggregation and evaluation
    (app/mandates.py). Instants are integers in microseconds. */
module Mandates {
  import opened Text
  import opened Sorting

  const HOUR: int := 3_600_000_000
  const DAY: int := 86_400_000_000

  datatype Status = ACTIVE | REVOKED | EXPIRED
  datatype Decision = ALLOW | REVIEW | DENY
  datatype MandateState = NoMandate | Lapsed | Live

  datatype Who = Who(agentId: string, orgId: string)

  datatype Mandate = Mandate(
    id: string, userId: string, who: Who,
    maxPerTransaction: int, maxDailyAmount: int, maxPerHour: Option<int>,
    maxPerMerchantPerDay: Option<int>, maxCategoryPerDay: Option<int>,
    currency: string, allowedMerchants: Option<seq<string>>, allowedCategories: Option<seq<string>>,
    requireReviewAbove: Option<int>,
    validFrom: int, expiresAt: int, status: Status,
    signature: Option<string>, userPublicKey: Option<string>)

  /** What an agent asks for. */
  datatype Proposal = Proposal(merchant: string, amount: int, currency: string, category: Option<string>)

  /** How a row came to be judged: kept as history, it is not a column of the table. */
  datatype Judgement = Unjudged | JudgedBy(at: int, active: seq<Mandate>)

  /** A row of `payment_intents`. Its position in the log is its identity. */
  datatype Intent = Intent(
    who: Who, key: string, proposal: Proposal, mandateId: Option<string>,
    decision: Decision, mfaRequired: bool, mfaVerified: bool,
    reviewExpiresAt: Option<int>, createdAt: int, judgement: Judgement)

  predicate HasKey(i: Intent, agentId: string, key: string) {
    i.who.agentId == agentId && i.key == key
  }

  predicate KeyTaken(log: seq<Intent>, agentId: string, key: string) {
    exists k | 0 <= k < |log| :: HasKey(log[k], agentId, key)
  }

  /** Where the row holding a taken key is. */
  function KeyAt(log: seq<Intent>, agentId: string, key: string): (k: nat)
    requires KeyTaken(log, agentId, key)
    ensures k < |log| && HasKey(log[k], agentId, key)
  {
    if HasKey(log[|log| - 1], agentId, key) then |log| - 1 else KeyAt(log[..|log| - 1], agentId, key)
  }

  /** `_record_intent`: agent and key are unique, so a taken key leaves the table as it is. */
  function Inserted(log: seq<Intent>, i: Intent): seq<Intent> {
    if KeyTaken(log, i.who.agentId, i.key) then log else log + [i]
  }

  /** The position of the row a submission ends up with: its own, or the one already holding its key. */
  function RowFor(log: seq<Intent>, agentId: string, key: string): (k: nat)
    ensures k <= |log| && (k < |log| <==> KeyTaken(log, agentId, key))
  {
    if KeyTaken(log, agentId, key) then KeyAt(log, agentId, key) else |log|
  }

  ghost predicate KeysUnique(log: seq<Intent>) {
    forall x, y :: 0 <= x < y < |log| ==> !HasKey(log[y], log[x].who.agentId, log[x].key)
  }

  // ------------------------------------------------------------------ resolution

  predicate InWindow(m: Mandate, now: int) {
    m.status == ACTIVE && m.validFrom <= now < m.expiresAt
  }

  /** The rows `_scope_query` plus the liveness filter select. */
  function LiveRows(rows: seq<Mandate>, who: Who, now: int): (r: seq<Mandate>)
    ensures forall m :: m in r <==> m in rows && m.who == who && InWindow(m, now)
    ensures forall m :: multiset(r)[m] == if m.who == who && InWindow(m, now) then multiset(rows)[m] else 0
  {
    if |rows| == 0 then [] else
      assert rows == [rows[0]] + rows[1..];
      var rest := LiveRows(rows[1..], who, now);
      if rows[0].who == who && InWindow(rows[0], now) then [rows[0]] + rest else rest
  }

  /** The sort key: per-transaction cap, daily cap, then mandate id. */
  predicate TighterOrSame(a: Mandate, b: Mandate) {
    || a.maxPerTransaction < b.maxPerTransaction
    || (a.maxPerTransaction == b.maxPerTransaction && a.maxDailyAmount < b.maxDailyAmount)
    || (a.maxPerTransaction == b.maxPerTransaction && a.maxDailyAmount == b.maxDailyAmount && StrLe(a.id, b.id))
  }

  function ActiveMandates(rows: seq<Mandate>, who: Who, now: int): seq<Mandate> {
    Sort(TighterOrSame, LiveRows(rows, who, now))
  }

  predicate HistoryExists(rows: seq<Mandate>, who: Who) {
    exists m :: m in rows && m.who == who
  }

  function ResolveState(rows: seq<Mandate>, who: Who, now: int): MandateState {
    if ActiveMandates(rows, who, now) != [] then Live
    else if HistoryExists(rows, who) then Lapsed
    else NoMandate
  }

  // ------------------------------------------------------------------ spending

  /** The narrowing of an aggregation: everything, one merchant, or one category. */
  datatype Dimension = Everything | ByMerchant(name: string) | ByCategory(name: string)

  predicate Within(d: Dimension, p: Proposal) {
    match d
    case Everything => true
    case ByMerchant(n) => Fold(p.merchant) == Fold(n)
    case ByCategory(n) => p.category.Some? && Fold(p.category.value) == Fold(n)
  }

  /** The WHERE clause of `_spend_since`. Currency is compared exactly. */
  predicate Counts(i: Intent, m: Mandate, start: int, now: int, d: Dimension) {
    && i.who == m.who
    && start <= i.createdAt <= now
    && i.decision != DENY
    && i.proposal.currency == m.currency
    && Within(d, i.proposal)
  }

  function SpendSince(log: seq<Intent>, m: Mandate, start: int, now: int, d: Dimension): int {
    if |log| == 0 then 0 else
      var last := log[|log| - 1];
      SpendSince(log[..|log| - 1], m, start, now, d)
      + if Counts(last, m, start, now, d) then last.proposal.amount else 0
  }

  function WindowStart(now: int, delta: int, m: Mandate): int {
    if m.validFrom > now - delta then m.validFrom else now - delta
  }

  /** The four rolling budgets a mandate may carry. */
  datatype Cap = Daily | Hourly | MerchantDaily(merchant: string) | CategoryDaily(category: string)

  function Span(c: Cap): int {
    if c.Hourly? then HOUR else DAY
  }

  function Narrowing(c: Cap): Dimension {
    match c
    case MerchantDaily(n) => ByMerchant(n)
    case CategoryDaily(n) => ByCategory(n)
    case _ => Everything
  }

  function Limit(m: Mandate, c: Cap): Option<int> {
    match c
    case Daily => Some(m.maxDailyAmount)
    case Hourly => m.maxPerHour
    case MerchantDaily(_) => m.maxPerMerchantPerDay
    case CategoryDaily(_) => m.maxCategoryPerDay
  }

  /** What one budget has already been charged at `now`. */
  function Spent(log: seq<Intent>, m: Mandate, c: Cap, now: int): int {
    SpendSince(log, m, WindowStart(now, Span(c), m), now, Narrowing(c))
  }

  // ------------------------------------------------------------------ one mandate

  datatype Reason =
    | BadSignature | CurrencyMismatch | OverTransactionLimit
    | MerchantNotAllowed | CategoryRequired | CategoryNotAllowed
    | OverHourly | OverDaily | OverMerchant | OverCategory

  datatype Verdict = Refused(reason: Reason) | Passed(review: bool)

  function Folded(xs: seq<string>): seq<string> {
    seq(|xs|, i requires 0 <= i < |xs| => Fold(xs[i]))
  }

  predicate CategoryGiven(p: Proposal) {
    p.category.Some? && p.category.value != ""
  }

  /** `_check_one`: the first failing rule, in the source's order. `sigOk` is the signature rule. */
  function CheckOne(sigOk: Mandate -> bool, log: seq<Intent>, m: Mandate, p: Proposal, now: int): Verdict {
    var merchants, categories := Folded(Listed(m.allowedMerchants)), Folded(Listed(m.allowedCategories));
    if !sigOk(m) then Refused(BadSignature)
    else if Upper(p.currency) != Upper(m.currency) then Refused(CurrencyMismatch)
    else if p.amount > m.maxPerTransaction then Refused(OverTransactionLimit)
    else if merchants != [] && Fold(p.merchant) !in merchants then Refused(MerchantNotAllowed)
    else if categories != [] && !CategoryGiven(p) then Refused(CategoryRequired)
    else if categories != [] && Fold(p.category.value) !in categories then Refused(CategoryNotAllowed)
    else if m.maxPerHour.Some? && p.amount > m.maxPerHour.value - Spent(log, m, Hourly, now) then Refused(OverHourly)
    else if p.amount > m.maxDailyAmount - Spent(log, m, Daily, now) then Refused(OverDaily)
    else if m.maxPerMerchantPerDay.Some?
            && p.amount > m.maxPerMerchantPerDay.value - Spent(log, m, MerchantDaily(p.merchant), now)
      then Refused(OverMerchant)
    else if m.maxCategoryPerDay.Some? && !CategoryGiven(p) then Refused(CategoryRequired)
    else if m.maxCategoryPerDay.Some?
            && p.amount > m.maxCategoryPerDay.value - Spent(log, m, CategoryDaily(p.category.value), now)
      then Refused(OverCategory)
    else Passed(m.requireReviewAbove.Some? && p.amount > m.requireReviewAbove.value)
  }

  // ------------------------------------------------------------------ all mandates

  datatype MandateDecision = MandateDecision(ok: bool, review: bool, named: Option<Mandate>, state: MandateState)

  /** The first active mandate that refuses, in the order given. */
  function FirstRefusal(sigOk: Mandate -> bool, active: seq<Mandate>, log: seq<Intent>, p: Proposal, now: int): Option<Mandate> {
    if |active| == 0 then None
    else if CheckOne(sigOk, log, active[0], p, now).Refused? then Some(active[0])
    else FirstRefusal(sigOk, active[1..], log, p, now)
  }

  /** The aggregation under the gate: every active mandate has to permit the payment. */
  function Judge(sigOk: Mandate -> bool, active: seq<Mandate>, log: seq<Intent>, p: Proposal, now: int): MandateDecision {
    if active == [] then MandateDecision(false, false, None, Lapsed)
    else
      match FirstRefusal(sigOk, active, log, p, now)
      case Some(m) => MandateDecision(false, false, Some(m), Live)
      case None =>
        var review := exists m :: m in active && CheckOne(sigOk, log, m, p, now) == Passed(true);
        MandateDecision(true, review, Some(active[0]), Live)
  }

  /** `evaluate_mandate`: `rows` when first resolved, `under` when re-resolved under the gate. */
  function EvaluateMandate(sigOk: Mandate -> bool, rows: seq<Mandate>, gate: bool, under: seq<Mandate>,
                           log: seq<Intent>, who: Who, p: Proposal, now: int): MandateDecision
  {
    var active := ActiveMandates(rows, who, now);
    if active == [] then
      MandateDecision(false, false, None, if HistoryExists(rows, who) then Lapsed else NoMandate)
    else if !gate then MandateDecision(false, false, Some(active[0]), Live)
    else Judge(sigOk, ActiveMandates(under, who, now), log, p, now)
  }

  // ------------------------------------------------------------------ intersection semantics

  ghost predicate AllPass(sigOk: Mandate -> bool, active: seq<Mandate>, log: seq<Intent>, p: Proposal, now: int) {
    forall m :: m in active ==> CheckOne(sigOk, log, m, p, now).Passed?
  }

  /** `m` is at position `k`, is refused, and everything before it passes. */
  ghost predicate FirstAt(sigOk: Mandate -> bool, active: seq<Mandate>, log: seq<Intent>, p: Proposal, now: int, k: nat, m: Mandate)
    requires k < |active|
  {
    && active[k] == m
    && CheckOne(sigOk, log, m, p, now).Refused?
    && (forall j :: 0 <= j < k ==> CheckOne(sigOk, log, active[j], p, now).Passed?)
  }

  lemma {:induction false} FirstRefusalFinds(sigOk: Mandate -> bool, active: seq<Mandate>, log: seq<Intent>, p: Proposal, now: int)
    ensures FirstRefusal(sigOk, active, log, p, now).None? <==> AllPass(sigOk, active, log, p, now)
    ensures var f := FirstRefusal(sigOk, active, log, p, now);
            f.Some? ==> exists k :: 0 <= k < |active| && FirstAt(sigOk, active, log, p, now, k, f.value)
  {
    if |active| > 0 {
      assert active == [active[0]] + active[1..];
      FirstRefusalFinds(sigOk, active[1..], log, p, now);
      var rest := FirstRefusal(sigOk, active[1..], log, p, now);
      if CheckOne(sigOk, log, active[0], p, now).Passed? {
        if rest.Some? {
          var k :| 0 <= k < |active[1..]| && FirstAt(sigOk, active[1..], log, p, now, k, rest.value);
          forall j | 0 <= j < k + 1 ensures CheckOne(sigOk, log, active[j], p, now).Passed? {
            if j > 0 { assert active[j] == active[1..][j - 1]; }
          }
          assert FirstAt(sigOk, active, log, p, now, k + 1, rest.value);
        }
      } else {
        assert active[0] in active;
        assert FirstAt(sigOk, active, log, p, now, 0, active[0]);
      }
    }
  }

  lemma TighterOrders()
    ensures Orders(TighterOrSame)
  {
    forall x: Mandate, y: Mandate ensures TighterOrSame(x, y) || TighterOrSame(y, x) {
      StrLeTotal(x.id, y.id);
    }
    forall x: Mandate, y: Mandate, z: Mandate | Chain(TighterOrSame, x, y, z)
      ensures TighterOrSame(x, z)
    {
      if StrLe(x.id, y.id) && StrLe(y.id, z.id) { StrLeTransitive(x.id, y.id, z.id); }
    }
  }

  /** `mandate_id` is unique in the table. */
  ghost predicate UniqueIds(rows: seq<Mandate>) {
    forall i, j | 0 <= i < |rows| && 0 <= j < |rows| :: rows[i].id == rows[j].id ==> i == j
  }

  lemma ActiveMandatesAreLive(rows: seq<Mandate>, who: Who, now: int)
    ensures Ascending(TighterOrSame, ActiveMandates(rows, who, now))
    ensures forall m :: m in ActiveMandates(rows, who, now) <==> m in rows && m.who == who && InWindow(m, now)
  {
    TighterOrders();
    SortSorts(TighterOrSame, LiveRows(rows, who, now));
  }

  lemma UniqueIdsNoTies(rows: seq<Mandate>, who: Who, now: int)
    requires UniqueIds(rows)
    ensures NoTies(TighterOrSame, LiveRows(rows, who, now))
  {
    var live := LiveRows(rows, who, now);
    forall x, y | x in live && y in live && TighterOrSame(x, y) && TighterOrSame(y, x) ensures x == y {
      StrLeTotal(x.id, y.id);
      var i :| 0 <= i < |rows| && rows[i] == x;
      var j :| 0 <= j < |rows| && rows[j] == y;
    }
  }

  /** `m` comes first among the elements of `active` that satisfy `f`. */
  ghost predicate Least(active: seq<Mandate>, f: Mandate -> bool, m: Mandate) {
    m in active && f(m) && (forall x :: x in active && f(x) ==> TighterOrSame(m, x))
  }

  lemma JudgeNamesTheLeast(sigOk: Mandate -> bool, active: seq<Mandate>, log: seq<Intent>, p: Proposal, now: int)
    requires active != [] && Ascending(TighterOrSame, active)
    ensures var r := Judge(sigOk, active, log, p, now);
            && (r.ok <==> AllPass(sigOk, active, log, p, now))
            && r.named.Some?
            && Least(active, m => r.ok || CheckOne(sigOk, log, m, p, now).Refused?, r.named.value)
  {
    FirstRefusalFinds(sigOk, active, log, p, now);
    TighterOrders();
    var r := Judge(sigOk, active, log, p, now);
    var k := 0;
    if !r.ok {
      k :| 0 <= k < |active| && FirstAt(sigOk, active, log, p, now, k, r.named.value);
    }
    forall x | x in active && (r.ok || CheckOne(sigOk, log, x, p, now).Refused?) ensures TighterOrSame(active[k], x) {
      var j :| 0 <= j < |active| && active[j] == x;
      AscendingAt(TighterOrSame, active, k, j);
    }
  }

  /** A payment is permitted exactly when every active mandate alone permits it, and the
      mandate named is the least in the sort order: of all when permitted, of the refusing
      ones when not. */
  lemma IntersectionSemantics(sigOk: Mandate -> bool, rows: seq<Mandate>, log: seq<Intent>, who: Who, p: Proposal, now: int, m: Mandate)
    requires ActiveMandates(rows, who, now) != []
    ensures var r := EvaluateMandate(sigOk, rows, true, rows, log, who, p, now);
            && (r.ok <==> forall x :: x in rows && x.who == who && InWindow(x, now) ==> CheckOne(sigOk, log, x, p, now).Passed?)
            && r.named.Some? && r.named.value in rows && InWindow(r.named.value, now)
            && (!r.ok ==> CheckOne(sigOk, log, r.named.value, p, now).Refused?)
            && (m in rows && m.who == who && InWindow(m, now) && (r.ok || CheckOne(sigOk, log, m, p, now).Refused?)
                ==> TighterOrSame(r.named.value, m))
  {
    ActiveMandatesAreLive(rows, who, now);
    JudgeNamesTheLeast(sigOk, ActiveMandates(rows, who, now), log, p, now);
  }

  lemma ActiveIgnoresRowOrder(rows: seq<Mandate>, shuffled: seq<Mandate>, who: Who, now: int)
    requires multiset(rows) == multiset(shuffled) && UniqueIds(rows)
    ensures ActiveMandates(rows, who, now) == ActiveMandates(shuffled, who, now)
  {
    var a, b := LiveRows(rows, who, now), LiveRows(shuffled, who, now);
    assert multiset(a) == multiset(b);
    TighterOrders();
    UniqueIdsNoTies(rows, who, now);
    SortForgetsOrder(TighterOrSame, a, b);
  }

  /** The outcome does not depend on the order the database returns rows in. */
  lemma RowOrderIrrelevant(sigOk: Mandate -> bool, rows: seq<Mandate>, shuffled: seq<Mandate>, gate: bool,
                           log: seq<Intent>, who: Who, p: Proposal, now: int)
    requires multiset(rows) == multiset(shuffled) && UniqueIds(rows)
    ensures EvaluateMandate(sigOk, rows, gate, rows, log, who, p, now)
         == EvaluateMandate(sigOk, shuffled, gate, shuffled, log, who, p, now)
  {
    ActiveIgnoresRowOrder(rows, shuffled, who, now);
    assert HistoryExists(rows, who) == HistoryExists(shuffled, who) by {
      SameMultisetSameElements(rows, shuffled);
    }
  }

  /** Adding a mandate to a table that already has an active one can only narrow. */
  lemma AddingAMandateNarrows(sigOk: Mandate -> bool, rows: seq<Mandate>, extra: Mandate, log: seq<Intent>, who: Who, p: Proposal, now: int)
    requires ActiveMandates(rows, who, now) != []
    ensures EvaluateMandate(sigOk, rows + [extra], true, rows + [extra], log, who, p, now).ok
            ==> EvaluateMandate(sigOk, rows, true, rows, log, who, p, now).ok
  {
    var more := rows + [extra];
    ActiveMandatesAreLive(rows, who, now);
    ActiveMandatesAreLive(more, who, now);
    assert ActiveMandates(rows, who, now)[0] in ActiveMandates(rows, who, now);
    assert ActiveMandates(rows, who, now)[0] in ActiveMandates(more, who, now);
    FirstRefusalFinds(sigOk, ActiveMandates(rows, who, now), log, p, now);
    FirstRefusalFinds(sigOk, ActiveMandates(more, who, now), log, p, now);
  }

  /** What a row charges to a budget at `now`: its amount, if it is the agent's, in the mandate's exact currency, not
      denied, of the right merchant or category, and created inside the rolling span but not before the mandate's
      own validity; otherwise nothing. */
  lemma WhatIsCharged(log: seq<Intent>, i: Intent, m: Mandate, c: Cap, now: int)
    ensures var inside := now - Span(c) <= i.createdAt <= now && m.validFrom <= i.createdAt;
            Spent(log + [i], m, c, now) - Spent(log, m, c, now)
            == if inside && i.who == m.who && i.decision != DENY && i.proposal.currency == m.currency && Concerns(c, i.proposal)
               then i.proposal.amount else 0
  {
    assert (log + [i])[..|log|] == log;
    ConcernsIff(c, i.proposal);
  }

  /** The payment is one the budget is for; names are compared but for case. */
  predicate Concerns(c: Cap, p: Proposal) {
    match c
    case Hourly => true
    case Daily => true
    case MerchantDaily(merchant) => EqualButCase(p.merchant, merchant)
    case CategoryDaily(category) => p.category.Some? && EqualButCase(p.category.value, category)
  }

  lemma ConcernsIff(c: Cap, p: Proposal)
    ensures Within(Narrowing(c), p) <==> Concerns(c, p)
  {
    if c.MerchantDaily? { FoldsIff(p.merchant, c.merchant); }
    if c.CategoryDaily? && p.category.Some? { FoldsIff(p.category.value, c.category); }
  }

  lemma PassedWith(sigOk: Mandate -> bool, log: seq<Intent>, m: Mandate, p: Proposal, now: int)
    requires CheckOne(sigOk, log, m, p, now).Passed?
    ensures CheckOne(sigOk, log, m, p, now) == Passed(m.requireReviewAbove.Some? && p.amount > m.requireReviewAbove.value)
  {
  }

  predicate OverThreshold(m: Mandate, p: Proposal) {
    m.requireReviewAbove.Some? && p.amount > m.requireReviewAbove.value
  }

  /** A payment every mandate permits is sent to review exactly when it exceeds some mandate's review threshold. */
  lemma ReviewIffOverThreshold(sigOk: Mandate -> bool, active: seq<Mandate>, log: seq<Intent>, p: Proposal, now: int)
    requires active != [] && AllPass(sigOk, active, log, p, now)
    ensures Judge(sigOk, active, log, p, now).review <==> exists m :: m in active && OverThreshold(m, p)
  {
    FirstRefusalFinds(sigOk, active, log, p, now);
    if m :| m in active && OverThreshold(m, p) {
      PassedWith(sigOk, log, m, p, now);
    }
    if m :| m in active && CheckOne(sigOk, log, m, p, now) == Passed(true) {
      PassedWith(sigOk, log, m, p, now);
    }
  }

  // ------------------------------------------------------------------ one mandate's rules in plain words

  /** The total of the rows a test picks. */
  function Total(log: seq<Intent>, picks: Intent -> bool): int {
    if |log| == 0 then 0 else
      Total(log[..|log| - 1], picks) + if picks(log[|log| - 1]) then log[|log| - 1].proposal.amount else 0
  }

  /** The row is the agent's, not denied, in the mandate's own spelling of the currency, and was stamped since the
      mandate became valid and within `span` of now. */
  predicate SpentUnder(i: Intent, m: Mandate, span: int, now: int) {
    && i.who == m.who && i.decision != DENY && i.proposal.currency == m.currency
    && m.validFrom <= i.createdAt && now - span <= i.createdAt <= now
  }

  /** The name is on the list but for case, or there is no list. */
  predicate OnList(list: Option<seq<string>>, name: string) {
    list.Some? && list.value != [] ==> exists x :: x in list.value && EqualButCase(x, name)
  }

  predicate SameCategory(i: Intent, name: string) {
    i.proposal.category.Some? && EqualButCase(i.proposal.category.value, name)
  }

  function HourTotal(log: seq<Intent>, m: Mandate, now: int): int {
    Total(log, i => SpentUnder(i, m, 60 * 60 * 1_000_000, now))
  }

  function DayTotal(log: seq<Intent>, m: Mandate, now: int): int {
    Total(log, i => SpentUnder(i, m, 24 * 60 * 60 * 1_000_000, now))
  }

  function MerchantTotal(log: seq<Intent>, m: Mandate, merchant: string, now: int): int {
    Total(log, i => SpentUnder(i, m, 24 * 60 * 60 * 1_000_000, now) && EqualButCase(i.proposal.merchant, merchant))
  }

  function CategoryTotal(log: seq<Intent>, m: Mandate, category: string, now: int): int {
    Total(log, i => SpentUnder(i, m, 24 * 60 * 60 * 1_000_000, now) && SameCategory(i, category))
  }

  predicate WithinOptional(total: int, amount: int, cap: Option<int>) {
    cap.Some? ==> total + amount <= cap.value
  }

  /** The rule behind each reason for refusing. */
  predicate Obeys(sigOk: Mandate -> bool, log: seq<Intent>, m: Mandate, p: Proposal, now: int, rule: Reason) {
    var named := p.category.Some? && p.category.value != "";
    match rule
    case BadSignature => sigOk(m)
    case CurrencyMismatch => EqualButCase(p.currency, m.currency)
    case OverTransactionLimit => p.amount <= m.maxPerTransaction
    case MerchantNotAllowed => OnList(m.allowedMerchants, p.merchant)
    case CategoryRequired => (m.allowedCategories.Some? && m.allowedCategories.value != []) || m.maxCategoryPerDay.Some? ==> named
    case CategoryNotAllowed => named ==> OnList(m.allowedCategories, p.category.value)
    case OverHourly => WithinOptional(HourTotal(log, m, now), p.amount, m.maxPerHour)
    case OverDaily => DayTotal(log, m, now) + p.amount <= m.maxDailyAmount
    case OverMerchant => WithinOptional(MerchantTotal(log, m, p.merchant, now), p.amount, m.maxPerMerchantPerDay)
    case OverCategory => named ==> WithinOptional(CategoryTotal(log, m, p.category.value, now), p.amount, m.maxCategoryPerDay)
  }

  lemma {:induction false} SumsAre(log: seq<Intent>, m: Mandate, name: string, now: int)
    ensures Spent(log, m, Hourly, now) == HourTotal(log, m, now) && Spent(log, m, Daily, now) == DayTotal(log, m, now)
    ensures Spent(log, m, MerchantDaily(name), now) == MerchantTotal(log, m, name, now)
    ensures Spent(log, m, CategoryDaily(name), now) == CategoryTotal(log, m, name, now)
  {
    if |log| > 0 {
      var last := log[|log| - 1];
      SumsAre(log[..|log| - 1], m, name, now);
      FoldsIff(last.proposal.merchant, name);
      if last.proposal.category.Some? { FoldsIff(last.proposal.category.value, name); }
    }
  }

  lemma OnListIff(list: Option<seq<string>>, name: string)
    ensures OnList(list, name) <==> Folded(Listed(list)) == [] || Fold(name) in Folded(Listed(list))
  {
    if list.Some? {
      forall k | 0 <= k < |list.value| ensures Fold(name) == Folded(list.value)[k] <==> EqualButCase(list.value[k], name) {
        FoldsIff(list.value[k], name);
      }
      if x :| x in list.value && EqualButCase(x, name) {
        var k :| 0 <= k < |list.value| && list.value[k] == x;
        assert Folded(list.value)[k] == Fold(name);
      }
      if Fold(name) in Folded(list.value) {
        var k :| 0 <= k < |list.value| && Folded(list.value)[k] == Fold(name);
        assert list.value[k] in list.value;
      }
    }
  }

  /** Rule by rule. */
  ghost predicate ObeysEach(sigOk: Mandate -> bool, log: seq<Intent>, m: Mandate, p: Proposal, now: int) {
    && Obeys(sigOk, log, m, p, now, BadSignature) && Obeys(sigOk, log, m, p, now, CurrencyMismatch)
    && Obeys(sigOk, log, m, p, now, OverTransactionLimit) && Obeys(sigOk, log, m, p, now, MerchantNotAllowed)
    && Obeys(sigOk, log, m, p, now, CategoryRequired) && Obeys(sigOk, log, m, p, now, CategoryNotAllowed)
    && Obeys(sigOk, log, m, p, now, OverHourly) && Obeys(sigOk, log, m, p, now, OverDaily)
    && Obeys(sigOk, log, m, p, now, OverMerchant) && Obeys(sigOk, log, m, p, now, OverCategory)
  }

  lemma PassesIffObeysEach(sigOk: Mandate -> bool, log: seq<Intent>, m: Mandate, p: Proposal, now: int)
    ensures CheckOne(sigOk, log, m, p, now).Passed? <==> ObeysEach(sigOk, log, m, p, now)
    ensures CheckOne(sigOk, log, m, p, now).Refused? ==> !Obeys(sigOk, log, m, p, now, CheckOne(sigOk, log, m, p, now).reason)
  {
    var category := if p.category.Some? then p.category.value else "";
    FoldsIff(p.currency, m.currency);
    OnListIff(m.allowedMerchants, p.merchant);
    OnListIff(m.allowedCategories, category);
    SumsAre(log, m, p.merchant, now);
    SumsAre(log, m, category, now);
  }

  /** A payment passes a mandate exactly when it obeys every rule, and a refusal names a rule it breaks. */
  lemma PassesIffObeysAll(sigOk: Mandate -> bool, log: seq<Intent>, m: Mandate, p: Proposal, now: int)
    ensures CheckOne(sigOk, log, m, p, now).Passed? <==> forall rule :: Obeys(sigOk, log, m, p, now, rule)
    ensures CheckOne(sigOk, log, m, p, now).Refused? ==> !Obeys(sigOk, log, m, p, now, CheckOne(sigOk, log, m, p, now).reason)
    ensures CheckOne(sigOk, log, m, p, now).Passed?
            ==> (CheckOne(sigOk, log, m, p, now).review <==> m.requireReviewAbove.Some? && m.requireReviewAbove.value < p.amount)
  {
    PassesIffObeysEach(sigOk, log, m, p, now);
    RulesObeyed(sigOk, log, m, p, now);
    if CheckOne(sigOk, log, m, p, now).Passed? { PassedWith(sigOk, log, m, p, now); }
  }

  /** All ten at once. */
  lemma RulesObeyed(sigOk: Mandate -> bool, log: seq<Intent>, m: Mandate, p: Proposal, now: int)
    ensures (forall rule :: Obeys(sigOk, log, m, p, now, rule)) <==> ObeysEach(sigOk, log, m, p, now)
  {
  }

  /** The mandate may be spent under by this agent at this instant. */
  predicate LiveFor(m: Mandate, who: Who, now: int) {
    m.who == who && m.status == ACTIVE && m.validFrom <= now && now < m.expiresAt
  }

  predicate AnyLive(rows: seq<Mandate>, who: Who, now: int) {
    exists m :: m in rows && LiveFor(m, who, now)
  }

  /** By per-transaction cap, then by daily cap, then by id. */
  ghost predicate NotLooser(a: Mandate, b: Mandate) {
    && a.maxPerTransaction <= b.maxPerTransaction
    && (a.maxPerTransaction == b.maxPerTransaction ==> a.maxDailyAmount <= b.maxDailyAmount)
    && (a.maxPerTransaction == b.maxPerTransaction && a.maxDailyAmount == b.maxDailyAmount
        ==> a.id <= b.id || exists k: nat :: SmallerAt(a.id, b.id, k))
  }

  lemma ActiveAreLive(rows: seq<Mandate>, who: Who, now: int)
    ensures forall m :: m in ActiveMandates(rows, who, now) <==> m in rows && LiveFor(m, who, now)
    ensures ActiveMandates(rows, who, now) != [] <==> AnyLive(rows, who, now)
  {
    ActiveMandatesAreLive(rows, who, now);
    if ActiveMandates(rows, who, now) != [] { assert ActiveMandates(rows, who, now)[0] in rows; }
  }

  /** The decision over both readings of the table, in plain words: permitted exactly when the gate was taken, the agent
      had a live mandate before and has one under it, and the payment obeys every rule of every one live under it. */
  lemma PermittedIff(sigOk: Mandate -> bool, rows: seq<Mandate>, gate: bool, under: seq<Mandate>, log: seq<Intent>, who: Who, p: Proposal, now: int)
    ensures EvaluateMandate(sigOk, rows, gate, under, log, who, p, now).ok <==>
      && gate && AnyLive(rows, who, now) && AnyLive(under, who, now)
      && forall m, rule :: m in under && LiveFor(m, who, now) ==> Obeys(sigOk, log, m, p, now, rule)
  {
    var active := ActiveMandates(under, who, now);
    ActiveAreLive(rows, who, now);
    ActiveAreLive(under, who, now);
    FirstRefusalFinds(sigOk, active, log, p, now);
    forall m | m in under && LiveFor(m, who, now)
      ensures CheckOne(sigOk, log, m, p, now).Passed? <==> forall rule :: Obeys(sigOk, log, m, p, now, rule)
    {
      PassesIffObeysAll(sigOk, log, m, p, now);
    }
  }

  /** Why there is nothing to spend under: the agent never had a mandate, or none it had is live. */
  lemma StateSays(sigOk: Mandate -> bool, rows: seq<Mandate>, gate: bool, under: seq<Mandate>, log: seq<Intent>, who: Who, p: Proposal, now: int)
    ensures var d := EvaluateMandate(sigOk, rows, gate, under, log, who, p, now);
      && (d.state == NoMandate <==> !exists m :: m in rows && m.who == who)
      && (d.state == Live <==> AnyLive(rows, who, now) && (gate ==> AnyLive(under, who, now)))
      && (d.named.Some? <==> d.state == Live) && (!d.ok ==> !d.review)
  {
    ActiveAreLive(rows, who, now);
    ActiveAreLive(under, who, now);
  }

  lemma LeastIsNotLooser(under: seq<Mandate>, who: Who, now: int, m: Mandate)
    requires LiveFor(m, who, now) && m in under
    ensures ActiveMandates(under, who, now) != [] && NotLooser(ActiveMandates(under, who, now)[0], m)
  {
    var active := ActiveMandates(under, who, now);
    ActiveAreLive(under, who, now);
    ActiveMandatesAreLive(under, who, now);
    TighterOrders();
    var j :| 0 <= j < |active| && active[j] == m;
    AscendingAt(TighterOrSame, active, 0, j);
    StrLeIff(active[0].id, m.id);
  }

  /** A permission names the tightest live mandate, and asks for review exactly when the payment exceeds the threshold of
      some live one. */
  lemma PermissionSays(sigOk: Mandate -> bool, rows: seq<Mandate>, gate: bool, under: seq<Mandate>, log: seq<Intent>, who: Who, p: Proposal, now: int)
    requires EvaluateMandate(sigOk, rows, gate, under, log, who, p, now).ok
    ensures var d := EvaluateMandate(sigOk, rows, gate, under, log, who, p, now);
      && d.named.Some? && d.named.value in under && LiveFor(d.named.value, who, now)
      && (forall m :: m in under && LiveFor(m, who, now) ==> NotLooser(d.named.value, m))
      && (d.review <==> exists m :: m in under && LiveFor(m, who, now) && m.requireReviewAbove.Some? && m.requireReviewAbove.value < p.amount)
  {
    var active := ActiveMandates(under, who, now);
    ActiveAreLive(under, who, now);
    FirstRefusalFinds(sigOk, active, log, p, now);
    ReviewIffOverThreshold(sigOk, active, log, p, now);
    assert active[0] in active;
    forall m | m in under && LiveFor(m, who, now) ensures NotLooser(active[0], m) {
      LeastIsNotLooser(under, who, now, m);
    }
  }

  lemma {:induction false} TotalAtLeast(log: seq<Intent>, picks: Intent -> bool, k: nat)
    requires k < |log| && picks(log[k]) && forall i :: 0 <= i < |log| && picks(log[i]) ==> log[i].proposal.amount > 0
    ensures Total(log, picks) >= log[k].proposal.amount
  {
    if k < |log| - 1 {
      TotalAtLeast(log[..|log| - 1], picks, k);
    } else {
      TotalNotNegative(log[..|log| - 1], picks);
    }
  }

  lemma {:induction false} TotalNotNegative(log: seq<Intent>, picks: Intent -> bool)
    requires forall i :: 0 <= i < |log| && picks(log[i]) ==> log[i].proposal.amount > 0
    ensures Total(log, picks) >= 0
  {
    if |log| > 0 { TotalNotNegative(log[..|log| - 1], picks); }
  }

  /** No respelling gets round a merchant's budget: after one payment counted at the merchant, another that does not fit
      beside it is refused, whatever cases either name is written in. */
  lemma RespellingIsRefused(sigOk: Mandate -> bool, log: seq<Intent>, m: Mandate, p: Proposal, now: int, k: nat)
    requires k < |log| && (forall i :: 0 <= i < |log| && log[i].decision != DENY ==> log[i].proposal.amount > 0)
    requires SpentUnder(log[k], m, 24 * 60 * 60 * 1_000_000, now) && EqualButCase(log[k].proposal.merchant, p.merchant)
    requires m.maxPerMerchantPerDay.Some? && log[k].proposal.amount + p.amount > m.maxPerMerchantPerDay.value
    ensures CheckOne(sigOk, log, m, p, now).Refused?
  {
    var picks := (i: Intent) => SpentUnder(i, m, 24 * 60 * 60 * 1_000_000, now) && EqualButCase(i.proposal.merchant, p.merchant);
    TotalAtLeast(log, picks, k);
    assert MerchantTotal(log, m, p.merchant, now) == Total(log, picks);
    PassesIffObeysAll(sigOk, log, m, p, now);
    assert !Obeys(sigOk, log, m, p, now, OverMerchant);
  }

  // ------------------------------------------------------------------ headroom

  function Min(a: int, b: int): int { if a < b then a else b }

  /** The rules that do not look at the amount. */
  predicate Scoped(sigOk: Mandate -> bool, m: Mandate, p: Proposal) {
    && sigOk(m)
    && Upper(p.currency) == Upper(m.currency)
    && (Listed(m.allowedMerchants) != [] ==> Fold(p.merchant) in Folded(Listed(m.allowedMerchants)))
    && (Listed(m.allowedCategories) != [] ==> CategoryGiven(p) && Fold(p.category.value) in Folded(Listed(m.allowedCategories)))
    && (m.maxCategoryPerDay.Some? ==> CategoryGiven(p))
  }

  function Room(log: seq<Intent>, m: Mandate, c: Cap, now: int, ceiling: int): int {
    match Limit(m, c)
    case None => ceiling
    case Some(l) => Min(ceiling, l - Spent(log, m, c, now))
  }

  /** The largest amount one mandate would let through for this merchant, currency and category. */
  function HeadroomOne(sigOk: Mandate -> bool, log: seq<Intent>, m: Mandate, p: Proposal, now: int): int {
    if !Scoped(sigOk, m, p) then 0 else
      var h0 := Room(log, m, Daily, now, m.maxPerTransaction);
      var h1 := Room(log, m, Hourly, now, h0);
      var h2 := Room(log, m, MerchantDaily(p.merchant), now, h1);
      if m.maxCategoryPerDay.Some? then Room(log, m, CategoryDaily(p.category.value), now, h2) else h2
  }

  function Headroom(sigOk: Mandate -> bool, active: seq<Mandate>, log: seq<Intent>, p: Proposal, now: int): int
    requires active != []
  {
    var h := HeadroomOne(sigOk, log, active[0], p, now);
    if |active| == 1 then h else Min(h, Headroom(sigOk, active[1..], log, p, now))
  }

  lemma OneIffWithinHeadroom(sigOk: Mandate -> bool, m: Mandate, log: seq<Intent>, p: Proposal, now: int)
    requires p.amount > 0
    ensures CheckOne(sigOk, log, m, p, now).Passed? <==> p.amount <= HeadroomOne(sigOk, log, m, p, now)
  {
  }

  lemma {:induction false} HeadroomIgnoresAmount(sigOk: Mandate -> bool, active: seq<Mandate>, log: seq<Intent>, p: Proposal, now: int, a: int)
    requires active != []
    ensures Headroom(sigOk, active, log, p.(amount := a), now) == Headroom(sigOk, active, log, p, now)
  {
    if |active| > 1 { HeadroomIgnoresAmount(sigOk, active[1..], log, p, now, a); }
  }

  /** Permission is one comparison: a positive amount passes exactly when it is at most the
      headroom, a number computed without the amount (HeadroomIgnoresAmount). So it is downward closed. */
  lemma {:induction false} PermittedIffWithinHeadroom(sigOk: Mandate -> bool, active: seq<Mandate>, log: seq<Intent>, p: Proposal, now: int)
    requires active != [] && p.amount > 0
    ensures Judge(sigOk, active, log, p, now).ok <==> p.amount <= Headroom(sigOk, active, log, p, now)
    decreases |active|
  {
    FirstRefusalFinds(sigOk, active, log, p, now);
    OneIffWithinHeadroom(sigOk, active[0], log, p, now);
    assert active == [active[0]] + active[1..];
    if |active| > 1 {
      PermittedIffWithinHeadroom(sigOk, active[1..], log, p, now);
      FirstRefusalFinds(sigOk, active[1..], log, p, now);
    }
  }
}
