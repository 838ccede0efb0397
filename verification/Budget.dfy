/** Rolling budgets over whole runs: what the local "remaining budget" checks of
    app/mandates.py add up to in every window of every log. */
module Budget {
  import opened Text
  import opened Mandates

  predicate Held(i: Intent) {
    i.decision != DENY
  }

  function Judges(i: Intent): seq<Mandate> {
    match i.judgement
    case Unjudged => []
    case JudgedBy(_, active) => active
  }

  /** Budget-consuming rows carry positive amounts (the handler denies the rest). */
  ghost predicate Positive(log: seq<Intent>) {
    forall i :: i in log && Held(i) ==> i.proposal.amount > 0
  }

  /** What the rows judged by `m` must leave true of one budget: at the instant each row was
      decided, the rows committed up to it stay within the limit. */
  ghost predicate CapKeptAt(log: seq<Intent>, k: nat, m: Mandate, c: Cap)
    requires k < |log|
  {
    Limit(m, c).Some? ==> Spent(log[..k + 1], m, c, log[k].createdAt) <= Limit(m, c).value
  }

  ghost predicate WithinBudgets(log: seq<Intent>) {
    forall k, m, c {:trigger CapKeptAt(log, k, m, c)} ::
      0 <= k < |log| && Held(log[k]) && m in Judges(log[k]) && Within(Narrowing(c), log[k].proposal) ==> CapKeptAt(log, k, m, c)
  }

  /** The mandates that judged a row were the agent's own and live when it was stamped. */
  ghost predicate JudgedLive(i: Intent) {
    forall m :: m in Judges(i) ==> m.who == i.who && InWindow(m, i.createdAt)
  }

  /** A held row was created at its evaluation, under mandates live then. */
  ghost predicate HonestJudges(log: seq<Intent>) {
    forall i :: i in log && Held(i) ==> JudgedLive(i)
  }

  /** The checks that let `i` through, read as sums. */
  ghost predicate Fits(log: seq<Intent>, i: Intent) {
    forall m, c {:trigger LeavesRoom(log, i, m, c)} ::
      m in Judges(i) && Within(Narrowing(c), i.proposal) ==> LeavesRoom(log, i, m, c)
  }

  ghost predicate LeavesRoom(log: seq<Intent>, i: Intent, m: Mandate, c: Cap) {
    Limit(m, c).Some? ==> Spent(log, m, c, i.createdAt) + i.proposal.amount <= Limit(m, c).value
  }

  // ------------------------------------------------------------------ sums

  /** If everything one aggregation counts is counted by another, it is at most the other. */
  lemma {:induction false} SpendSubset(log: seq<Intent>, m: Mandate, s1: int, n1: int, d1: Dimension, s2: int, n2: int, d2: Dimension)
    requires Positive(log)
    requires forall i :: i in log && Counts(i, m, s1, n1, d1) ==> Counts(i, m, s2, n2, d2)
    ensures SpendSince(log, m, s1, n1, d1) <= SpendSince(log, m, s2, n2, d2)
  {
    if |log| > 0 {
      var last := log[|log| - 1];
      assert last in log;
      SpendSubset(log[..|log| - 1], m, s1, n1, d1, s2, n2, d2);
    }
  }

  lemma {:induction false} NothingCounted(log: seq<Intent>, m: Mandate, s: int, n: int, d: Dimension)
    requires forall i :: i in log ==> !Counts(i, m, s, n, d)
    ensures SpendSince(log, m, s, n, d) == 0
  {
    if |log| > 0 {
      assert log[|log| - 1] in log;
      NothingCounted(log[..|log| - 1], m, s, n, d);
    }
  }

  /** Rows after the last counted one add nothing. */
  lemma {:induction false} SpendUpTo(log: seq<Intent>, k: nat, m: Mandate, s: int, n: int, d: Dimension)
    requires k <= |log| && forall j :: k <= j < |log| ==> !Counts(log[j], m, s, n, d)
    ensures SpendSince(log, m, s, n, d) == SpendSince(log[..k], m, s, n, d)
  {
    if k < |log| {
      var front := log[..|log| - 1];
      assert front[..k] == log[..k];
      SpendUpTo(front, k, m, s, n, d);
    } else {
      assert log[..k] == log;
    }
  }

  lemma {:induction false} SpendAtLeast(log: seq<Intent>, j: nat, k: nat, m: Mandate, s: int, n: int, d: Dimension)
    requires Positive(log) && j < |log| && Counts(log[j], m, s, n, d)
    requires k < |log| && (k == j || Counts(log[k], m, s, n, d))
    ensures SpendSince(log, m, s, n, d) >= log[j].proposal.amount + if k == j then 0 else log[k].proposal.amount
  {
    var front := log[..|log| - 1];
    assert log[j] in log && log[k] in log;
    NothingNegative(front, m, s, n, d);
    if j < |front| && k < |front| {
      SpendAtLeast(front, j, k, m, s, n, d);
    } else if j < |front| {
      SpendAtLeast(front, j, j, m, s, n, d);
    } else if k < |front| {
      SpendAtLeast(front, k, k, m, s, n, d);
    }
  }

  lemma {:induction false} NothingNegative(log: seq<Intent>, m: Mandate, s: int, n: int, d: Dimension)
    requires Positive(log)
    ensures SpendSince(log, m, s, n, d) >= 0
  {
    if |log| > 0 {
      assert log[|log| - 1] in log;
      NothingNegative(log[..|log| - 1], m, s, n, d);
    }
  }

  // ------------------------------------------------------------------ one step

  /** What fitting means: beside all its agent has spent in the window, the payment keeps within the hourly and daily caps
      of every mandate that judged it, and within the caps on its merchant and category under every spelling of them. */
  lemma FitsInWords(log: seq<Intent>, i: Intent, m: Mandate, name: string)
    requires Fits(log, i) && m in Judges(i)
    ensures DayTotal(log, m, i.createdAt) + i.proposal.amount <= m.maxDailyAmount
    ensures WithinOptional(HourTotal(log, m, i.createdAt), i.proposal.amount, m.maxPerHour)
    ensures EqualButCase(i.proposal.merchant, name)
            ==> WithinOptional(MerchantTotal(log, m, name, i.createdAt), i.proposal.amount, m.maxPerMerchantPerDay)
    ensures SameCategory(i, name) ==> WithinOptional(CategoryTotal(log, m, name, i.createdAt), i.proposal.amount, m.maxCategoryPerDay)
  {
    SumsAre(log, m, name, i.createdAt);
    ConcernsIff(MerchantDaily(name), i.proposal);
    ConcernsIff(CategoryDaily(name), i.proposal);
    assert LeavesRoom(log, i, m, Daily) && LeavesRoom(log, i, m, Hourly);
    if EqualButCase(i.proposal.merchant, name) { assert LeavesRoom(log, i, m, MerchantDaily(name)); }
    if SameCategory(i, name) { assert LeavesRoom(log, i, m, CategoryDaily(name)); }
  }

  lemma PassedMeansFits(sigOk: Mandate -> bool, log: seq<Intent>, i: Intent)
    requires Positive(log)
    requires AllPass(sigOk, Judges(i), log, i.proposal, i.createdAt)
    ensures Fits(log, i)
  {
    forall m, c | m in Judges(i) && Within(Narrowing(c), i.proposal) && Limit(m, c).Some?
      ensures LeavesRoom(log, i, m, c)
    {
      var p, t := i.proposal, i.createdAt;
      assert CheckOne(sigOk, log, m, p, t).Passed?;
      var own := match c
        case MerchantDaily(_) => MerchantDaily(p.merchant)
        case CategoryDaily(_) => CategoryDaily(p.category.value)
        case _ => c;
      assert Spent(log, m, own, t) + p.amount <= Limit(m, own).value;
      SpendSubset(log, m, WindowStart(t, Span(c), m), t, Narrowing(c), WindowStart(t, Span(own), m), t, Narrowing(own));
    }
  }

  /** Committing a row that fits keeps every budget; a denied row always does. */
  lemma AppendKeepsBudgets(log: seq<Intent>, i: Intent)
    requires WithinBudgets(log) && (Held(i) ==> Fits(log, i) && i.proposal.amount > 0)
    ensures WithinBudgets(log + [i])
  {
    var after := log + [i];
    forall k, m, c | 0 <= k < |after| && Held(after[k]) && m in Judges(after[k]) && Within(Narrowing(c), after[k].proposal)
      ensures CapKeptAt(after, k, m, c)
    {
      if k < |log| {
        assert after[..k + 1] == log[..k + 1];
        assert CapKeptAt(log, k, m, c);
      } else {
        assert after[..k + 1] == after && after[..k] == log;
        assert LeavesRoom(log, i, m, c);
      }
    }
  }

  /** `b` is `a` after its decision moved without reopening a denial. */
  predicate Softer(a: Intent, b: Intent) {
    b == a.(decision := b.decision, mfaVerified := b.mfaVerified) && (Held(b) ==> Held(a))
  }

  ghost predicate Softened(before: seq<Intent>, after: seq<Intent>) {
    |before| == |after| && forall k :: 0 <= k < |before| ==> Softer(before[k], after[k])
  }

  lemma {:induction false} SofteningNeverRaises(before: seq<Intent>, after: seq<Intent>, m: Mandate, s: int, n: int, d: Dimension)
    requires Positive(before) && Softened(before, after)
    ensures SpendSince(after, m, s, n, d) <= SpendSince(before, m, s, n, d)
    ensures (forall k :: 0 <= k < |before| ==> Held(before[k]) == Held(after[k]))
            ==> SpendSince(after, m, s, n, d) == SpendSince(before, m, s, n, d)
    ensures Positive(after)
  {
    if |before| > 0 {
      assert before[|before| - 1] in before;
      assert Softer(before[|before| - 1], after[|after| - 1]);
      SofteningNeverRaises(before[..|before| - 1], after[..|after| - 1], m, s, n, d);
      forall i | i in after && Held(i) ensures i.proposal.amount > 0 {
        var k :| 0 <= k < |after| && after[k] == i;
        assert before[k] in before;
      }
    }
  }

  /** Step-up approvals and review expiry keep every budget: they never raise a sum. */
  lemma SofteningKeepsBudgets(before: seq<Intent>, after: seq<Intent>)
    requires WithinBudgets(before) && Positive(before) && Softened(before, after)
    ensures WithinBudgets(after) && Positive(after)
  {
    forall i | i in after && Held(i) ensures i.proposal.amount > 0 {
      var k :| 0 <= k < |after| && after[k] == i;
      assert before[k] in before;
    }
    forall k, m, c | 0 <= k < |after| && Held(after[k]) && m in Judges(after[k]) && Within(Narrowing(c), after[k].proposal)
      ensures CapKeptAt(after, k, m, c)
    {
      assert Softer(before[k], after[k]);
      assert CapKeptAt(before, k, m, c);
      var t := after[k].createdAt;
      SofteningNeverRaises(before[..k + 1], after[..k + 1], m, WindowStart(t, Span(c), m), t, Narrowing(c));
    }
  }

  // ------------------------------------------------------------------ every window

  /** Of two held rows of the agent, the later committed is stamped earlier, by no more than `span`. */
  predicate Backdated(i: Intent, j: Intent, m: Mandate, span: int) {
    Held(i) && Held(j) && i.who == m.who && j.who == m.who && j.createdAt < i.createdAt <= j.createdAt + span
  }

  /** No held row of the agent was stamped earlier than, but within `span` of, one committed before it. */
  ghost predicate InOrder(log: seq<Intent>, m: Mandate, span: int) {
    forall j, k {:trigger Backdated(log[j], log[k], m, span)} :: 0 <= j < k < |log| ==> !Backdated(log[j], log[k], m, span)
  }

  /** `m` judged every row the window counts. */
  ghost predicate JudgedThroughout(log: seq<Intent>, m: Mandate, c: Cap, a: int) {
    forall i :: i in log && Counts(i, m, a, a + Span(c), Narrowing(c)) ==> m in Judges(i)
  }

  /** A row counted by the window, committed no later than `k`, is also counted by the decision at `k`. */
  lemma WindowInsideDecision(log: seq<Intent>, m: Mandate, c: Cap, a: int, j: nat, k: nat)
    requires j <= k < |log| && HonestJudges(log) && InOrder(log, m, Span(c)) && JudgedThroughout(log, m, c, a)
    requires Counts(log[j], m, a, a + Span(c), Narrowing(c)) && Counts(log[k], m, a, a + Span(c), Narrowing(c))
    ensures Counts(log[j], m, WindowStart(log[k].createdAt, Span(c), m), log[k].createdAt, Narrowing(c))
  {
    assert log[j] in log && m in Judges(log[j]) && JudgedLive(log[j]);
    if j < k { assert !Backdated(log[j], log[k], m, Span(c)); }
  }

  /** Every window of a budget's span, wherever it starts and not only those aligned to a decision
      or to the calendar, stays within the limit. */
  lemma EveryWindowWithinLimit(log: seq<Intent>, m: Mandate, c: Cap, a: int)
    requires Positive(log) && WithinBudgets(log) && HonestJudges(log)
    requires InOrder(log, m, Span(c)) && JudgedThroughout(log, m, c, a)
    requires Limit(m, c).Some? && Limit(m, c).value >= 0
    ensures SpendSince(log, m, a, a + Span(c), Narrowing(c)) <= Limit(m, c).value
  {
    var d := Narrowing(c);
    var k := LastCounted(log, m, a, a + Span(c), d);
    SpendUpTo(log, k + 1, m, a, a + Span(c), d);
    if k >= 0 {
      var t := log[k].createdAt;
      var upto := log[..k + 1];
      assert log[k] in log && CapKeptAt(log, k, m, c);
      forall i | i in upto && Counts(i, m, a, a + Span(c), d)
        ensures Counts(i, m, WindowStart(t, Span(c), m), t, d)
      {
        var j :| 0 <= j < |upto| && upto[j] == i;
        WindowInsideDecision(log, m, c, a, j, k);
      }
      assert Positive(upto);
      SpendSubset(upto, m, a, a + Span(c), d, WindowStart(t, Span(c), m), t, d);
    }
  }

  /** The last row an aggregation counts, or -1. */
  lemma {:induction false} LastCounted(log: seq<Intent>, m: Mandate, s: int, n: int, d: Dimension) returns (k: int)
    ensures -1 <= k < |log|
    ensures k >= 0 ==> Counts(log[k], m, s, n, d)
    ensures forall j :: k < j < |log| ==> !Counts(log[j], m, s, n, d)
  {
    if |log| == 0 {
      k := -1;
    } else if Counts(log[|log| - 1], m, s, n, d) {
      k := |log| - 1;
    } else {
      k := LastCounted(log[..|log| - 1], m, s, n, d);
    }
  }

  // ------------------------------------------------------------------ serial runs, and when they keep the cap

  /** One gated submission: a non-positive amount or a refused evaluation is recorded as denied. */
  function Decided(sigOk: Mandate -> bool, rows: seq<Mandate>, log: seq<Intent>, who: Who, p: Proposal, now: int): Intent {
    var r := EvaluateMandate(sigOk, rows, true, rows, log, who, p, now);
    var permitted := p.amount > 0 && r.ok;
    Intent(who, "", p, if permitted then Some(r.named.value.id) else None,
           if permitted then ALLOW else DENY, false, false, None, now,
           JudgedBy(now, ActiveMandates(rows, who, now)))
  }

  function SerialRun(sigOk: Mandate -> bool, rows: seq<Mandate>, who: Who, ps: seq<Proposal>, ts: seq<int>): seq<Intent>
    requires |ps| == |ts|
  {
    if |ts| == 0 then [] else
      var log := SerialRun(sigOk, rows, who, ps[..|ps| - 1], ts[..|ts| - 1]);
      log + [Decided(sigOk, rows, log, who, ps[|ps| - 1], ts[|ts| - 1])]
  }

  /** What was asked, when, and which mandates judged it. */
  ghost predicate ShapedAt(i: Intent, rows: seq<Mandate>, who: Who, p: Proposal, t: int) {
    i.createdAt == t && i.who == who && i.proposal == p && Judges(i) == ActiveMandates(rows, who, t)
  }

  ghost predicate Shaped(log: seq<Intent>, rows: seq<Mandate>, who: Who, ps: seq<Proposal>, ts: seq<int>) {
    |log| == |ts| == |ps|
    && forall k {:trigger ShapedAt(log[k], rows, who, ps[k], ts[k])} :: 0 <= k < |log| ==> ShapedAt(log[k], rows, who, ps[k], ts[k])
  }

  lemma {:induction false} SerialRunShape(sigOk: Mandate -> bool, rows: seq<Mandate>, who: Who, ps: seq<Proposal>, ts: seq<int>)
    requires |ps| == |ts|
    ensures Shaped(SerialRun(sigOk, rows, who, ps, ts), rows, who, ps, ts)
  {
    if |ts| > 0 {
      var ps', ts' := ps[..|ps| - 1], ts[..|ts| - 1];
      SerialRunShape(sigOk, rows, who, ps', ts');
      var log := SerialRun(sigOk, rows, who, ps', ts');
      ShapedExtends(log, rows, who, ps, ts, Decided(sigOk, rows, log, who, ps[|ps| - 1], ts[|ts| - 1]));
    }
  }

  lemma ShapedExtends(log: seq<Intent>, rows: seq<Mandate>, who: Who, ps: seq<Proposal>, ts: seq<int>, i: Intent)
    requires |ps| == |ts| > 0 && Shaped(log, rows, who, ps[..|ps| - 1], ts[..|ts| - 1])
    requires ShapedAt(i, rows, who, ps[|ps| - 1], ts[|ts| - 1])
    ensures Shaped(log + [i], rows, who, ps, ts)
  {
    forall k | 0 <= k < |ts| ensures ShapedAt((log + [i])[k], rows, who, ps[k], ts[k]) {
      if k < |log| { assert ShapedAt(log[k], rows, who, ps[..|ps| - 1][k], ts[..|ts| - 1][k]); }
    }
  }

  /** What a decision lets through fits the log it was decided on. */
  lemma DecidedFits(sigOk: Mandate -> bool, rows: seq<Mandate>, log: seq<Intent>, who: Who, p: Proposal, now: int)
    requires Positive(log)
    ensures var i := Decided(sigOk, rows, log, who, p, now);
            && (Held(i) ==> Fits(log, i) && i.proposal.amount > 0)
            && JudgedLive(i)
  {
    var i := Decided(sigOk, rows, log, who, p, now);
    ActiveMandatesAreLive(rows, who, now);
    FirstRefusalFinds(sigOk, ActiveMandates(rows, who, now), log, i.proposal, now);
    if Held(i) { PassedMeansFits(sigOk, log, i); }
  }

  lemma AppendKeepsHonest(log: seq<Intent>, i: Intent)
    requires Positive(log) && HonestJudges(log) && (Held(i) ==> i.proposal.amount > 0)
    requires Held(i) ==> JudgedLive(i)
    ensures Positive(log + [i]) && HonestJudges(log + [i])
  {
    forall x | x in log + [i] && Held(x) ensures x.proposal.amount > 0 && JudgedLive(x) {
      assert x in log || x == i;
    }
  }

  lemma DecidedKeepsBudgets(sigOk: Mandate -> bool, rows: seq<Mandate>, log: seq<Intent>, who: Who, p: Proposal, now: int)
    requires Positive(log) && WithinBudgets(log) && HonestJudges(log)
    ensures var after := log + [Decided(sigOk, rows, log, who, p, now)];
            Positive(after) && WithinBudgets(after) && HonestJudges(after)
  {
    var i := Decided(sigOk, rows, log, who, p, now);
    DecidedFits(sigOk, rows, log, who, p, now);
    AppendKeepsBudgets(log, i);
    AppendKeepsHonest(log, i);
  }

  lemma {:induction false} SerialRunKeepsBudgets(sigOk: Mandate -> bool, rows: seq<Mandate>, who: Who, ps: seq<Proposal>, ts: seq<int>)
    requires |ps| == |ts|
    ensures var log := SerialRun(sigOk, rows, who, ps, ts);
            Positive(log) && WithinBudgets(log) && HonestJudges(log)
  {
    if |ts| > 0 {
      SerialRunKeepsBudgets(sigOk, rows, who, ps[..|ps| - 1], ts[..|ts| - 1]);
      DecidedKeepsBudgets(sigOk, rows, SerialRun(sigOk, rows, who, ps[..|ps| - 1], ts[..|ts| - 1]), who, ps[|ps| - 1], ts[|ts| - 1]);
    }
  }

  /** Clock readings in commit order, none stamped up to a day behind an earlier one. */
  predicate TimesInOrder(ts: seq<int>) {
    forall j, k | 0 <= j < k < |ts| :: !(ts[k] < ts[j] <= ts[k] + DAY)
  }

  /** A table, an agent, its proposals, one of its mandates and the start of a 24h interval. */
  datatype Trial = Trial(rows: seq<Mandate>, who: Who, ps: seq<Proposal>, m: Mandate, a: int)

  ghost predicate Admissible(t: Trial, ts: seq<int>) {
    && |t.ps| == |ts|
    && t.m in t.rows && t.m.who == t.who && t.m.maxDailyAmount >= 0
    && forall k :: 0 <= k < |ts| ==> InWindow(t.m, ts[k])
  }

  predicate DayWithinCap(log: seq<Intent>, m: Mandate, a: int) {
    SpendSince(log, m, a, a + DAY, Everything) <= m.maxDailyAmount
  }

  ghost predicate KeepsDailyCap(sigOk: Mandate -> bool, t: Trial, ts: seq<int>)
    requires |t.ps| == |ts|
  {
    DayWithinCap(SerialRun(sigOk, t.rows, t.who, t.ps, ts), t.m, t.a)
  }

  lemma ShapedInOrder(log: seq<Intent>, t: Trial, ts: seq<int>)
    requires TimesInOrder(ts) && Admissible(t, ts) && Shaped(log, t.rows, t.who, t.ps, ts)
    ensures JudgedThroughout(log, t.m, Daily, t.a) && InOrder(log, t.m, DAY)
  {
    forall i | i in log ensures t.m in Judges(i) {
      var k :| 0 <= k < |log| && log[k] == i;
      assert ShapedAt(log[k], t.rows, t.who, t.ps[k], ts[k]);
      ActiveMandatesAreLive(t.rows, t.who, ts[k]);
    }
    assert InOrder(log, t.m, DAY) by {
      forall j, k | 0 <= j < k < |log| ensures !Backdated(log[j], log[k], t.m, DAY) {
        assert ShapedAt(log[j], t.rows, t.who, t.ps[j], ts[j]) && ShapedAt(log[k], t.rows, t.who, t.ps[k], ts[k]);
      }
    }
  }

  lemma OrderedDayWithinCap(log: seq<Intent>, t: Trial, ts: seq<int>)
    requires TimesInOrder(ts) && Admissible(t, ts) && Shaped(log, t.rows, t.who, t.ps, ts)
    requires Positive(log) && WithinBudgets(log) && HonestJudges(log)
    ensures DayWithinCap(log, t.m, t.a)
  {
    ShapedInOrder(log, t, ts);
    EveryWindowWithinLimit(log, t.m, Daily, t.a);
  }

  lemma InOrderKeepsDailyCap(sigOk: Mandate -> bool, t: Trial, ts: seq<int>)
    requires TimesInOrder(ts) && Admissible(t, ts)
    ensures KeepsDailyCap(sigOk, t, ts)
  {
    SerialRunShape(sigOk, t.rows, t.who, t.ps, ts);
    SerialRunKeepsBudgets(sigOk, t.rows, t.who, t.ps, ts);
    OrderedDayWithinCap(SerialRun(sigOk, t.rows, t.who, t.ps, ts), t, ts);
  }

  /** Exactly which clock readings keep the daily cap. The evaluation instant is sampled before
      the write gate is taken, so readings can reach the log out of order; the cap of every
      mandate holds in every 24h interval of every run with these readings if and only if none
      is stamped before one committed earlier by at most a day. */
  lemma DailyCapIffTimesInOrder(sigOk: Mandate -> bool, ts: seq<int>)
    requires AcceptsUnsigned(sigOk)
    ensures TimesInOrder(ts) <==> forall t: Trial :: Admissible(t, ts) ==> KeepsDailyCap(sigOk, t, ts)
  {
    if TimesInOrder(ts) {
      forall t: Trial | Admissible(t, ts) ensures KeepsDailyCap(sigOk, t, ts) {
        InOrderKeepsDailyCap(sigOk, t, ts);
      }
    } else {
      var j, k :| 0 <= j < k < |ts| && ts[k] < ts[j] <= ts[k] + DAY;
      OverspenderIsAdmissible(ts, j, k);
      OverspenderOverspends(sigOk, ts, j, k);
    }
  }

  /** The standard posture: a mandate without a signature is honoured. */
  ghost predicate AcceptsUnsigned(sigOk: Mandate -> bool) {
    forall m: Mandate :: m.signature.None? ==> sigOk(m)
  }

  function Low(ts: seq<int>): int requires |ts| > 0 {
    if |ts| == 1 then ts[0] else Min(ts[0], Low(ts[1..]))
  }

  function High(ts: seq<int>): int requires |ts| > 0 {
    if |ts| == 1 then ts[0] else var h := High(ts[1..]); if ts[0] < h then h else ts[0]
  }

  lemma {:induction false} Bounds(ts: seq<int>)
    ensures forall k :: 0 <= k < |ts| ==> Low(ts) <= ts[k] <= High(ts)
  {
    if |ts| > 1 {
      Bounds(ts[1..]);
      assert forall k :: 0 < k < |ts| ==> ts[k] == ts[1..][k - 1];
    }
  }

  /** One mandate of one unit a day, and one unit asked for at each of the two inverted readings. */
  function Overspender(ts: seq<int>, j: nat, k: nat): Trial
    requires j < k < |ts|
  {
    var who := Who("agent", "default");
    var m := Mandate("m", "user", who, 1, 1, None, None, None, "INR", None, None, None,
                     Low(ts), High(ts) + 1, ACTIVE, None, None);
    Trial([m], who, seq(|ts|, x => Proposal("shop", if x == j || x == k then 1 else 0, "INR", None)), m, ts[k])
  }

  lemma UnitIsAllowed(sigOk: Mandate -> bool, t: Trial, log: seq<Intent>, p: Proposal, now: int)
    requires t.rows == [t.m] && t.m.who == t.who && InWindow(t.m, now) && sigOk(t.m)
    requires t.m.(validFrom := 0, expiresAt := 0) ==
             Mandate("m", "user", t.who, 1, 1, None, None, None, "INR", None, None, None, 0, 0, ACTIVE, None, None)
    requires p == Proposal("shop", 1, "INR", None)
    requires forall i :: i in log ==> !Counts(i, t.m, WindowStart(now, DAY, t.m), now, Everything)
    ensures Held(Decided(sigOk, t.rows, log, t.who, p, now))
  {
    ActiveMandatesAreLive(t.rows, t.who, now);
    assert t.m in t.rows;
    assert t.m in ActiveMandates(t.rows, t.who, now);
    NothingCounted(log, t.m, WindowStart(now, DAY, t.m), now, Everything);
    assert CheckOne(sigOk, log, t.m, p, now).Passed?;
    FirstRefusalFinds(sigOk, ActiveMandates(t.rows, t.who, now), log, p, now);
  }

  /** Exactly the two inverted readings are let through. */
  ghost predicate OnlyTwoHeld(log: seq<Intent>, j: nat, k: nat) {
    forall x :: 0 <= x < |log| ==> Held(log[x]) == (x == j || x == k)
  }

  lemma OverspenderStep(sigOk: Mandate -> bool, ts: seq<int>, j: nat, k: nat, n: nat, log: seq<Intent>)
    requires j < k < |ts| && ts[k] < ts[j] && n < |ts| && AcceptsUnsigned(sigOk)
    requires var t := Overspender(ts, j, k);
             Shaped(log, t.rows, t.who, t.ps[..n], ts[..n]) && OnlyTwoHeld(log, j, k)
    ensures var t := Overspender(ts, j, k);
            OnlyTwoHeld(log + [Decided(sigOk, t.rows, log, t.who, t.ps[n], ts[n])], j, k)
  {
    var t := Overspender(ts, j, k);
    var now := ts[n];
    Bounds(ts);
    if n == j || n == k {
      forall i | i in log ensures !Counts(i, t.m, WindowStart(now, DAY, t.m), now, Everything) {
        var x :| 0 <= x < |log| && log[x] == i;
        assert ShapedAt(log[x], t.rows, t.who, t.ps[..n][x], ts[..n][x]);
      }
      UnitIsAllowed(sigOk, t, log, t.ps[n], now);
    }
  }

  /** The first `n` submissions of a trial. */
  function Upto(sigOk: Mandate -> bool, t: Trial, ts: seq<int>, n: nat): seq<Intent>
    requires n <= |ts| == |t.ps|
  {
    SerialRun(sigOk, t.rows, t.who, t.ps[..n], ts[..n])
  }

  lemma SerialRunNext(sigOk: Mandate -> bool, rows: seq<Mandate>, who: Who, ps: seq<Proposal>, ts: seq<int>, p: Proposal, t: int)
    requires |ps| == |ts|
    ensures SerialRun(sigOk, rows, who, ps + [p], ts + [t])
         == SerialRun(sigOk, rows, who, ps, ts) + [Decided(sigOk, rows, SerialRun(sigOk, rows, who, ps, ts), who, p, t)]
  {
    assert (ps + [p])[..|ps|] == ps && (ts + [t])[..|ts|] == ts;
  }

  lemma UptoNext(sigOk: Mandate -> bool, t: Trial, ts: seq<int>, n: nat)
    requires n < |ts| == |t.ps|
    ensures Upto(sigOk, t, ts, n + 1) == Upto(sigOk, t, ts, n) + [Decided(sigOk, t.rows, Upto(sigOk, t, ts, n), t.who, t.ps[n], ts[n])]
  {
    assert t.ps[..n + 1] == t.ps[..n] + [t.ps[n]] && ts[..n + 1] == ts[..n] + [ts[n]];
    SerialRunNext(sigOk, t.rows, t.who, t.ps[..n], ts[..n], t.ps[n], ts[n]);
  }

  lemma {:induction false} OverspenderAllows(sigOk: Mandate -> bool, ts: seq<int>, j: nat, k: nat, n: nat)
    requires j < k < |ts| && ts[k] < ts[j] && n <= |ts| && AcceptsUnsigned(sigOk)
    ensures OnlyTwoHeld(Upto(sigOk, Overspender(ts, j, k), ts, n), j, k)
  {
    if n > 0 {
      var t := Overspender(ts, j, k);
      OverspenderAllows(sigOk, ts, j, k, n - 1);
      UptoNext(sigOk, t, ts, n - 1);
      SerialRunShape(sigOk, t.rows, t.who, t.ps[..n - 1], ts[..n - 1]);
      OverspenderStep(sigOk, ts, j, k, n - 1, Upto(sigOk, t, ts, n - 1));
    }
  }

  lemma UptoAll(sigOk: Mandate -> bool, t: Trial, ts: seq<int>)
    requires |t.ps| == |ts|
    ensures Upto(sigOk, t, ts, |ts|) == SerialRun(sigOk, t.rows, t.who, t.ps, ts)
  {
    assert t.ps[..|ts|] == t.ps && ts[..|ts|] == ts;
  }

  lemma TwoHeldOverspend(log: seq<Intent>, ts: seq<int>, j: nat, k: nat)
    requires j < k < |ts| && ts[k] < ts[j] <= ts[k] + DAY && Positive(log) && OnlyTwoHeld(log, j, k)
    requires var t := Overspender(ts, j, k); Shaped(log, t.rows, t.who, t.ps, ts)
    ensures SpendSince(log, Overspender(ts, j, k).m, ts[k], ts[k] + DAY, Everything) > 1
  {
    var t := Overspender(ts, j, k);
    var m := t.m;
    assert ShapedAt(log[j], t.rows, t.who, t.ps[j], ts[j]) && ShapedAt(log[k], t.rows, t.who, t.ps[k], ts[k]);
    assert Counts(log[j], m, ts[k], ts[k] + DAY, Everything) && Counts(log[k], m, ts[k], ts[k] + DAY, Everything);
    SpendAtLeast(log, j, k, m, ts[k], ts[k] + DAY, Everything);
  }

  lemma OverspenderIsAdmissible(ts: seq<int>, j: nat, k: nat)
    requires j < k < |ts|
    ensures Admissible(Overspender(ts, j, k), ts)
  {
    Bounds(ts);
    assert Overspender(ts, j, k).rows[0] == Overspender(ts, j, k).m;
  }

  lemma OverspenderRuns(sigOk: Mandate -> bool, ts: seq<int>, j: nat, k: nat)
    requires j < k < |ts| && ts[k] < ts[j] && AcceptsUnsigned(sigOk)
    ensures var t := Overspender(ts, j, k);
            var log := SerialRun(sigOk, t.rows, t.who, t.ps, ts);
            OnlyTwoHeld(log, j, k) && Shaped(log, t.rows, t.who, t.ps, ts)
  {
    var t := Overspender(ts, j, k);
    OverspenderAllows(sigOk, ts, j, k, |ts|);
    UptoAll(sigOk, t, ts);
    SerialRunShape(sigOk, t.rows, t.who, t.ps, ts);
  }

  lemma SerialRunPositive(sigOk: Mandate -> bool, rows: seq<Mandate>, who: Who, ps: seq<Proposal>, ts: seq<int>)
    requires |ps| == |ts|
    ensures Positive(SerialRun(sigOk, rows, who, ps, ts))
  {
    SerialRunKeepsBudgets(sigOk, rows, who, ps, ts);
  }

  lemma OverspenderOverspends(sigOk: Mandate -> bool, ts: seq<int>, j: nat, k: nat)
    requires j < k < |ts| && ts[k] < ts[j] <= ts[k] + DAY && AcceptsUnsigned(sigOk)
    ensures !KeepsDailyCap(sigOk, Overspender(ts, j, k), ts)
  {
    var t := Overspender(ts, j, k);
    OverspenderRuns(sigOk, ts, j, k);
    SerialRunPositive(sigOk, t.rows, t.who, t.ps, ts);
    TwoHeldOverspend(SerialRun(sigOk, t.rows, t.who, t.ps, ts), ts, j, k);
  }

  // ------------------------------------------------------------------ currency case

  ghost predicate Spells(log: seq<Intent>, currency: string) {
    forall i :: i in log ==> i.proposal.currency == currency
  }

  /** Admission compares currencies without case, aggregation compares them exactly. So for an agent
      whose spelling a mandate admits, the verdict ignores everything already spent if and only if
      the two spellings differ. */
  lemma BudgetBlindIffSpellingsDiffer(sigOk: Mandate -> bool, m: Mandate, p: Proposal, now: int)
    requires p.amount > 0 && m.validFrom <= now
    requires CheckOne(sigOk, [], m, p, now).Passed?
    ensures p.currency != m.currency
            <==> forall log: seq<Intent> :: Spells(log, p.currency) ==> CheckOne(sigOk, log, m, p, now) == CheckOne(sigOk, [], m, p, now)
  {
    if p.currency != m.currency {
      forall log: seq<Intent> | Spells(log, p.currency)
        ensures CheckOne(sigOk, log, m, p, now) == CheckOne(sigOk, [], m, p, now)
      {
        forall c: Cap ensures Spent(log, m, c, now) == 0 {
          NothingCounted(log, m, WindowStart(now, Span(c), m), now, Narrowing(c));
        }
      }
    } else {
      var spent := Intent(m.who, "", p.(amount := m.maxDailyAmount), None, ALLOW, false, false, None, now, Unjudged);
      var log := [spent];
      assert log[..0] == [] && Spells(log, p.currency);
      assert Spent(log, m, Daily, now) == m.maxDailyAmount;
      assert CheckOne(sigOk, log, m, p, now).Refused?;
    }
  }
}
