/** The payment desk: intent submission, step-up approval and minting (app/routers/payments.py), each handler taken
    whole but for the rows its replay test did not see. StepUps lets the step-up handlers overlap. */
module Payments {
  import opened Text
  import opened Mandates
  import opened Budget
  import opened Lifecycle
  import opened Runs
  import Gate

  const VELOCITY_WINDOW: int := 60_000_000
  const VELOCITY_MAX_INTENTS: nat := 5
  const MFA_CHALLENGE_TTL: int := 300_000_000
  const AUTHORIZATION_TTL: int := 120_000_000

  /** The authenticated agent and its parent authority as the handler reads them. */
  datatype Agent = Agent(who: Who, parentActive: bool, trusted: bool, validUntil: Option<int>,
                         capabilities: set<string>, paymentLimit: int, currency: string)

  datatype Request = Request(key: string, action: string, proposal: Proposal)

  /** What the handler reads besides its own tables: the mandates when first resolved, whether the
      gate was acquired, the mandates under it, the clock at entry and at recording, and how much of the intent
      table the replay test at entry saw: rows another submission commits meanwhile are beyond it. */
  datatype Reading = Reading(rows: seq<Mandate>, gate: bool, under: seq<Mandate>, now: int, stamp: int, seen: nat)

  /** One row of `bounded_authorizations`; `intent` is the position of the intent it names. */
  datatype Authorization = Authorization(intent: nat, who: Who, amount: int, currency: string, merchant: string,
                                         mandateId: Option<string>, expiresAt: int)

  datatype Challenge = Challenge(intent: nat, expiresAt: int, used: bool)

  datatype Desk = Desk(log: seq<Intent>, auths: seq<Authorization>, challenges: seq<Challenge>)

  // ------------------------------------------------------------------ the decision

  /** The checks made before any mandate is looked at. */
  predicate Admitted(a: Agent, req: Request, now: int) {
    && a.parentActive && a.trusted
    && !(a.validUntil.Some? && a.validUntil.value < now)
    && req.proposal.amount > 0
    && (req.action in a.capabilities || req.action == "payment.create")
    && req.proposal.amount <= a.paymentLimit
    && req.proposal.currency == a.currency
  }

  function Recent(log: seq<Intent>, agentId: string, since: int): nat {
    if |log| == 0 then 0 else
      Recent(log[..|log| - 1], agentId, since)
      + if log[|log| - 1].who.agentId == agentId && log[|log| - 1].createdAt >= since then 1 else 0
  }

  /** More than four fifths of the delegated limit needs step-up approval. */
  predicate NeedsStepUp(a: Agent, amount: int) {
    5 * amount > 4 * a.paymentLimit
  }

  predicate TooFast(log: seq<Intent>, a: Agent, now: int) {
    Recent(log, a.who.agentId, now - VELOCITY_WINDOW) >= VELOCITY_MAX_INTENTS
  }

  /** Whether the mandate layer lets the request through. */
  predicate MandateAgrees(required: bool, d: MandateDecision) {
    match d.state
    case Lapsed => false
    case NoMandate => !required
    case Live => d.ok
  }

  function Evaluated(sigOk: Mandate -> bool, log: seq<Intent>, a: Agent, req: Request, rd: Reading): MandateDecision {
    EvaluateMandate(sigOk, rd.rows, rd.gate, rd.under, log, a.who, req.proposal, rd.now)
  }

  /** How the row came to be judged: only an evaluation under the gate judges. */
  function HowJudged(a: Agent, rd: Reading): Judgement {
    if ActiveMandates(rd.rows, a.who, rd.now) != [] && rd.gate
    then JudgedBy(rd.now, ActiveMandates(rd.under, a.who, rd.now)) else Unjudged
  }

  /** The row a mandate decision leads to. */
  function Recorded(required: bool, d: MandateDecision, fast: bool, judged: Judgement, a: Agent, req: Request, rd: Reading): Intent {
    if !MandateAgrees(required, d) then Gate.Denial(a.who, req.proposal, req.key, rd.stamp, judged)
    else
      var mfa := NeedsStepUp(a, req.proposal.amount);
      var parked := mfa || fast || d.review;
      Intent(a.who, req.key, req.proposal, if d.named.Some? then Some(d.named.value.id) else None,
             if parked then REVIEW else ALLOW, mfa, false,
             if parked && !mfa then Some(rd.now + Gate.REVIEW_TTL) else None, rd.now, judged)
  }

  /** The row an admitted request leads to. */
  function Ruling(sigOk: Mandate -> bool, required: bool, log: seq<Intent>, a: Agent, req: Request, rd: Reading): Intent {
    Recorded(required, Evaluated(sigOk, log, a, req, rd), TooFast(log, a, rd.now), HowJudged(a, rd), a, req, rd)
  }

  /** The row a submission leads to. */
  function Submission(sigOk: Mandate -> bool, required: bool, log: seq<Intent>, a: Agent, req: Request, rd: Reading): Intent {
    if !Admitted(a, req, rd.now) then Gate.Denial(a.who, req.proposal, req.key, rd.stamp, Unjudged)
    else Ruling(sigOk, required, log, a, req, rd)
  }

  function Minted(k: nat, i: Intent, now: int): Authorization {
    Authorization(k, i.who, i.proposal.amount, i.proposal.currency, i.proposal.merchant, i.mandateId, now + AUTHORIZATION_TTL)
  }

  /** The part of the table the replay test saw. */
  function Seen(log: seq<Intent>, n: nat): seq<Intent> {
    log[..if n < |log| then n else |log|]
  }

  predicate HasAuthorization(auths: seq<Authorization>, k: nat) {
    exists j | 0 <= j < |auths| :: auths[j].intent == k
  }

  /** An authorization is named after its intent, so a second one for the same intent fails to commit. */
  function Issued(auths: seq<Authorization>, k: nat, i: Intent, now: int): seq<Authorization> {
    if HasAuthorization(auths, k) then auths else auths + [Minted(k, i, now)]
  }

  /** `submit_payment_intent`: a key the replay test sees replays the original decision. A key another submission
      took since then makes recording return the other row, and an allowed ruling mints from that row. */
  function Submit(sigOk: Mandate -> bool, required: bool, d: Desk, a: Agent, req: Request, rd: Reading): Desk {
    if KeyTaken(Seen(d.log, rd.seen), a.who.agentId, req.key) then d
    else
      var i := Submission(sigOk, required, d.log, a, req, rd);
      var log := if KeyTaken(d.log, a.who.agentId, req.key) then d.log else d.log + [i];
      var k := RowFor(d.log, a.who.agentId, req.key);
      d.(log := log, auths := if i.decision == ALLOW then Issued(d.auths, k, log[k], rd.stamp) else d.auths)
  }

  // ------------------------------------------------------------------ step-up approval

  predicate AwaitsStepUp(d: Desk, k: nat) {
    k < |d.log| && d.log[k].decision == REVIEW && d.log[k].mfaRequired
  }

  function UsedUp(c: Challenge, k: nat): Challenge {
    if c.intent == k then c.(used := true) else c
  }

  function Retired(cs: seq<Challenge>, k: nat): seq<Challenge> {
    seq(|cs|, j requires 0 <= j < |cs| => UsedUp(cs[j], k))
  }

  /** `request_mfa_challenge`: earlier unused challenges of the intent are retired first. */
  function Challenged(d: Desk, k: nat, now: int): Desk {
    if !AwaitsStepUp(d, k) then d
    else d.(challenges := Retired(d.challenges, k) + [Challenge(k, now + MFA_CHALLENGE_TTL, false)])
  }

  predicate Answers(d: Desk, k: nat, c: nat, now: int) {
    c < |d.challenges| && d.challenges[c].intent == k && !d.challenges[c].used && now <= d.challenges[c].expiresAt
  }

  /** `verify_mfa_challenge`: `authentic` says the agent and parent are active and the parent signed. Nothing is
      committed if the intent was minted before. */
  function Verified(d: Desk, k: nat, c: nat, now: int, authentic: bool): Desk {
    if !AwaitsStepUp(d, k) || !Answers(d, k, c, now) || !authentic || HasAuthorization(d.auths, k) then d
    else
      var i := Gate.Approved(d.log[k]);
      Desk(d.log[k := i], d.auths + [Minted(k, i, now)], d.challenges[c := d.challenges[c].(used := true)])
  }

  lemma TakenBelow(log: seq<Intent>, agentId: string, key: string)
    requires |log| > 0 && !HasKey(log[|log| - 1], agentId, key)
    ensures KeyTaken(log, agentId, key) <==> KeyTaken(log[..|log| - 1], agentId, key)
  {
    if KeyTaken(log, agentId, key) {
      var k :| 0 <= k < |log| && HasKey(log[k], agentId, key);
      assert HasKey(log[..|log| - 1][k], agentId, key);
    }
    if KeyTaken(log[..|log| - 1], agentId, key) {
      var k :| 0 <= k < |log| - 1 && HasKey(log[..|log| - 1][k], agentId, key);
      assert HasKey(log[k], agentId, key);
    }
  }

  // ------------------------------------------------------------------ the desk, updated in place

  class PaymentDesk {
    var intents: seq<Intent>
    var authorizations: seq<Authorization>
    var challenges: seq<Challenge>

    function View(): Desk
      reads this
    {
      Desk(intents, authorizations, challenges)
    }

    constructor ()
      ensures View() == Desk([], [], [])
    {
      intents, authorizations, challenges := [], [], [];
    }

    /** The last row below `n` holding the key. */
    method FindKey(agentId: string, key: string, n: nat) returns (found: Option<nat>)
      requires n <= |intents|
      ensures found == if KeyTaken(intents[..n], agentId, key) then Some(KeyAt(intents[..n], agentId, key)) else None
    {
      var k := n;
      while k > 0
        invariant 0 <= k <= n
        invariant KeyTaken(intents[..n], agentId, key) <==> KeyTaken(intents[..k], agentId, key)
        invariant KeyTaken(intents[..k], agentId, key) ==> KeyAt(intents[..n], agentId, key) == KeyAt(intents[..k], agentId, key)
      {
        assert intents[..k][..k - 1] == intents[..k - 1] && intents[..k] == intents[..k - 1] + [intents[k - 1]];
        if HasKey(intents[k - 1], agentId, key) {
          assert HasKey(intents[..k][k - 1], agentId, key);
          return Some(k - 1);
        }
        TakenBelow(intents[..k], agentId, key);
        k := k - 1;
      }
      found := None;
    }

    /** `_record_intent`: the row's position, which is another row's if the key is taken. */
    method RecordIntent(i: Intent) returns (k: nat)
      modifies this`intents
      ensures intents == Inserted(old(intents), i)
      ensures k == RowFor(old(intents), i.who.agentId, i.key) && k < |intents|
    {
      assert intents[..|intents|] == intents;
      var existing := FindKey(i.who.agentId, i.key, |intents|);
      if existing.Some? { return existing.value; }
      k := |intents|;
      intents := intents + [i];
    }

    method Deny(a: Agent, req: Request, stamp: int, j: Judgement) returns (decision: Decision)
      modifies this`intents
      ensures decision == DENY && intents == Inserted(old(intents), Gate.Denial(a.who, req.proposal, req.key, stamp, j))
    {
      var _ := RecordIntent(Gate.Denial(a.who, req.proposal, req.key, stamp, j));
      decision := DENY;
    }

    /** The decision reported is the ruling, or the one recorded when a replay is seen. */
    method SubmitPaymentIntent(sigOk: Mandate -> bool, required: bool, a: Agent, req: Request, rd: Reading) returns (decision: Decision)
      modifies this
      ensures View() == Submit(sigOk, required, old(View()), a, req, rd)
      ensures var seen := Seen(old(intents), rd.seen);
              decision == if KeyTaken(seen, a.who.agentId, req.key) then seen[KeyAt(seen, a.who.agentId, req.key)].decision
                          else Submission(sigOk, required, old(intents), a, req, rd).decision
    {
      var replay := FindKey(a.who.agentId, req.key, if rd.seen < |intents| then rd.seen else |intents|);
      if replay.Some? { return intents[replay.value].decision; }
      var p := req.proposal;
      if !a.parentActive { decision := Deny(a, req, rd.stamp, Unjudged); return; }
      if !a.trusted { decision := Deny(a, req, rd.stamp, Unjudged); return; }
      if a.validUntil.Some? && a.validUntil.value < rd.now { decision := Deny(a, req, rd.stamp, Unjudged); return; }
      if p.amount <= 0 { decision := Deny(a, req, rd.stamp, Unjudged); return; }
      if req.action !in a.capabilities && req.action != "payment.create" { decision := Deny(a, req, rd.stamp, Unjudged); return; }
      if p.amount > a.paymentLimit { decision := Deny(a, req, rd.stamp, Unjudged); return; }
      if p.currency != a.currency { decision := Deny(a, req, rd.stamp, Unjudged); return; }
      decision := RuleAndRecord(sigOk, required, a, req, rd);
    }

    /** The second half of the handler, past the checks on the agent. */
    method RuleAndRecord(sigOk: Mandate -> bool, required: bool, a: Agent, req: Request, rd: Reading) returns (decision: Decision)
      modifies this
      ensures var i := Ruling(sigOk, required, old(intents), a, req, rd);
              var k := RowFor(old(intents), a.who.agentId, req.key);
              && decision == i.decision && challenges == old(challenges) && intents == Inserted(old(intents), i) && k < |intents|
              && authorizations == if i.decision == ALLOW then Issued(old(authorizations), k, intents[k], rd.stamp) else old(authorizations)
    {
      var d := Evaluated(sigOk, intents, a, req, rd);
      var judged := HowJudged(a, rd);
      if d.state == Lapsed { decision := Deny(a, req, rd.stamp, judged); return; }
      if required && d.state == NoMandate { decision := Deny(a, req, rd.stamp, judged); return; }
      if d.state == Live && !d.ok { decision := Deny(a, req, rd.stamp, judged); return; }
      var mandateId := if d.named.Some? then Some(d.named.value.id) else None;
      var mfa := NeedsStepUp(a, req.proposal.amount);
      if mfa || TooFast(intents, a, rd.now) || d.review {
        var expires := if !mfa then Some(rd.now + Gate.REVIEW_TTL) else None;
        var _ := RecordIntent(Intent(a.who, req.key, req.proposal, mandateId, REVIEW, mfa, false, expires, rd.now, judged));
        return REVIEW;
      }
      var k := RecordIntent(Intent(a.who, req.key, req.proposal, mandateId, ALLOW, false, false, None, rd.now, judged));
      var _ := Mint(k, rd.stamp);
      decision := ALLOW;
    }

    method Mint(k: nat, now: int) returns (minted: bool)
      requires k < |intents|
      modifies this`authorizations
      ensures authorizations == Issued(old(authorizations), k, intents[k], now)
      ensures minted <==> forall j :: 0 <= j < |old(authorizations)| ==> old(authorizations[j]).intent != k
      ensures minted ==> var i := intents[k];
                         authorizations == old(authorizations) + [Authorization(k, i.who, i.proposal.amount, i.proposal.currency,
                                                                                i.proposal.merchant, i.mandateId, now + 2 * 60 * 1_000_000)]
      ensures minted == !HasAuthorization(old(authorizations), k)
    {
      if HasAuthorization(authorizations, k) { return false; }
      var i := intents[k];
      authorizations := authorizations
        + [Authorization(k, i.who, i.proposal.amount, i.proposal.currency, i.proposal.merchant, i.mandateId, now + AUTHORIZATION_TTL)];
      minted := true;
    }

    method RequestMfaChallenge(k: nat, now: int) returns (issued: Option<nat>)
      modifies this`challenges
      ensures View() == Challenged(old(View()), k, now)
      ensures issued.Some? <==> k < |intents| && intents[k].decision == REVIEW && intents[k].mfaRequired
      ensures issued.Some? ==>
        && |challenges| == |old(challenges)| + 1 && issued == Some(|old(challenges)|)
        && challenges[|old(challenges)|] == Challenge(k, now + 5 * 60 * 1_000_000, false)
        && forall j :: 0 <= j < |old(challenges)| ==> var c := old(challenges[j]); challenges[j] == if c.intent == k then c.(used := true) else c
      ensures issued.None? ==> challenges == old(challenges)
      ensures issued.Some? ==> Answers(View(), k, issued.value, now)
    {
      if k >= |intents| || intents[k].decision != REVIEW || !intents[k].mfaRequired { return None; }
      ghost var before := challenges;
      for j := 0 to |challenges|
        invariant |challenges| == |before|
        invariant forall x | 0 <= x < |before| :: challenges[x] == if x < j then UsedUp(before[x], k) else before[x]
      {
        if challenges[j].intent == k && !challenges[j].used { challenges := challenges[j := challenges[j].(used := true)]; }
      }
      assert challenges == Retired(before, k);
      issued := Some(|challenges|);
      challenges := challenges + [Challenge(k, now + MFA_CHALLENGE_TTL, false)];
    }

    method VerifyMfaChallenge(k: nat, c: nat, now: int, authentic: bool) returns (approved: bool)
      modifies this
      ensures View() == Verified(old(View()), k, c, now, authentic)
      ensures approved <==>
        && authentic && k < |old(intents)| && old(intents[k]).decision == REVIEW && old(intents[k]).mfaRequired
        && c < |old(challenges)| && old(challenges[c]).intent == k && !old(challenges[c]).used && now <= old(challenges[c]).expiresAt
        && forall j :: 0 <= j < |old(authorizations)| ==> old(authorizations[j]).intent != k
      ensures approved ==>
        && intents == old(intents)[k := old(intents[k]).(decision := ALLOW, mfaVerified := true)]
        && challenges == old(challenges)[c := old(challenges[c]).(used := true)]
        && |authorizations| == |old(authorizations)| + 1 && authorizations[|old(authorizations)|].intent == k
      ensures !approved ==> View() == old(View())
    {
      if k >= |intents| || intents[k].decision != REVIEW || !intents[k].mfaRequired { return false; }
      if c >= |challenges| || challenges[c].intent != k || challenges[c].used || challenges[c].expiresAt < now { return false; }
      if !authentic || HasAuthorization(authorizations, k) { return false; }
      challenges := challenges[c := challenges[c].(used := true)];
      intents := intents[k := intents[k].(decision := ALLOW, mfaVerified := true)];
      var _ := Mint(k, now);
      approved := true;
    }
  }

  // ------------------------------------------------------------------ when a payment gets past the desk

  /** The agent has a row with this key among the first `n`. */
  predicate AskedBefore(log: seq<Intent>, n: nat, agentId: string, key: string) {
    exists k | 0 <= k < |log| :: k < n && log[k].who.agentId == agentId && log[k].key == key
  }

  /** A replay the handler can see changes nothing. A key the agent never used is recorded, and minted from if the
      request is allowed; whatever other agents call their requests does not matter. */
  lemma ReplayOrRecord(sigOk: Mandate -> bool, required: bool, d: Desk, a: Agent, req: Request, rd: Reading)
    ensures AskedBefore(d.log, rd.seen, a.who.agentId, req.key) ==> Submit(sigOk, required, d, a, req, rd) == d
    ensures !AskedBefore(d.log, |d.log|, a.who.agentId, req.key) ==>
              var i := Submission(sigOk, required, d.log, a, req, rd);
              var after := Submit(sigOk, required, d, a, req, rd);
              && after.log == d.log + [i] && after.challenges == d.challenges
              && (i.decision != ALLOW ==> after.auths == d.auths)
  {
    if AskedBefore(d.log, rd.seen, a.who.agentId, req.key) {
      var k :| 0 <= k < |d.log| && k < rd.seen && d.log[k].who.agentId == a.who.agentId && d.log[k].key == req.key;
      assert HasKey(Seen(d.log, rd.seen)[k], a.who.agentId, req.key);
    } else if !AskedBefore(d.log, |d.log|, a.who.agentId, req.key) {
      forall k | 0 <= k < |d.log| ensures !HasKey(d.log[k], a.who.agentId, req.key) {
      }
    }
  }

  /** What the delegation itself lets an agent ask for. */
  predicate Delegated(a: Agent, req: Request, now: int) {
    && a.parentActive && a.trusted && (a.validUntil.Some? ==> now <= a.validUntil.value)
    && 0 < req.proposal.amount && req.proposal.amount <= a.paymentLimit && req.proposal.currency == a.currency
    && (req.action == "payment.create" || req.action in a.capabilities)
  }

  /** A request is not denied exactly when the parent is active and trusted, the delegation has not ended, the amount is
      positive and within the delegated limit, in the delegated currency, for a delegated action, and the mandates
      agree: the agent never had one and needs none, or, under the gate, some is live and the payment obeys every
      rule of every one that is. */
  lemma HeldIff(sigOk: Mandate -> bool, required: bool, log: seq<Intent>, a: Agent, req: Request, rd: Reading)
    ensures Submission(sigOk, required, log, a, req, rd).decision != DENY <==>
      && Delegated(a, req, rd.now)
      && if !AnyLive(rd.rows, a.who, rd.now) then !required && !exists m :: m in rd.rows && m.who == a.who
         else rd.gate && AnyLive(rd.under, a.who, rd.now)
              && forall m, rule :: m in rd.under && LiveFor(m, a.who, rd.now) ==> Obeys(sigOk, log, m, req.proposal, rd.now, rule)
  {
    ActiveAreLive(rd.rows, a.who, rd.now);
    PermittedIff(sigOk, rd.rows, rd.gate, rd.under, log, a.who, req.proposal, rd.now);
    StateSays(sigOk, rd.rows, rd.gate, rd.under, log, a.who, req.proposal, rd.now);
  }

  /** What the row records: the request as it was made, the clock at which it was judged, the tightest mandate it was
      permitted under, whether it needs step-up, and, if it is parked for anything else, a deadline in five minutes. */
  lemma RowSays(sigOk: Mandate -> bool, required: bool, log: seq<Intent>, a: Agent, req: Request, rd: Reading)
    ensures var i := Submission(sigOk, required, log, a, req, rd);
      && i.who == a.who && i.key == req.key && i.proposal == req.proposal && !i.mfaVerified
      && (i.decision == DENY ==> i.mandateId.None? && !i.mfaRequired && i.reviewExpiresAt.None? && i.createdAt == rd.stamp)
      && (i.decision != DENY ==>
            && i.createdAt == rd.now && (i.mfaRequired <==> 5 * req.proposal.amount > 4 * a.paymentLimit)
            && i.reviewExpiresAt == (if i.decision == REVIEW && !i.mfaRequired then Some(rd.now + 5 * 60 * 1_000_000) else None)
            && if AnyLive(rd.rows, a.who, rd.now)
               then i.mandateId.Some? && exists m :: m in rd.under && LiveFor(m, a.who, rd.now) && m.id == i.mandateId.value
               else i.mandateId.None?)
  {
    if Submission(sigOk, required, log, a, req, rd).decision != DENY {
      ActiveAreLive(rd.rows, a.who, rd.now);
      if AnyLive(rd.rows, a.who, rd.now) {
        StateSays(sigOk, rd.rows, rd.gate, rd.under, log, a.who, req.proposal, rd.now);
        PermissionSays(sigOk, rd.rows, rd.gate, rd.under, log, a.who, req.proposal, rd.now);
      }
    }
  }

  function RecentOnes(log: seq<Intent>, agentId: string, since: int): set<nat> {
    set k: nat | k < |log| && log[k].who.agentId == agentId && log[k].createdAt >= since
  }

  lemma RecentOnesNext(log: seq<Intent>, agentId: string, since: int)
    requires |log| > 0
    ensures var n, front := |log| - 1, RecentOnes(log[..|log| - 1], agentId, since);
            n !in front && RecentOnes(log, agentId, since)
              == if log[n].who.agentId == agentId && log[n].createdAt >= since then front + {n} else front
  {
  }

  lemma {:induction false} RecentCounts(log: seq<Intent>, agentId: string, since: int)
    ensures Recent(log, agentId, since) == |RecentOnes(log, agentId, since)|
  {
    if |log| > 0 {
      RecentOnesNext(log, agentId, since);
      RecentCounts(log[..|log| - 1], agentId, since);
    }
  }

  lemma RecordedParks(required: bool, d: MandateDecision, fast: bool, judged: Judgement, a: Agent, req: Request, rd: Reading)
    requires Held(Recorded(required, d, fast, judged, a, req, rd))
    ensures Recorded(required, d, fast, judged, a, req, rd).decision == REVIEW <==> NeedsStepUp(a, req.proposal.amount) || fast || d.review
  {
  }

  lemma EvaluatedReview(sigOk: Mandate -> bool, log: seq<Intent>, a: Agent, req: Request, rd: Reading)
    requires var d := Evaluated(sigOk, log, a, req, rd); d.state == Live ==> d.ok
    ensures Evaluated(sigOk, log, a, req, rd).review
            <==> ActiveMandates(rd.rows, a.who, rd.now) != []
                 && exists m :: m in ActiveMandates(rd.under, a.who, rd.now) && OverThreshold(m, req.proposal)
  {
    var active := ActiveMandates(rd.under, a.who, rd.now);
    if ActiveMandates(rd.rows, a.who, rd.now) != [] && active != [] {
      FirstRefusalFinds(sigOk, active, log, req.proposal, rd.now);
      ReviewIffOverThreshold(sigOk, active, log, req.proposal, rd.now);
    }
  }

  /** A request that is not denied is parked exactly when its amount is above four fifths of the delegated limit,
      or the agent has at least five intents in the last minute, or it exceeds a review threshold; otherwise it
      is allowed. */
  lemma ParkedIff(sigOk: Mandate -> bool, required: bool, log: seq<Intent>, a: Agent, req: Request, rd: Reading)
    requires Held(Submission(sigOk, required, log, a, req, rd))
    ensures Submission(sigOk, required, log, a, req, rd).decision == REVIEW <==>
              || 5 * req.proposal.amount > 4 * a.paymentLimit
              || |RecentOnes(log, a.who.agentId, rd.now - 60 * 1_000_000)| >= 5
              || (AnyLive(rd.rows, a.who, rd.now)
                  && exists m :: m in rd.under && LiveFor(m, a.who, rd.now) && m.requireReviewAbove.Some? && m.requireReviewAbove.value < req.proposal.amount)
  {
    ActiveAreLive(rd.rows, a.who, rd.now);
    ActiveAreLive(rd.under, a.who, rd.now);
    RecentCounts(log, a.who.agentId, rd.now - VELOCITY_WINDOW);
    RecordedParks(required, Evaluated(sigOk, log, a, req, rd), TooFast(log, a, rd.now), HowJudged(a, rd), a, req, rd);
    EvaluatedReview(sigOk, log, a, req, rd);
  }

  /** No later state of the mandate table lets an agent whose mandates lapsed spend, in either mode. */
  lemma LapsedAgentsAreDenied(sigOk: Mandate -> bool, required: bool, log: seq<Intent>, a: Agent, req: Request, rd: Reading,
                              before: seq<Mandate>, steps: seq<TableStep>)
    requires HistoryExists(before, a.who) && rd.rows == EvolveAll(before, steps)
    requires ActiveMandates(rd.rows, a.who, rd.now) == []
    ensures Submission(sigOk, required, log, a, req, rd).decision == DENY
  {
    LapseIsPermanent(sigOk, before, steps, rd.gate, log, a.who, req.proposal, rd.now);
    ActiveAreLive(rd.rows, a.who, rd.now);
    HeldIff(sigOk, required, log, a, req, rd);
  }

  /** Revoking a mandate is final for payments: in every later table an agent left with no other live mandate is denied,
      and nothing authorized under the revoked one can be consumed. */
  lemma RevokedCannotPay(sigOk: Mandate -> bool, required: bool, log: seq<Intent>, a: Agent, req: Request, rd: Reading,
                         before: seq<Mandate>, m: Mandate, steps: seq<TableStep>)
    requires m in before && m.who == a.who && rd.rows == EvolveAll(Evolve(before, Revoke(m.id)), steps)
    requires forall x :: x in rd.rows && LiveFor(x, a.who, rd.now) ==> x.id == m.id
    ensures Submission(sigOk, required, log, a, req, rd).decision == DENY
    ensures forall x :: x in rd.rows && x.id == m.id ==> !StillPermits(sigOk, x, req.proposal, rd.now)
  {
    RevokedNeverActive(before, m.id, steps, a.who, rd.now);
    var k :| 0 <= k < |before| && before[k] == m;
    RowOnlyDies(before, Revoke(m.id), k);
    RowsOnlyDie(Evolve(before, Revoke(m.id)), steps, k);
    assert rd.rows[k].who == a.who;
    HeldIff(sigOk, required, log, a, req, rd);
  }

  lemma JudgeShape(sigOk: Mandate -> bool, active: seq<Mandate>, log: seq<Intent>, p: Proposal, now: int)
    ensures var d := Judge(sigOk, active, log, p, now);
            d.state == (if active == [] then Lapsed else Live) && (d.ok ==> d.state == Live && d.named.Some?)
  {
  }

  lemma RecordedAsRuled(required: bool, d: MandateDecision, active: seq<Mandate>, fast: bool, a: Agent, req: Request, rd: Reading)
    requires d.state == (if active == [] then Lapsed else Live) && (d.ok ==> d.state == Live && d.named.Some?)
    ensures Recorded(required, d, fast, JudgedBy(rd.now, active), a, req, rd)
         == Gate.Ruled(d, active, a.who, req.proposal, rd.now, req.key, NeedsStepUp(a, req.proposal.amount), fast, rd.stamp)
  {
  }

  /** The handler is the gate machine's evaluator: what it records under the gate is the outcome that
      machine decides, and a gate it cannot take is a denial. */
  lemma SubmissionIsGateOutcome(sigOk: Mandate -> bool, required: bool, log: seq<Intent>, a: Agent, req: Request, rd: Reading)
    requires Delegated(a, req, rd.now) && AnyLive(rd.rows, a.who, rd.now)
    ensures Submission(sigOk, required, log, a, req, rd) ==
              if rd.gate then Gate.Outcome(sigOk, rd.under, log, a.who, req.proposal, rd.now, req.key,
                                           NeedsStepUp(a, req.proposal.amount), TooFast(log, a, rd.now), rd.stamp)
              else Gate.Denial(a.who, req.proposal, req.key, rd.stamp, Unjudged)
  {
    ActiveAreLive(rd.rows, a.who, rd.now);
    var active := ActiveMandates(rd.under, a.who, rd.now);
    if rd.gate {
      JudgeShape(sigOk, active, log, req.proposal, rd.now);
      RecordedAsRuled(required, Judge(sigOk, active, log, req.proposal, rd.now), active, TooFast(log, a, rd.now), a, req, rd);
    }
  }

  // ------------------------------------------------------------------ intents and authorizations

  /** The authorization names an allowed intent and copies it. */
  predicate Copies(log: seq<Intent>, a: Authorization) {
    && a.intent < |log| && log[a.intent].decision == ALLOW
    && a.who == log[a.intent].who && a.amount == log[a.intent].proposal.amount
    && a.currency == log[a.intent].proposal.currency && a.merchant == log[a.intent].proposal.merchant
    && a.mandateId == log[a.intent].mandateId
  }

  /** Exactly one authorization names the `k`-th intent. */
  ghost predicate OneFor(auths: seq<Authorization>, k: nat) {
    exists j :: OnlyAt(auths, k, j)
  }

  ghost predicate OnlyAt(auths: seq<Authorization>, k: nat, j: int) {
    0 <= j < |auths| && auths[j].intent == k && forall x :: 0 <= x < |auths| && auths[x].intent == k ==> x == j
  }

  ghost predicate OneEach(d: Desk) {
    && (forall j :: 0 <= j < |d.auths| ==> Copies(d.log, d.auths[j]))
    && (forall k :: 0 <= k < |d.log| && d.log[k].decision == ALLOW ==> OneFor(d.auths, k))
  }

  /** A review either awaits step-up and never times out, or times out and awaits nothing. */
  ghost predicate ReviewsSplit(log: seq<Intent>) {
    forall k :: 0 <= k < |log| && log[k].decision == REVIEW ==> (log[k].mfaRequired <==> log[k].reviewExpiresAt.None?)
  }

  ghost predicate OneUnused(cs: seq<Challenge>) {
    forall x, y :: 0 <= x < |cs| && 0 <= y < |cs| && cs[x].intent == cs[y].intent && !cs[x].used && !cs[y].used ==> x == y
  }

  ghost predicate Inv(d: Desk) {
    OneEach(d) && ReviewsSplit(d.log) && OneUnused(d.challenges) && KeysUnique(d.log)
  }

  datatype DeskStep =
    | Submitting(required: bool, a: Agent, req: Request, rd: Reading)
    | Challenging(k: nat, now: int)
    | Verifying(k: nat, c: nat, now: int, authentic: bool)
    | Expiring(now: int)

  function Apply(sigOk: Mandate -> bool, d: Desk, st: DeskStep): Desk {
    match st
    case Submitting(required, a, req, rd) => Submit(sigOk, required, d, a, req, rd)
    case Challenging(k, now) => Challenged(d, k, now)
    case Verifying(k, c, now, authentic) => Verified(d, k, c, now, authentic)
    case Expiring(now) => d.(log := StaleDenied(d.log, now))
  }

  ghost function Stepper(sigOk: Mandate -> bool): (Desk, DeskStep) -> Option<Desk> {
    (d: Desk, st: DeskStep) => Some(Apply(sigOk, d, st))
  }

  lemma MintKeepsOthers(auths: seq<Authorization>, a: Authorization, k: nat)
    requires forall x :: 0 <= x < |auths| ==> auths[x].intent != a.intent
    ensures OneFor(auths + [a], a.intent)
    ensures k != a.intent && OneFor(auths, k) ==> OneFor(auths + [a], k)
  {
    assert OnlyAt(auths + [a], a.intent, |auths|);
    if k != a.intent && OneFor(auths, k) {
      var j :| OnlyAt(auths, k, j);
      assert OnlyAt(auths + [a], k, j);
    }
  }

  /** Recording a row that is not allowed, or one that is together with its authorization. */
  lemma RecordKeepsOneEach(d: Desk, i: Intent, now: int)
    requires OneEach(d)
    ensures OneEach(d.(log := d.log + [i], auths := if i.decision == ALLOW then d.auths + [Minted(|d.log|, i, now)] else d.auths))
  {
    var log := d.log + [i];
    if i.decision == ALLOW {
      forall k | 0 <= k < |log| && log[k].decision == ALLOW ensures OneFor(d.auths + [Minted(|d.log|, i, now)], k) {
        MintKeepsOthers(d.auths, Minted(|d.log|, i, now), k);
      }
    }
  }

  lemma SubmissionShape(sigOk: Mandate -> bool, required: bool, log: seq<Intent>, a: Agent, req: Request, rd: Reading)
    ensures var i := Submission(sigOk, required, log, a, req, rd);
            i.who == a.who && i.key == req.key && (i.decision == REVIEW ==> (i.mfaRequired <==> i.reviewExpiresAt.None?))
  {
  }

  /** The submission's key was taken by another one between its replay test and its recording. */
  predicate Overlaps(d: Desk, a: Agent, req: Request, rd: Reading) {
    KeyTaken(d.log, a.who.agentId, req.key) && !KeyTaken(Seen(d.log, rd.seen), a.who.agentId, req.key)
  }

  /** The submission overlaps another one of its key, is itself allowed, and the row it gets back is not. */
  predicate Misfires(sigOk: Mandate -> bool, required: bool, d: Desk, a: Agent, req: Request, rd: Reading) {
    && Overlaps(d, a, req, rd) && Submission(sigOk, required, d.log, a, req, rd).decision == ALLOW
    && d.log[KeyAt(d.log, a.who.agentId, req.key)].decision != ALLOW
  }

  lemma SubmitKeepsKeys(sigOk: Mandate -> bool, required: bool, d: Desk, a: Agent, req: Request, rd: Reading)
    requires ReviewsSplit(d.log) && KeysUnique(d.log)
    ensures var after := Submit(sigOk, required, d, a, req, rd); ReviewsSplit(after.log) && KeysUnique(after.log)
  {
    if !KeyTaken(d.log, a.who.agentId, req.key) {
      SubmissionShape(sigOk, required, d.log, a, req, rd);
      FreshKeyKeepsUnique(d.log, Submission(sigOk, required, d.log, a, req, rd));
    }
  }

  lemma FreshKeyKeepsUnique(log: seq<Intent>, i: Intent)
    requires KeysUnique(log) && !KeyTaken(log, i.who.agentId, i.key)
    ensures KeysUnique(log + [i])
  {
    forall x, y | 0 <= x < y < |log| + 1 ensures !HasKey((log + [i])[y], (log + [i])[x].who.agentId, (log + [i])[x].key) {
      if y == |log| { assert !HasKey(log[x], i.who.agentId, i.key); }
    }
  }

  lemma ReplaySeenIsTaken(log: seq<Intent>, n: nat, agentId: string, key: string)
    requires KeyTaken(Seen(log, n), agentId, key)
    ensures KeyTaken(log, agentId, key)
  {
    var k :| 0 <= k < |Seen(log, n)| && HasKey(Seen(log, n)[k], agentId, key);
    assert HasKey(log[k], agentId, key);
  }

  /** One submission keeps authorizations and allowed intents in step unless it misfires: then an authorization exists
      for a row never allowed. */
  lemma OverlapBreaksIff(sigOk: Mandate -> bool, required: bool, d: Desk, a: Agent, req: Request, rd: Reading)
    requires OneEach(d)
    ensures OneEach(Submit(sigOk, required, d, a, req, rd)) <==> !Misfires(sigOk, required, d, a, req, rd)
  {
    var agentId, i := a.who.agentId, Submission(sigOk, required, d.log, a, req, rd);
    if KeyTaken(Seen(d.log, rd.seen), agentId, req.key) {
      ReplaySeenIsTaken(d.log, rd.seen, agentId, req.key);
    } else if !KeyTaken(d.log, agentId, req.key) {
      NoneBeyond(d);
      RecordKeepsOneEach(d, i, rd.stamp);
    } else if i.decision == ALLOW {
      MintFromOther(d, KeyAt(d.log, agentId, req.key), rd.stamp);
    }
  }

  /** No authorization names a row that does not exist yet. */
  lemma NoneBeyond(d: Desk)
    requires OneEach(d)
    ensures !HasAuthorization(d.auths, |d.log|)
  {
  }

  lemma MintFromOther(d: Desk, k: nat, now: int)
    requires OneEach(d) && k < |d.log|
    ensures OneEach(d.(auths := Issued(d.auths, k, d.log[k], now))) <==> d.log[k].decision == ALLOW
  {
    var after := d.(auths := Issued(d.auths, k, d.log[k], now));
    if d.log[k].decision == ALLOW {
      assert OneFor(d.auths, k);
      assert HasAuthorization(d.auths, k);
    } else {
      assert !HasAuthorization(d.auths, k);
      assert after.auths[|d.auths|] == Minted(k, d.log[k], now);
      assert !Copies(after.log, after.auths[|d.auths|]);
    }
  }

  lemma SubmitKeepsInv(sigOk: Mandate -> bool, required: bool, d: Desk, a: Agent, req: Request, rd: Reading)
    requires Inv(d) && !Misfires(sigOk, required, d, a, req, rd)
    ensures Inv(Submit(sigOk, required, d, a, req, rd))
  {
    OverlapBreaksIff(sigOk, required, d, a, req, rd);
    SubmitKeepsKeys(sigOk, required, d, a, req, rd);
  }

  lemma VerifiedKeepsInv(d: Desk, k: nat, c: nat, now: int, authentic: bool)
    requires Inv(d)
    ensures Inv(Verified(d, k, c, now, authentic))
  {
    var after := Verified(d, k, c, now, authentic);
    if after != d {
      forall x | 0 <= x < |after.log| && after.log[x].decision == ALLOW ensures OneFor(after.auths, x) {
        MintKeepsOthers(d.auths, Minted(k, after.log[k], now), x);
      }
    }
  }

  /** The step is not a submission that misfires. */
  predicate Apart(sigOk: Mandate -> bool, d: Desk, st: DeskStep) {
    st.Submitting? ==> !Misfires(sigOk, st.required, d, st.a, st.req, st.rd)
  }

  lemma StepKeepsInv(sigOk: Mandate -> bool, d: Desk, st: DeskStep)
    requires Inv(d) && Apart(sigOk, d, st)
    ensures Inv(Apply(sigOk, d, st))
  {
    match st {
      case Submitting(required, a, req, rd) => SubmitKeepsInv(sigOk, required, d, a, req, rd);
      case Challenging(k, now) =>
      case Verifying(k, c, now, authentic) => VerifiedKeepsInv(d, k, c, now, authentic);
      case Expiring(now) =>
    }
  }

  /** In every run of whole handlers in which no submission misfires, an authorization exists exactly for each allowed
      intent, one each, copying its agent, amount, currency, merchant and mandate; no intent has two unused
      challenges and no key two rows. */
  lemma AuthorizationsMatchIntents(sigOk: Mandate -> bool, steps: seq<DeskStep>)
    requires Along(Stepper(sigOk), (d: Desk, st: DeskStep) => Apart(sigOk, d, st), Desk([], [], []), steps)
    ensures var end := Play(Stepper(sigOk), Desk([], [], []), steps);
            && end.Some? && OneUnused(end.value.challenges) && KeysUnique(end.value.log)
            && (forall k :: 0 <= k < |end.value.log| ==> (end.value.log[k].decision == ALLOW <==> OneFor(end.value.auths, k)))
            && (forall j :: 0 <= j < |end.value.auths| ==> Copies(end.value.log, end.value.auths[j]))
  {
    var step := Stepper(sigOk);
    NeverStuck(sigOk, Desk([], [], []), steps);
    var apart := (d: Desk, st: DeskStep) => Apart(sigOk, d, st);
    forall x, st | Inv(x) && apart(x, st) && step(x, st).Some? ensures Inv(step(x, st).value) {
      StepKeepsInv(sigOk, x, st);
    }
    PlayKeepsAlong(step, apart, (x: Desk) => Inv(x), Desk([], [], []), steps);
  }

  lemma {:induction false} NeverStuck(sigOk: Mandate -> bool, d: Desk, steps: seq<DeskStep>)
    ensures Play(Stepper(sigOk), d, steps).Some?
    decreases |steps|
  {
    if |steps| > 0 { NeverStuck(sigOk, Apply(sigOk, d, steps[0]), steps[1..]); }
  }

  // ------------------------------------------------------------------ decisions are final

  /** What may have become of a row and of the authorizations later. */
  ghost predicate Later(d: Desk, e: Desk, k: nat)
    requires k < |d.log|
  {
    && |d.log| <= |e.log| && d.auths <= e.auths
    && e.log[k] == d.log[k].(decision := e.log[k].decision, mfaVerified := e.log[k].mfaVerified)
    && (d.log[k].decision != REVIEW ==> e.log[k] == d.log[k])
    && (d.log[k].decision == REVIEW && e.log[k].decision == ALLOW ==> d.log[k].mfaRequired && e.log[k].mfaVerified)
    && (d.log[k].decision == REVIEW && e.log[k].decision == DENY ==> !d.log[k].mfaRequired)
  }

  lemma StepKeepsReviewsSplit(sigOk: Mandate -> bool, d: Desk, st: DeskStep, k: nat)
    requires ReviewsSplit(d.log) && k < |d.log|
    ensures ReviewsSplit(Apply(sigOk, d, st).log) && Later(d, Apply(sigOk, d, st), k)
  {
    if st.Submitting? { SubmissionShape(sigOk, st.required, d.log, st.a, st.req, st.rd); }
  }

  /** An allowed or denied intent never changes again, a review is left at most once: to ALLOW only by a
      verified step-up, to DENY only by timing out, which no intent awaiting step-up ever does. What was
      minted stays as it was. Overlapping submissions change none of this. */
  lemma {:induction false} DecisionsAreFinal(sigOk: Mandate -> bool, d: Desk, steps: seq<DeskStep>, k: nat)
    requires ReviewsSplit(d.log) && k < |d.log|
    ensures Play(Stepper(sigOk), d, steps).Some? && Later(d, Play(Stepper(sigOk), d, steps).value, k)
    decreases |steps|
  {
    if |steps| > 0 {
      StepKeepsReviewsSplit(sigOk, d, steps[0], k);
      DecisionsAreFinal(sigOk, Apply(sigOk, d, steps[0]), steps[1..], k);
    }
  }

  // ------------------------------------------------------------------ revalidation at consume

  /** The mandate part of `_revalidate_execution`, for the mandate an authorization names. */
  predicate StillPermits(sigOk: Mandate -> bool, m: Mandate, p: Proposal, now: int) {
    && m.status == ACTIVE
    && !(m.expiresAt < now || m.validFrom > now)
    && sigOk(m)
    && p.amount <= m.maxPerTransaction
    && Upper(p.currency) == Upper(m.currency)
    && (Folded(Listed(m.allowedMerchants)) != [] ==> Fold(p.merchant) in Folded(Listed(m.allowedMerchants)))
    && (Folded(Listed(m.allowedCategories)) != []
        ==> CategoryGiven(p) && Fold(p.category.value) in Folded(Listed(m.allowedCategories)))
  }

  /** The mandate with its rolling budgets lifted. */
  function BudgetFree(m: Mandate, amount: int): Mandate {
    m.(maxDailyAmount := amount, maxPerHour := None, maxPerMerchantPerDay := None, maxCategoryPerDay := None)
  }

  /** Revalidation repeats evaluation without the rolling budgets, except at one instant: at the very
      moment of expiry evaluation no longer sees the mandate and revalidation still honours it.
      `sigs` is the signature verdict on the row as it stands. */
  lemma RevalidationIsEvaluationWithoutBudgets(sigs: Mandate -> bool, m: Mandate, p: Proposal, now: int)
    ensures var lifted := BudgetFree(m, p.amount);
            StillPermits(sigs, m, p, now) <==>
              (InWindow(m, now) || (now == m.expiresAt && m.status == ACTIVE && m.validFrom <= now))
              && CheckOne((x: Mandate) => sigs(m), [], lifted, p, now).Passed?
  {
    assert SpendSince([], BudgetFree(m, p.amount), WindowStart(now, DAY, BudgetFree(m, p.amount)), now, Everything) == 0;
  }

  /** What evaluation permitted stays spendable while the mandate's row is unchanged and live. */
  lemma PermittedStaysSpendable(sigOk: Mandate -> bool, log: seq<Intent>, m: Mandate, p: Proposal, at: int, now: int)
    requires CheckOne(sigOk, log, m, p, at).Passed? && InWindow(m, now)
    ensures StillPermits(sigOk, m, p, now)
  {
  }
}
