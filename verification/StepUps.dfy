/** Step-up requests and answers that overlap (app/routers/payments.py). A challenge request retires the unused
    challenges it sees and adds its own at its commit; an answer loads intent and challenge, and writes both at its
    commit, where the unique authorization id lets only the first of an intent through. */
module StepUps {
  import opened Text
  import opened Mandates
  import opened Lifecycle
  import opened Locks
  import opened Runs
  import opened Payments
  import Gate

  /** A handler under way: a request that saw the first `seen` challenges, or an answer past its checks. */
  datatype Session =
    | Asking(k: nat, seen: nat)
    | Answering(k: nat, c: nat)

  datatype Counter = Counter(desk: Desk, open: map<Pid, Session>)

  datatype CounterStep =
    | Whole(st: DeskStep)
    | LoadChallenge(pid: Pid, k: nat)
    | LoadAnswer(pid: Pid, k: nat, c: nat, now: int, authentic: bool)
    | Land(pid: Pid, now: int)

  /** The challenges a request saw are used up. */
  function RetiredBelow(cs: seq<Challenge>, k: nat, seen: nat): seq<Challenge> {
    seq(|cs|, j requires 0 <= j < |cs| => if j < seen then UsedUp(cs[j], k) else cs[j])
  }

  function ChallengeLanded(d: Desk, k: nat, seen: nat, now: int): Desk {
    d.(challenges := RetiredBelow(d.challenges, k, seen) + [Challenge(k, now + MFA_CHALLENGE_TTL, false)])
  }

  function AnswerLanded(d: Desk, k: nat, c: nat, now: int): Desk
    requires k < |d.log| && c < |d.challenges|
  {
    if HasAuthorization(d.auths, k) then d
    else
      var i := Gate.Approved(d.log[k]);
      Desk(d.log[k := i], d.auths + [Minted(k, i, now)], d.challenges[c := d.challenges[c].(used := true)])
  }

  predicate CanLand(d: Desk, s: Session) {
    s.Answering? ==> s.k < |d.log| && s.c < |d.challenges|
  }

  function Landed(d: Desk, s: Session, now: int): Desk
    requires CanLand(d, s)
  {
    match s
    case Asking(k, seen) => ChallengeLanded(d, k, seen, now)
    case Answering(k, c) => AnswerLanded(d, k, c, now)
  }

  function Next(sigOk: Mandate -> bool, x: Counter, st: CounterStep): Option<Counter> {
    match st
    case Whole(s) => Some(x.(desk := Apply(sigOk, x.desk, s)))
    case LoadChallenge(pid, k) =>
      if pid !in x.open && AwaitsStepUp(x.desk, k) then Some(x.(open := x.open[pid := Asking(k, |x.desk.challenges|)])) else None
    case LoadAnswer(pid, k, c, now, authentic) =>
      if pid !in x.open && AwaitsStepUp(x.desk, k) && Answers(x.desk, k, c, now) && authentic
      then Some(x.(open := x.open[pid := Answering(k, c)])) else None
    case Land(pid, now) =>
      if pid in x.open && CanLand(x.desk, x.open[pid]) then Some(Counter(Landed(x.desk, x.open[pid], now), x.open - {pid})) else None
  }

  ghost function CounterStepper(sigOk: Mandate -> bool): (Counter, CounterStep) -> Option<Counter> {
    (x: Counter, st: CounterStep) => Next(sigOk, x, st)
  }

  function Opening(): Counter {
    Counter(Desk([], [], []), map[])
  }

  // ------------------------------------------------------------------ what overlapping cannot spoil

  /** The intent awaits step-up, or has had it. */
  predicate SteppingUp(log: seq<Intent>, k: nat) {
    k < |log| && log[k].mfaRequired && log[k].reviewExpiresAt.None? && (log[k].decision == REVIEW || log[k].decision == ALLOW)
  }

  predicate Informed(d: Desk, s: Session) {
    match s
    case Asking(k, seen) => k < |d.log| && seen <= |d.challenges|
    case Answering(k, c) => SteppingUp(d.log, k) && c < |d.challenges|
  }

  ghost predicate AllInformed(x: Counter) {
    forall pid | pid in x.open :: Informed(x.desk, x.open[pid])
  }

  ghost predicate AllowedIsMinted(d: Desk) {
    forall k :: 0 <= k < |d.log| && d.log[k].decision == ALLOW ==> HasAuthorization(d.auths, k)
  }

  /** What every run keeps, misfiring submissions included. */
  ghost predicate Orderly(x: Counter) {
    AllInformed(x) && ReviewsSplit(x.desk.log) && AllowedIsMinted(x.desk)
  }

  /** Rows stay, those stepping up go on doing so, and challenges are only added. */
  predicate Grown(a: Desk, b: Desk) {
    |a.log| <= |b.log| && |a.challenges| <= |b.challenges| && forall k | 0 <= k < |a.log| :: SteppingUp(a.log, k) ==> SteppingUp(b.log, k)
  }

  lemma GrownKeepsInformed(a: Desk, b: Desk, s: Session)
    requires Informed(a, s) && Grown(a, b)
    ensures Informed(b, s)
  {
  }

  lemma MintedStays(auths: seq<Authorization>, more: seq<Authorization>, k: nat)
    requires auths <= more && HasAuthorization(auths, k)
    ensures HasAuthorization(more, k)
  {
    var j :| 0 <= j < |auths| && auths[j].intent == k;
    assert more[j].intent == k;
  }

  lemma AppendedMinted(auths: seq<Authorization>, a: Authorization)
    ensures HasAuthorization(auths + [a], a.intent)
  {
    assert (auths + [a])[|auths|] == a;
  }

  lemma SubmitIsOrderly(sigOk: Mandate -> bool, required: bool, d: Desk, a: Agent, req: Request, rd: Reading)
    requires ReviewsSplit(d.log) && AllowedIsMinted(d)
    ensures var after := Submit(sigOk, required, d, a, req, rd); Grown(d, after) && AllowedIsMinted(after)
  {
    var after := Submit(sigOk, required, d, a, req, rd);
    forall k | 0 <= k < |after.log| && after.log[k].decision == ALLOW ensures HasAuthorization(after.auths, k) {
      if k < |d.log| {
        MintedStays(d.auths, after.auths, k);
      } else {
        AppendedMinted(d.auths, Minted(k, after.log[k], rd.stamp));
      }
    }
  }

  lemma ApprovalIsOrderly(d: Desk, k: nat, c: nat, now: int)
    requires AllowedIsMinted(d) && k < |d.log| && c < |d.challenges|
    ensures Grown(d, AnswerLanded(d, k, c, now)) && AllowedIsMinted(AnswerLanded(d, k, c, now))
  {
    var after := AnswerLanded(d, k, c, now);
    if after != d {
      forall x | 0 <= x < |after.log| && after.log[x].decision == ALLOW ensures HasAuthorization(after.auths, x) {
        if x == k { AppendedMinted(d.auths, Minted(k, after.log[k], now)); } else { MintedStays(d.auths, after.auths, x); }
      }
    }
  }

  lemma WholeIsOrderly(sigOk: Mandate -> bool, d: Desk, st: DeskStep)
    requires ReviewsSplit(d.log) && AllowedIsMinted(d)
    ensures Grown(d, Apply(sigOk, d, st)) && AllowedIsMinted(Apply(sigOk, d, st))
  {
    match st {
      case Submitting(required, a, req, rd) => SubmitIsOrderly(sigOk, required, d, a, req, rd);
      case Verifying(k, c, now, authentic) =>
        if AwaitsStepUp(d, k) && Answers(d, k, c, now) { ApprovalIsOrderly(d, k, c, now); }
      case _ =>
    }
  }

  /** What an answer finds when it lands was never minted only if it still awaits step-up. */
  lemma LandedAnswerFinal(x: Counter, pid: Pid, now: int, k: nat)
    requires Orderly(x) && pid in x.open && x.open[pid].Answering? && k < |x.desk.log|
    ensures Later(x.desk, Landed(x.desk, x.open[pid], now), k) && ReviewsSplit(Landed(x.desk, x.open[pid], now).log)
  {
  }

  lemma StepIsFinal(sigOk: Mandate -> bool, x: Counter, st: CounterStep, k: nat)
    requires Orderly(x) && Next(sigOk, x, st).Some? && k < |x.desk.log|
    ensures Later(x.desk, Next(sigOk, x, st).value.desk, k)
  {
    match st {
      case Whole(s) => StepKeepsReviewsSplit(sigOk, x.desk, s, k);
      case Land(pid, now) => if x.open[pid].Answering? { LandedAnswerFinal(x, pid, now, k); }
      case _ =>
    }
  }

  lemma WholeKeepsSplit(sigOk: Mandate -> bool, d: Desk, st: DeskStep)
    requires ReviewsSplit(d.log)
    ensures ReviewsSplit(Apply(sigOk, d, st).log)
  {
    if st.Submitting? { SubmissionShape(sigOk, st.required, d.log, st.a, st.req, st.rd); }
  }

  lemma StepIsOrderly(sigOk: Mandate -> bool, x: Counter, st: CounterStep)
    requires Orderly(x) && Next(sigOk, x, st).Some?
    ensures Orderly(Next(sigOk, x, st).value)
  {
    var after := Next(sigOk, x, st).value;
    match st {
      case Whole(s) =>
        WholeIsOrderly(sigOk, x.desk, s);
        WholeKeepsSplit(sigOk, x.desk, s);
      case Land(pid, now) => if x.open[pid].Answering? { ApprovalIsOrderly(x.desk, x.open[pid].k, x.open[pid].c, now); }
      case _ =>
    }
    forall pid | pid in after.open && pid in x.open ensures Informed(after.desk, after.open[pid]) {
      GrownKeepsInformed(x.desk, after.desk, x.open[pid]);
    }
  }

  lemma LaterOnwards(a: Desk, b: Desk, c: Desk, k: nat)
    requires k < |a.log| && Later(a, b, k) && Later(b, c, k)
    ensures Later(a, c, k)
  {
  }

  /** Decisions are final however submissions, challenge requests and answers overlap. */
  lemma {:induction false} OverlappingDecisionsAreFinal(sigOk: Mandate -> bool, x: Counter, steps: seq<CounterStep>, k: nat)
    requires Orderly(x) && Play(CounterStepper(sigOk), x, steps).Some? && k < |x.desk.log|
    ensures Orderly(Play(CounterStepper(sigOk), x, steps).value) && Later(x.desk, Play(CounterStepper(sigOk), x, steps).value.desk, k)
    decreases |steps|
  {
    if steps != [] {
      var next := Next(sigOk, x, steps[0]).value;
      StepIsFinal(sigOk, x, steps[0], k);
      StepIsOrderly(sigOk, x, steps[0]);
      OverlappingDecisionsAreFinal(sigOk, next, steps[1..], k);
      LaterOnwards(x.desk, next.desk, Play(CounterStepper(sigOk), x, steps).value.desk, k);
    }
  }

  // ------------------------------------------------------------------ authorizations match intents all the same

  ghost predicate Matched(x: Counter) {
    Orderly(x) && OneEach(x.desk) && KeysUnique(x.desk.log)
  }

  predicate Apart(sigOk: Mandate -> bool, x: Counter, st: CounterStep) {
    st.Whole? ==> Payments.Apart(sigOk, x.desk, st.st)
  }

  lemma LandedAnswerMatches(d: Desk, k: nat, c: nat, now: int)
    requires OneEach(d) && KeysUnique(d.log) && SteppingUp(d.log, k) && c < |d.challenges|
    ensures OneEach(AnswerLanded(d, k, c, now)) && KeysUnique(AnswerLanded(d, k, c, now).log)
  {
    var after := AnswerLanded(d, k, c, now);
    if after != d {
      forall x | 0 <= x < |after.log| && after.log[x].decision == ALLOW ensures OneFor(after.auths, x) {
        MintKeepsOthers(d.auths, Minted(k, after.log[k], now), x);
      }
    }
  }

  lemma WholeMatches(sigOk: Mandate -> bool, d: Desk, st: DeskStep)
    requires OneEach(d) && KeysUnique(d.log) && ReviewsSplit(d.log) && Payments.Apart(sigOk, d, st)
    ensures OneEach(Apply(sigOk, d, st)) && KeysUnique(Apply(sigOk, d, st).log)
  {
    match st {
      case Submitting(required, a, req, rd) =>
        OverlapBreaksIff(sigOk, required, d, a, req, rd);
        SubmitKeepsKeys(sigOk, required, d, a, req, rd);
      case Verifying(k, c, now, authentic) =>
        if AwaitsStepUp(d, k) && Answers(d, k, c, now) && authentic && !HasAuthorization(d.auths, k) {
          assert d.log[k].reviewExpiresAt.None?;
          LandedAnswerMatches(d, k, c, now);
        }
      case _ =>
    }
  }

  lemma StepMatches(sigOk: Mandate -> bool, x: Counter, st: CounterStep)
    requires Matched(x) && Apart(sigOk, x, st) && Next(sigOk, x, st).Some?
    ensures Matched(Next(sigOk, x, st).value)
  {
    StepIsOrderly(sigOk, x, st);
    match st {
      case Whole(s) => WholeMatches(sigOk, x.desk, s);
      case Land(pid, now) => if x.open[pid].Answering? { LandedAnswerMatches(x.desk, x.open[pid].k, x.open[pid].c, now); }
      case _ =>
    }
  }

  /** In every run in which no submission misfires, however challenge requests and answers overlap, an authorization
      exists exactly for each allowed intent, one each, copying its terms, and no key has two rows. */
  lemma OverlappingAuthorizationsMatch(sigOk: Mandate -> bool, steps: seq<CounterStep>)
    requires Play(CounterStepper(sigOk), Opening(), steps).Some?
    requires Along(CounterStepper(sigOk), (x: Counter, st: CounterStep) => Apart(sigOk, x, st), Opening(), steps)
    ensures var d := Play(CounterStepper(sigOk), Opening(), steps).value.desk;
            && KeysUnique(d.log)
            && (forall k :: 0 <= k < |d.log| ==> (d.log[k].decision == ALLOW <==> OneFor(d.auths, k)))
            && (forall j :: 0 <= j < |d.auths| ==> Copies(d.log, d.auths[j]))
  {
    var step := CounterStepper(sigOk);
    var apart := (x: Counter, st: CounterStep) => Apart(sigOk, x, st);
    forall x, st | Matched(x) && apart(x, st) && step(x, st).Some? ensures Matched(step(x, st).value) {
      StepMatches(sigOk, x, st);
    }
    PlayKeepsAlong(step, apart, (x: Counter) => Matched(x), Opening(), steps);
  }

  // ------------------------------------------------------------------ who asked for what is minted

  /** The step brought in this row, within what its agent had been delegated at the time. */
  predicate Asked(st: CounterStep, i: Intent) {
    && st.Whole? && st.st.Submitting?
    && st.st.a.who == i.who && st.st.req.key == i.key && st.st.req.proposal == i.proposal && Delegated(st.st.a, st.st.req, st.st.rd.now)
  }

  ghost predicate AskedAmong(steps: seq<CounterStep>, i: Intent) {
    exists st :: st in steps && Asked(st, i)
  }

  /** Every row that is not denied was asked for by one of these steps. */
  ghost predicate AllAsked(log: seq<Intent>, steps: seq<CounterStep>) {
    forall k :: 0 <= k < |log| && log[k].decision != DENY ==> AskedAmong(steps, log[k])
  }

  lemma SubmissionWasAsked(sigOk: Mandate -> bool, d: Desk, st: DeskStep, done: seq<CounterStep>, k: nat)
    requires st.Submitting? && Whole(st) in done && k == |d.log| < |Apply(sigOk, d, st).log| && Apply(sigOk, d, st).log[k].decision != DENY
    ensures AskedAmong(done, Apply(sigOk, d, st).log[k])
  {
    HeldIff(sigOk, st.required, d.log, st.a, st.req, st.rd);
    RowSays(sigOk, st.required, d.log, st.a, st.req, st.rd);
    assert Asked(Whole(st), Apply(sigOk, d, st).log[k]);
  }

  lemma StepAsked(sigOk: Mandate -> bool, x: Counter, st: CounterStep, done: seq<CounterStep>)
    requires Orderly(x) && Next(sigOk, x, st).Some? && AllAsked(x.desk.log, done)
    ensures AllAsked(Next(sigOk, x, st).value.desk.log, done + [st])
  {
    var after := Next(sigOk, x, st).value.desk.log;
    forall k | 0 <= k < |after| && after[k].decision != DENY ensures AskedAmong(done + [st], after[k]) {
      if k < |x.desk.log| {
        StepIsFinal(sigOk, x, st, k);
        var first :| first in done && Asked(first, x.desk.log[k]);
        assert first in done + [st] && Asked(first, after[k]);
      } else {
        SubmissionWasAsked(sigOk, x.desk, st.st, done + [st], k);
      }
    }
  }

  lemma {:induction false} RunAsked(sigOk: Mandate -> bool, x: Counter, done: seq<CounterStep>, steps: seq<CounterStep>)
    requires Orderly(x) && Play(CounterStepper(sigOk), x, steps).Some? && AllAsked(x.desk.log, done)
    ensures AllAsked(Play(CounterStepper(sigOk), x, steps).value.desk.log, done + steps)
    decreases |steps|
  {
    if steps == [] {
      assert done + steps == done;
    } else {
      StepAsked(sigOk, x, steps[0], done);
      StepIsOrderly(sigOk, x, steps[0]);
      RunAsked(sigOk, Next(sigOk, x, steps[0]).value, done + [steps[0]], steps[1..]);
      assert done + [steps[0]] + steps[1..] == done + steps;
    }
  }

  /** In every run in which no submission misfires, however step-up handlers overlap, every authorization goes back to
      one submission: of the same agent, merchant, amount and currency, made under an active and trusted parent before
      the delegation's end, with a positive amount within the limit delegated then and in the delegated currency. */
  lemma EveryMintWasDelegated(sigOk: Mandate -> bool, steps: seq<CounterStep>, j: nat)
    requires Play(CounterStepper(sigOk), Opening(), steps).Some?
    requires Along(CounterStepper(sigOk), (x: Counter, st: CounterStep) => Apart(sigOk, x, st), Opening(), steps)
    requires j < |Play(CounterStepper(sigOk), Opening(), steps).value.desk.auths|
    ensures var minted := Play(CounterStepper(sigOk), Opening(), steps).value.desk.auths[j];
            exists st :: st in steps && st.Whole? && st.st.Submitting? && Backs(st.st.a, st.st.req, st.st.rd.now, minted)
  {
    var d := Play(CounterStepper(sigOk), Opening(), steps).value.desk;
    OverlappingAuthorizationsMatch(sigOk, steps);
    RunAsked(sigOk, Opening(), [], steps);
    assert [] + steps == steps && Copies(d.log, d.auths[j]);
    var st :| st in steps && Asked(st, d.log[d.auths[j].intent]);
    assert Backs(st.st.a, st.st.req, st.st.rd.now, d.auths[j]);
  }

  predicate Backs(a: Agent, req: Request, now: int, minted: Authorization) {
    && minted.who == a.who && minted.merchant == req.proposal.merchant && minted.currency == req.proposal.currency == a.currency
    && 0 < minted.amount == req.proposal.amount <= a.paymentLimit
    && a.parentActive && a.trusted && (a.validUntil.Some? ==> now <= a.validUntil.value)
    && (req.action == "payment.create" || req.action in a.capabilities)
  }

  // ------------------------------------------------------------------ unused challenges

  /** No challenge of the intent issued since the request looked is still unused. */
  predicate NoneSince(cs: seq<Challenge>, k: nat, seen: nat) {
    forall j | seen <= j < |cs| && cs[j].intent == k :: cs[j].used
  }

  lemma ChallengeLandsIff(d: Desk, k: nat, seen: nat, now: int)
    requires OneUnused(d.challenges)
    ensures OneUnused(ChallengeLanded(d, k, seen, now).challenges) <==> NoneSince(d.challenges, k, seen)
  {
    var after := ChallengeLanded(d, k, seen, now).challenges;
    if !NoneSince(d.challenges, k, seen) {
      var j :| seen <= j < |d.challenges| && d.challenges[j].intent == k && !d.challenges[j].used;
      assert after[j] == d.challenges[j] && !after[|d.challenges|].used;
    }
  }

  ghost predicate KeepsOneUnused(sigOk: Mandate -> bool, x: Counter, st: CounterStep) {
    Next(sigOk, x, st).Some? ==> OneUnused(Next(sigOk, x, st).value.desk.challenges)
  }

  predicate Alone(x: Counter, st: CounterStep) {
    st.Land? && st.pid in x.open && x.open[st.pid].Asking? ==> NoneSince(x.desk.challenges, x.open[st.pid].k, x.open[st.pid].seen)
  }

  lemma KeepsIffAlone(sigOk: Mandate -> bool, x: Counter, st: CounterStep)
    requires OneUnused(x.desk.challenges)
    ensures KeepsOneUnused(sigOk, x, st) <==> Alone(x, st)
  {
    if st.Land? && st.pid in x.open && x.open[st.pid].Asking? {
      ChallengeLandsIff(x.desk, x.open[st.pid].k, x.open[st.pid].seen, st.now);
    }
  }

  lemma {:induction false} KeptIffAloneFrom(sigOk: Mandate -> bool, x: Counter, steps: seq<CounterStep>)
    requires OneUnused(x.desk.challenges)
    ensures Along(CounterStepper(sigOk), (y: Counter, st: CounterStep) => KeepsOneUnused(sigOk, y, st), x, steps)
            <==> Along(CounterStepper(sigOk), Alone, x, steps)
    decreases |steps|
  {
    if steps != [] {
      KeepsIffAlone(sigOk, x, steps[0]);
      if Next(sigOk, x, steps[0]).Some? && Alone(x, steps[0]) { KeptIffAloneFrom(sigOk, Next(sigOk, x, steps[0]).value, steps[1..]); }
    }
  }

  /** In every run no intent ever has two unused challenges if and only if no request lands while a challenge of its
      intent, issued since it retired those it saw, is unused. */
  lemma OneUnusedIffAlone(sigOk: Mandate -> bool, steps: seq<CounterStep>)
    ensures Along(CounterStepper(sigOk), (y: Counter, st: CounterStep) => KeepsOneUnused(sigOk, y, st), Opening(), steps)
            <==> Along(CounterStepper(sigOk), Alone, Opening(), steps)
  {
    KeptIffAloneFrom(sigOk, Opening(), steps);
  }

  // ------------------------------------------------------------------ two requests at once

  const PAYER: Who := Who("agent", "default")

  /** A payment of the whole delegated limit, which needs step-up approval. */
  function LargePayment(): DeskStep {
    Submitting(false, Agent(PAYER, true, true, None, {}, 100, "INR"),
               Request("key", "payment.create", Proposal("shop", 100, "INR", None)), Reading([], true, [], 0, 0, 0))
  }

  function ParkedRow(): Intent {
    Intent(PAYER, "key", Proposal("shop", 100, "INR", None), None, REVIEW, true, false, None, 0, Unjudged)
  }

  lemma LargePaymentParks(sigOk: Mandate -> bool)
    ensures Apply(sigOk, Desk([], [], []), LargePayment()) == Desk([ParkedRow()], [], [])
  {
  }

  function TwoRequests(): seq<CounterStep> {
    [Whole(LargePayment()), LoadChallenge(0, 0), LoadChallenge(1, 0), Land(0, 0), Land(1, 0)]
  }

  function RequestStates(): seq<Counter> {
    var c, log := Challenge(0, MFA_CHALLENGE_TTL, false), [ParkedRow()];
    [Opening(), Counter(Desk(log, [], []), map[]), Counter(Desk(log, [], []), map[0 := Asking(0, 0)]),
     Counter(Desk(log, [], []), map[0 := Asking(0, 0), 1 := Asking(0, 0)]),
     Counter(Desk(log, [], [c]), map[1 := Asking(0, 0)]), Counter(Desk(log, [], [c, c]), map[])]
  }

  lemma RequestsLead(sigOk: Mandate -> bool, i: nat)
    requires i < 5
    ensures Leads(CounterStepper(sigOk), RequestStates(), TwoRequests(), i)
  {
    var s, c := RequestStates(), Challenge(0, MFA_CHALLENGE_TTL, false);
    if i == 0 {
      LargePaymentParks(sigOk);
    } else if i == 3 {
      assert s[3].open - {0} == s[4].open && RetiredBelow([], 0, 0) + [c] == [c];
    } else if i == 4 {
      assert s[4].open - {1} == map[] && RetiredBelow([c], 0, 0) == [c] && [c] + [c] == [c, c];
    }
  }

  /** Two overlapping requests leave two unused challenges of one intent. */
  lemma OverlappingRequests(sigOk: Mandate -> bool)
    ensures var end := Play(CounterStepper(sigOk), Opening(), TwoRequests());
            end.Some? && |end.value.desk.log| == 1 && AwaitsStepUp(end.value.desk, 0) && !OneUnused(end.value.desk.challenges)
  {
    forall i | 0 <= i < 5 ensures Leads(CounterStepper(sigOk), RequestStates(), TwoRequests(), i) {
      RequestsLead(sigOk, i);
    }
    PlayThrough(CounterStepper(sigOk), RequestStates(), TwoRequests());
    var cs := RequestStates()[5].desk.challenges;
    assert cs[0].intent == cs[1].intent && !cs[0].used && !cs[1].used;
  }
}
