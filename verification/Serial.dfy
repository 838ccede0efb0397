/** Concurrent evaluators and serial ones: a contended run leaves the very log some serial run leaves,
    and nothing is spent while a verdict waits for its commit (app/serialization.py, app/mandates.py). */
module Serial {
  import opened Mandates
  import opened Budget
  import opened Lifecycle
  import opened Locks
  import opened Runs
  import opened Gate

  /** One whole submission, denial, approval or review expiry, nothing interleaved. */
  datatype Op =
    | Evaluate(active: seq<Mandate>, who: Who, idem: string, p: Proposal, now: int, mfa: bool, busy: bool, stamp: int)
    | Deny(denied: Intent)
    | SignOff(k: nat)
    | Expire(at: int)

  function Evaluated(sigOk: Mandate -> bool, log: seq<Intent>, active: seq<Mandate>, who: Who, idem: string, p: Proposal, now: int,
                     mfa: bool, busy: bool, stamp: int): Intent
  {
    Ruled(Judge(sigOk, active, log, p, now), active, who, p, now, idem, mfa, busy, stamp)
  }

  function Perform(sigOk: Mandate -> bool, log: seq<Intent>, op: Op): seq<Intent> {
    match op
    case Evaluate(active, who, idem, p, now, mfa, busy, stamp) =>
      Inserted(log, Evaluated(sigOk, log, active, who, idem, p, now, mfa, busy, stamp))
    case Deny(i) => Inserted(log, i)
    case SignOff(k) => if k < |log| && log[k].decision == REVIEW then log[k := Approved(log[k])] else log
    case Expire(at) => StaleDenied(log, at)
  }

  function PerformAll(sigOk: Mandate -> bool, log: seq<Intent>, ops: seq<Op>): seq<Intent>
    decreases |ops|
  {
    if ops == [] then log else PerformAll(sigOk, Perform(sigOk, log, ops[0]), ops[1..])
  }

  // ------------------------------------------------------------------ a verdict that can be replayed

  /** Judging the row afresh on `log` gives the row itself. */
  ghost predicate Replays(sigOk: Mandate -> bool, log: seq<Intent>, i: Intent) {
    && i.judgement.JudgedBy?
    && exists mfa, busy, stamp :: ReplaysWith(sigOk, log, i, mfa, busy, stamp)
  }

  predicate ReplaysWith(sigOk: Mandate -> bool, log: seq<Intent>, i: Intent, mfa: bool, busy: bool, stamp: int)
    requires i.judgement.JudgedBy?
  {
    i == Evaluated(sigOk, log, Judges(i), i.who, i.key, i.proposal, i.judgement.at, mfa, busy, stamp)
  }

  /** Every pending verdict can be replayed on the log as it is. */
  ghost predicate Replayable(sigOk: Mandate -> bool, s: Store) {
    forall pid | pid in s.evs ::
      match s.evs[pid]
      case Judged(i, _) => Replays(sigOk, s.log, i)
      case GaveUp(i) => i.decision == DENY
      case _ => true
  }

  lemma {:induction false} SameChecksSameFirst(sigOk: Mandate -> bool, active: seq<Mandate>, a: seq<Intent>, b: seq<Intent>, p: Proposal, now: int)
    requires forall m :: m in active ==> CheckOne(sigOk, a, m, p, now) == CheckOne(sigOk, b, m, p, now)
    ensures FirstRefusal(sigOk, active, a, p, now) == FirstRefusal(sigOk, active, b, p, now)
  {
    if |active| > 0 {
      assert active[0] in active;
      SameChecksSameFirst(sigOk, active[1..], a, b, p, now);
    }
  }

  lemma SameSumsSameJudgement(sigOk: Mandate -> bool, active: seq<Mandate>, a: seq<Intent>, b: seq<Intent>, p: Proposal, now: int)
    requires SameSums(a, b, active)
    ensures Judge(sigOk, active, a, p, now) == Judge(sigOk, active, b, p, now)
  {
    forall m | m in active ensures CheckOne(sigOk, a, m, p, now) == CheckOne(sigOk, b, m, p, now) {
      SameSumsSameCheck(sigOk, m, a, b, p, now);
    }
    SameChecksSameFirst(sigOk, active, a, b, p, now);
  }

  lemma SameSumsReplay(sigOk: Mandate -> bool, a: seq<Intent>, b: seq<Intent>, i: Intent)
    requires Replays(sigOk, a, i) && SameSums(a, b, Judges(i))
    ensures Replays(sigOk, b, i)
  {
    var mfa, busy, stamp :| ReplaysWith(sigOk, a, i, mfa, busy, stamp);
    SameSumsSameJudgement(sigOk, Judges(i), a, b, i.proposal, i.judgement.at);
    assert ReplaysWith(sigOk, b, i, mfa, busy, stamp);
  }

  lemma OutcomeReplays(sigOk: Mandate -> bool, rows: seq<Mandate>, log: seq<Intent>, who: Who, p: Proposal, now: int,
                       idem: string, mfa: bool, busy: bool, stamp: int)
    ensures Replays(sigOk, log, Outcome(sigOk, rows, log, who, p, now, idem, mfa, busy, stamp))
  {
    assert ReplaysWith(sigOk, log, Outcome(sigOk, rows, log, who, p, now, idem, mfa, busy, stamp), mfa, busy, stamp);
  }

  lemma InsertedReplays(sigOk: Mandate -> bool, log: seq<Intent>, i: Intent, mine: Intent)
    requires Replays(sigOk, log, mine) && forall m :: m in Judges(mine) ==> !Held(i) || i.who != m.who
    ensures Replays(sigOk, Inserted(log, i), mine)
  {
    if !KeyTaken(log, i.who.agentId, i.key) {
      ForeignRowSameSums(log, i, Judges(mine));
      SameSumsReplay(sigOk, log, log + [i], mine);
    }
  }

  lemma CommitKeepsReplayable(key: string -> int, sigOk: Mandate -> bool, s: Store, pid: Pid)
    requires Inv(key, sigOk, s, false) && Replayable(sigOk, s) && Contending(key, s) && Enabled(key, s, Commit(pid))
    ensures Replayable(sigOk, Apply(key, sigOk, s, Commit(pid)))
  {
    var i := s.evs[pid].intent;
    forall q | q in s.evs && q != pid && s.evs[q].Judged? ensures Replays(sigOk, Inserted(s.log, i), s.evs[q].intent) {
      var mine := s.evs[q].intent;
      if s.evs[pid].Judged? && i.who == mine.who { OneJudgeAtATime(key, s, pid, q); }
      assert !Held(i) || i.who != mine.who;
      InsertedReplays(sigOk, s.log, i, mine);
    }
  }

  lemma SignOffKeepsReplayable(sigOk: Mandate -> bool, s: Store, k: nat)
    requires Positive(s.log) && Replayable(sigOk, s) && k < |s.log| && s.log[k].decision == REVIEW
    ensures Replayable(sigOk, s.(log := s.log[k := Approved(s.log[k])]))
  {
    var after := s.log[k := Approved(s.log[k])];
    ApprovalSoftens(s.log, k);
    forall q | q in s.evs && s.evs[q].Judged? ensures Replays(sigOk, after, s.evs[q].intent) {
      SameHeldSameSums(s.log, after, Judges(s.evs[q].intent));
      SameSumsReplay(sigOk, s.log, after, s.evs[q].intent);
    }
  }

  /** A review expiry denies no row of an agent one of whose sessions waits with its verdict. */
  predicate SparesWaiting(s: Store, st: Step) {
    st.ExpireReviews? ==>
      forall q, k | q in s.evs && s.evs[q].Judged? && 0 <= k < |s.log| && s.log[k].who == s.evs[q].intent.who :: StaleRow(s.log[k], st.now) == s.log[k]
  }

  lemma {:induction false} OthersExpired(log: seq<Intent>, at: int, m: Mandate, from: int, now: int, d: Dimension)
    requires forall k :: 0 <= k < |log| && log[k].who == m.who ==> StaleRow(log[k], at) == log[k]
    ensures SpendSince(StaleDenied(log, at), m, from, now, d) == SpendSince(log, m, from, now, d)
  {
    if |log| > 0 {
      assert StaleDenied(log, at)[..|log| - 1] == StaleDenied(log[..|log| - 1], at);
      OthersExpired(log[..|log| - 1], at, m, from, now, d);
    }
  }

  lemma ExpiryKeepsReplayable(key: string -> int, sigOk: Mandate -> bool, s: Store, at: int)
    requires Inv(key, sigOk, s, false) && Replayable(sigOk, s) && SparesWaiting(s, ExpireReviews(at))
    ensures Replayable(sigOk, s.(log := StaleDenied(s.log, at)))
  {
    forall q | q in s.evs && s.evs[q].Judged? ensures Replays(sigOk, StaleDenied(s.log, at), s.evs[q].intent) {
      var mine := s.evs[q].intent;
      forall m, c, now | m in Judges(mine) ensures Spent(s.log, m, c, now) == Spent(StaleDenied(s.log, at), m, c, now) {
        OthersExpired(s.log, at, m, WindowStart(now, Span(c), m), now, Narrowing(c));
      }
      SameSumsReplay(sigOk, s.log, StaleDenied(s.log, at), mine);
    }
  }

  lemma StepKeepsReplayable(key: string -> int, sigOk: Mandate -> bool, s: Store, st: Step)
    requires Inv(key, sigOk, s, false) && Replayable(sigOk, s) && Contending(key, s) && Enabled(key, s, st) && SparesWaiting(s, st)
    ensures Replayable(sigOk, Apply(key, sigOk, s, st))
  {
    match st {
      case Commit(pid) => CommitKeepsReplayable(key, sigOk, s, pid);
      case Decide(pid, mfa, busy, stamp) =>
        var e := s.evs[pid];
        OutcomeReplays(sigOk, s.rows, s.log, e.who, e.p, e.now, e.idem, mfa, busy, stamp);
      case RecordDenial(i) =>
        forall q | q in s.evs && s.evs[q].Judged? ensures Replays(sigOk, Inserted(s.log, i), s.evs[q].intent) {
          InsertedReplays(sigOk, s.log, i, s.evs[q].intent);
        }
      case Approve(k) => SignOffKeepsReplayable(sigOk, s, k);
      case ExpireReviews(at) => ExpiryKeepsReplayable(key, sigOk, s, at);
      case _ =>
    }
  }

  // ------------------------------------------------------------------ the serial run

  /** One operation does to the log what the step does, or the step leaves the log alone. */
  lemma StepAsOp(key: string -> int, sigOk: Mandate -> bool, s: Store, st: Step) returns (ops: seq<Op>)
    requires Replayable(sigOk, s) && Enabled(key, s, st)
    ensures PerformAll(sigOk, s.log, ops) == Apply(key, sigOk, s, st).log
  {
    ops := [];
    match st {
      case Commit(pid) =>
        var i := s.evs[pid].intent;
        if s.evs[pid].Judged? {
          var mfa, busy, stamp :| ReplaysWith(sigOk, s.log, i, mfa, busy, stamp);
          ops := [Evaluate(Judges(i), i.who, i.key, i.proposal, i.judgement.at, mfa, busy, stamp)];
        } else {
          ops := [Deny(i)];
        }
      case RecordDenial(i) => ops := [Deny(i)];
      case Approve(k) => ops := [SignOff(k)];
      case ExpireReviews(at) => ops := [Expire(at)];
      case _ =>
    }
    if ops != [] { assert ops[1..] == []; }
  }

  lemma {:induction false} PerformOn(sigOk: Mandate -> bool, log: seq<Intent>, a: seq<Op>, b: seq<Op>)
    ensures PerformAll(sigOk, log, a + b) == PerformAll(sigOk, PerformAll(sigOk, log, a), b)
    decreases |a|
  {
    if a == [] {
      assert a + b == b;
    } else {
      assert (a + b)[1..] == a[1..] + b;
      PerformOn(sigOk, Perform(sigOk, log, a[0]), a[1..], b);
    }
  }

  lemma {:induction false} RunAsOps(key: string -> int, sigOk: Mandate -> bool, s: Store, steps: seq<Step>) returns (ops: seq<Op>)
    requires Inv(key, sigOk, s, false) && Replayable(sigOk, s)
    requires Play(Contended(key, sigOk), s, steps).Some? && Along(Contended(key, sigOk), SparesWaiting, s, steps)
    ensures PerformAll(sigOk, s.log, ops) == Play(Contended(key, sigOk), s, steps).value.log
    decreases |steps|
  {
    if steps == [] {
      ops := [];
    } else {
      var next := Apply(key, sigOk, s, steps[0]);
      StepKeepsInv(key, sigOk, s, steps[0], false);
      StepKeepsReplayable(key, sigOk, s, steps[0]);
      var first := StepAsOp(key, sigOk, s, steps[0]);
      var rest := RunAsOps(key, sigOk, next, steps[1..]);
      PerformOn(sigOk, s.log, first, rest);
      ops := first + rest;
    }
  }

  /** Serializability. Whatever way contending evaluators interleave with denials, approvals, table changes and review
      expiries that spare the agents with a verdict waiting, some serial run, one whole operation after the other in
      commit order, leaves exactly the same log: the same rows with the same decisions, mandates named, review
      deadlines and stamps. */
  lemma SomeSerialRunLeavesTheSameLog(key: string -> int, sigOk: Mandate -> bool, rows: seq<Mandate>, steps: seq<Step>)
    requires Play(Contended(key, sigOk), Fresh(rows), steps).Some? && Along(Contended(key, sigOk), SparesWaiting, Fresh(rows), steps)
    ensures exists ops :: PerformAll(sigOk, [], ops) == Play(Contended(key, sigOk), Fresh(rows), steps).value.log
  {
    var ops := RunAsOps(key, sigOk, Fresh(rows), steps);
  }

  // ------------------------------------------------------------------ review expiry included

  /** The sums a verdict looked at have not risen. */
  ghost predicate NoneRose(before: seq<Intent>, after: seq<Intent>, active: seq<Mandate>) {
    forall m, c, now {:trigger Spent(after, m, c, now)} | m in active :: Spent(after, m, c, now) <= Spent(before, m, c, now)
  }

  lemma InsertedNoneRose(log: seq<Intent>, i: Intent, active: seq<Mandate>)
    requires forall m :: m in active ==> !Held(i) || i.who != m.who
    ensures NoneRose(log, Inserted(log, i), active)
  {
    if !KeyTaken(log, i.who.agentId, i.key) { ForeignRowSameSums(log, i, active); }
  }

  lemma SoftenedNoneRose(a: seq<Intent>, b: seq<Intent>, active: seq<Mandate>)
    requires Positive(a) && Softened(a, b)
    ensures NoneRose(a, b, active)
  {
    forall m, c, now | m in active ensures Spent(b, m, c, now) <= Spent(a, m, c, now) {
      SofteningNeverRaises(a, b, m, WindowStart(now, Span(c), m), now, Narrowing(c));
    }
  }

  /** One step while session `p` waits with its verdict. */
  lemma StepWhileWaiting(key: string -> int, sigOk: Mandate -> bool, s: Store, st: Step, p: Pid)
    requires Inv(key, sigOk, s, false) && Contending(key, s) && Enabled(key, s, st) && p in s.evs && s.evs[p].Judged? && st != Commit(p)
    ensures var after := Apply(key, sigOk, s, st);
            p in after.evs && after.evs[p] == s.evs[p] && NoneRose(s.log, after.log, Judges(s.evs[p].intent))
  {
    var mine := s.evs[p].intent;
    match st {
      case Commit(q) =>
        var i := s.evs[q].intent;
        if s.evs[q].Judged? && i.who == mine.who { OneJudgeAtATime(key, s, q, p); }
        assert !Held(i) || i.who != mine.who;
        InsertedNoneRose(s.log, i, Judges(mine));
      case RecordDenial(i) => InsertedNoneRose(s.log, i, Judges(mine));
      case Approve(k) =>
        ApprovalSoftens(s.log, k);
        SoftenedNoneRose(s.log, s.log[k := Approved(s.log[k])], Judges(mine));
      case ExpireReviews(now) => SoftenedNoneRose(s.log, StaleDenied(s.log, now), Judges(mine));
      case _ =>
    }
  }

  /** Nothing is spent between an aggregation and its commit. While a session waits with its verdict, whatever else
      happens in a contended run, review expiry included, the verdict stays as it is and no sum it was based on rises. */
  lemma {:induction false} NothingSpentMeanwhile(key: string -> int, sigOk: Mandate -> bool, s: Store, steps: seq<Step>, p: Pid)
    requires Inv(key, sigOk, s, false) && p in s.evs && s.evs[p].Judged?
    requires Play(Contended(key, sigOk), s, steps).Some? && Commit(p) !in steps
    ensures var end := Play(Contended(key, sigOk), s, steps).value;
            p in end.evs && end.evs[p] == s.evs[p] && NoneRose(s.log, end.log, Judges(s.evs[p].intent))
    decreases |steps|
  {
    if steps != [] {
      var next := Apply(key, sigOk, s, steps[0]);
      StepWhileWaiting(key, sigOk, s, steps[0], p);
      StepKeepsInv(key, sigOk, s, steps[0], false);
      NothingSpentMeanwhile(key, sigOk, next, steps[1..], p);
    }
  }
}
