/** Concurrent evaluators under the mandate gate (app/serialization.py, app/mandates.py and the
    intent handler of app/routers/payments.py) as a state machine: sample the clock and resolve,
    take the gate lock by lock, re-resolve and aggregate, commit. The lock of a mandate id is
    `key(id)`: the 64-bit advisory key on Postgres, one constant on SQLite, whose only lock is
    the database writer. The agents modelled have had a mandate, or run in autonomous mode. */
module Gate {
  import opened Text
  import opened Sorting
  import opened Mandates
  import opened Budget
  import opened Lifecycle
  import opened Runs
  import opened Locks

  const REVIEW_TTL: int := 300_000_000

  datatype Phase =
    | Acquiring(who: Who, idem: string, p: Proposal, now: int, ids: seq<string>, next: nat)
    | Ready(who: Who, idem: string, p: Proposal, now: int, ids: seq<string>)
    | Judged(intent: Intent, ids: seq<string>)
    | GaveUp(intent: Intent)

  datatype Store = Store(rows: seq<Mandate>, log: seq<Intent>, locks: map<int, Pid>, evs: map<Pid, Phase>)

  datatype Step =
    | Begin(pid: Pid, who: Who, idem: string, p: Proposal, now: int)
    | Release(pid: Pid)
    | Take(pid: Pid)
    | TimeOut(pid: Pid, stamp: int)
    | Decide(pid: Pid, mfa: bool, busy: bool, stamp: int)
    | Commit(pid: Pid)
    | RecordDenial(intent: Intent)
    | Approve(k: nat)
    | ExpireReviews(now: int)
    | ChangeTable(change: TableStep)

  function Ids(active: seq<Mandate>): seq<string> {
    seq(|active|, i requires 0 <= i < |active| => active[i].id)
  }

  /** The stable order in which gates are taken. */
  function LockOrder(active: seq<Mandate>): seq<string> {
    Sort(StrLe, Ids(active))
  }

  function Denial(who: Who, p: Proposal, idem: string, stamp: int, j: Judgement): Intent {
    Intent(who, idem, p, None, DENY, false, false, None, stamp, j)
  }

  /** The row a verdict reached under the gate leads to. A denied row is stamped afresh. */
  function Ruled(r: MandateDecision, active: seq<Mandate>, who: Who, p: Proposal, now: int,
                 idem: string, mfa: bool, busy: bool, stamp: int): Intent
    requires r.ok ==> r.named.Some?
  {
    if !r.ok then Denial(who, p, idem, stamp, JudgedBy(now, active))
    else
      var parked := mfa || busy || r.review;
      Intent(who, idem, p, Some(r.named.value.id), if parked then REVIEW else ALLOW, mfa, false,
             if parked && !mfa then Some(now + REVIEW_TTL) else None, now, JudgedBy(now, active))
  }

  /** The row an evaluation under the gate leads to. */
  function Outcome(sigOk: Mandate -> bool, rows: seq<Mandate>, log: seq<Intent>, who: Who, p: Proposal, now: int,
                   idem: string, mfa: bool, busy: bool, stamp: int): Intent
  {
    var active := ActiveMandates(rows, who, now);
    Ruled(Judge(sigOk, active, log, p, now), active, who, p, now, idem, mfa, busy, stamp)
  }

  function Approved(i: Intent): Intent {
    i.(decision := ALLOW, mfaVerified := true)
  }

  predicate Enabled(key: string -> int, s: Store, st: Step) {
    match st
    case Begin(pid, who, idem, p, now) =>
      // A key already in the table replays the recorded decision and starts nothing.
      pid !in s.evs && !KeyTaken(s.log, who.agentId, idem) && p.amount > 0 && ActiveMandates(s.rows, who, now) != []
    case Release(pid) => pid in s.evs && s.evs[pid].Acquiring?
    case Take(pid) => pid in s.evs && s.evs[pid].Acquiring? && s.evs[pid].next < |s.evs[pid].ids|
                      && Free(s.locks, key(s.evs[pid].ids[s.evs[pid].next]), pid)
    case TimeOut(pid, _) => pid in s.evs && s.evs[pid].Acquiring?
    case Decide(pid, _, _, _) => pid in s.evs && s.evs[pid].Ready?
    case Commit(pid) => pid in s.evs && (s.evs[pid].Judged? || s.evs[pid].GaveUp?)
    case RecordDenial(i) => i.decision == DENY && i.judgement == Unjudged
    case Approve(k) => k < |s.log| && s.log[k].decision == REVIEW && s.log[k].mfaRequired
    case ExpireReviews(_) => true
    case ChangeTable(_) => true
  }

  function Apply(key: string -> int, sigOk: Mandate -> bool, s: Store, st: Step): Store
    requires Enabled(key, s, st)
  {
    match st
    case Begin(pid, who, idem, p, now) =>
      s.(evs := s.evs[pid := Acquiring(who, idem, p, now, LockOrder(ActiveMandates(s.rows, who, now)), 0)])
    case Release(pid) =>
      s.(locks := Without(s.locks, pid))
    case Take(pid) =>
      // The commit that starts each acquisition releases what this session held before.
      var e := s.evs[pid];
      var locks := Without(s.locks, pid)[key(e.ids[e.next]) := pid];
      var e' := if e.next + 1 == |e.ids| then Ready(e.who, e.idem, e.p, e.now, e.ids) else e.(next := e.next + 1);
      s.(locks := locks, evs := s.evs[pid := e'])
    case TimeOut(pid, stamp) =>
      var e := s.evs[pid];
      s.(locks := Without(s.locks, pid), evs := s.evs[pid := GaveUp(Denial(e.who, e.p, e.idem, stamp, Unjudged))])
    case Decide(pid, mfa, busy, stamp) =>
      var e := s.evs[pid];
      s.(evs := s.evs[pid := Judged(Outcome(sigOk, s.rows, s.log, e.who, e.p, e.now, e.idem, mfa, busy, stamp), e.ids)])
    case Commit(pid) =>
      // A key taken meanwhile leaves the table alone.
      s.(log := Inserted(s.log, s.evs[pid].intent), locks := Without(s.locks, pid), evs := s.evs - {pid})
    case RecordDenial(i) => s.(log := Inserted(s.log, i))
    case Approve(k) => s.(log := s.log[k := Approved(s.log[k])])
    case ExpireReviews(now) => s.(log := StaleDenied(s.log, now))
    case ChangeTable(change) => s.(rows := Evolve(s.rows, change))
  }

  // ------------------------------------------------------------------ what is held

  predicate Gated(e: Phase) {
    e.Acquiring? || e.Ready? || e.Judged?
  }

  function Asker(e: Phase): Who {
    match e
    case Acquiring(w, _, _, _, _, _) => w
    case Ready(w, _, _, _, _) => w
    case Judged(i, _) => i.who
    case GaveUp(i) => i.who
  }

  function LastKey(key: string -> int, ids: seq<string>): int
    requires ids != []
  {
    key(ids[|ids| - 1])
  }

  /** A session past its acquisition holds the lock of the last id in its order, and only that
      one is promised. */
  ghost predicate LocksHeld(key: string -> int, s: Store) {
    forall pid | pid in s.evs ::
      match s.evs[pid]
      case Acquiring(_, _, p, _, ids, next) => next < |ids| && p.amount > 0
      case Ready(_, _, p, _, ids) => ids != [] && LastKey(key, ids) in s.locks && s.locks[LastKey(key, ids)] == pid && p.amount > 0
      case Judged(_, ids) => ids != [] && LastKey(key, ids) in s.locks && s.locks[LastKey(key, ids)] == pid
      case GaveUp(_) => true
  }

  /** Sessions of one agent contend: their lock orders end in the same lock. */
  ghost predicate Contending(key: string -> int, s: Store) {
    forall p, q | p in s.evs && q in s.evs && Gated(s.evs[p]) && Gated(s.evs[q]) && Asker(s.evs[p]) == Asker(s.evs[q])
                  && s.evs[p].ids != [] && s.evs[q].ids != [] ::
      LastKey(key, s.evs[p].ids) == LastKey(key, s.evs[q].ids)
  }

  /** No aggregation falls between another's aggregation and its commit: of the sessions of one
      agent at most one has judged and not yet committed. */
  lemma OneJudgeAtATime(key: string -> int, s: Store, p: Pid, q: Pid)
    requires LocksHeld(key, s) && Contending(key, s)
    requires p in s.evs && q in s.evs && s.evs[p].Judged? && Asker(s.evs[p]) == Asker(s.evs[q])
    requires s.evs[q].Judged? || s.evs[q].Ready?
    ensures p == q
  {
    assert LastKey(key, s.evs[p].ids) == LastKey(key, s.evs[q].ids);
  }

  /** On SQLite there is one lock, so everybody contends. */
  lemma SingleWriterContends(key: string -> int, s: Store)
    requires forall a, b: string {:trigger key(a), key(b)} :: key(a) == key(b)
    ensures Contending(key, s)
  {
  }

  /** A session that gives up, commits or starts over holds nothing. */
  lemma SessionsLetGo(key: string -> int, sigOk: Mandate -> bool, s: Store, st: Step)
    requires Enabled(key, s, st) && (st.Release? || st.TimeOut? || st.Commit?)
    ensures forall k :: k in Apply(key, sigOk, s, st).locks ==> Apply(key, sigOk, s, st).locks[k] != st.pid
  {
  }

  /** Nothing but a foreign lock holds a session up, and nobody holds up the sweepers or the table. */
  lemma OnlyLocksBlock(key: string -> int, s: Store, pid: Pid, mfa: bool, busy: bool, stamp: int, change: TableStep)
    requires LocksHeld(key, s) && pid in s.evs
    ensures Enabled(key, s, ExpireReviews(stamp)) && Enabled(key, s, ChangeTable(change))
    ensures match s.evs[pid]
            case Acquiring(_, _, _, _, ids, next) =>
              Enabled(key, s, TimeOut(pid, stamp)) && (Enabled(key, s, Take(pid)) <==> (key(ids[next]) in s.locks ==> s.locks[key(ids[next])] == pid))
            case Ready(_, _, _, _, _) => Enabled(key, s, Decide(pid, mfa, busy, stamp))
            case _ => Enabled(key, s, Commit(pid))
  {
  }

  /** An evaluation starts for a fresh request only, over a positive amount and under some live mandate. */
  lemma BeginsIff(key: string -> int, s: Store, pid: Pid, who: Who, idem: string, p: Proposal, now: int)
    ensures Enabled(key, s, Begin(pid, who, idem, p, now)) <==>
      && pid !in s.evs && p.amount > 0 && AnyLive(s.rows, who, now)
      && forall k :: 0 <= k < |s.log| && s.log[k].who.agentId == who.agentId ==> s.log[k].key != idem
  {
    ActiveAreLive(s.rows, who, now);
    if Enabled(key, s, Begin(pid, who, idem, p, now)) {
      forall k | 0 <= k < |s.log| && s.log[k].who.agentId == who.agentId ensures s.log[k].key != idem {
        assert !HasKey(s.log[k], who.agentId, idem);
      }
    }
  }

  /** Gates are taken by id in code-point order, whatever order the mandates come in, so requests that see the same
      mandates take the same gates in the same order. */
  lemma OrderIsStable(active: seq<Mandate>, shuffled: seq<Mandate>)
    requires multiset(Ids(active)) == multiset(Ids(shuffled))
    ensures LockOrder(active) == LockOrder(shuffled) && multiset(LockOrder(active)) == multiset(Ids(active))
    ensures forall i, j :: 0 <= i < j < |LockOrder(active)| ==>
      LockOrder(active)[i] <= LockOrder(active)[j] || exists k: nat :: SmallerAt(LockOrder(active)[i], LockOrder(active)[j], k)
  {
    StrLeOrders();
    forall x, y | StrLe(x, y) && StrLe(y, x) ensures x == y { StrLeTotal(x, y); }
    SortSorts(StrLe, Ids(active));
    SortForgetsOrder(StrLe, Ids(active), Ids(shuffled));
    var order := LockOrder(active);
    forall i, j | 0 <= i < j < |order| ensures order[i] <= order[j] || exists k: nat :: SmallerAt(order[i], order[j], k) {
      AscendingAt(StrLe, order, i, j);
      StrLeIff(order[i], order[j]);
    }
  }

  // ------------------------------------------------------------------ what is promised

  /** A judged row still fits the log as it now is; if `exact`, re-judging it now would also give
      the same verdict. */
  ghost predicate Promised(sigOk: Mandate -> bool, log: seq<Intent>, i: Intent, exact: bool) {
    && i.judgement.JudgedBy?
    && (forall m :: m in Judges(i) ==> m.who == i.who && InWindow(m, i.judgement.at))
    && (Held(i) ==> i.createdAt == i.judgement.at && i.proposal.amount > 0 && Fits(log, i))
    && (exact ==> (Held(i) <==> Judge(sigOk, Judges(i), log, i.proposal, i.judgement.at).ok))
  }

  /** Every row judged under the gate has the verdict a serial evaluation at its commit gives. */
  ghost predicate Serial(sigOk: Mandate -> bool, log: seq<Intent>) {
    forall k {:trigger log[k]} | 0 <= k < |log| && log[k].judgement.JudgedBy? ::
      Held(log[k]) <==> Judge(sigOk, Judges(log[k]), log[..k], log[k].proposal, log[k].judgement.at).ok
  }

  /** Nothing is held that no evaluation let through. */
  ghost predicate HeldWereJudged(log: seq<Intent>) {
    forall i :: i in log && Held(i) ==> i.judgement.JudgedBy?
  }

  ghost predicate Sound(log: seq<Intent>) {
    Positive(log) && WithinBudgets(log) && HonestJudges(log) && HeldWereJudged(log)
  }

  ghost predicate Pending(sigOk: Mandate -> bool, s: Store, exact: bool) {
    forall pid | pid in s.evs ::
      match s.evs[pid]
      case Judged(i, _) => Promised(sigOk, s.log, i, exact)
      case GaveUp(i) => i.decision == DENY && i.judgement == Unjudged
      case _ => true
  }

  ghost predicate Inv(key: string -> int, sigOk: Mandate -> bool, s: Store, exact: bool) {
    && LocksHeld(key, s)
    && Sound(s.log)
    && Pending(sigOk, s, exact)
    && (exact ==> Serial(sigOk, s.log))
  }

  // ------------------------------------------------------------------ verdicts depend on sums only

  ghost predicate SameSums(a: seq<Intent>, b: seq<Intent>, active: seq<Mandate>) {
    forall m, c, now {:trigger Spent(a, m, c, now)} {:trigger Spent(b, m, c, now)} | m in active :: Spent(a, m, c, now) == Spent(b, m, c, now)
  }

  lemma SameSumsSameCheck(sigOk: Mandate -> bool, m: Mandate, a: seq<Intent>, b: seq<Intent>, p: Proposal, now: int)
    requires Spent(a, m, Daily, now) == Spent(b, m, Daily, now) && Spent(a, m, Hourly, now) == Spent(b, m, Hourly, now)
    requires Spent(a, m, MerchantDaily(p.merchant), now) == Spent(b, m, MerchantDaily(p.merchant), now)
    requires p.category.Some? ==> Spent(a, m, CategoryDaily(p.category.value), now) == Spent(b, m, CategoryDaily(p.category.value), now)
    ensures CheckOne(sigOk, a, m, p, now) == CheckOne(sigOk, b, m, p, now)
  {
  }

  lemma SameSumsSameVerdict(sigOk: Mandate -> bool, active: seq<Mandate>, a: seq<Intent>, b: seq<Intent>, p: Proposal, now: int)
    requires SameSums(a, b, active)
    ensures Judge(sigOk, active, a, p, now).ok == Judge(sigOk, active, b, p, now).ok
  {
    forall m | m in active ensures CheckOne(sigOk, a, m, p, now).Passed? == CheckOne(sigOk, b, m, p, now).Passed? {
      SameSumsSameCheck(sigOk, m, a, b, p, now);
    }
    SameChecksSameVerdict(sigOk, active, a, b, p, now);
  }

  lemma SameChecksSameVerdict(sigOk: Mandate -> bool, active: seq<Mandate>, a: seq<Intent>, b: seq<Intent>, p: Proposal, now: int)
    requires forall m :: m in active ==> CheckOne(sigOk, a, m, p, now).Passed? == CheckOne(sigOk, b, m, p, now).Passed?
    ensures Judge(sigOk, active, a, p, now).ok == Judge(sigOk, active, b, p, now).ok
  {
    FirstRefusalFinds(sigOk, active, a, p, now);
    FirstRefusalFinds(sigOk, active, b, p, now);
  }

  /** A denied row, or another agent's, changes no sum of these mandates. */
  lemma ForeignRowSameSums(log: seq<Intent>, i: Intent, active: seq<Mandate>)
    requires forall m :: m in active ==> !Held(i) || i.who != m.who
    ensures SameSums(log, log + [i], active)
  {
    assert (log + [i])[..|log|] == log;
  }

  lemma SameHeldSameSums(a: seq<Intent>, b: seq<Intent>, active: seq<Mandate>)
    requires Positive(a) && Softened(a, b) && forall k :: 0 <= k < |a| ==> Held(a[k]) == Held(b[k])
    ensures SameSums(a, b, active)
  {
    forall m, c, now | m in active ensures Spent(a, m, c, now) == Spent(b, m, c, now) {
      SofteningNeverRaises(a, b, m, WindowStart(now, Span(c), m), now, Narrowing(c));
    }
  }

  lemma SameSumsKeepPromise(sigOk: Mandate -> bool, a: seq<Intent>, b: seq<Intent>, i: Intent, exact: bool)
    requires Promised(sigOk, a, i, exact) && SameSums(a, b, Judges(i))
    ensures Promised(sigOk, b, i, exact)
  {
    if exact { SameSumsSameVerdict(sigOk, Judges(i), a, b, i.proposal, i.judgement.at); }
    if Held(i) {
      forall m, c | m in Judges(i) && Within(Narrowing(c), i.proposal) ensures LeavesRoom(b, i, m, c) {
        assert LeavesRoom(a, i, m, c);
      }
    }
  }

  lemma ForeignRowKeepsPromise(sigOk: Mandate -> bool, log: seq<Intent>, i: Intent, mine: Intent, exact: bool)
    requires Promised(sigOk, log, mine, exact) && (!Held(i) || i.who != mine.who)
    ensures Promised(sigOk, Inserted(log, i), mine, exact)
  {
    if !KeyTaken(log, i.who.agentId, i.key) {
      ForeignRowSameSums(log, i, Judges(mine));
      SameSumsKeepPromise(sigOk, log, log + [i], mine, exact);
    }
  }

  lemma SofteningKeepsPromise(sigOk: Mandate -> bool, a: seq<Intent>, b: seq<Intent>, i: Intent)
    requires Promised(sigOk, a, i, false) && Positive(a) && Softened(a, b)
    ensures Promised(sigOk, b, i, false)
  {
    if Held(i) {
      forall m, c | m in Judges(i) && Within(Narrowing(c), i.proposal) ensures LeavesRoom(b, i, m, c) {
        assert LeavesRoom(a, i, m, c);
        SofteningNeverRaises(a, b, m, WindowStart(i.createdAt, Span(c), m), i.createdAt, Narrowing(c));
      }
    }
  }

  // ------------------------------------------------------------------ one step at a time

  /** What `Decide` computes is what it promises. */
  lemma OutcomeIsPromised(sigOk: Mandate -> bool, rows: seq<Mandate>, log: seq<Intent>, who: Who, p: Proposal, now: int,
                          idem: string, mfa: bool, busy: bool, stamp: int)
    requires Positive(log) && p.amount > 0
    ensures Promised(sigOk, log, Outcome(sigOk, rows, log, who, p, now, idem, mfa, busy, stamp), true)
  {
    var active := ActiveMandates(rows, who, now);
    var i := Outcome(sigOk, rows, log, who, p, now, idem, mfa, busy, stamp);
    ActiveMandatesAreLive(rows, who, now);
    FirstRefusalFinds(sigOk, active, log, p, now);
    if Held(i) { PassedMeansFits(sigOk, log, i); }
  }

  lemma AppendKeepsSound(sigOk: Mandate -> bool, log: seq<Intent>, i: Intent, exact: bool)
    requires Sound(log) && (exact ==> Serial(sigOk, log))
    requires Promised(sigOk, log, i, exact) || (i.decision == DENY && i.judgement == Unjudged)
    ensures Sound(log + [i]) && (exact ==> Serial(sigOk, log + [i]))
  {
    AppendKeepsBudgets(log, i);
    var after := log + [i];
    assert HonestJudges(after) && Positive(after) && HeldWereJudged(after) by {
      forall x | x in after ensures x in log || x == i {}
    }
    if exact {
      assert forall k :: 0 <= k < |log| ==> after[..k] == log[..k] && after[k] == log[k];
      assert after[..|log|] == log;
    }
  }

  lemma InsertKeepsSound(sigOk: Mandate -> bool, log: seq<Intent>, i: Intent, exact: bool)
    requires Sound(log) && (exact ==> Serial(sigOk, log))
    requires Promised(sigOk, log, i, exact) || (i.decision == DENY && i.judgement == Unjudged)
    ensures Sound(Inserted(log, i)) && (exact ==> Serial(sigOk, Inserted(log, i)))
  {
    if !KeyTaken(log, i.who.agentId, i.key) { AppendKeepsSound(sigOk, log, i, exact); }
  }

  /** A row still held after softening was held before it, judged by the same mandates at the same instant. */
  lemma SofterOrigin(a: seq<Intent>, b: seq<Intent>, i: Intent) returns (was: Intent)
    requires Softened(a, b) && i in b && Held(i)
    ensures was in a && Held(was) && was.judgement == i.judgement && was.who == i.who && was.createdAt == i.createdAt
  {
    var k :| 0 <= k < |b| && b[k] == i;
    assert Softer(a[k], b[k]);
    was := a[k];
  }

  lemma SofteningKeepsSound(a: seq<Intent>, b: seq<Intent>)
    requires Sound(a) && Softened(a, b)
    ensures Sound(b)
  {
    SofteningKeepsBudgets(a, b);
    forall i | i in b && Held(i) ensures i.judgement.JudgedBy? {
      var was := SofterOrigin(a, b, i);
    }
    forall i | i in b && Held(i) ensures JudgedLive(i) {
      var was := SofterOrigin(a, b, i);
      assert JudgedLive(was);
    }
  }

  lemma SameHeldKeepsSerial(sigOk: Mandate -> bool, a: seq<Intent>, b: seq<Intent>)
    requires Serial(sigOk, a) && Positive(a) && Softened(a, b) && forall k :: 0 <= k < |a| ==> Held(a[k]) == Held(b[k])
    ensures Serial(sigOk, b)
  {
    forall k | 0 <= k < |b| && b[k].judgement.JudgedBy?
      ensures Held(b[k]) <==> Judge(sigOk, Judges(b[k]), b[..k], b[k].proposal, b[k].judgement.at).ok
    {
      assert Softer(a[k], b[k]);
      SameHeldSameSums(a[..k], b[..k], Judges(a[k]));
      SameSumsSameVerdict(sigOk, Judges(a[k]), a[..k], b[..k], a[k].proposal, a[k].judgement.at);
    }
  }

  lemma ApprovalSoftens(log: seq<Intent>, k: nat)
    requires k < |log| && Held(log[k])
    ensures Softened(log, log[k := Approved(log[k])])
    ensures forall j :: 0 <= j < |log| ==> Held(log[j]) == Held(log[k := Approved(log[k])][j])
  {
  }

  lemma CommitKeepsPending(key: string -> int, sigOk: Mandate -> bool, s: Store, pid: Pid, exact: bool)
    requires Inv(key, sigOk, s, exact) && Contending(key, s) && Enabled(key, s, Commit(pid))
    ensures Pending(sigOk, Apply(key, sigOk, s, Commit(pid)), exact)
  {
    var i := s.evs[pid].intent;
    var after := Apply(key, sigOk, s, Commit(pid));
    forall q | q in after.evs && after.evs[q].Judged? ensures Promised(sigOk, after.log, after.evs[q].intent, exact) {
      assert q in s.evs && q != pid;
      var mine := s.evs[q].intent;
      if s.evs[pid].Judged? && i.who == mine.who { OneJudgeAtATime(key, s, pid, q); }
      assert !Held(i) || i.who != mine.who;
      ForeignRowKeepsPromise(sigOk, s.log, i, mine, exact);
    }
  }

  lemma LogChangeKeepsPending(sigOk: Mandate -> bool, s: Store, log: seq<Intent>, exact: bool)
    requires Pending(sigOk, s, exact) && Positive(s.log) && Softened(s.log, log)
    requires exact ==> forall k :: 0 <= k < |log| ==> Held(s.log[k]) == Held(log[k])
    ensures Pending(sigOk, s.(log := log), exact)
  {
    forall q | q in s.evs && s.evs[q].Judged? ensures Promised(sigOk, log, s.evs[q].intent, exact) {
      if exact {
        SameHeldSameSums(s.log, log, Judges(s.evs[q].intent));
        SameSumsKeepPromise(sigOk, s.log, log, s.evs[q].intent, exact);
      } else {
        SofteningKeepsPromise(sigOk, s.log, log, s.evs[q].intent);
      }
    }
  }

  lemma StepKeepsLocks(key: string -> int, sigOk: Mandate -> bool, s: Store, st: Step)
    requires LocksHeld(key, s) && Enabled(key, s, st)
    ensures LocksHeld(key, Apply(key, sigOk, s, st))
  {
    if st.Begin? {
      var active := ActiveMandates(s.rows, st.who, st.now);
      StrLeOrders();
      SortSorts(StrLe, Ids(active));
    }
  }

  lemma StrLeOrders()
    ensures Orders(StrLe)
  {
    forall x: string, y: string ensures StrLe(x, y) || StrLe(y, x) { StrLeTotal(x, y); }
    forall x: string, y: string, z: string | Chain(StrLe, x, y, z) ensures StrLe(x, z) { StrLeTransitive(x, y, z); }
  }

  lemma DenialKeepsInv(key: string -> int, sigOk: Mandate -> bool, s: Store, i: Intent, exact: bool)
    requires Inv(key, sigOk, s, exact) && i.decision == DENY && i.judgement == Unjudged
    ensures Inv(key, sigOk, s.(log := Inserted(s.log, i)), exact)
  {
    InsertKeepsSound(sigOk, s.log, i, exact);
    forall q | q in s.evs && s.evs[q].Judged? ensures Promised(sigOk, Inserted(s.log, i), s.evs[q].intent, exact) {
      ForeignRowKeepsPromise(sigOk, s.log, i, s.evs[q].intent, exact);
    }
  }

  lemma SofteningKeepsInv(key: string -> int, sigOk: Mandate -> bool, s: Store, log: seq<Intent>, exact: bool)
    requires Inv(key, sigOk, s, exact) && Softened(s.log, log)
    requires exact ==> forall k :: 0 <= k < |log| ==> Held(s.log[k]) == Held(log[k])
    ensures Inv(key, sigOk, s.(log := log), exact)
  {
    SofteningKeepsSound(s.log, log);
    if exact { SameHeldKeepsSerial(sigOk, s.log, log); }
    LogChangeKeepsPending(sigOk, s, log, exact);
  }

  lemma CommitKeepsInv(key: string -> int, sigOk: Mandate -> bool, s: Store, pid: Pid, exact: bool)
    requires Inv(key, sigOk, s, exact) && Contending(key, s) && Enabled(key, s, Commit(pid))
    ensures Inv(key, sigOk, Apply(key, sigOk, s, Commit(pid)), exact)
  {
    StepKeepsLocks(key, sigOk, s, Commit(pid));
    InsertKeepsSound(sigOk, s.log, s.evs[pid].intent, exact);
    CommitKeepsPending(key, sigOk, s, pid, exact);
  }

  lemma DecideKeepsInv(key: string -> int, sigOk: Mandate -> bool, s: Store, st: Step, exact: bool)
    requires Inv(key, sigOk, s, exact) && st.Decide? && Enabled(key, s, st)
    ensures Inv(key, sigOk, Apply(key, sigOk, s, st), exact)
  {
    StepKeepsLocks(key, sigOk, s, st);
    var e := s.evs[st.pid];
    OutcomeIsPromised(sigOk, s.rows, s.log, e.who, e.p, e.now, e.idem, st.mfa, st.busy, st.stamp);
  }

  lemma StepKeepsInv(key: string -> int, sigOk: Mandate -> bool, s: Store, st: Step, exact: bool)
    requires Inv(key, sigOk, s, exact) && Contending(key, s) && Enabled(key, s, st)
    requires exact ==> !st.ExpireReviews?
    ensures Inv(key, sigOk, Apply(key, sigOk, s, st), exact)
  {
    match st {
      case Commit(pid) => CommitKeepsInv(key, sigOk, s, pid, exact);
      case RecordDenial(i) => DenialKeepsInv(key, sigOk, s, i, exact);
      case Approve(k) =>
        ApprovalSoftens(s.log, k);
        SofteningKeepsInv(key, sigOk, s, s.log[k := Approved(s.log[k])], exact);
      case ExpireReviews(now) => SofteningKeepsInv(key, sigOk, s, StaleDenied(s.log, now), exact);
      case Decide(_, _, _, _) => DecideKeepsInv(key, sigOk, s, st, exact);
      case _ => StepKeepsLocks(key, sigOk, s, st);
    }
  }

  // ------------------------------------------------------------------ runs

  /** Any interleaving of the sessions. */
  ghost function Stepper(key: string -> int, sigOk: Mandate -> bool): (Store, Step) -> Option<Store> {
    (s: Store, st: Step) => if Enabled(key, s, st) then Some(Apply(key, sigOk, s, st)) else None
  }

  /** The interleavings in which sessions of one agent contend. */
  ghost function Contended(key: string -> int, sigOk: Mandate -> bool): (Store, Step) -> Option<Store> {
    (s: Store, st: Step) => if Enabled(key, s, st) && Contending(key, s) then Some(Apply(key, sigOk, s, st)) else None
  }

  function Fresh(rows: seq<Mandate>): Store {
    Store(rows, [], map[], map[])
  }

  lemma ContendedRunKeepsInv(key: string -> int, sigOk: Mandate -> bool, s: Store, steps: seq<Step>, exact: bool)
    requires Inv(key, sigOk, s, exact) && Play(Contended(key, sigOk), s, steps).Some?
    requires exact ==> forall st :: st in steps ==> !st.ExpireReviews?
    ensures Inv(key, sigOk, Play(Contended(key, sigOk), s, steps).value, exact)
  {
    var step := Contended(key, sigOk);
    forall x, st | Inv(key, sigOk, x, exact) && st in steps && step(x, st).Some?
      ensures Inv(key, sigOk, step(x, st).value, exact)
    {
      StepKeepsInv(key, sigOk, x, st, exact);
    }
    PlayKeeps(step, (x: Store) => Inv(key, sigOk, x, exact), s, steps);
  }

  /** Every interleaving of contending evaluators with approvals, review expiry, denials and table
      changes keeps every budget, and hence every window whose clock readings reached the log in order. */
  lemma ConcurrentRunsKeepBudgets(key: string -> int, sigOk: Mandate -> bool, rows: seq<Mandate>, steps: seq<Step>, m: Mandate, c: Cap, a: int)
    requires Play(Contended(key, sigOk), Fresh(rows), steps).Some?
    ensures var log := Play(Contended(key, sigOk), Fresh(rows), steps).value.log;
            && WithinBudgets(log)
            && (InOrder(log, m, Span(c)) && JudgedThroughout(log, m, c, a) && Limit(m, c).Some? && Limit(m, c).value >= 0
                ==> SpendSince(log, m, a, a + Span(c), Narrowing(c)) <= Limit(m, c).value)
  {
    ContendedRunKeepsInv(key, sigOk, Fresh(rows), steps, false);
    var log := Play(Contended(key, sigOk), Fresh(rows), steps).value.log;
    if InOrder(log, m, Span(c)) && JudgedThroughout(log, m, c, a) && Limit(m, c).Some? && Limit(m, c).value >= 0 {
      EveryWindowWithinLimit(log, m, c, a);
    }
  }

  /** Without review expiry in between, every concurrent run decides as a serial one would in commit
      order: each row judged under the gate is held exactly when judging it on the rows committed
      before it permits it, and what was never judged under the gate is denied. */
  lemma ConcurrentRunsAreSerial(key: string -> int, sigOk: Mandate -> bool, rows: seq<Mandate>, steps: seq<Step>)
    requires Play(Contended(key, sigOk), Fresh(rows), steps).Some?
    requires forall st :: st in steps ==> !st.ExpireReviews?
    ensures var log := Play(Contended(key, sigOk), Fresh(rows), steps).value.log;
            Serial(sigOk, log) && HeldWereJudged(log)
  {
    ContendedRunKeepsInv(key, sigOk, Fresh(rows), steps, true);
  }

  /** In every store a contended run reaches, and as long as its sessions still contend, at most one session of
      an agent is between its aggregation and its commit. */
  lemma OneJudgeInEveryRun(key: string -> int, sigOk: Mandate -> bool, rows: seq<Mandate>, steps: seq<Step>, p: Pid, q: Pid)
    requires Play(Contended(key, sigOk), Fresh(rows), steps).Some?
    requires var s := Play(Contended(key, sigOk), Fresh(rows), steps).value;
             && Contending(key, s) && p in s.evs && q in s.evs && Asker(s.evs[p]) == Asker(s.evs[q])
             && s.evs[p].Judged? && (s.evs[q].Judged? || s.evs[q].Ready?)
    ensures p == q
  {
    ContendedRunKeepsInv(key, sigOk, Fresh(rows), steps, false);
    OneJudgeAtATime(key, Play(Contended(key, sigOk), Fresh(rows), steps).value, p, q);
  }

  // ------------------------------------------------------------------ the acquisition loop

  /** The locks as the database sees them while one session acquires and the others stand still. */
  class LockTable {
    var locks: map<int, Pid>

    constructor ()
      ensures locks == map[]
    {
      locks := map[];
    }

    /** `acquire_gate`: commit, which ends the transaction holding earlier locks, then try. */
    method AcquireGate(pid: Pid, k: int) returns (ok: bool)
      modifies this
      ensures ok == Free(old(locks), k, pid)
      ensures locks == if ok then Without(old(locks), pid)[k := pid] else Without(old(locks), pid)
    {
      locks := Without(locks, pid);
      if k in locks { return false; }
      locks := locks[k := pid];
      ok := true;
    }

    method AcquireInOrder(key: string -> int, pid: Pid, ids: seq<string>) returns (ok: bool)
      requires ids != []
      modifies this
      ensures ok <==> forall j :: 0 <= j < |ids| ==> Free(old(locks), key(ids[j]), pid)
      ensures locks == if ok then Without(old(locks), pid)[LastKey(key, ids) := pid] else Without(old(locks), pid)
    {
      for n := 0 to |ids|
        invariant forall j :: 0 <= j < n ==> Free(old(locks), key(ids[j]), pid)
        invariant locks == if n == 0 then old(locks) else Without(old(locks), pid)[key(ids[n - 1]) := pid]
      {
        if n > 0 { ReleaseForgets(old(locks), pid, key(ids[n - 1])); }
        var got := AcquireGate(pid, key(ids[n]));
        if !got { return false; }
      }
      ok := true;
    }

    /** `acquire_all_mandate_gates`: all or nothing, in sorted order. Success means every lock was
        free when its turn came; what is still held then is the last lock alone. */
    method AcquireAllMandateGates(key: string -> int, pid: Pid, active: seq<Mandate>) returns (ok: bool)
      requires active != []
      modifies this
      ensures LockOrder(active) != []
      ensures ok <==> forall j :: 0 <= j < |LockOrder(active)| ==> Free(old(locks), key(LockOrder(active)[j]), pid)
      ensures locks == if ok then Without(old(locks), pid)[LastKey(key, LockOrder(active)) := pid] else Without(old(locks), pid)
    {
      var ids := LockOrder(active);
      assert ids != [] by {
        StrLeOrders();
        SortSorts(StrLe, Ids(active));
      }
      ok := AcquireInOrder(key, pid, ids);
    }
  }
}
