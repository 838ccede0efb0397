/** Submissions that share an idempotency key and overlap (app/routers/payments.py). Recording returns the row that
    already holds the key, and an allowed submission then mints from that row whatever its decision. */
module Collisions {
  import opened Text
  import opened Sorting
  import opened Mandates
  import opened Budget
  import opened Lifecycle
  import opened Locks
  import opened Runs
  import opened Settlement
  import opened SettlementRuns
  import opened EndToEnd
  import G = Gate

  /** What makes two submissions the same to the table. */
  datatype Submission = Submission(agentId: string, key: string)

  function NameOf(i: Intent): Submission {
    Submission(i.who.agentId, i.key)
  }

  /** The submission a session in flight carries. */
  function Carried(e: G.Phase): Submission {
    match e
    case Acquiring(who, idem, _, _, _, _) => Submission(who.agentId, idem)
    case Ready(who, idem, _, _, _) => Submission(who.agentId, idem)
    case Judged(i, _) => NameOf(i)
    case GaveUp(i) => NameOf(i)
  }

  /** The submission a step brings in: one past the replay test, or one denied before any mandate is looked at. */
  function Brings(st: WorldStep): seq<Submission> {
    match st
    case Evaluating(g, _) =>
      (match g
       case Begin(_, who, idem, _, _) => [Submission(who.agentId, idem)]
       case RecordDenial(i) => [NameOf(i)]
       case _ => [])
    case _ => []
  }

  function Submissions(steps: seq<WorldStep>): seq<Submission>
    decreases |steps|
  {
    if steps == [] then [] else Brings(steps[0]) + Submissions(steps[1..])
  }

  predicate Distinct(subs: seq<Submission>) {
    forall i, j :: 0 <= i < j < |subs| ==> subs[i] != subs[j]
  }

  /** Every executing row backs an intent allowed for its amount. */
  ghost predicate Backs(w: World) {
    forall k | k in w.cells :: k < |w.store.log| && CellFor(w.store.log[k], w.cells[k])
  }

  type Interleaving = (World, WorldStep) -> Option<World>

  /** Some interleaving leads from one world to another and brings in exactly these submissions. */
  ghost predicate Reaches(step: Interleaving, w: World, subs: seq<Submission>, end: World) {
    exists steps :: Play(step, w, steps) == Some(end) && Submissions(steps) == subs
  }

  lemma {:induction false} SubmissionsConcat(a: seq<WorldStep>, b: seq<WorldStep>)
    ensures Submissions(a + b) == Submissions(a) + Submissions(b)
    decreases |a|
  {
    if a == [] {
      assert a + b == b;
    } else {
      assert (a + b)[1..] == a[1..] + b;
      SubmissionsConcat(a[1..], b);
    }
  }

  lemma ReachesOn(step: Interleaving, w: World, subs: seq<Submission>, mid: World, more: seq<Submission>, end: World)
    requires Reaches(step, w, subs, mid) && Reaches(step, mid, more, end)
    ensures Reaches(step, w, subs + more, end)
  {
    var a :| Play(step, w, a) == Some(mid) && Submissions(a) == subs;
    var b :| Play(step, mid, b) == Some(end) && Submissions(b) == more;
    PlayCompose(step, w, a, b);
    SubmissionsConcat(a, b);
  }

  lemma ReachesByStep(step: Interleaving, w: World, st: WorldStep, end: World)
    requires step(w, st) == Some(end)
    ensures Reaches(step, w, Brings(st), end)
  {
    var steps := [st];
    assert steps[1..] == [] && Play(step, w, steps) == Some(end);
    assert Submissions(steps[1..]) == [] && Brings(st) + [] == Brings(st);
    assert Submissions(steps) == Brings(st);
  }

  // ------------------------------------------------------------------ distinct keys stay apart

  predicate Used(log: seq<Intent>, x: Submission) {
    KeyTaken(log, x.agentId, x.key)
  }

  /** Sessions in flight carry different unused keys, and everything brought in so far is in `past`. */
  ghost predicate KeysApart(s: G.Store, past: set<Submission>) {
    && (forall k :: 0 <= k < |s.log| ==> NameOf(s.log[k]) in past)
    && (forall p | p in s.evs :: Carried(s.evs[p]) in past && !Used(s.log, Carried(s.evs[p])))
    && (forall p, q | p in s.evs && q in s.evs && p != q :: Carried(s.evs[p]) != Carried(s.evs[q]))
  }

  lemma TakenAfter(log: seq<Intent>, i: Intent, x: Submission)
    ensures Used(Inserted(log, i), x) <==> Used(log, x) || NameOf(i) == x
  {
    var after := Inserted(log, i);
    if k :| 0 <= k < |log| && HasKey(log[k], x.agentId, x.key) { assert HasKey(after[k], x.agentId, x.key); }
    if k :| 0 <= k < |after| && HasKey(after[k], x.agentId, x.key) {
      assert k < |log| ==> HasKey(log[k], x.agentId, x.key);
    }
    if NameOf(i) == x && !Used(log, x) { assert HasKey(after[|log|], x.agentId, x.key); }
  }

  lemma SameNames(a: seq<Intent>, b: seq<Intent>, x: Submission)
    requires |a| == |b| && forall k :: 0 <= k < |a| ==> NameOf(a[k]) == NameOf(b[k])
    ensures Used(a, x) == Used(b, x)
  {
    if k :| 0 <= k < |a| && HasKey(a[k], x.agentId, x.key) { assert NameOf(a[k]) == NameOf(b[k]) && HasKey(b[k], x.agentId, x.key); }
    if k :| 0 <= k < |b| && HasKey(b[k], x.agentId, x.key) { assert NameOf(a[k]) == NameOf(b[k]) && HasKey(a[k], x.agentId, x.key); }
  }

  lemma NewIsUnused(log: seq<Intent>, past: set<Submission>, x: Submission)
    requires (forall k :: 0 <= k < |log| ==> NameOf(log[k]) in past) && x !in past
    ensures !Used(log, x)
  {
    forall k | 0 <= k < |log| ensures !HasKey(log[k], x.agentId, x.key) {
      assert NameOf(log[k]) in past;
    }
  }

  lemma InsertKeepsApart(s: G.Store, i: Intent, evs: map<Pid, G.Phase>, past: set<Submission>, more: set<Submission>)
    requires KeysApart(s, past) && past <= more && NameOf(i) in more && evs.Keys <= s.evs.Keys
    requires forall p | p in evs :: evs[p] == s.evs[p] && Carried(evs[p]) != NameOf(i)
    ensures forall locks :: KeysApart(G.Store(s.rows, Inserted(s.log, i), locks, evs), more)
  {
    forall p | p in evs ensures !Used(Inserted(s.log, i), Carried(evs[p])) {
      TakenAfter(s.log, i, Carried(evs[p]));
    }
  }

  lemma RenamedKeepsApart(s: G.Store, log: seq<Intent>, past: set<Submission>)
    requires KeysApart(s, past) && |log| == |s.log| && forall k :: 0 <= k < |log| ==> NameOf(log[k]) == NameOf(s.log[k])
    ensures KeysApart(s.(log := log), past)
  {
    forall p | p in s.evs ensures !Used(log, Carried(s.evs[p])) {
      SameNames(s.log, log, Carried(s.evs[p]));
    }
  }

  lemma BeginStaysApart(key: string -> int, sigOk: Mandate -> bool, s: G.Store, g: G.Step, past: set<Submission>)
    requires g.Begin? && G.Enabled(key, s, g) && KeysApart(s, past) && Submission(g.who.agentId, g.idem) !in past
    ensures KeysApart(G.Apply(key, sigOk, s, g), past + {Submission(g.who.agentId, g.idem)})
  {
    NewIsUnused(s.log, past, Submission(g.who.agentId, g.idem));
  }

  /** A step of one session that neither begins nor commits keeps what it carries. */
  lemma MovingStaysApart(key: string -> int, sigOk: Mandate -> bool, s: G.Store, g: G.Step, past: set<Submission>)
    requires G.Enabled(key, s, g) && KeysApart(s, past) && (g.Release? || g.Take? || g.TimeOut? || g.Decide? || g.ChangeTable?)
    ensures KeysApart(G.Apply(key, sigOk, s, g), past)
  {
    assert G.Apply(key, sigOk, s, g).log == s.log;
  }

  lemma StepStaysApart(key: string -> int, sigOk: Mandate -> bool, s: G.Store, g: G.Step, past: set<Submission>)
    requires G.Enabled(key, s, g) && KeysApart(s, past) && forall x :: x in Brings(Evaluating(g, "")) ==> x !in past
    ensures KeysApart(G.Apply(key, sigOk, s, g), past + set x | x in Brings(Evaluating(g, "")))
  {
    var more := past + set x | x in Brings(Evaluating(g, ""));
    match g {
      case Begin(_, _, _, _, _) => BeginStaysApart(key, sigOk, s, g, past);
      case Commit(pid) => InsertKeepsApart(s, s.evs[pid].intent, s.evs - {pid}, past, more);
      case RecordDenial(i) =>
        assert NameOf(i) in Brings(Evaluating(g, ""));
        InsertKeepsApart(s, i, s.evs, past, more);
      case Approve(k) => RenamedKeepsApart(s, s.log[k := G.Approved(s.log[k])], past);
      case ExpireReviews(now) => RenamedKeepsApart(s, StaleDenied(s.log, now), past);
      case _ => MovingStaysApart(key, sigOk, s, g, past);
    }
    assert Brings(Evaluating(g, "")) == [] ==> more == past;
  }

  lemma WorldStaysApart(key: string -> int, sigOk: Mandate -> bool, w: World, st: WorldStep, past: set<Submission>)
    requires CanStep(key, w, st) && KeysApart(w.store, past) && forall x :: x in Brings(st) ==> x !in past
    ensures Apart(w, st) && KeysApart(Next(key, sigOk, w, st).store, past + set x | x in Brings(st))
  {
    StoreAfter(key, sigOk, w, st);
    if st.Evaluating? {
      assert Brings(st) == Brings(Evaluating(st.st, ""));
      StepStaysApart(key, sigOk, w.store, st.st, past);
      if st.st.Commit? { assert Carried(w.store.evs[st.st.pid]) == NameOf(w.store.evs[st.st.pid].intent); }
    }
  }

  /** Keys never brought in twice are never committed twice. */
  lemma {:induction false} DistinctStayApart(key: string -> int, sigOk: Mandate -> bool, w: World, steps: seq<WorldStep>, past: set<Submission>)
    requires KeysApart(w.store, past) && Play(EndToEnd.Stepper(key, sigOk), w, steps).Some?
    requires Distinct(Submissions(steps)) && forall x :: x in Submissions(steps) ==> x !in past
    ensures Along(EndToEnd.Stepper(key, sigOk), Apart, w, steps)
    decreases |steps|
  {
    if steps != [] {
      var b, rest := Brings(steps[0]), Submissions(steps[1..]);
      assert forall x :: x in b ==> x in Submissions(steps);
      WorldStaysApart(key, sigOk, w, steps[0], past);
      DistinctSplit(b, rest);
      DistinctStayApart(key, sigOk, Next(key, sigOk, w, steps[0]), steps[1..], past + set x | x in b);
    }
  }

  lemma DistinctSplit(b: seq<Submission>, rest: seq<Submission>)
    requires Distinct(b + rest)
    ensures Distinct(rest) && forall x :: x in rest ==> x !in b && x in b + rest
  {
    forall i, j | 0 <= i < j < |rest| ensures rest[i] != rest[j] {
      assert (b + rest)[|b| + i] == rest[i] && (b + rest)[|b| + j] == rest[j];
    }
    forall i, j | 0 <= i < |b| && 0 <= j < |rest| ensures b[i] != rest[j] {
      assert (b + rest)[i] == b[i] && (b + rest)[|b| + j] == rest[j];
    }
  }

  lemma DistinctBack(key: string -> int, sigOk: Mandate -> bool, rows: seq<Mandate>, subs: seq<Submission>, end: World)
    requires Reaches(EndToEnd.Stepper(key, sigOk), Start(rows), subs, end) && Distinct(subs)
    ensures Backs(end)
  {
    var steps :| Play(EndToEnd.Stepper(key, sigOk), Start(rows), steps) == Some(end) && Submissions(steps) == subs;
    DistinctStayApart(key, sigOk, Start(rows), steps, {});
    RunKeepsInv(key, sigOk, rows, steps);
  }

  /** So with distinct keys, and nothing else asked of the interleaving, the daily cap bounds what is settled for any
      24h throughout which the mandate was active at every evaluation of its agent. */
  lemma DistinctSettleWithinCap(key: string -> int, sigOk: Mandate -> bool, rows: seq<Mandate>, steps: seq<WorldStep>, m: Mandate, a: int)
    requires Play(EndToEnd.Stepper(key, sigOk), Start(rows), steps).Some? && Distinct(Submissions(steps))
    requires Along(EndToEnd.Stepper(key, sigOk), Watching(m, a), Start(rows), steps) && m.maxDailyAmount >= 0
    ensures var w := Play(EndToEnd.Stepper(key, sigOk), Start(rows), steps).value;
            InOrder(w.store.log, m, DAY) && SpelledAlike(w.store.log, m)
            ==> SettledTotal(w.store.log, w.cells, m.who, a, a + DAY) <= m.maxDailyAmount
  {
    DistinctStayApart(key, sigOk, Start(rows), steps, {});
    SettledWhileActive(key, sigOk, rows, steps, m, a);
  }

  // ------------------------------------------------------------------ a key brought in twice

  function Asked(amount: int): Proposal {
    Proposal("shop", amount, "INR", None)
  }

  function Agent(x: Submission): Who {
    Who(x.agentId, "default")
  }

  /** One unit a payment and one unit a day. */
  function One(who: Who): Mandate {
    Mandate("m", "user", who, 1, 1, None, None, None, "INR", None, None, None, 0, DAY + 1, ACTIVE, None, None)
  }

  function Denied(x: Submission): Intent {
    G.Denial(Agent(x), Asked(1000), x.key, 0, Unjudged)
  }

  /** The first submission brought in a second time, and where. */
  ghost predicate FirstPair(subs: seq<Submission>, i: nat, j: nat) {
    i < j < |subs| && subs[i] == subs[j] && forall x :: 0 <= x < j && x != i ==> subs[x] != subs[j]
  }

  lemma {:induction false} PairExists(subs: seq<Submission>) returns (i: nat, j: nat)
    requires !Distinct(subs)
    ensures FirstPair(subs, i, j)
  {
    var front := subs[..|subs| - 1];
    if Distinct(front) {
      i, j :| 0 <= i < j < |subs| && subs[i] == subs[j];
      assert j == |subs| - 1;
    } else {
      i, j := PairExists(front);
    }
  }

  /** The `x`-th arrival: the pair begins sessions for a thousand and for one, all others are denied at once. */
  function Arrival(subs: seq<Submission>, i: nat, j: nat, x: nat): WorldStep
    requires x < |subs|
  {
    if x == i then Evaluating(G.Begin(0, Agent(subs[x]), subs[x].key, Asked(1000), 0), "")
    else if x == j then Evaluating(G.Begin(1, Agent(subs[x]), subs[x].key, Asked(1), 0), "")
    else Evaluating(G.RecordDenial(Denied(subs[x])), "")
  }

  lemma OneIsActive(who: Who)
    ensures ActiveMandates([One(who)], who, 0) == [One(who)] && G.LockOrder([One(who)]) == ["m"]
  {
    TighterOrders();
    G.StrLeOrders();
    assert multiset(LiveRows([One(who)], who, 0)) == multiset([One(who)]);
    SortedIs(TighterOrSame, LiveRows([One(who)], who, 0), [One(who)]);
    assert G.Ids([One(who)]) == ["m"];
    SortedIs(StrLe, ["m"], ["m"]);
  }

  function Waiting(x: Submission, amount: int): G.Phase {
    G.Acquiring(Agent(x), x.key, Asked(amount), 0, ["m"], 0)
  }

  function InFlight(subs: seq<Submission>, i: nat, j: nat, n: nat): map<Pid, G.Phase>
    requires i < j < |subs|
  {
    if n <= i then map[] else if n <= j then map[0 := Waiting(subs[i], 1000)] else map[0 := Waiting(subs[i], 1000), 1 := Waiting(subs[j], 1)]
  }

  /** Every row so far is a denial of a thousand. */
  ghost predicate AllDenied(log: seq<Intent>) {
    forall k :: 0 <= k < |log| ==>
      log[k].decision == DENY && log[k].proposal == Asked(1000) && log[k].createdAt == 0 && log[k].who.orgId == "default"
  }

  ghost predicate Prepared(w: World, subs: seq<Submission>, i: nat, j: nat, n: nat)
    requires i < j < |subs|
  {
    && w == World(G.Store([One(Agent(subs[j]))], w.store.log, map[], InFlight(subs, i, j, n)), {}, map[])
    && AllDenied(w.store.log) && (n <= j ==> !Used(w.store.log, subs[j]))
  }

  /** Every session in flight takes the same gates. */
  ghost predicate AllOn(s: G.Store, ids: seq<string>) {
    forall p | p in s.evs && G.Gated(s.evs[p]) :: s.evs[p].ids == ids
  }

  lemma AllOnContends(key: string -> int, s: G.Store, ids: seq<string>)
    requires AllOn(s, ids)
    ensures G.Contending(key, s)
  {
  }

  lemma InFlightAllOn(subs: seq<Submission>, i: nat, j: nat, n: nat, s: G.Store)
    requires FirstPair(subs, i, j) && s.evs == InFlight(subs, i, j, n)
    ensures AllOn(s, ["m"])
  {
  }

  lemma BeginPrepares(key: string -> int, sigOk: Mandate -> bool, w: World, subs: seq<Submission>, i: nat, j: nat, n: nat)
    requires FirstPair(subs, i, j) && (n == i || n == j) && Prepared(w, subs, i, j, n)
    ensures var st := Arrival(subs, i, j, n);
            CanStep(key, w, st) && Prepared(Next(key, sigOk, w, st), subs, i, j, n + 1)
  {
    OneIsActive(Agent(subs[j]));
  }

  lemma DenialPrepares(key: string -> int, sigOk: Mandate -> bool, w: World, subs: seq<Submission>, i: nat, j: nat, n: nat)
    requires FirstPair(subs, i, j) && n < |subs| && n != i && n != j && Prepared(w, subs, i, j, n)
    ensures var st := Arrival(subs, i, j, n);
            CanStep(key, w, st) && Prepared(Next(key, sigOk, w, st), subs, i, j, n + 1)
  {
    TakenAfter(w.store.log, Denied(subs[n]), subs[j]);
    assert AllDenied(Inserted(w.store.log, Denied(subs[n])));
  }

  lemma ArrivalPrepares(key: string -> int, sigOk: Mandate -> bool, w: World, subs: seq<Submission>, i: nat, j: nat, n: nat)
      returns (next: World)
    requires FirstPair(subs, i, j) && n < |subs| && Prepared(w, subs, i, j, n)
    ensures Reaches(EndToEnd.Stepper(key, sigOk), w, [subs[n]], next) && Prepared(next, subs, i, j, n + 1)
  {
    InFlightAllOn(subs, i, j, n, w.store);
    AllOnContends(key, w.store, ["m"]);
    if n == i || n == j {
      BeginPrepares(key, sigOk, w, subs, i, j, n);
    } else {
      DenialPrepares(key, sigOk, w, subs, i, j, n);
    }
    next := Next(key, sigOk, w, Arrival(subs, i, j, n));
    ArrivalBrings(subs, i, j, n);
    ReachesByStep(EndToEnd.Stepper(key, sigOk), w, Arrival(subs, i, j, n), next);
  }

  lemma ArrivalBrings(subs: seq<Submission>, i: nat, j: nat, x: nat)
    requires x < |subs|
    ensures Brings(Arrival(subs, i, j, x)) == [subs[x]]
  {
  }

  /** From a world prepared for the `n`-th arrival the interleaving goes on to one prepared for the next. */
  ghost predicate GoesOn(step: Interleaving, subs: seq<Submission>, i: nat, j: nat, w: World, n: nat)
    requires i < j < |subs| && n < |subs|
  {
    Prepared(w, subs, i, j, n) ==> exists next :: Reaches(step, w, [subs[n]], next) && Prepared(next, subs, i, j, n + 1)
  }

  lemma {:induction false} ArrivalsLead(step: Interleaving, start: World, subs: seq<Submission>, i: nat, j: nat, n: nat) returns (end: World)
    requires i < j < |subs| && n <= |subs| && Prepared(start, subs, i, j, 0)
    requires forall w, x: nat {:trigger GoesOn(step, subs, i, j, w, x)} | x < |subs| :: GoesOn(step, subs, i, j, w, x)
    ensures Reaches(step, start, subs[..n], end) && Prepared(end, subs, i, j, n)
    decreases n
  {
    if n == 0 {
      end := start;
      assert subs[..0] == [];
      StaysPut(step, start);
    } else {
      var w := ArrivalsLead(step, start, subs, i, j, n - 1);
      assert GoesOn(step, subs, i, j, w, n - 1);
      end :| Reaches(step, w, [subs[n - 1]], end) && Prepared(end, subs, i, j, n);
      ReachesOn(step, start, subs[..n - 1], w, [subs[n - 1]], end);
      FrontGrows(subs, n - 1);
    }
  }

  lemma FrontGrows<T>(s: seq<T>, n: nat)
    requires n < |s|
    ensures s[..n] + [s[n]] == s[..n + 1]
  {
  }

  lemma StaysPut(step: Interleaving, w: World)
    ensures Reaches(step, w, [], w)
  {
    var none: seq<WorldStep> := [];
    assert Play(step, w, none) == Some(w) && Submissions(none) == [];
  }

  // ------------------------------------------------------------------ one session, served alone

  /** Where a served session leaves the world. */
  function Served(sigOk: Mandate -> bool, w: World, pid: Pid): World
    requires pid in w.store.evs && w.store.evs[pid].Acquiring?
  {
    var e := w.store.evs[pid];
    var i := G.Outcome(sigOk, w.store.rows, w.store.log, e.who, e.p, e.now, e.idem, false, false, 0);
    World(G.Store(w.store.rows, Inserted(w.store.log, i), map[], w.store.evs - {pid}),
          PutUp(w, i), w.cells)
  }

  lemma ServeServes(key: string -> int, sigOk: Mandate -> bool, w: World, pid: Pid, ids: seq<string>)
    requires pid in w.store.evs && w.store.evs[pid].Acquiring? && w.store.evs[pid].next == 0 && |ids| == 1
    requires AllOn(w.store, ids) && w.store.locks == map[]
    ensures Reaches(EndToEnd.Stepper(key, sigOk), w, [], Served(sigOk, w, pid))
  {
    var s, e := w.store, w.store.evs[pid];
    var i := G.Outcome(sigOk, s.rows, s.log, e.who, e.p, e.now, e.idem, false, false, 0);
    var s1 := G.Store(s.rows, s.log, map[key(ids[0]) := pid], s.evs[pid := G.Ready(e.who, e.idem, e.p, e.now, ids)]);
    var s2 := G.Store(s.rows, s.log, map[key(ids[0]) := pid], s.evs[pid := G.Judged(i, ids)]);
    AllOnContends(key, s, ids);
    AllOnContends(key, s1, ids);
    AllOnContends(key, s2, ids);
    ServeTakes(key, sigOk, w, pid, ids, s1);
    ServeDecides(key, sigOk, w.(store := s1), pid, s2);
    ServeCommits(key, sigOk, w.(store := s2), pid, Served(sigOk, w, pid));
    ReachesInThree(EndToEnd.Stepper(key, sigOk), w, Evaluating(G.Take(pid), ""), w.(store := s1),
                   Evaluating(G.Decide(pid, false, false, 0), ""), w.(store := s2),
                   Evaluating(G.Commit(pid), ""), Served(sigOk, w, pid));
  }

  lemma ReachesInThree(step: Interleaving, w: World, a: WorldStep, w1: World, b: WorldStep, w2: World, c: WorldStep, w3: World)
    requires step(w, a) == Some(w1) && step(w1, b) == Some(w2) && step(w2, c) == Some(w3)
    requires Brings(a) == Brings(b) == Brings(c) == []
    ensures Reaches(step, w, [], w3)
  {
    ReachesByStep(step, w, a, w1);
    ReachesByStep(step, w1, b, w2);
    ReachesByStep(step, w2, c, w3);
    ReachesOn(step, w, [], w1, [], w2);
    ReachesOn(step, w, [], w2, [], w3);
  }

  lemma ServeTakes(key: string -> int, sigOk: Mandate -> bool, w: World, pid: Pid, ids: seq<string>, s1: G.Store)
    requires pid in w.store.evs && w.store.evs[pid].Acquiring? && w.store.evs[pid].next == 0 && w.store.evs[pid].ids == ids && |ids| == 1
    requires w.store.locks == map[] && G.Contending(key, w.store)
    requires var e := w.store.evs[pid];
             s1 == G.Store(w.store.rows, w.store.log, map[key(ids[0]) := pid], w.store.evs[pid := G.Ready(e.who, e.idem, e.p, e.now, ids)])
    ensures EndToEnd.Stepper(key, sigOk)(w, Evaluating(G.Take(pid), "")) == Some(w.(store := s1))
  {
    assert Without(w.store.locks, pid) == map[];
  }

  lemma ServeDecides(key: string -> int, sigOk: Mandate -> bool, w: World, pid: Pid, s2: G.Store)
    requires pid in w.store.evs && w.store.evs[pid].Ready? && G.Contending(key, w.store)
    requires var e := w.store.evs[pid];
             var i := G.Outcome(sigOk, w.store.rows, w.store.log, e.who, e.p, e.now, e.idem, false, false, 0);
             s2.rows == w.store.rows && s2.log == w.store.log && s2.locks == w.store.locks && s2.evs == w.store.evs[pid := G.Judged(i, e.ids)]
    ensures EndToEnd.Stepper(key, sigOk)(w, Evaluating(G.Decide(pid, false, false, 0), "")) == Some(w.(store := s2))
  {
  }

  lemma ServeCommits(key: string -> int, sigOk: Mandate -> bool, w: World, pid: Pid, end: World)
    requires pid in w.store.evs && w.store.evs[pid].Judged? && G.Contending(key, w.store)
    requires forall k :: k in w.store.locks ==> w.store.locks[k] == pid
    requires var i := w.store.evs[pid].intent;
             end == World(G.Store(w.store.rows, Inserted(w.store.log, i), map[], w.store.evs - {pid}),
                          PutUp(w, i), w.cells)
    ensures EndToEnd.Stepper(key, sigOk)(w, Evaluating(G.Commit(pid), "")) == Some(end)
  {
    assert forall k :: k !in Without(w.store.locks, pid);
    assert Without(w.store.locks, pid) == map[];
  }

  lemma ThousandIsDenied(sigOk: Mandate -> bool, log: seq<Intent>, who: Who, idem: string)
    ensures G.Outcome(sigOk, [One(who)], log, who, Asked(1000), 0, idem, false, false, 0)
         == G.Denial(who, Asked(1000), idem, 0, JudgedBy(0, [One(who)]))
  {
    OneIsActive(who);
    FirstRefusalFinds(sigOk, [One(who)], log, Asked(1000), 0);
    assert CheckOne(sigOk, log, One(who), Asked(1000), 0).Refused?;
    assert One(who) in [One(who)];
  }

  lemma OneIsAllowed(sigOk: Mandate -> bool, log: seq<Intent>, who: Who, idem: string)
    requires AcceptsUnsigned(sigOk) && AllDenied(log)
    ensures var i := G.Outcome(sigOk, [One(who)], log, who, Asked(1), 0, idem, false, false, 0);
            i.decision == ALLOW && i.who == who && i.key == idem
  {
    OneIsActive(who);
    NothingCounted(log, One(who), WindowStart(0, DAY, One(who)), 0, Everything);
    assert sigOk(One(who));
    assert CheckOne(sigOk, log, One(who), Asked(1), 0) == Passed(false);
    FirstRefusalFinds(sigOk, [One(who)], log, Asked(1), 0);
    ReviewIffOverThreshold(sigOk, [One(who)], log, Asked(1), 0);
  }

  // ------------------------------------------------------------------ a denial is minted and settled

  /** The world once both have been served: nothing is held, and a row never allowed is up for minting. */
  ghost predicate DenialUp(w: World, who: Who, k: nat) {
    && w.store.rows == [One(who)] && w.store.locks == map[] && w.store.evs == map[] && w.cells == map[] && w.minting == {k}
    && AllDenied(w.store.log) && k < |w.store.log| && w.store.log[k].who == who
  }

  /** What is in flight once the first session is gone: the second one alone, over a log holding its key. */
  ghost predicate SecondWaits(w: World, x: Submission) {
    && w == World(G.Store([One(Agent(x))], w.store.log, map[], map[1 := Waiting(x, 1)]), {}, map[])
    && AllDenied(w.store.log) && Used(w.store.log, x)
  }

  lemma FirstLeaves(sigOk: Mandate -> bool, w: World, x: Submission)
    requires w == World(G.Store([One(Agent(x))], w.store.log, map[], map[0 := Waiting(x, 1000), 1 := Waiting(x, 1)]), {}, map[])
    requires AllDenied(w.store.log)
    ensures SecondWaits(Served(sigOk, w, 0), x)
  {
    var denial := G.Denial(Agent(x), Asked(1000), x.key, 0, JudgedBy(0, [One(Agent(x))]));
    ThousandIsDenied(sigOk, w.store.log, Agent(x), x.key);
    TakenAfter(w.store.log, denial, x);
    assert w.store.evs - {0} == map[1 := Waiting(x, 1)];
  }

  lemma FirstServed(key: string -> int, sigOk: Mandate -> bool, w: World, subs: seq<Submission>, i: nat, j: nat) returns (mid: World)
    requires FirstPair(subs, i, j) && Prepared(w, subs, i, j, |subs|)
    ensures Reaches(EndToEnd.Stepper(key, sigOk), w, [], mid) && SecondWaits(mid, subs[j])
  {
    InFlightAllOn(subs, i, j, |subs|, w.store);
    ServeServes(key, sigOk, w, 0, ["m"]);
    FirstLeaves(sigOk, w, subs[j]);
    mid := Served(sigOk, w, 0);
  }

  lemma SecondServed(key: string -> int, sigOk: Mandate -> bool, mid: World, x: Submission) returns (end: World, k: nat)
    requires SecondWaits(mid, x) && AcceptsUnsigned(sigOk)
    ensures Reaches(EndToEnd.Stepper(key, sigOk), mid, [], end) && DenialUp(end, Agent(x), k)
  {
    OneIsActive(Agent(x));
    assert AllOn(mid.store, ["m"]);
    ServeServes(key, sigOk, mid, 1, ["m"]);
    OneIsAllowed(sigOk, mid.store.log, Agent(x), x.key);
    k := KeyAt(mid.store.log, x.agentId, x.key);
    end := Served(sigOk, mid, 1);
    assert mid.store.evs - {1} == map[];
  }

  /** The provider captures exactly what it was asked for. */
  function Captures(): Execution {
    Agentic(true, Answer(true), Answer(Some("ref")), Answer(CaptureDone), Answer(Payment(None, Captured, "", Some(1000), Some("INR"))))
  }

  lemma CapturesSettle(c: Cell)
    requires c.auth == Auth("id", 1000, "INR") && c.row.state.AUTHORIZED? && c.row.audit == [] && c.inFlight == 1
    ensures var after := SettlementRuns.Apply(c, RowStep.Begin(Captures()));
            after.auth == c.auth && Settlements(after.row.audit) == 1
  {
    assert Upper("INR") == "INR";
    LoggedCounts([], AuthorizationConsumed);
    LoggedCounts([] + [AuthorizationConsumed], ProviderSubmitted);
    LoggedCounts([] + [AuthorizationConsumed] + [ProviderSubmitted], AgenticSettlement);
  }

  lemma DenialSpent(key: string -> int, sigOk: Mandate -> bool, w: World, who: Who, k: nat) returns (end: World)
    requires DenialUp(w, who, k)
    ensures Reaches(EndToEnd.Stepper(key, sigOk), w, [], end)
    ensures end.store == w.store && end.cells.Keys == {k} && end.cells[k].auth.amount == 1000 && Settlements(end.cells[k].row.audit) == 1
  {
    var c := NewCell(Auth("id", 1000, "INR"));
    var r := SettlementRuns.Apply(c, Reserve);
    var w1 := World(w.store, {}, map[k := c]);
    var w2 := World(w.store, {}, map[k := r]);
    CapturesSettle(r);
    end := World(w.store, {}, map[k := SettlementRuns.Apply(r, RowStep.Begin(Captures()))]);
    DenialMinted(key, sigOk, w, who, k, w1);
    OnlyRow(key, sigOk, w1, k, Reserve, w2);
    OnlyRow(key, sigOk, w2, k, RowStep.Begin(Captures()), end);
    ReachesInThree(EndToEnd.Stepper(key, sigOk), w, Mint(k, "id"), w1, OnRow(k, Reserve), w2, OnRow(k, RowStep.Begin(Captures())), end);
  }

  lemma DenialMinted(key: string -> int, sigOk: Mandate -> bool, w: World, who: Who, k: nat, w1: World)
    requires DenialUp(w, who, k) && w1 == World(w.store, {}, map[k := NewCell(Auth("id", 1000, "INR"))])
    ensures EndToEnd.Stepper(key, sigOk)(w, Mint(k, "id")) == Some(w1)
  {
    assert G.Contending(key, w.store);
    assert AuthFor(w.store.log[k], "id") == Auth("id", 1000, "INR");
    assert w.minting - {k} == {};
  }

  lemma OnlyRow(key: string -> int, sigOk: Mandate -> bool, w: World, k: nat, row: RowStep, end: World)
    requires w.cells.Keys == {k} && SettlementRuns.Enabled(w.cells[k], row) && G.Contending(key, w.store)
    requires end == World(w.store, w.minting, map[k := SettlementRuns.Apply(w.cells[k], row)])
    ensures EndToEnd.Stepper(key, sigOk)(w, OnRow(k, row)) == Some(end)
  {
    assert w.cells[k := SettlementRuns.Apply(w.cells[k], row)] == end.cells;
  }

  lemma {:induction false} TotalOfOne(log: seq<Intent>, cells: map<nat, Cell>, k: nat, who: Who)
    requires cells.Keys == {k} && AllDenied(log)
    ensures SettledTotal(log, cells, who, 0, DAY)
         == if k < |log| && log[k].who == who then Settlements(cells[k].row.audit) * cells[k].auth.amount else 0
  {
    if |log| > 0 { TotalOfOne(log[..|log| - 1], cells, k, who); }
  }

  /** What a world shows when the daily cap is broken though no reading is out of order and every spelling agrees. */
  ghost predicate CapBroken(w: World, m: Mandate) {
    && InOrder(w.store.log, m, DAY) && SpelledAlike(w.store.log, m) && JudgedThroughout(w.store.log, m, Daily, 0)
    && SettledTotal(w.store.log, w.cells, m.who, 0, DAY) > m.maxDailyAmount
  }

  /** If a submission is brought in twice, in some run the first, for a thousand, is denied, the second, for one, is
      allowed and mints from the denied row, and the thousand settles under a cap of one. */
  lemma OverlapSettlesADenial(key: string -> int, sigOk: Mandate -> bool, subs: seq<Submission>, i: nat, j: nat) returns (end: World)
    requires FirstPair(subs, i, j) && AcceptsUnsigned(sigOk)
    ensures Reaches(EndToEnd.Stepper(key, sigOk), Start([One(Agent(subs[j]))]), subs, end)
    ensures !Backs(end) && CapBroken(end, One(Agent(subs[j])))
  {
    var start := Start([One(Agent(subs[j]))]);
    forall w, x: nat | x < |subs| ensures GoesOn(EndToEnd.Stepper(key, sigOk), subs, i, j, w, x) {
      if Prepared(w, subs, i, j, x) { var next := ArrivalPrepares(key, sigOk, w, subs, i, j, x); }
    }
    var w := ArrivalsLead(EndToEnd.Stepper(key, sigOk), start, subs, i, j, |subs|);
    assert subs[..|subs|] == subs && subs + [] == subs;
    var mid := FirstServed(key, sigOk, w, subs, i, j);
    ReachesOn(EndToEnd.Stepper(key, sigOk), start, subs, w, [], mid);
    var up, k := SecondServed(key, sigOk, mid, subs[j]);
    ReachesOn(EndToEnd.Stepper(key, sigOk), start, subs, mid, [], up);
    end := DenialSpent(key, sigOk, up, Agent(subs[j]), k);
    ReachesOn(EndToEnd.Stepper(key, sigOk), start, subs, up, [], end);
    DenialBreaksCap(end, Agent(subs[j]), k);
  }

  lemma DenialBreaksCap(w: World, who: Who, k: nat)
    requires AllDenied(w.store.log) && k < |w.store.log| && w.store.log[k].who == who
    requires w.cells.Keys == {k} && w.cells[k].auth.amount == 1000 && Settlements(w.cells[k].row.audit) == 1
    ensures !Backs(w) && CapBroken(w, One(who))
  {
    TotalOfOne(w.store.log, w.cells, k, who);
    assert k in w.cells;
  }

  /** Exactly which submissions are safe to interleave. In every run that brings in these submissions past their replay
      test, whatever the table, every executing row backs an intent allowed for its amount, if and only if no agent
      brings in one key twice. */
  lemma BackedIffKeysDistinct(key: string -> int, sigOk: Mandate -> bool, subs: seq<Submission>)
    requires AcceptsUnsigned(sigOk)
    ensures Distinct(subs) <==> forall rows, end :: Reaches(EndToEnd.Stepper(key, sigOk), Start(rows), subs, end) ==> Backs(end)
  {
    if Distinct(subs) {
      forall rows, end | Reaches(EndToEnd.Stepper(key, sigOk), Start(rows), subs, end) ensures Backs(end) {
        DistinctBack(key, sigOk, rows, subs, end);
      }
    } else {
      var i, j := PairExists(subs);
      var end := OverlapSettlesADenial(key, sigOk, subs, i, j);
    }
  }
}
