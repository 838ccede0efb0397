/** What happens under the mandate gates when sessions of one agent do not contend: which pairs of
    sessions can be past their gates together, and when that breaks a budget (app/serialization.py,
    app/mandates.py, on Postgres, where different gates have different locks). */
module Overspend {
  import opened Text
  import opened Sorting
  import opened Mandates
  import opened Budget
  import opened Lifecycle
  import opened Locks
  import opened Runs
  import opened Gate

  /** `pid` takes every lock of its order, one after the other. */
  ghost function TakeAll(pid: Pid, n: nat): seq<Step> {
    seq(n, i => Take(pid))
  }

  /** The session past its gate. */
  function Through(e: Phase): Phase
    requires e.Acquiring?
  {
    Ready(e.who, e.idem, e.p, e.now, e.ids)
  }

  /** If nobody else holds a lock in its order, a session gets through to its gate, ends up with
      its last lock only, and disturbs no other session. */
  lemma {:induction false} CanTakeAll(key: string -> int, sigOk: Mandate -> bool, s: Store, pid: Pid)
    requires pid in s.evs && s.evs[pid].Acquiring? && s.evs[pid].next < |s.evs[pid].ids|
    requires forall j :: s.evs[pid].next <= j < |s.evs[pid].ids| ==> Free(s.locks, key(s.evs[pid].ids[j]), pid)
    ensures var e := s.evs[pid];
            Play(Stepper(key, sigOk), s, TakeAll(pid, |e.ids| - e.next))
            == Some(Store(s.rows, s.log, Without(s.locks, pid)[LastKey(key, e.ids) := pid], s.evs[pid := Through(e)]))
    decreases |s.evs[pid].ids| - s.evs[pid].next
  {
    var e := s.evs[pid];
    var steps := TakeAll(pid, |e.ids| - e.next);
    var s1 := Apply(key, sigOk, s, Take(pid));
    assert steps[0] == Take(pid);
    assert Without(s1.locks, pid) == Without(s.locks, pid);
    if e.next + 1 < |e.ids| {
      CanTakeAll(key, sigOk, s1, pid);
      assert s1.evs[pid := Through(s1.evs[pid])] == s.evs[pid := Through(e)];
      assert steps[1..] == TakeAll(pid, |e.ids| - e.next - 1);
    } else {
      assert steps[1..] == [];
    }
  }

  /** Two sessions about to take their gates, nothing locked. */
  ghost predicate Poised(s: Store, p: Pid, q: Pid) {
    && p != q && s.locks == map[] && s.evs.Keys == {p, q}
    && (forall x | x in {p, q} :: s.evs[x].Acquiring? && s.evs[x].next == 0 && Ordered(s.evs[x].ids) && s.evs[x].p.amount > 0)
  }

  ghost predicate Ordered(ids: seq<string>) {
    ids != [] && forall j :: 0 <= j < |ids| ==> StrLe(ids[j], ids[|ids| - 1])
  }

  ghost predicate NoArrivals(steps: seq<Step>) {
    forall st :: st in steps ==> !st.Begin?
  }

  /** Different gates have different locks: the ideal of the 64-bit advisory key. */
  ghost predicate Injective(key: string -> int) {
    forall a, b: string {:trigger key(a), key(b)} :: key(a) == key(b) ==> a == b
  }

  ghost predicate BothReady(s: Store, p: Pid, q: Pid) {
    p in s.evs && q in s.evs && s.evs[p].Ready? && s.evs[q].Ready?
  }

  /** The sessions get from one store to another with nobody else arriving. */
  ghost predicate Reaches(key: string -> int, sigOk: Mandate -> bool, s: Store, end: Store) {
    exists steps :: NoArrivals(steps) && Play(Stepper(key, sigOk), s, steps) == Some(end)
  }

  /** The sessions can both be past their gates, before anyone else arrives. */
  ghost predicate CanBothPass(key: string -> int, sigOk: Mandate -> bool, s: Store, p: Pid, q: Pid) {
    exists end :: Reaches(key, sigOk, s, end) && BothReady(end, p, q)
  }

  lemma ReachesOn(key: string -> int, sigOk: Mandate -> bool, s: Store, mid: Store, end: Store)
    requires Reaches(key, sigOk, s, mid) && Reaches(key, sigOk, mid, end)
    ensures Reaches(key, sigOk, s, end)
  {
    var a :| NoArrivals(a) && Play(Stepper(key, sigOk), s, a) == Some(mid);
    var b :| NoArrivals(b) && Play(Stepper(key, sigOk), mid, b) == Some(end);
    PlayCompose(Stepper(key, sigOk), s, a, b);
    assert NoArrivals(a + b);
  }

  // ------------------------------------------------------------------ getting past the gates together

  /** With one lock held, that of `top`, an order whose last id is smaller meets nothing held. */
  lemma SmallerOrderIsFree(key: string -> int, ids: seq<string>, top: string, p: Pid, q: Pid, j: nat)
    requires Injective(key) && Ordered(ids) && j < |ids|
    requires StrLe(ids[|ids| - 1], top) && LastKey(key, ids) != key(top)
    ensures Free(map[key(top) := q], key(ids[j]), p)
  {
    StrLeTotal(ids[|ids| - 1], top);
  }

  ghost predicate AllFree(key: string -> int, s: Store, pid: Pid) {
    && pid in s.evs && s.evs[pid].Acquiring? && s.evs[pid].next == 0 && s.evs[pid].ids != []
    && forall j :: 0 <= j < |s.evs[pid].ids| ==> Free(s.locks, key(s.evs[pid].ids[j]), pid)
  }

  lemma TakesItsGate(key: string -> int, sigOk: Mandate -> bool, s: Store, pid: Pid) returns (end: Store)
    requires AllFree(key, s, pid)
    ensures Reaches(key, sigOk, s, end)
    ensures end == Store(s.rows, s.log, Without(s.locks, pid)[LastKey(key, s.evs[pid].ids) := pid], s.evs[pid := Through(s.evs[pid])])
  {
    var steps := TakeAll(pid, |s.evs[pid].ids|);
    CanTakeAll(key, sigOk, s, pid);
    end := Play(Stepper(key, sigOk), s, steps).value;
    assert NoArrivals(steps);
  }

  lemma SmallerOrderAllFree(key: string -> int, s: Store, p: Pid, q: Pid, top: string)
    requires Injective(key) && p in s.evs && s.locks == map[key(top) := q]
    requires s.evs[p].Acquiring? && s.evs[p].next == 0 && Ordered(s.evs[p].ids)
    requires StrLe(s.evs[p].ids[|s.evs[p].ids| - 1], top) && LastKey(key, s.evs[p].ids) != key(top)
    ensures AllFree(key, s, p)
  {
    forall j | 0 <= j < |s.evs[p].ids| ensures Free(s.locks, key(s.evs[p].ids[j]), p) {
      SmallerOrderIsFree(key, s.evs[p].ids, top, p, q, j);
    }
  }

  /** Both sessions are past their gates and nothing else has changed. */
  ghost predicate PassedTogether(s: Store, end: Store, p: Pid, q: Pid)
    requires Poised(s, p, q)
  {
    end.rows == s.rows && end.log == s.log && end.evs == s.evs[p := Through(s.evs[p])][q := Through(s.evs[q])]
  }

  lemma GoesFirst(key: string -> int, sigOk: Mandate -> bool, s: Store, p: Pid, q: Pid) returns (mid: Store)
    requires Poised(s, p, q)
    ensures Reaches(key, sigOk, s, mid)
    ensures mid == Store(s.rows, s.log, map[LastKey(key, s.evs[q].ids) := q], s.evs[q := Through(s.evs[q])])
  {
    assert Without(s.locks, q) == map[];
    mid := TakesItsGate(key, sigOk, s, q);
  }

  lemma GoesSecond(key: string -> int, sigOk: Mandate -> bool, mid: Store, p: Pid, q: Pid, top: string) returns (end: Store)
    requires Injective(key) && p in mid.evs && mid.locks == map[key(top) := q]
    requires mid.evs[p].Acquiring? && mid.evs[p].next == 0 && Ordered(mid.evs[p].ids)
    requires StrLe(mid.evs[p].ids[|mid.evs[p].ids| - 1], top) && LastKey(key, mid.evs[p].ids) != key(top)
    ensures Reaches(key, sigOk, mid, end)
    ensures end.rows == mid.rows && end.log == mid.log && end.evs == mid.evs[p := Through(mid.evs[p])]
  {
    SmallerOrderAllFree(key, mid, p, q, top);
    end := TakesItsGate(key, sigOk, mid, p);
  }

  lemma SmallerLastGoesSecond(key: string -> int, sigOk: Mandate -> bool, s: Store, p: Pid, q: Pid) returns (end: Store)
    requires Poised(s, p, q) && Injective(key)
    requires StrLe(s.evs[p].ids[|s.evs[p].ids| - 1], s.evs[q].ids[|s.evs[q].ids| - 1])
    requires LastKey(key, s.evs[p].ids) != LastKey(key, s.evs[q].ids)
    ensures Reaches(key, sigOk, s, end) && PassedTogether(s, end, p, q)
  {
    var mid := GoesFirst(key, sigOk, s, p, q);
    end := GoesSecond(key, sigOk, mid, p, q, s.evs[q].ids[|s.evs[q].ids| - 1]);
    ReachesOn(key, sigOk, s, mid, end);
    EitherOrder(s.evs, p, q, Through(s.evs[p]), Through(s.evs[q]));
  }

  lemma EitherOrder(evs: map<Pid, Phase>, p: Pid, q: Pid, e: Phase, f: Phase)
    requires p != q
    ensures evs[q := f][p := e] == evs[p := e][q := f]
  {
  }

  lemma BothGetThrough(key: string -> int, sigOk: Mandate -> bool, s: Store, p: Pid, q: Pid) returns (end: Store)
    requires Poised(s, p, q) && Injective(key) && LastKey(key, s.evs[p].ids) != LastKey(key, s.evs[q].ids)
    ensures Reaches(key, sigOk, s, end) && PassedTogether(s, end, p, q)
  {
    StrLeTotal(s.evs[p].ids[|s.evs[p].ids| - 1], s.evs[q].ids[|s.evs[q].ids| - 1]);
    if StrLe(s.evs[p].ids[|s.evs[p].ids| - 1], s.evs[q].ids[|s.evs[q].ids| - 1]) {
      end := SmallerLastGoesSecond(key, sigOk, s, p, q);
    } else {
      end := SmallerLastGoesSecond(key, sigOk, s, q, p);
      EitherOrder(s.evs, p, q, Through(s.evs[p]), Through(s.evs[q]));
    }
  }

  // ------------------------------------------------------------------ the same last lock excludes

  /** Nobody but the two is in flight, and every order ends in `k`. */
  ghost predicate EndsIn(key: string -> int, s: Store, p: Pid, q: Pid, k: int) {
    && LocksHeld(key, s) && s.evs.Keys <= {p, q}
    && forall x | x in s.evs && Gated(s.evs[x]) :: s.evs[x].ids != [] && LastKey(key, s.evs[x].ids) == k
  }

  lemma EndsInStep(key: string -> int, sigOk: Mandate -> bool, s: Store, st: Step, p: Pid, q: Pid, k: int)
    requires EndsIn(key, s, p, q, k) && !st.Begin? && Enabled(key, s, st)
    ensures EndsIn(key, Apply(key, sigOk, s, st), p, q, k)
  {
    StepKeepsLocks(key, sigOk, s, st);
  }

  lemma SameLastExcludes(key: string -> int, sigOk: Mandate -> bool, s: Store, p: Pid, q: Pid, k: int, steps: seq<Step>)
    requires p != q && EndsIn(key, s, p, q, k) && NoArrivals(steps) && Play(Stepper(key, sigOk), s, steps).Some?
    ensures !BothReady(Play(Stepper(key, sigOk), s, steps).value, p, q)
  {
    var step := Stepper(key, sigOk);
    forall x, st | EndsIn(key, x, p, q, k) && st in steps && step(x, st).Some?
      ensures EndsIn(key, step(x, st).value, p, q, k)
    {
      EndsInStep(key, sigOk, x, st, p, q, k);
    }
    PlayKeeps(step, (x: Store) => EndsIn(key, x, p, q, k), s, steps);
  }

  /** Each acquisition commits first and so lets go of the lock before it; all a gate leaves held is
      its last lock. Two sessions can therefore be past their gates at the same time if and only if
      their orders end in different locks, whatever else the orders share. */
  lemma BothPassIffLastLocksDiffer(key: string -> int, sigOk: Mandate -> bool, s: Store, p: Pid, q: Pid)
    requires Poised(s, p, q) && Injective(key)
    ensures CanBothPass(key, sigOk, s, p, q) <==> LastKey(key, s.evs[p].ids) != LastKey(key, s.evs[q].ids)
  {
    if LastKey(key, s.evs[p].ids) != LastKey(key, s.evs[q].ids) {
      var end := BothGetThrough(key, sigOk, s, p, q);
      assert BothReady(end, p, q);
    } else {
      forall end | Reaches(key, sigOk, s, end) ensures !BothReady(end, p, q) {
        var steps :| NoArrivals(steps) && Play(Stepper(key, sigOk), s, steps) == Some(end);
        SameLastExcludes(key, sigOk, s, p, q, LastKey(key, s.evs[p].ids), steps);
      }
    }
  }

  // ------------------------------------------------------------------ overspending

  /** Two payments of one agent that a mandate permits singly and not jointly, under keys not yet used. */
  ghost predicate Rivals(sigOk: Mandate -> bool, s: Store, e: Phase, f: Phase, m: Mandate)
    requires (e.Acquiring? || e.Ready?) && (f.Acquiring? || f.Ready?)
  {
    && e.who == f.who == m.who && e.p.currency == m.currency == f.p.currency
    && e.idem != f.idem && !KeyTaken(s.log, m.who.agentId, e.idem) && !KeyTaken(s.log, m.who.agentId, f.idem)
    && e.now <= f.now <= e.now + DAY
    && Permits(sigOk, s, m, e.p, e.now) && Permits(sigOk, s, m, f.p, f.now)
    && Spent(s.log, m, Daily, f.now) + e.p.amount + f.p.amount > m.maxDailyAmount
  }

  ghost predicate Permits(sigOk: Mandate -> bool, s: Store, m: Mandate, p: Proposal, now: int) {
    var active := ActiveMandates(s.rows, m.who, now);
    m in active && Judge(sigOk, active, s.log, p, now).ok
  }

  /** What two sessions past their gates together then do: both judge, then both commit. */
  function JudgeThenCommit(p: Pid, q: Pid): seq<Step> {
    [Decide(p, false, false, 0), Decide(q, false, false, 0), Commit(p), Commit(q)]
  }

  function Verdict(sigOk: Mandate -> bool, s: Store, e: Phase): Intent
    requires e.Ready?
  {
    Outcome(sigOk, s.rows, s.log, e.who, e.p, e.now, e.idem, false, false, 0)
  }

  lemma JudgeThenCommitAppends(key: string -> int, sigOk: Mandate -> bool, s: Store, p: Pid, q: Pid)
    requires p != q && BothReady(s, p, q)
    ensures var i, j := Verdict(sigOk, s, s.evs[p]), Verdict(sigOk, s, s.evs[q]);
            var end := Play(Stepper(key, sigOk), s, JudgeThenCommit(p, q));
            end.Some? && end.value.log == Inserted(Inserted(s.log, i), j)
  {
    var e, f, step := s.evs[p], s.evs[q], Stepper(key, sigOk);
    var i, j := Verdict(sigOk, s, e), Verdict(sigOk, s, f);
    var s1 := s.(evs := s.evs[p := Judged(i, e.ids)]);
    var s2 := s1.(evs := s1.evs[q := Judged(j, f.ids)]);
    var s3 := s2.(log := Inserted(s.log, i), locks := Without(s2.locks, p), evs := s2.evs - {p});
    var s4 := s3.(log := Inserted(s3.log, j), locks := Without(s3.locks, q), evs := s3.evs - {q});
    var steps := JudgeThenCommit(p, q);
    assert step(s, steps[0]) == Some(s1);
    assert step(s1, steps[1]) == Some(s2);
    assert step(s2, steps[2]) == Some(s3);
    assert step(s3, steps[3]) == Some(s4);
    PlayFour(step, s, s1, s2, s3, s4, steps);
  }

  lemma PlayFour<S, T>(step: (S, T) -> Option<S>, s: S, s1: S, s2: S, s3: S, s4: S, steps: seq<T>)
    requires |steps| == 4
    requires step(s, steps[0]) == Some(s1) && step(s1, steps[1]) == Some(s2)
    requires step(s2, steps[2]) == Some(s3) && step(s3, steps[3]) == Some(s4)
    ensures Play(step, s, steps) == Some(s4)
  {
    assert steps[1..][1..][1..][1..] == [];
    assert Play(step, s4, steps[1..][1..][1..][1..]) == Some(s4);
    assert Play(step, s3, steps[1..][1..][1..]) == Some(s4);
    assert Play(step, s2, steps[1..][1..]) == Some(s4);
    assert Play(step, s1, steps[1..]) == Some(s4);
  }

  lemma ChargedDaily(log: seq<Intent>, i: Intent, m: Mandate, now: int)
    requires Held(i) && i.who == m.who && i.proposal.currency == m.currency && m.validFrom <= i.createdAt <= now <= i.createdAt + DAY
    ensures Spent(log + [i], m, Daily, now) == Spent(log, m, Daily, now) + i.proposal.amount
  {
    WhatIsCharged(log, i, m, Daily, now);
  }

  lemma TwoRowsBreakCap(log: seq<Intent>, i: Intent, j: Intent, m: Mandate)
    requires Held(i) && Held(j) && m in Judges(j) && i.who == j.who == m.who && i.createdAt <= j.createdAt <= i.createdAt + DAY
    requires i.proposal.currency == m.currency == j.proposal.currency && InWindow(m, i.createdAt) && InWindow(m, j.createdAt)
    requires Spent(log, m, Daily, j.createdAt) + i.proposal.amount + j.proposal.amount > m.maxDailyAmount
    ensures !WithinBudgets(log + [i] + [j])
  {
    var all := log + [i] + [j];
    assert all[..|log| + 2] == all;
    ChargedDaily(log, i, m, j.createdAt);
    ChargedDaily(log + [i], j, m, j.createdAt);
    assert !CapKeptAt(all, |log| + 1, m, Daily);
  }

  lemma PermittedVerdict(sigOk: Mandate -> bool, s: Store, e: Phase, m: Mandate)
    requires e.Ready? && e.who == m.who && Permits(sigOk, s, m, e.p, e.now)
    ensures var i := Verdict(sigOk, s, e);
            Held(i) && m in Judges(i) && InWindow(m, e.now) && i.createdAt == e.now && i.who == e.who && i.proposal == e.p && i.key == e.idem
  {
    ActiveMandatesAreLive(s.rows, m.who, e.now);
  }

  /** Rivals past their gates together overspend: both are held and the daily cap is broken. */
  lemma TogetherTheyOverspend(key: string -> int, sigOk: Mandate -> bool, s: Store, p: Pid, q: Pid, m: Mandate)
    requires p != q && BothReady(s, p, q) && Rivals(sigOk, s, s.evs[p], s.evs[q], m)
    ensures var end := Play(Stepper(key, sigOk), s, JudgeThenCommit(p, q));
            end.Some? && !WithinBudgets(end.value.log)
  {
    var i, j := Verdict(sigOk, s, s.evs[p]), Verdict(sigOk, s, s.evs[q]);
    JudgeThenCommitAppends(key, sigOk, s, p, q);
    PermittedVerdict(sigOk, s, s.evs[p], m);
    PermittedVerdict(sigOk, s, s.evs[q], m);
    TwoFreshKeys(s.log, i, j);
    TwoRowsBreakCap(s.log, i, j, m);
  }

  lemma TwoFreshKeys(log: seq<Intent>, i: Intent, j: Intent)
    requires i.who == j.who && i.key != j.key && !KeyTaken(log, i.who.agentId, i.key) && !KeyTaken(log, j.who.agentId, j.key)
    ensures Inserted(Inserted(log, i), j) == log + [i] + [j]
  {
    forall k | 0 <= k < |log| + 1 ensures !HasKey((log + [i])[k], j.who.agentId, j.key) {
      if k < |log| { assert !HasKey(log[k], j.who.agentId, j.key); }
    }
  }

  /** Some run of the sessions in flight, nobody arriving, breaks a budget. */
  ghost predicate CanOverspend(key: string -> int, sigOk: Mandate -> bool, s: Store) {
    exists end :: Reaches(key, sigOk, s, end) && !WithinBudgets(end.log)
  }

  lemma SameLastKeepsBudgets(key: string -> int, sigOk: Mandate -> bool, s: Store, p: Pid, q: Pid, k: int, steps: seq<Step>)
    requires EndsIn(key, s, p, q, k) && Inv(key, sigOk, s, false) && NoArrivals(steps) && Play(Stepper(key, sigOk), s, steps).Some?
    ensures WithinBudgets(Play(Stepper(key, sigOk), s, steps).value.log)
  {
    var step := Stepper(key, sigOk);
    var inv := (x: Store) => EndsIn(key, x, p, q, k) && Inv(key, sigOk, x, false);
    forall x, st | inv(x) && st in steps && step(x, st).Some? ensures inv(step(x, st).value) {
      EndsInStep(key, sigOk, x, st, p, q, k);
      StepKeepsInv(key, sigOk, x, st, false);
    }
    PlayKeeps(step, inv, s, steps);
  }

  lemma PoisedIsSound(key: string -> int, sigOk: Mandate -> bool, s: Store, p: Pid, q: Pid)
    requires Poised(s, p, q) && Sound(s.log) && LastKey(key, s.evs[p].ids) == LastKey(key, s.evs[q].ids)
    ensures Inv(key, sigOk, s, false) && EndsIn(key, s, p, q, LastKey(key, s.evs[p].ids))
  {
  }

  lemma RivalsOverspend(key: string -> int, sigOk: Mandate -> bool, s: Store, mid: Store, p: Pid, q: Pid, m: Mandate)
    requires Poised(s, p, q) && Rivals(sigOk, s, s.evs[p], s.evs[q], m) && PassedTogether(s, mid, p, q)
    ensures CanOverspend(key, sigOk, mid)
  {
    TogetherTheyOverspend(key, sigOk, mid, p, q, m);
    JudgingReaches(key, sigOk, mid, p, q);
  }

  lemma JudgingReaches(key: string -> int, sigOk: Mandate -> bool, s: Store, p: Pid, q: Pid)
    requires Play(Stepper(key, sigOk), s, JudgeThenCommit(p, q)).Some?
    ensures Reaches(key, sigOk, s, Play(Stepper(key, sigOk), s, JudgeThenCommit(p, q)).value)
  {
    assert NoArrivals(JudgeThenCommit(p, q));
  }

  /** Why the last lock matters. Two rivals about to take their gates over a sound log can break the daily cap
      in some run if and only if their orders end in different locks. */
  lemma OverspendIffLastLocksDiffer(key: string -> int, sigOk: Mandate -> bool, s: Store, p: Pid, q: Pid, m: Mandate)
    requires Poised(s, p, q) && Injective(key) && Sound(s.log) && Rivals(sigOk, s, s.evs[p], s.evs[q], m)
    ensures CanOverspend(key, sigOk, s) <==> LastKey(key, s.evs[p].ids) != LastKey(key, s.evs[q].ids)
  {
    if LastKey(key, s.evs[p].ids) != LastKey(key, s.evs[q].ids) {
      var mid := BothGetThrough(key, sigOk, s, p, q);
      RivalsOverspend(key, sigOk, s, mid, p, q, m);
      var end :| Reaches(key, sigOk, mid, end) && !WithinBudgets(end.log);
      ReachesOn(key, sigOk, s, mid, end);
    } else {
      PoisedIsSound(key, sigOk, s, p, q);
      SameLastIsSafe(key, sigOk, s, p, q, LastKey(key, s.evs[p].ids));
    }
  }

  lemma SameLastIsSafe(key: string -> int, sigOk: Mandate -> bool, s: Store, p: Pid, q: Pid, k: int)
    requires EndsIn(key, s, p, q, k) && Inv(key, sigOk, s, false)
    ensures !CanOverspend(key, sigOk, s)
  {
    forall end | Reaches(key, sigOk, s, end) ensures WithinBudgets(end.log) {
      var steps :| NoArrivals(steps) && Play(Stepper(key, sigOk), s, steps) == Some(end);
      SameLastKeepsBudgets(key, sigOk, s, p, q, k, steps);
    }
  }

  // ------------------------------------------------------------------ the run

  const AGENT: Who := Who("agent", "default")

  /** Ten a payment and ten a day. */
  function Ten(id: string): Mandate {
    Mandate(id, "user", AGENT, 10, 10, None, None, None, "INR", None, None, None, 0, DAY, ACTIVE, None, None)
  }

  /** A first session arrives under mandate "a", then "b" is created, then a second session arrives. */
  function Arrivals(): seq<Step> {
    [Begin(0, AGENT, "first", Proposal("shop", 6, "INR", None), 0), ChangeTable(Create(Ten("b"), "INR", true)),
     Begin(1, AGENT, "second", Proposal("shop", 6, "INR", None), 0)]
  }

  /** The second session takes "a" and then "b", which lets "a" go; the first takes "a"; both judge and commit. */
  ghost function OverspendingRun(): seq<Step> {
    Arrivals() + TakeAll(1, 2) + TakeAll(0, 1) + JudgeThenCommit(0, 1)
  }

  lemma ActiveTen()
    ensures ActiveMandates([Ten("a")], AGENT, 0) == [Ten("a")]
  {
    TighterOrders();
    assert multiset(LiveRows([Ten("a")], AGENT, 0)) == multiset([Ten("a")]);
    SortedIs(TighterOrSame, LiveRows([Ten("a")], AGENT, 0), [Ten("a")]);
  }

  lemma ActiveTens()
    ensures ActiveMandates([Ten("a"), Ten("b")], AGENT, 0) == [Ten("a"), Ten("b")]
  {
    TighterOrders();
    assert multiset(LiveRows([Ten("a"), Ten("b")], AGENT, 0)) == multiset([Ten("a"), Ten("b")]);
    assert StrLe("a", "b") && !StrLe("b", "a");
    SortedIs(TighterOrSame, LiveRows([Ten("a"), Ten("b")], AGENT, 0), [Ten("a"), Ten("b")]);
  }

  lemma TenOrders()
    ensures LockOrder([Ten("a")]) == ["a"] && LockOrder([Ten("a"), Ten("b")]) == ["a", "b"]
  {
    StrLeOrders();
    assert Ids([Ten("a")]) == ["a"] && Ids([Ten("a"), Ten("b")]) == ["a", "b"];
    SortedIs(StrLe, ["a"], ["a"]);
    assert StrLe("a", "b") && !StrLe("b", "a");
    SortedIs(StrLe, ["a", "b"], ["a", "b"]);
  }

  function Arrived(): Store {
    Store([Ten("a"), Ten("b")], [], map[],
          map[0 := Acquiring(AGENT, "first", Proposal("shop", 6, "INR", None), 0, ["a"], 0),
              1 := Acquiring(AGENT, "second", Proposal("shop", 6, "INR", None), 0, ["a", "b"], 0)])
  }

  lemma ArrivalsLead(key: string -> int, sigOk: Mandate -> bool)
    ensures Play(Stepper(key, sigOk), Fresh([Ten("a")]), Arrivals()) == Some(Arrived())
  {
    var st := Arrivals();
    FirstArrives(key, sigOk);
    SecondArrives(key, sigOk);
    PlayThree(Stepper(key, sigOk), Fresh([Ten("a")]), FirstIn([Ten("a")]), FirstIn([Ten("a"), Ten("b")]), Arrived(), st);
  }

  /** The first session under way. */
  function FirstIn(rows: seq<Mandate>): Store {
    Store(rows, [], map[], map[0 := Acquiring(AGENT, "first", Proposal("shop", 6, "INR", None), 0, ["a"], 0)])
  }

  lemma FirstArrives(key: string -> int, sigOk: Mandate -> bool)
    ensures Stepper(key, sigOk)(Fresh([Ten("a")]), Arrivals()[0]) == Some(FirstIn([Ten("a")]))
  {
    ActiveTen();
    TenOrders();
  }

  lemma SecondArrives(key: string -> int, sigOk: Mandate -> bool)
    ensures Stepper(key, sigOk)(FirstIn([Ten("a")]), Arrivals()[1]) == Some(FirstIn([Ten("a"), Ten("b")]))
    ensures Stepper(key, sigOk)(FirstIn([Ten("a"), Ten("b")]), Arrivals()[2]) == Some(Arrived())
  {
    ActiveTens();
    TenOrders();
    assert Upper("INR") == "INR";
    assert Evolve([Ten("a")], Arrivals()[1].change) == [Ten("a"), Ten("b")];
  }

  lemma PlayThree<S, T>(step: (S, T) -> Option<S>, s: S, s1: S, s2: S, s3: S, steps: seq<T>)
    requires |steps| == 3
    requires step(s, steps[0]) == Some(s1) && step(s1, steps[1]) == Some(s2) && step(s2, steps[2]) == Some(s3)
    ensures Play(step, s, steps) == Some(s3)
  {
    assert steps[1..][1..][1..] == [];
    assert Play(step, s3, steps[1..][1..][1..]) == Some(s3);
    assert Play(step, s2, steps[1..][1..]) == Some(s3);
    assert Play(step, s1, steps[1..]) == Some(s3);
  }

  lemma TensPermitSix(sigOk: Mandate -> bool, s: Store)
    requires AcceptsUnsigned(sigOk) && s.rows == [Ten("a"), Ten("b")] && s.log == []
    ensures Permits(sigOk, s, Ten("a"), Proposal("shop", 6, "INR", None), 0) && Spent(s.log, Ten("a"), Daily, 0) == 0
  {
    ActiveTens();
    var active, p := [Ten("a"), Ten("b")], Proposal("shop", 6, "INR", None);
    forall m | m in active ensures CheckOne(sigOk, [], m, p, 0).Passed? {
      assert sigOk(m);
    }
    FirstRefusalFinds(sigOk, active, [], p, 0);
  }

  /** The two sessions that have arrived are such rivals, about to take gates that end in different locks. */
  lemma ArrivedAreRivals(key: string -> int, sigOk: Mandate -> bool)
    requires Injective(key) && AcceptsUnsigned(sigOk)
    ensures var s := Arrived();
            && Poised(s, 0, 1) && Sound(s.log) && Rivals(sigOk, s, s.evs[0], s.evs[1], Ten("a"))
            && LastKey(key, s.evs[0].ids) != LastKey(key, s.evs[1].ids)
  {
    TensPermitSix(sigOk, Arrived());
    assert Arrived().evs[0].ids == ["a"] && Arrived().evs[1].ids == ["a", "b"];
    assert "a" != "b";
  }

  /** On Postgres the run above, from a table with one mandate and an empty log, ends with both payments of six
      held under a cap of ten. */
  lemma TwoSessionsOverspend(key: string -> int, sigOk: Mandate -> bool)
    requires Injective(key) && AcceptsUnsigned(sigOk)
    ensures var end := Play(Stepper(key, sigOk), Fresh([Ten("a")]), OverspendingRun());
            end.Some? && !WithinBudgets(end.value.log)
  {
    ArrivalsLead(key, sigOk);
    var t, u := ArrivedGetThrough(key, sigOk);
    TogetherTheyOverspend(key, sigOk, u, 0, 1, Ten("a"));
    PlayParts(Stepper(key, sigOk), Fresh([Ten("a")]), Arrivals(), Arrived(), TakeAll(1, 2), t, TakeAll(0, 1), u, JudgeThenCommit(0, 1));
  }

  lemma ArrivedGetThrough(key: string -> int, sigOk: Mandate -> bool) returns (t: Store, u: Store)
    requires Injective(key) && AcceptsUnsigned(sigOk)
    ensures Play(Stepper(key, sigOk), Arrived(), TakeAll(1, 2)) == Some(t) && Play(Stepper(key, sigOk), t, TakeAll(0, 1)) == Some(u)
    ensures BothReady(u, 0, 1) && Rivals(sigOk, u, u.evs[0], u.evs[1], Ten("a"))
  {
    CanTakeAll(key, sigOk, Arrived(), 1);
    t := Play(Stepper(key, sigOk), Arrived(), TakeAll(1, 2)).value;
    CanTakeAll(key, sigOk, t, 0);
    u := Play(Stepper(key, sigOk), t, TakeAll(0, 1)).value;
    TensPermitSix(sigOk, u);
  }

  lemma PlayParts<S, T>(step: (S, T) -> Option<S>, s: S, a: seq<T>, x: S, b: seq<T>, y: S, c: seq<T>, z: S, d: seq<T>)
    requires Play(step, s, a) == Some(x) && Play(step, x, b) == Some(y) && Play(step, y, c) == Some(z)
    ensures Play(step, s, a + b + c + d) == Play(step, z, d)
  {
    PlayCompose(step, s, a, b);
    PlayCompose(step, s, a + b, c);
    PlayCompose(step, s, a + b + c, d);
  }
}
