/** Runs of a state machine whose step may be disabled. */
module Runs {
  import opened Text

  /** The state after a sequence of steps, if every one of them was enabled. */
  ghost function Play<S, T>(step: (S, T) -> Option<S>, s: S, ts: seq<T>): Option<S>
    decreases |ts|
  {
    if |ts| == 0 then Some(s)
    else match step(s, ts[0])
      case None => None
      case Some(next) => Play(step, next, ts[1..])
  }

  lemma PlayFirst<S, T>(step: (S, T) -> Option<S>, s: S, t: T, rest: seq<T>)
    requires step(s, t).Some?
    ensures Play(step, s, [t] + rest) == Play(step, step(s, t).value, rest)
  {
    assert ([t] + rest)[1..] == rest;
  }

  /** Each step leads from one listed state to the next. */
  ghost predicate Through<S(!new), T(!new)>(step: (S, T) -> Option<S>, states: seq<S>, ts: seq<T>) {
    |states| == |ts| + 1 && forall i :: 0 <= i < |ts| ==> Leads(step, states, ts, i)
  }

  ghost predicate Leads<S(!new), T(!new)>(step: (S, T) -> Option<S>, states: seq<S>, ts: seq<T>, i: nat)
    requires i < |ts| < |states|
  {
    step(states[i], ts[i]) == Some(states[i + 1])
  }

  lemma {:induction false} PlayThrough<S(!new), T(!new)>(step: (S, T) -> Option<S>, states: seq<S>, ts: seq<T>)
    requires Through(step, states, ts)
    ensures Play(step, states[0], ts) == Some(states[|ts|])
    decreases |ts|
  {
    if |ts| > 0 {
      assert Leads(step, states, ts, 0);
      forall i | 0 <= i < |ts| - 1 ensures Leads(step, states[1..], ts[1..], i) {
        assert Leads(step, states, ts, i + 1);
      }
      PlayThrough(step, states[1..], ts[1..]);
    }
  }

  lemma {:induction false} PlayCompose<S, T>(step: (S, T) -> Option<S>, s: S, a: seq<T>, b: seq<T>)
    requires Play(step, s, a).Some?
    ensures Play(step, s, a + b) == Play(step, Play(step, s, a).value, b)
    decreases |a|
  {
    if |a| == 0 {
      assert a + b == b;
    } else {
      assert (a + b)[1..] == a[1..] + b;
      PlayCompose(step, step(s, a[0]).value, a[1..], b);
    }
  }

  /** What every enabled step keeps, every run keeps. */
  lemma {:induction false} PlayKeeps<S(!new), T(!new)>(step: (S, T) -> Option<S>, inv: S -> bool, s: S, ts: seq<T>)
    requires inv(s) && Play(step, s, ts).Some?
    requires forall x, t :: inv(x) && t in ts && step(x, t).Some? ==> inv(step(x, t).value)
    ensures inv(Play(step, s, ts).value)
    decreases |ts|
  {
    if |ts| > 0 {
      assert ts[0] in ts;
      PlayKeeps(step, inv, step(s, ts[0]).value, ts[1..]);
    }
  }

  /** Every step of a run is taken in a state in which `ok` allows it. */
  ghost predicate Along<S, T>(step: (S, T) -> Option<S>, ok: (S, T) -> bool, s: S, ts: seq<T>)
    decreases |ts|
  {
    |ts| == 0 || (ok(s, ts[0]) && (step(s, ts[0]).Some? ==> Along(step, ok, step(s, ts[0]).value, ts[1..])))
  }

  /** What every allowed step keeps, every run of allowed steps keeps. */
  lemma {:induction false} PlayKeepsAlong<S(!new), T(!new)>(step: (S, T) -> Option<S>, ok: (S, T) -> bool, inv: S -> bool, s: S, ts: seq<T>)
    requires inv(s) && Play(step, s, ts).Some? && Along(step, ok, s, ts)
    requires forall x, t :: inv(x) && ok(x, t) && step(x, t).Some? ==> inv(step(x, t).value)
    ensures inv(Play(step, s, ts).value)
    decreases |ts|
  {
    if |ts| > 0 { PlayKeepsAlong(step, ok, inv, step(s, ts[0]).value, ts[1..]); }
  }
}
