/** Locks held by sessions, and what a session's commit or rollback lets go of. */
module Locks {

  type Pid = nat

  function Without(locks: map<int, Pid>, pid: Pid): map<int, Pid> {
    map k | k in locks && locks[k] != pid :: locks[k]
  }

  predicate Free(locks: map<int, Pid>, k: int, pid: Pid) {
    k in locks ==> locks[k] == pid
  }

  /** Releasing after an acquisition is as if it had not happened; others' locks stay. */
  lemma ReleaseForgets(locks: map<int, Pid>, pid: Pid, k: int)
    requires Free(locks, k, pid)
    ensures Without(Without(locks, pid)[k := pid], pid) == Without(locks, pid)
    ensures forall x :: Free(Without(locks, pid)[k := pid], x, pid) <==> Free(locks, x, pid)
  {
  }
}
