/** The re-entrant thread lock with its cross-process half (ghostchimera/state_io.py). */
module StateLock {
  import opened Wrappers

  /** One `_PathLock` of one process: the `RLock` (owner and count), the depth, and whether it
      holds a descriptor of the locked sidecar file. */
  datatype LockState = LockState(owner: Option<nat>, count: nat, depth: nat, fd: bool)

  const FREE := LockState(None, 0, 0, false)

  predicate Available(l: LockState, tid: nat) { l.owner == None || l.owner == Some(tid) }

  function ThreadAcquired(l: LockState, tid: nat): LockState { l.(owner := Some(tid), count := l.count + 1) }

  function ThreadReleased(l: LockState): LockState
    requires l.count > 0
  {
    if l.count == 1 then l.(owner := None, count := 0) else l.(count := l.count - 1)
  }

  function OsAcquired(l: LockState): LockState { l.(depth := l.depth + 1, fd := true) }

  function Deeper(l: LockState): LockState { l.(depth := l.depth + 1) }

  function Released(l: LockState): LockState
    requires l.count > 0 && l.depth > 0
  {
    ThreadReleased(if l.depth == 1 then l.(depth := 0, fd := false) else l.(depth := l.depth - 1))
  }

  /** The owner's `RLock` count is the depth, and the file is locked exactly while it is positive. */
  predicate Consistent(l: LockState) {
    && (l.owner == None <==> l.count == 0)
    && l.count == l.depth
    && (l.fd <==> l.depth > 0)
  }

  class PathLock {
    var owner: Option<nat>
    var count: nat
    var depth: nat
    var fd: bool

    function View(): LockState
      reads this
    {
      LockState(owner, count, depth, fd)
    }

    constructor ()
      ensures View() == FREE && Consistent(View())
    {
      owner, count, depth, fd := None, 0, 0, false;
    }

    /** `acquire`, from the moment the `RLock` is granted to `tid`; `osOk` says whether
        `_os_lock`, when it is called, returns or raises.  A failure leaves no trace, and a
        re-entry never asks the operating system. */
    method Acquire(tid: nat, osOk: bool) returns (ok: bool)
      requires Consistent(View()) && Available(View(), tid)
      modifies this
      ensures ok == (old(depth) > 0 || osOk)
      ensures View() == (if !ok then old(View())
                         else if old(depth) == 0 then OsAcquired(ThreadAcquired(old(View()), tid))
                         else Deeper(ThreadAcquired(old(View()), tid)))
      ensures Consistent(View()) && (ok ==> owner == Some(tid) && depth == old(depth) + 1)
    {
      owner, count := Some(tid), count + 1;
      if depth == 0 {
        if !osOk {
          count := count - 1;
          if count == 0 { owner := None; }
          return false;
        }
        fd := true;
      }
      depth := depth + 1;
      return true;
    }

    /** `release` by the owner: the last one frees both locks. */
    method Release()
      requires Consistent(View()) && depth > 0
      modifies this
      ensures View() == Released(old(View()))
      ensures Consistent(View()) && depth == old(depth) - 1
      ensures depth == 0 ==> View() == FREE
    {
      depth := depth - 1;
      if depth == 0 && fd { fd := false; }
      count := count - 1;
      if count == 0 { owner := None; }
    }
  }

  /** `n` nested releases undo `n` nested acquisitions of one thread. */
  function Reacquired(l: LockState, tid: nat, n: nat): LockState {
    if n == 0 then l
    else
      var before := ThreadAcquired(Reacquired(l, tid, n - 1), tid);
      if before.depth == 0 then OsAcquired(before) else Deeper(before)
  }

  lemma {:induction false} NestingIsCounted(l: LockState, tid: nat, n: nat)
    requires Consistent(l) && Available(l, tid)
    ensures var m := Reacquired(l, tid, n);
            && Consistent(m) && m.depth == l.depth + n && (n > 0 ==> m.owner == Some(tid))
            && (n > 0 ==> Released(m) == Reacquired(l, tid, n - 1))
  {
    if n > 0 {
      NestingIsCounted(l, tid, n - 1);
      if n == 1 && l.depth == 0 { assert l == FREE; }
    }
  }
}
