/**
 * The protected-PID registry as a value: the first ProtectedPidCount slots
 * of DRIVER_CONTEXT.ProtectedPids, in slot order.  Add and Remove say what
 * the protect and unprotect commands do to it, in the order the driver
 * checks things; the imperative versions in module Driver are proved to
 * agree with them slot for slot.
 */
module Registry {
  import opened Ntdef
  import opened DriverH

  predicate NoDuplicates(pids: seq<u32>) {
    forall i, j :: 0 <= i < j < |pids| ==> pids[i] != pids[j]
  }

  /** The registry invariant: within capacity, each PID at most once. */
  predicate Valid(pids: seq<u32>) {
    |pids| <= MAX_PROTECTED_PIDS && NoDuplicates(pids)
  }

  /** Index of the first slot holding `pid`, or |pids| when there is none. */
  function IndexOf(pids: seq<u32>, pid: u32): (i: nat)
    ensures i <= |pids|
    ensures i < |pids| ==> pids[i] == pid
    ensures forall j :: 0 <= j < i ==> pids[j] != pid
  {
    if pids == [] then 0
    else if pids[0] == pid then 0
    else 1 + IndexOf(pids[1..], pid)
  }

  /** The result of a registry command: its status and the registry after it. */
  datatype Update = Update(status: NtStatus, pids: seq<u32>)

  /**
   * Protect.  A full registry is refused before it is searched, so the
   * refusal comes even when `pid` is already present; otherwise a present
   * PID is left alone and an absent one is appended.  On success `pid` is a
   * member and no other PID is gained or lost; the invariant is kept.
   */
  function Add(pids: seq<u32>, pid: u32): (r: Update)
    ensures r.status == (if |pids| < MAX_PROTECTED_PIDS then STATUS_SUCCESS else STATUS_INSUFFICIENT_RESOURCES)
    ensures r.status != STATUS_SUCCESS ==> r.pids == pids
    ensures |pids| < MAX_PROTECTED_PIDS && pid in pids ==> r.pids == pids
    ensures |pids| < MAX_PROTECTED_PIDS && pid !in pids ==> r.pids == pids + [pid]
    ensures r.status == STATUS_SUCCESS ==> pid in r.pids
    ensures forall x :: x != pid ==> (x in r.pids <==> x in pids)
    ensures Valid(pids) ==> Valid(r.pids)
  {
    if |pids| >= MAX_PROTECTED_PIDS then Update(STATUS_INSUFFICIENT_RESOURCES, pids)
    else if IndexOf(pids, pid) < |pids| then Update(STATUS_SUCCESS, pids)
    else Update(STATUS_SUCCESS, pids + [pid])
  }

  /**
   * Unprotect: an absent `pid` leaves the registry as it is; otherwise the
   * first slot holding `pid` receives the last entry, the registry shrinks
   * by one, and every other slot keeps its entry.
   */
  function Remove(pids: seq<u32>, pid: u32): (r: seq<u32>)
    ensures pid !in pids ==> r == pids
    ensures pid in pids ==> |r| == |pids| - 1
    ensures IndexOf(pids, pid) < |r| ==> r[IndexOf(pids, pid)] == pids[|pids| - 1]
    ensures forall k :: 0 <= k < |r| && k != IndexOf(pids, pid) ==> r[k] == pids[k]
  {
    var i := IndexOf(pids, pid);
    if i == |pids| then pids else pids[i := pids[|pids| - 1]][..|pids| - 1]
  }

  /**
   * What Remove promises on a valid registry: `pid` is no longer a member,
   * every other member stays, the size drops by one exactly when `pid` was
   * present, and the invariant is kept.
   */
  lemma {:induction false} RemoveSpec(pids: seq<u32>, pid: u32)
    requires Valid(pids)
    ensures pid !in Remove(pids, pid)
    ensures forall x :: x != pid ==> (x in Remove(pids, pid) <==> x in pids)
    ensures |Remove(pids, pid)| == if pid in pids then |pids| - 1 else |pids|
    ensures pid !in pids ==> Remove(pids, pid) == pids
    ensures Valid(Remove(pids, pid))
  {
    var i := IndexOf(pids, pid);
    if i < |pids| {
      var n := |pids|;
      var r := Remove(pids, pid);
      assert |r| == n - 1;
      assert forall k :: 0 <= k < n - 1 ==> r[k] == if k == i then pids[n - 1] else pids[k];
      forall x | x != pid
        ensures x in r <==> x in pids
      {
        if x in pids {
          var k :| 0 <= k < n && pids[k] == x;
          if k == n - 1 {
            if i < n - 1 { assert r[i] == x; }
          } else {
            assert k != i && r[k] == x;
          }
        }
      }
      assert pid !in r by {
        forall k | 0 <= k < n - 1 ensures r[k] != pid {
          if k == i { assert pids[n - 1] != pids[i]; } else { assert pids[k] != pids[i]; }
        }
      }
    }
  }

  /** A registry command as the dispatcher receives it. */
  datatype Command = Protect(pid: u32) | Unprotect(pid: u32)

  function Apply(pids: seq<u32>, command: Command): seq<u32> {
    match command
    case Protect(pid) => Add(pids, pid).pids
    case Unprotect(pid) => Remove(pids, pid)
  }

  /** The registry after a sequence of commands, starting from `pids`. */
  function Replay(pids: seq<u32>, commands: seq<Command>): seq<u32>
    decreases |commands|
  {
    if commands == [] then pids else Replay(Apply(pids, commands[0]), commands[1..])
  }

  /**
   * Whatever sequence of protect and unprotect commands arrives, starting
   * from the zero-initialised (empty) registry or any valid one, the
   * registry stays within capacity and free of duplicates.
   */
  lemma {:induction false} ReplayKeepsValid(pids: seq<u32>, commands: seq<Command>)
    requires Valid(pids)
    ensures Valid(Replay(pids, commands))
    decreases |commands|
  {
    if commands != [] {
      match commands[0] {
        case Protect(pid) =>
        case Unprotect(pid) => RemoveSpec(pids, pid);
      }
      ReplayKeepsValid(Apply(pids, commands[0]), commands[1..]);
    }
  }
}
