/**
 * DRIVER_CONTEXT: the driver's one piece of shared state.  The C driver
 * keeps it in a zero-initialised global; here it is an object that the
 * dispatcher, the callback and the unload routine receive explicitly.
 * The spin lock that serialises access to the registry is not modelled:
 * each registry operation and each membership scan is taken to be atomic.
 */
module Context {
  import opened Ntdef
  import opened DriverH
  import opened Kernel
  import Registry

  class DriverContext {
    /** DeviceObject; None is NULL. */
    var deviceObject: Option<Handle>
    /** ObCallbackHandle; None is NULL, meaning the callback is not installed. */
    var obCallbackHandle: Option<Handle>
    /** ProtectedPids: MAX_PROTECTED_PIDS slots, of which the first protectedPidCount are in use. */
    const protectedPids: array<u32>
    /** ProtectedPidCount. */
    var protectedPidCount: nat

    /** The registry invariant every registry operation keeps. */
    ghost predicate Valid()
      reads this, protectedPids
    {
      protectedPids.Length == MAX_PROTECTED_PIDS &&
      protectedPidCount <= MAX_PROTECTED_PIDS &&
      Registry.NoDuplicates(protectedPids[..protectedPidCount])
    }

    /** The registry as a value: the slots in use, in slot order. */
    ghost function Protected(): (pids: seq<u32>)
      reads this, protectedPids
      requires Valid()
      ensures Registry.Valid(pids)
    {
      protectedPids[..protectedPidCount]
    }

    /** The zero-initialised global: no device, no callback, every slot 0, count 0. */
    constructor ()
      ensures Valid() && fresh(protectedPids)
      ensures Protected() == [] && protectedPids[..] == seq(MAX_PROTECTED_PIDS, _ => 0)
      ensures deviceObject == None && obCallbackHandle == None
    {
      deviceObject := None;
      obCallbackHandle := None;
      protectedPids := new u32[MAX_PROTECTED_PIDS](_ => 0);
      protectedPidCount := 0;
    }

    /**
     * The linear membership scan over the slots in use, stopping at the
     * first match.  Returns whether `pid` is protected and, when it is, the
     * slot holding it, which is its first (and only) slot.
     */
    method Find(pid: u32) returns (found: bool, slot: nat)
      requires Valid()
      ensures found <==> pid in Protected()
      ensures found ==> slot == Registry.IndexOf(Protected(), pid) && slot < protectedPidCount
      ensures !found ==> slot == protectedPidCount
    {
      found, slot := false, 0;
      while slot < protectedPidCount
        invariant slot <= protectedPidCount
        invariant forall j :: 0 <= j < slot ==> protectedPids[j] != pid
      {
        if protectedPids[slot] == pid {
          found := true;
          break;
        }
        slot := slot + 1;
      }
      assert found ==> Protected()[slot] == pid;
      assert !found ==> forall j :: 0 <= j < protectedPidCount ==> Protected()[j] != pid;
    }
  }
}
