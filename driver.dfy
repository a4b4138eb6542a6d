/**
 * driver.cpp: the IOCTL dispatcher with the in-place protect and unprotect
 * commands on the registry, and the unload routine's cleanup order.
 */
module Driver {
  import opened Ntdef
  import opened DriverH
  import opened Kernel
  import Registry
  import opened Context
  import Callbacks
  import Process

  /**
   * The protect command on the registry held in place.  A full registry is
   * refused before the scan.  Otherwise the slots in use are scanned for
   * `pid`, and when it is not found it is stored in the first free slot
   * and the count grows by one.  The slots in use afterwards are exactly
   * Registry.Add of those before, with the same status; slots past the new
   * count are untouched.
   */
  method ProtectProcess(ctx: DriverContext, pid: u32) returns (status: NtStatus)
    requires ctx.Valid()
    modifies ctx.protectedPids, ctx`protectedPidCount
    ensures ctx.Valid()
    ensures Registry.Add(old(ctx.Protected()), pid) == Registry.Update(status, ctx.Protected())
    ensures forall k :: ctx.protectedPidCount <= k < MAX_PROTECTED_PIDS ==>
      ctx.protectedPids[k] == old(ctx.protectedPids[k])
  {
    if ctx.protectedPidCount >= MAX_PROTECTED_PIDS {
      return STATUS_INSUFFICIENT_RESOURCES;
    }
    var found := false;
    var i := 0;
    while i < ctx.protectedPidCount
      invariant i <= ctx.protectedPidCount
      invariant !found && forall j :: 0 <= j < i ==> ctx.protectedPids[j] != pid
    {
      if ctx.protectedPids[i] == pid {
        found := true;
        break;
      }
      i := i + 1;
    }
    assert found <==> pid in ctx.Protected();
    if !found {
      ctx.protectedPids[ctx.protectedPidCount] := pid;
      ctx.protectedPidCount := ctx.protectedPidCount + 1;
      assert ctx.Protected() == old(ctx.Protected()) + [pid];
    }
    return STATUS_SUCCESS;
  }

  /**
   * The unprotect command on the registry held in place: the first slot
   * holding `pid`, if any, receives the last slot in use, and the count
   * drops by one; the old last slot keeps its stale value.  The slots in
   * use afterwards are exactly Registry.Remove of those before.  It always
   * succeeds.
   */
  method UnprotectProcess(ctx: DriverContext, pid: u32) returns (status: NtStatus)
    requires ctx.Valid()
    modifies ctx.protectedPids, ctx`protectedPidCount
    ensures status == STATUS_SUCCESS
    ensures ctx.Valid()
    ensures ctx.Protected() == Registry.Remove(old(ctx.Protected()), pid)
    ensures forall k :: ctx.protectedPidCount <= k < MAX_PROTECTED_PIDS ==>
      ctx.protectedPids[k] == old(ctx.protectedPids[k])
  {
    ghost var before := ctx.Protected();
    Registry.RemoveSpec(before, pid);
    var i := 0;
    while i < ctx.protectedPidCount
      invariant i <= ctx.protectedPidCount == |before|
      invariant ctx.protectedPids[..] == old(ctx.protectedPids[..])
      invariant forall j :: 0 <= j < i ==> before[j] != pid
    {
      if ctx.protectedPids[i] == pid {
        ghost var n := ctx.protectedPidCount;
        assert Registry.IndexOf(before, pid) == i;
        ctx.protectedPids[i] := ctx.protectedPids[ctx.protectedPidCount - 1];
        ctx.protectedPidCount := ctx.protectedPidCount - 1;
        assert ctx.protectedPids[..n - 1] == before[i := before[n - 1]][..n - 1];
        return STATUS_SUCCESS;
      }
      i := i + 1;
    }
    assert Registry.IndexOf(before, pid) == |before|;
    return STATUS_SUCCESS;
  }

  /** What the kernel reports to the commands that call into it. */
  datatype Services = Services(
    snapshot: Process.SnapshotService,
    open: Process.OpenResult,
    terminateStatus: NtStatus)

  /**
   * DispatchDeviceControl.  `input` is the InputBufferLength bytes of the
   * request; `output` is the OutputBufferLength-byte buffer the enumeration
   * writes.  BytesWritten is 0 except for the enumeration.  Each command
   * that carries a PROCESS_REQUEST is refused with STATUS_BUFFER_TOO_SMALL,
   * before anything is read or changed, when the input is shorter than
   * one.  Freeze and unfreeze are not handled in the kernel; any other code
   * is an invalid request.  The registry invariant holds after every call,
   * and no call leaks a handle or a pool block.
   */
  method DispatchDeviceControl(ctx: DriverContext, ioctl: u32, input: seq<u8>,
                               output: Process.OutputBuffer, services: Services)
    returns (status: NtStatus, bytesWritten: u32, ghost trace: seq<KernelCall>)
    requires ctx.Valid() && output.Valid() && services.snapshot.Valid()
    modifies ctx.protectedPids, ctx`protectedPidCount, output, output.records
    ensures ctx.Valid() && Balanced(trace)
    ensures ioctl == IOCTL_ENUM_PROCESSES ==>
      var r := Process.Enumerate(output.size, services.snapshot);
      status == r.status && bytesWritten == r.bytesWritten &&
      ctx.Protected() == old(ctx.Protected()) &&
      (r.header.Some? ==> output.header == r.header.value &&
                          output.records[..] == r.records + old(output.records[..])[|r.records|..])
    ensures ioctl != IOCTL_ENUM_PROCESSES ==> bytesWritten == 0
    ensures ioctl != IOCTL_ENUM_PROCESSES || Process.Enumerate(output.size, services.snapshot).header.None? ==>
      output.header == old(output.header) && output.records[..] == old(output.records[..])
    ensures ioctl in {IOCTL_KILL_PROCESS, IOCTL_PROTECT_PROCESS, IOCTL_UNPROTECT_PROCESS} &&
            |input| < PROCESS_REQUEST_SIZE ==>
      status == STATUS_BUFFER_TOO_SMALL && trace == [] &&
      ctx.protectedPidCount == old(ctx.protectedPidCount) && ctx.protectedPids[..] == old(ctx.protectedPids[..])
    ensures ioctl == IOCTL_KILL_PROCESS && |input| >= PROCESS_REQUEST_SIZE ==>
      var pid := ReadProcessRequest(input).processId;
      ctx.Protected() == old(ctx.Protected()) &&
      (Process.IsReservedPid(pid) ==> status == STATUS_ACCESS_DENIED && trace == []) &&
      (!Process.IsReservedPid(pid) && !NtSuccess(services.open.status) ==>
         status == services.open.status &&
         trace == [ZwOpenProcess(pid, PROCESS_TERMINATE, OBJ_KERNEL_HANDLE, None)]) &&
      (!Process.IsReservedPid(pid) && NtSuccess(services.open.status) ==>
         status == services.terminateStatus &&
         trace == [ZwOpenProcess(pid, PROCESS_TERMINATE, OBJ_KERNEL_HANDLE, Some(services.open.handle)),
                   ZwTerminateProcess(services.open.handle, STATUS_SUCCESS), ZwClose(services.open.handle)])
    ensures ioctl == IOCTL_PROTECT_PROCESS && |input| >= PROCESS_REQUEST_SIZE ==>
      Registry.Add(old(ctx.Protected()), ReadProcessRequest(input).processId) ==
      Registry.Update(status, ctx.Protected())
    ensures ioctl == IOCTL_UNPROTECT_PROCESS && |input| >= PROCESS_REQUEST_SIZE ==>
      status == STATUS_SUCCESS &&
      ctx.Protected() == Registry.Remove(old(ctx.Protected()), ReadProcessRequest(input).processId)
    ensures ioctl in {IOCTL_FREEZE_PROCESS, IOCTL_UNFREEZE_PROCESS} ==>
      status == STATUS_NOT_SUPPORTED && trace == [] && ctx.Protected() == old(ctx.Protected())
    ensures ioctl !in {IOCTL_ENUM_PROCESSES, IOCTL_KILL_PROCESS, IOCTL_FREEZE_PROCESS,
                       IOCTL_UNFREEZE_PROCESS, IOCTL_PROTECT_PROCESS, IOCTL_UNPROTECT_PROCESS} ==>
      status == STATUS_INVALID_DEVICE_REQUEST && trace == [] && ctx.Protected() == old(ctx.Protected())
  {
    IoctlCodesDisjoint();
    status := STATUS_SUCCESS;
    bytesWritten := 0;
    trace := [];
    if ioctl == IOCTL_ENUM_PROCESSES {
      status, bytesWritten, trace := Process.ProcessEnumerate(output, services.snapshot);
    } else if ioctl == IOCTL_KILL_PROCESS {
      if |input| < PROCESS_REQUEST_SIZE {
        status := STATUS_BUFFER_TOO_SMALL;
      } else {
        status, trace := Process.ProcessKill(ReadProcessRequest(input).processId,
                                             services.open, services.terminateStatus);
      }
    } else if ioctl == IOCTL_FREEZE_PROCESS || ioctl == IOCTL_UNFREEZE_PROCESS {
      status := STATUS_NOT_SUPPORTED;
    } else if ioctl == IOCTL_PROTECT_PROCESS {
      if |input| < PROCESS_REQUEST_SIZE {
        status := STATUS_BUFFER_TOO_SMALL;
      } else {
        status := ProtectProcess(ctx, ReadProcessRequest(input).processId);
      }
    } else if ioctl == IOCTL_UNPROTECT_PROCESS {
      if |input| < PROCESS_REQUEST_SIZE {
        status := STATUS_BUFFER_TOO_SMALL;
      } else {
        status := UnprotectProcess(ctx, ReadProcessRequest(input).processId);
      }
    } else {
      status := STATUS_INVALID_DEVICE_REQUEST;
    }
  }

  /**
   * DriverUnload: the protection callback is unregistered (when installed)
   * before the device object is deleted (when present); both end up NULL.
   */
  method DriverUnload(ctx: DriverContext) returns (ghost trace: seq<KernelCall>)
    modifies ctx`obCallbackHandle, ctx`deviceObject
    ensures ctx.obCallbackHandle == None && ctx.deviceObject == None
    ensures trace ==
      (if old(ctx.obCallbackHandle).Some? then [ObUnRegisterCallbacks(old(ctx.obCallbackHandle).value)] else []) +
      (if old(ctx.deviceObject).Some? then [IoDeleteDevice(old(ctx.deviceObject).value)] else [])
  {
    trace := Callbacks.UnregisterProtectCallbacks(ctx);
    if ctx.deviceObject.Some? {
      trace := trace + [IoDeleteDevice(ctx.deviceObject.value)];
      ctx.deviceObject := None;
    }
  }
}
