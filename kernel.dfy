/**
 * The kernel services the driver calls, seen from the driver: it does not
 * implement them, it only decides which to call, with what, and in which
 * order.  Each call the model makes is recorded as a KernelCall in a ghost
 * trace, so that "every handle is closed" and "the pool buffer is freed"
 * become statements about that trace.
 */
module Kernel {
  import opened Ntdef

  /** Opaque kernel handles and object pointers; a NULL one is None of an Option. */
  type Handle = nat

  // ---------- ObRegisterCallbacks arguments (wdm.h) ----------

  const OB_FLT_REGISTRATION_VERSION: u16 := 0x0100
  const OB_OPERATION_HANDLE_CREATE: Mask := 0x1
  const OB_OPERATION_HANDLE_DUPLICATE: Mask := 0x2

  /** The object types the driver registers for: only process objects. */
  datatype ObjectType = ProcessType

  /** The pre-operation routines this driver can name. */
  datatype PreOperationRoutine = OnPreOpenProcessRoutine

  datatype OperationRegistration = OperationRegistration(
    objectType: ObjectType,
    operations: Mask,
    preOperation: Option<PreOperationRoutine>,
    hasPostOperation: bool)

  datatype CallbackRegistration = CallbackRegistration(
    version: u16,
    altitude: string,
    registrationContext: Option<Handle>,
    operationRegistration: seq<OperationRegistration>)

  // ---------- other constants the driver passes ----------

  /** OBJ_KERNEL_HANDLE: the opened handle lives in the kernel handle table only. */
  const OBJ_KERNEL_HANDLE: u32 := 0x0200
  const POOL_FLAG_NON_PAGED: u64 := 0x40
  /** The multi-character constant 'ksyS' the driver tags its pool buffer with. */
  const POOL_TAG_KSYS: u32 := 0x6B73_7953
  /** SystemProcessInformation, the information class of the snapshot query. */
  const SYSTEM_PROCESS_INFORMATION: u32 := 5

  datatype KernelCall =
    | ObRegisterCallbacks(registration: CallbackRegistration)
    | ObUnRegisterCallbacks(registrationHandle: Handle)
    | IoDeleteDevice(device: Handle)
      /** `length` is the buffer length passed, 0 for the size probe. */
    | ZwQuerySystemInformation(infoClass: u32, length: u32)
      /** `granted` is the buffer returned, None when the allocation failed. */
    | ExAllocatePool2(flags: u64, size: u32, tag: u32, granted: Option<Handle>)
    | ExFreePoolWithTag(block: Handle, tag: u32)
      /** `result` is the handle returned, None when the open failed. */
    | ZwOpenProcess(processId: u32, access: Mask, attributes: u32, result: Option<Handle>)
    | ZwTerminateProcess(process: Handle, exitStatus: NtStatus)
    | NtSuspendProcess(process: Handle)
    | NtResumeProcess(process: Handle)
    | ZwClose(process: Handle)

  /** Number of process handles the trace opens. */
  function HandlesOpened(trace: seq<KernelCall>): nat {
    if trace == [] then 0
    else HandlesOpened(trace[..|trace| - 1]) +
         (match trace[|trace| - 1] case ZwOpenProcess(_, _, _, Some(_)) => 1 case _ => 0)
  }

  /** Number of process handles the trace closes. */
  function HandlesClosed(trace: seq<KernelCall>): nat {
    if trace == [] then 0
    else HandlesClosed(trace[..|trace| - 1]) + (if trace[|trace| - 1].ZwClose? then 1 else 0)
  }

  /** Number of pool blocks the trace obtains. */
  function PoolAllocated(trace: seq<KernelCall>): nat {
    if trace == [] then 0
    else PoolAllocated(trace[..|trace| - 1]) +
         (match trace[|trace| - 1] case ExAllocatePool2(_, _, _, Some(_)) => 1 case _ => 0)
  }

  /** Number of pool blocks the trace releases. */
  function PoolFreed(trace: seq<KernelCall>): nat {
    if trace == [] then 0
    else PoolFreed(trace[..|trace| - 1]) + (if trace[|trace| - 1].ExFreePoolWithTag? then 1 else 0)
  }

  /** A trace that closes every handle it opens and frees every block it allocates. */
  predicate Balanced(trace: seq<KernelCall>) {
    HandlesOpened(trace) == HandlesClosed(trace) && PoolAllocated(trace) == PoolFreed(trace)
  }

  /** Appending one call changes each count by what that call contributes. */
  lemma CountsSnoc(t: seq<KernelCall>, c: KernelCall)
    ensures HandlesOpened(t + [c]) == HandlesOpened(t) + (match c case ZwOpenProcess(_, _, _, Some(_)) => 1 case _ => 0)
    ensures HandlesClosed(t + [c]) == HandlesClosed(t) + (if c.ZwClose? then 1 else 0)
    ensures PoolAllocated(t + [c]) == PoolAllocated(t) + (match c case ExAllocatePool2(_, _, _, Some(_)) => 1 case _ => 0)
    ensures PoolFreed(t + [c]) == PoolFreed(t) + (if c.ExFreePoolWithTag? then 1 else 0)
  {
    assert (t + [c])[..|t + [c]| - 1] == t;
  }
}
