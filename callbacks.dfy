/**
 * The object-open callback that strips the terminate and suspend/resume
 * rights from handles opened to a protected process, and its installation
 * and removal.
 */
module Callbacks {
  import opened Ntdef
  import opened DriverH
  import opened Kernel
  import opened Context

  const OB_PREOP_SUCCESS: u32 := 0

  /** The two rights a protected process never hands out. */
  const STRIPPED_RIGHTS: Mask := PROCESS_TERMINATE | PROCESS_SUSPEND_RESUME

  /**
   * `DesiredAccess &= ~(PROCESS_TERMINATE | PROCESS_SUSPEND_RESUME)`: the
   * result asks for no right that `access` did not ask for, asks for
   * neither stripped right, and keeps every other requested right.
   */
  function Narrow(access: Mask): (r: Mask)
    ensures r & access == r
    ensures r & PROCESS_TERMINATE == 0 && r & PROCESS_SUSPEND_RESUME == 0
    ensures r | (access & STRIPPED_RIGHTS) == access
  {
    access & !STRIPPED_RIGHTS
  }

  /** Narrowing twice is narrowing once. */
  lemma NarrowIdempotent(access: Mask)
    ensures Narrow(Narrow(access)) == Narrow(access)
  {
  }

  /**
   * The two DesiredAccess masks of OB_PRE_OPERATION_PARAMETERS: the one the
   * object manager reads for a handle creation and the one it reads for a
   * handle duplication.
   */
  datatype AccessRequest = AccessRequest(createDesiredAccess: Mask, duplicateDesiredAccess: Mask)

  /** `access`, narrowed when `strip` holds and untouched otherwise; never widened. */
  function NarrowWhen(strip: bool, access: Mask): (r: Mask)
    ensures r & access == r
    ensures r == if strip then Narrow(access) else access
  {
    if strip then Narrow(access) else access
  }

  /**
   * The masks the callback leaves behind.  A kernel handle, or a target
   * that is not protected, leaves both masks alone.  Every other create or
   * duplicate of a handle to a protected process, whoever asks for it, has
   * the mask belonging to the operation lose exactly the stripped rights;
   * no mask is ever widened.
   */
  function RewriteAccess(kernelHandle: bool, operation: Mask, targetProtected: bool, access: AccessRequest): (r: AccessRequest)
    ensures r.createDesiredAccess & access.createDesiredAccess == r.createDesiredAccess
    ensures r.duplicateDesiredAccess & access.duplicateDesiredAccess == r.duplicateDesiredAccess
    ensures kernelHandle || !targetProtected ==> r == access
    ensures r.createDesiredAccess != access.createDesiredAccess ==> operation == OB_OPERATION_HANDLE_CREATE
    ensures r.duplicateDesiredAccess != access.duplicateDesiredAccess ==> operation == OB_OPERATION_HANDLE_DUPLICATE
    ensures !kernelHandle && targetProtected && operation == OB_OPERATION_HANDLE_CREATE ==>
      r.createDesiredAccess == Narrow(access.createDesiredAccess)
    ensures !kernelHandle && targetProtected && operation == OB_OPERATION_HANDLE_DUPLICATE ==>
      r.duplicateDesiredAccess == Narrow(access.duplicateDesiredAccess)
  {
    var strip := !kernelHandle && targetProtected;
    AccessRequest(NarrowWhen(strip && operation == OB_OPERATION_HANDLE_CREATE, access.createDesiredAccess),
                  NarrowWhen(strip && operation == OB_OPERATION_HANDLE_DUPLICATE, access.duplicateDesiredAccess))
  }

  lemma RewriteAccessIdempotent(kernelHandle: bool, operation: Mask, targetProtected: bool, access: AccessRequest)
    ensures var once := RewriteAccess(kernelHandle, operation, targetProtected, access);
            RewriteAccess(kernelHandle, operation, targetProtected, once) == once
  {
  }

  /** OB_PRE_OPERATION_INFORMATION as far as the callback reads and writes it. */
  class OperationInformation {
    /** KernelHandle: the handle is a kernel handle (OBJ_KERNEL_HANDLE). */
    const kernelHandle: bool
    /** Operation: OB_OPERATION_HANDLE_CREATE or OB_OPERATION_HANDLE_DUPLICATE. */
    const operation: Mask
    /** PsGetProcessId(Object): the target process's id, pointer-sized. */
    const targetProcessId: u64
    /** Parameters->CreateHandleInformation.DesiredAccess. */
    var createDesiredAccess: Mask
    /** Parameters->DuplicateHandleInformation.DesiredAccess. */
    var duplicateDesiredAccess: Mask

    constructor (kernelHandle: bool, operation: Mask, targetProcessId: u64, createAccess: Mask, duplicateAccess: Mask)
      ensures this.kernelHandle == kernelHandle && this.operation == operation
      ensures this.targetProcessId == targetProcessId
      ensures createDesiredAccess == createAccess && duplicateDesiredAccess == duplicateAccess
    {
      this.kernelHandle := kernelHandle;
      this.operation := operation;
      this.targetProcessId := targetProcessId;
      createDesiredAccess := createAccess;
      duplicateDesiredAccess := duplicateAccess;
    }

    function Access(): AccessRequest
      reads this
    {
      AccessRequest(createDesiredAccess, duplicateDesiredAccess)
    }
  }

  /**
   * OnPreOpenProcess.  A kernel handle is let through before the registry
   * is consulted.  Otherwise the target's id, cut to a ULONG, is looked up
   * among the protected PIDs and, when present, the stripped rights are
   * cleared in place from the mask of the current operation.  The open is
   * never refused.
   */
  method OnPreOpenProcess(ctx: DriverContext, info: OperationInformation) returns (result: u32)
    requires ctx.Valid()
    modifies info
    ensures result == OB_PREOP_SUCCESS
    ensures info.Access() == RewriteAccess(info.kernelHandle, info.operation,
                                           Truncate32(info.targetProcessId) in ctx.Protected(), old(info.Access()))
  {
    if info.kernelHandle {
      return OB_PREOP_SUCCESS;
    }
    var targetPid := Truncate32(info.targetProcessId);
    var isProtected, _ := ctx.Find(targetPid);
    if isProtected {
      if info.operation == OB_OPERATION_HANDLE_CREATE {
        info.createDesiredAccess := Narrow(info.createDesiredAccess);
      } else if info.operation == OB_OPERATION_HANDLE_DUPLICATE {
        info.duplicateDesiredAccess := Narrow(info.duplicateDesiredAccess);
      }
    }
    return OB_PREOP_SUCCESS;
  }

  const ALTITUDE: string := "321000"

  /**
   * The registration RegisterProtectCallbacks hands to ObRegisterCallbacks:
   * one pre-operation routine, OnPreOpenProcess, for both handle creation
   * and handle duplication on process objects, no post-operation routine,
   * no context, at altitude "321000".
   */
  function ProtectRegistration(): (r: CallbackRegistration)
    ensures r.version == OB_FLT_REGISTRATION_VERSION && r.altitude == ALTITUDE
    ensures r.registrationContext == None && |r.operationRegistration| == 1
    ensures r.operationRegistration[0].objectType == ProcessType
    ensures r.operationRegistration[0].operations == OB_OPERATION_HANDLE_CREATE | OB_OPERATION_HANDLE_DUPLICATE
    ensures r.operationRegistration[0].preOperation == Some(OnPreOpenProcessRoutine)
    ensures !r.operationRegistration[0].hasPostOperation
  {
    var op := OperationRegistration(ProcessType, OB_OPERATION_HANDLE_CREATE | OB_OPERATION_HANDLE_DUPLICATE,
                                    Some(OnPreOpenProcessRoutine), false);
    CallbackRegistration(OB_FLT_REGISTRATION_VERSION, ALTITUDE, None, [op])
  }

  /** What ObRegisterCallbacks reports: its status and, on success, the registration handle. */
  datatype RegisterOutcome = RegisterOutcome(status: NtStatus, handle: Handle)

  /**
   * RegisterProtectCallbacks: one ObRegisterCallbacks call; on success the
   * handle it returns is stored in the context; its status is returned.
   */
  method RegisterProtectCallbacks(ctx: DriverContext, outcome: RegisterOutcome)
    returns (status: NtStatus, ghost trace: seq<KernelCall>)
    modifies ctx`obCallbackHandle
    ensures status == outcome.status
    ensures trace == [ObRegisterCallbacks(ProtectRegistration())]
    ensures NtSuccess(status) ==> ctx.obCallbackHandle == Some(outcome.handle)
    ensures !NtSuccess(status) ==> ctx.obCallbackHandle == old(ctx.obCallbackHandle)
  {
    trace := [ObRegisterCallbacks(ProtectRegistration())];
    status := outcome.status;
    if NtSuccess(status) {
      ctx.obCallbackHandle := Some(outcome.handle);
    }
  }

  /**
   * UnregisterProtectCallbacks: with no callback installed it does nothing;
   * otherwise it unregisters the installed one exactly once and clears the
   * handle, so a second call does nothing.
   */
  method UnregisterProtectCallbacks(ctx: DriverContext) returns (ghost trace: seq<KernelCall>)
    modifies ctx`obCallbackHandle
    ensures ctx.obCallbackHandle == None
    ensures old(ctx.obCallbackHandle) == None ==> trace == []
    ensures old(ctx.obCallbackHandle).Some? ==> trace == [ObUnRegisterCallbacks(old(ctx.obCallbackHandle).value)]
  {
    trace := [];
    if ctx.obCallbackHandle.Some? {
      trace := [ObUnRegisterCallbacks(ctx.obCallbackHandle.value)];
      ctx.obCallbackHandle := None;
    }
  }
}
