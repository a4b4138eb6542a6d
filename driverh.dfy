/**
 * The shared declarations of driver.h: access-right bits, the IOCTL codes,
 * the layouts exchanged with user mode, and the capacity of the protected-PID
 * registry.  Struct sizes are those of the x64 build (SIZE_T is 8 bytes).
 */
module DriverH {
  import opened Ntdef

  // ---------- access rights that the kernel headers leave undefined ----------

  const PROCESS_TERMINATE: Mask      := 0x0001
  const PROCESS_SUSPEND_RESUME: Mask := 0x0800

  /** True when `m` has exactly one bit set. */
  predicate SingleBit(m: Mask) {
    m != 0 && m & (m - 1) == 0
  }

  lemma AccessRightBits()
    ensures SingleBit(PROCESS_TERMINATE) && SingleBit(PROCESS_SUSPEND_RESUME)
    ensures PROCESS_TERMINATE & PROCESS_SUSPEND_RESUME == 0
  {
  }

  // ---------- IOCTL codes ----------

  const DEVICE_TYPE_OPENSYSKIT: nat := 0x8000
  const METHOD_BUFFERED: nat := 0
  const FILE_ANY_ACCESS: nat := 0

  /**
   * CTL_CODE from the Windows headers: device type in bits 16-31, required
   * access in bits 14-15, function number in bits 2-13, transfer method in
   * bits 0-1.
   */
  function CtlCode(deviceType: nat, func: nat, transfer: nat, access: nat): u32
    requires deviceType < 0x1_0000 && func < 0x1000 && transfer < 4 && access < 4
  {
    (deviceType * 0x1_0000 + access * 0x4000 + func * 4 + transfer) as u32
  }

  function DeviceTypeOf(code: u32): nat { code as int / 0x1_0000 }
  function AccessOf(code: u32): nat { code as int / 0x4000 % 4 }
  function FunctionOf(code: u32): nat { code as int / 4 % 0x1000 }
  function MethodOf(code: u32): nat { code as int % 4 }

  /** The four fields packed by CtlCode can be read back unchanged. */
  lemma {:induction false} CtlCodeFields(deviceType: nat, func: nat, transfer: nat, access: nat)
    requires deviceType < 0x1_0000 && func < 0x1000 && transfer < 4 && access < 4
    ensures DeviceTypeOf(CtlCode(deviceType, func, transfer, access)) == deviceType
    ensures AccessOf(CtlCode(deviceType, func, transfer, access)) == access
    ensures FunctionOf(CtlCode(deviceType, func, transfer, access)) == func
    ensures MethodOf(CtlCode(deviceType, func, transfer, access)) == transfer
  {
    var code := CtlCode(deviceType, func, transfer, access) as int;
    DivModUnique(code, 0x1_0000, deviceType, access * 0x4000 + func * 4 + transfer);
    var q := deviceType * 0x4000 + access * 0x1000 + func;
    DivModUnique(code, 4, q, transfer);
    DivModUnique(q, 0x1000, deviceType * 4 + access, func);
    var q2 := deviceType * 4 + access;
    DivModUnique(code, 0x4000, q2, func * 4 + transfer);
    DivModUnique(q2, 4, deviceType, access);
  }

  /** Quotient and remainder are the only such pair. */
  lemma DivModUnique(x: int, d: int, q: int, r: int)
    requires 0 < d && x == q * d + r && 0 <= r < d
    ensures x / d == q && x % d == r
  {
    var q', r' := x / d, x % d;
    assert (q - q') * d == r' - r;
    if q > q' {
      MulAtLeast(q - q', d);
    } else if q < q' {
      MulAtLeast(q' - q, d);
    }
  }

  lemma MulAtLeast(a: int, d: int)
    requires 1 <= a && 0 < d
    ensures a * d >= d
  {
    assert a * d == (a - 1) * d + d;
    assert (a - 1) * d >= 0;
  }

  const IOCTL_ENUM_PROCESSES: u32    := CtlCode(DEVICE_TYPE_OPENSYSKIT, 0x800, METHOD_BUFFERED, FILE_ANY_ACCESS)
  const IOCTL_KILL_PROCESS: u32      := CtlCode(DEVICE_TYPE_OPENSYSKIT, 0x801, METHOD_BUFFERED, FILE_ANY_ACCESS)
  const IOCTL_FREEZE_PROCESS: u32    := CtlCode(DEVICE_TYPE_OPENSYSKIT, 0x802, METHOD_BUFFERED, FILE_ANY_ACCESS)
  const IOCTL_UNFREEZE_PROCESS: u32  := CtlCode(DEVICE_TYPE_OPENSYSKIT, 0x803, METHOD_BUFFERED, FILE_ANY_ACCESS)
  const IOCTL_PROTECT_PROCESS: u32   := CtlCode(DEVICE_TYPE_OPENSYSKIT, 0x804, METHOD_BUFFERED, FILE_ANY_ACCESS)
  const IOCTL_UNPROTECT_PROCESS: u32 := CtlCode(DEVICE_TYPE_OPENSYSKIT, 0x805, METHOD_BUFFERED, FILE_ANY_ACCESS)

  /**
   * Every IOCTL code is a buffered, any-access code of the driver's own
   * device type and carries its own function number, 0x800 to 0x805, so no
   * two of them are equal: the dispatcher's cases are disjoint.
   */
  lemma IoctlCodesDisjoint()
    ensures FunctionOf(IOCTL_ENUM_PROCESSES) == 0x800 && FunctionOf(IOCTL_KILL_PROCESS) == 0x801
    ensures FunctionOf(IOCTL_FREEZE_PROCESS) == 0x802 && FunctionOf(IOCTL_UNFREEZE_PROCESS) == 0x803
    ensures FunctionOf(IOCTL_PROTECT_PROCESS) == 0x804 && FunctionOf(IOCTL_UNPROTECT_PROCESS) == 0x805
    ensures forall code :: code in {IOCTL_ENUM_PROCESSES, IOCTL_KILL_PROCESS, IOCTL_FREEZE_PROCESS,
                                    IOCTL_UNFREEZE_PROCESS, IOCTL_PROTECT_PROCESS, IOCTL_UNPROTECT_PROCESS} ==>
      DeviceTypeOf(code) == DEVICE_TYPE_OPENSYSKIT && MethodOf(code) == METHOD_BUFFERED &&
      AccessOf(code) == FILE_ANY_ACCESS
    ensures |{IOCTL_ENUM_PROCESSES, IOCTL_KILL_PROCESS, IOCTL_FREEZE_PROCESS,
              IOCTL_UNFREEZE_PROCESS, IOCTL_PROTECT_PROCESS, IOCTL_UNPROTECT_PROCESS}| == 6
  {
    assert IOCTL_ENUM_PROCESSES == 0x8000_2000 && IOCTL_KILL_PROCESS == 0x8000_2004;
    assert IOCTL_FREEZE_PROCESS == 0x8000_2008 && IOCTL_UNFREEZE_PROCESS == 0x8000_200C;
    assert IOCTL_PROTECT_PROCESS == 0x8000_2010 && IOCTL_UNPROTECT_PROCESS == 0x8000_2014;
  }

  // ---------- structures exchanged with user mode ----------

  /** sizeof(PROCESS_REQUEST): one ULONG. */
  const PROCESS_REQUEST_SIZE: nat := 4

  /** Number of WCHAR units in PROCESS_INFO.ImageName, and its size in bytes. */
  const IMAGE_NAME_UNITS: nat := 260
  const WCHAR_SIZE: nat := 2
  const IMAGE_NAME_BYTES: nat := IMAGE_NAME_UNITS * WCHAR_SIZE

  /** sizeof(PROCESS_INFO): three ULONGs, padding to 8, a SIZE_T, the name. */
  const PROCESS_INFO_SIZE: nat := 4 + 4 + 4 + 4 + 8 + IMAGE_NAME_BYTES

  /** sizeof(PROCESS_LIST_HEADER): two ULONGs. */
  const PROCESS_LIST_HEADER_SIZE: nat := 8

  /** PROCESS_REQUEST: the single field of every kill / protect request. */
  datatype ProcessRequest = ProcessRequest(processId: u32)

  /** PROCESS_INFO: one enumerated process; imageName holds IMAGE_NAME_BYTES bytes. */
  datatype ProcessInfo = ProcessInfo(
    processId: u32,
    parentProcessId: u32,
    threadCount: u32,
    workingSetSize: u64,
    imageName: seq<u8>)

  /** PROCESS_LIST_HEADER. */
  datatype ProcessListHeader = ProcessListHeader(count: u32, totalSize: u32)

  /**
   * The request arrives as the bytes of the system buffer; the ULONG is
   * little-endian, as on every platform the driver builds for.
   */
  function ReadProcessRequest(buffer: seq<u8>): (request: ProcessRequest)
    requires |buffer| >= PROCESS_REQUEST_SIZE
    ensures request.processId as int % 0x100 == buffer[0] as int
    ensures request.processId as int / 0x100 % 0x100 == buffer[1] as int
    ensures request.processId as int / 0x1_0000 % 0x100 == buffer[2] as int
    ensures request.processId as int / 0x100_0000 == buffer[3] as int
  {
    var b0, b1, b2, b3 := buffer[0] as int, buffer[1] as int, buffer[2] as int, buffer[3] as int;
    var id := b0 + b1 * 0x100 + b2 * 0x1_0000 + b3 * 0x100_0000;
    DivModUnique(id, 0x100, b1 + b2 * 0x100 + b3 * 0x1_0000, b0);
    DivModUnique(id / 0x100, 0x100, b2 + b3 * 0x100, b1);
    DivModUnique(id, 0x1_0000, b2 + b3 * 0x100, b0 + b1 * 0x100);
    DivModUnique(id / 0x1_0000, 0x100, b3, b2);
    DivModUnique(id, 0x100_0000, b3, b0 + b1 * 0x100 + b2 * 0x1_0000);
    ProcessRequest(id as u32)
  }

  /** The bytes a client places in the buffer for a request. */
  function WriteProcessRequest(request: ProcessRequest): (bytes: seq<u8>)
    ensures |bytes| == PROCESS_REQUEST_SIZE
  {
    var id := request.processId as int;
    [(id % 0x100) as u8, (id / 0x100 % 0x100) as u8,
     (id / 0x1_0000 % 0x100) as u8, (id / 0x100_0000) as u8]
  }

  /** Reading what a client wrote gives back its request, whatever follows it. */
  lemma {:induction false} ProcessRequestRoundTrip(request: ProcessRequest, rest: seq<u8>)
    ensures ReadProcessRequest(WriteProcessRequest(request) + rest) == request
  {
    var id := request.processId as int;
    var b := WriteProcessRequest(request) + rest;
    var b0, b1, b2, b3 := id % 0x100, id / 0x100 % 0x100, id / 0x1_0000 % 0x100, id / 0x100_0000;
    assert b[0] as int == b0 && b[1] as int == b1 && b[2] as int == b2 && b[3] as int == b3;
    assert id / 0x100 == b1 + (id / 0x1_0000) * 0x100;
    assert id / 0x1_0000 == b2 + b3 * 0x100;
    assert id == b0 + (id / 0x100) * 0x100;
  }

  // ---------- the protected-PID registry ----------

  const MAX_PROTECTED_PIDS: nat := 64
}
