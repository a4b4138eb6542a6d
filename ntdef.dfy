/**
 * Fixed-width integer types and NTSTATUS values used by the driver.
 * Integers in Dafny are unbounded, so the C fields whose width matters
 * (ULONG, USHORT, SIZE_T, HANDLE-sized ids, bytes) are newtypes with their
 * range written out.  Counters and indexes that stay far below their C
 * width (the registry count, the process and record counts) are `nat`, and
 * kernel handles are abstract.  Truncate32 is the `(ULONG)(ULONG_PTR)` cast;
 * the ULONG wrap-around of a computed size is written as `% 0x1_0000_0000`
 * where it happens.
 */
module Ntdef {

  newtype u8 = x: int | 0 <= x < 0x100
  newtype u16 = x: int | 0 <= x < 0x1_0000
  newtype u32 = x: int | 0 <= x < 0x1_0000_0000
  newtype u64 = x: int | 0 <= x < 0x1_0000_0000_0000_0000

  /** An ACCESS_MASK or any other ULONG that the driver treats as bits. */
  type Mask = bv32

  /** An NTSTATUS, kept as its 32-bit pattern. */
  type NtStatus = bv32

  const STATUS_SUCCESS: NtStatus                := 0x0000_0000
  const STATUS_INFO_LENGTH_MISMATCH: NtStatus   := 0xC000_0004
  const STATUS_INVALID_DEVICE_REQUEST: NtStatus := 0xC000_0010
  const STATUS_ACCESS_DENIED: NtStatus          := 0xC000_0022
  const STATUS_BUFFER_TOO_SMALL: NtStatus       := 0xC000_0023
  const STATUS_INSUFFICIENT_RESOURCES: NtStatus := 0xC000_009A
  const STATUS_NOT_SUPPORTED: NtStatus          := 0xC000_00BB

  /** NT_SUCCESS: the status, read as a signed 32-bit value, is not negative. */
  predicate NtSuccess(status: NtStatus) {
    status & 0x8000_0000 == 0
  }

  /** The `(ULONG)(ULONG_PTR)` cast of a pointer-sized value: its low 32 bits. */
  function Truncate32(x: u64): (r: u32)
    ensures r as int == x as int % 0x1_0000_0000
    ensures x as int < 0x1_0000_0000 ==> r as int == x as int
  {
    (x as int % 0x1_0000_0000) as u32
  }

  datatype Option<+T> = None | Some(value: T)
}
