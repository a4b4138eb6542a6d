/**
 * process.cpp: the enumeration of all processes into the caller's buffer,
 * and the kill / freeze / unfreeze actions.  The kernel services they call
 * are not implemented here: what each call reports is a parameter, and the
 * calls made are recorded in a ghost trace of KernelCall.
 */
module Process {
  import opened Ntdef
  import opened DriverH
  import opened Kernel

  function Min(a: nat, b: nat): nat { if a <= b then a else b }

  // ---------- the snapshot returned by ZwQuerySystemInformation ----------

  /** UNICODE_STRING: Length in bytes, and the bytes Buffer points to (None when NULL). */
  datatype UnicodeString = UnicodeString(length: u16, buffer: Option<seq<u8>>) {
    /** Buffer, when not NULL, holds at least Length readable bytes. */
    predicate Valid() {
      buffer.Some? ==> length as int <= |buffer.value|
    }
  }

  /**
   * SYSTEM_PROCESS_INFORMATION, the fields the driver reads.  The ids are
   * HANDLE-sized; NextEntryOffset is 0 on the last entry of the chain.
   */
  datatype SourceProcess = SourceProcess(
    nextEntryOffset: u32,
    numberOfThreads: u32,
    imageName: UnicodeString,
    uniqueProcessId: u64,
    inheritedFromUniqueProcessId: u64,
    workingSetSize: u64)

  /**
   * The snapshot as the sequence of its entries in chain order.  The chain
   * ends at the first entry whose NextEntryOffset is 0; the kernel always
   * ends it.
   */
  predicate ChainEnds(entries: seq<SourceProcess>) {
    exists k :: 0 <= k < |entries| && entries[k].nextEntryOffset == 0
  }

  lemma ChainEndsTail(entries: seq<SourceProcess>)
    requires ChainEnds(entries) && entries[0].nextEntryOffset != 0
    ensures ChainEnds(entries[1..])
  {
    var k :| 0 <= k < |entries| && entries[k].nextEntryOffset == 0;
    assert entries[1..][k - 1].nextEntryOffset == 0;
  }

  /** The number of processes in the chain: up to and including the first zero offset. */
  function ChainLength(entries: seq<SourceProcess>): (n: nat)
    requires ChainEnds(entries)
    ensures 1 <= n <= |entries|
    ensures entries[n - 1].nextEntryOffset == 0
    ensures forall j :: 0 <= j < n - 1 ==> entries[j].nextEntryOffset != 0
  {
    if entries[0].nextEntryOffset == 0 then 1
    else
      ChainEndsTail(entries);
      1 + ChainLength(entries[1..])
  }

  /** The kernel's side of one enumeration: what each service reports. */
  datatype SnapshotService = SnapshotService(
    /** status of the size probe ZwQuerySystemInformation(..., NULL, 0, &size) */
    probeStatus: NtStatus,
    /** the size the probe reports */
    probeLength: u32,
    /** what ExAllocatePool2 returns; None is NULL */
    pool: Option<Handle>,
    /** status of the second query, into the allocated buffer */
    fetchStatus: NtStatus,
    /** the entries the second query leaves in the buffer */
    entries: seq<SourceProcess>)
  {
    /** A successful query leaves a chain that ends, with readable names. */
    predicate Valid() {
      NtSuccess(fetchStatus) ==>
        ChainEnds(entries) && forall k :: 0 <= k < |entries| ==> entries[k].imageName.Valid()
    }
  }

  // ---------- one PROCESS_INFO ----------

  /** At most this many bytes of a name are copied, leaving the last WCHAR of ImageName zero. */
  const NAME_COPY_LIMIT: nat := IMAGE_NAME_BYTES - WCHAR_SIZE

  /** How many bytes of the name are copied: none for a NULL or empty name. */
  function CopiedLength(name: UnicodeString): nat {
    if name.buffer.None? || name.length == 0 then 0 else Min(name.length as nat, NAME_COPY_LIMIT)
  }

  /**
   * ImageName of a PROCESS_INFO: zero-filled, then the first CopiedLength
   * bytes of the source name copied in.  The last WCHAR is always zero, so
   * the name is always terminated; a NULL or empty name gives all zeros.
   */
  function CopyImageName(name: UnicodeString): (r: seq<u8>)
    requires name.Valid()
    ensures |r| == IMAGE_NAME_BYTES
    ensures forall k :: 0 <= k < CopiedLength(name) ==> r[k] == name.buffer.value[k]
    ensures forall k :: CopiedLength(name) <= k < IMAGE_NAME_BYTES ==> r[k] == 0
    ensures r[IMAGE_NAME_BYTES - 2] == 0 && r[IMAGE_NAME_BYTES - 1] == 0
    ensures name.buffer.None? || name.length == 0 ==> forall k :: 0 <= k < |r| ==> r[k] == 0
  {
    var n := CopiedLength(name);
    (if n == 0 then [] else name.buffer.value[..n]) + seq(IMAGE_NAME_BYTES - n, _ => 0)
  }

  /** The PROCESS_INFO written for one snapshot entry; ids are cut to ULONG. */
  function ToProcessInfo(entry: SourceProcess): (info: ProcessInfo)
    requires entry.imageName.Valid()
    ensures info.processId as int == entry.uniqueProcessId as int % 0x1_0000_0000
    ensures info.parentProcessId as int == entry.inheritedFromUniqueProcessId as int % 0x1_0000_0000
    ensures info.threadCount == entry.numberOfThreads && info.workingSetSize == entry.workingSetSize
    ensures |info.imageName| == IMAGE_NAME_BYTES
  {
    ProcessInfo(Truncate32(entry.uniqueProcessId), Truncate32(entry.inheritedFromUniqueProcessId),
                entry.numberOfThreads, entry.workingSetSize, CopyImageName(entry.imageName))
  }

  /** The records for a run of entries, in the same order. */
  function Marshal(entries: seq<SourceProcess>): (records: seq<ProcessInfo>)
    requires forall k :: 0 <= k < |entries| ==> entries[k].imageName.Valid()
    ensures |records| == |entries|
    ensures forall k :: 0 <= k < |entries| ==> records[k] == ToProcessInfo(entries[k])
  {
    seq(|entries|, k requires 0 <= k < |entries| => ToProcessInfo(entries[k]))
  }

  // ---------- the caller's output buffer ----------

  /** How many whole PROCESS_INFO records fit after the header in `size` bytes. */
  function RecordSlots(size: u32): nat {
    if size as nat < PROCESS_LIST_HEADER_SIZE then 0
    else (size as nat - PROCESS_LIST_HEADER_SIZE) / PROCESS_INFO_SIZE
  }

  /**
   * The METHOD_BUFFERED output buffer of OutputBufferSize bytes: the
   * PROCESS_LIST_HEADER at its start (present only when the buffer is that
   * large) followed by the record slots that fit whole.  Bytes past the
   * last whole slot are never written and are not modelled.
   */
  class OutputBuffer {
    const size: u32
    var header: ProcessListHeader
    const records: array<ProcessInfo>

    ghost predicate Valid()
      reads this
    {
      records.Length == RecordSlots(size)
    }

    constructor (size: u32, header: ProcessListHeader, filler: ProcessInfo)
      ensures Valid() && fresh(records)
      ensures this.size == size && this.header == header
      ensures records[..] == seq(RecordSlots(size), _ => filler)
    {
      this.size := size;
      this.header := header;
      records := new ProcessInfo[RecordSlots(size)](_ => filler);
    }
  }

  // ---------- ProcessEnumerate ----------

  /** Extra bytes added to the probed size before allocating. */
  const SNAPSHOT_SLACK: nat := 4096

  /** What one enumeration reports and writes: header and records are None / [] when nothing is written. */
  datatype EnumResult = EnumResult(
    status: NtStatus,
    bytesWritten: u32,
    header: Option<ProcessListHeader>,
    records: seq<ProcessInfo>)

  /**
   * The outcome of ProcessEnumerate for an output buffer of `outSize` bytes.
   * Failures of the probe, the allocation and the fetch are reported with
   * their own status and write nothing; so does a buffer too small for the
   * header.  Otherwise the header gives the size needed for the whole
   * snapshot (as a ULONG) and the number of records written, which is the
   * number of processes capped by the records that fit; the records are the
   * first processes of the chain, in order; and the bytes reported written
   * are the header and those records, never more than the buffer.
   */
  ghost function Enumerate(outSize: u32, svc: SnapshotService): (r: EnumResult)
    requires svc.Valid()
    ensures r.header.None? ==> r.bytesWritten == 0 && r.records == []
    ensures svc.probeStatus != STATUS_INFO_LENGTH_MISMATCH ==> r.status == svc.probeStatus && r.header.None?
    ensures svc.probeStatus == STATUS_INFO_LENGTH_MISMATCH && svc.pool.None? ==>
      r.status == STATUS_INSUFFICIENT_RESOURCES && r.header.None?
    ensures svc.probeStatus == STATUS_INFO_LENGTH_MISMATCH && svc.pool.Some? && !NtSuccess(svc.fetchStatus) ==>
      r.status == svc.fetchStatus && r.header.None?
    ensures svc.probeStatus == STATUS_INFO_LENGTH_MISMATCH && svc.pool.Some? && NtSuccess(svc.fetchStatus) ==>
      if outSize as nat < PROCESS_LIST_HEADER_SIZE then r.status == STATUS_BUFFER_TOO_SMALL && r.header.None?
      else r.status == STATUS_SUCCESS && r.header.Some?
    ensures r.header.Some? ==>
      var n := ChainLength(svc.entries);
      |r.records| == Min(n, RecordSlots(outSize)) &&
      r.records == Marshal(svc.entries[..|r.records|]) &&
      r.header.value.count as nat == |r.records| &&
      r.header.value.totalSize as nat == (PROCESS_LIST_HEADER_SIZE + n * PROCESS_INFO_SIZE) % 0x1_0000_0000 &&
      r.bytesWritten as nat == PROCESS_LIST_HEADER_SIZE + |r.records| * PROCESS_INFO_SIZE <= outSize as nat
  {
    if svc.probeStatus != STATUS_INFO_LENGTH_MISMATCH then EnumResult(svc.probeStatus, 0, None, [])
    else if svc.pool.None? then EnumResult(STATUS_INSUFFICIENT_RESOURCES, 0, None, [])
    else if !NtSuccess(svc.fetchStatus) then EnumResult(svc.fetchStatus, 0, None, [])
    else if outSize as nat < PROCESS_LIST_HEADER_SIZE then EnumResult(STATUS_BUFFER_TOO_SMALL, 0, None, [])
    else
      var n := ChainLength(svc.entries);
      var written := Min(n, RecordSlots(outSize));
      RecordsFit(outSize, written);
      var totalSize := ((PROCESS_LIST_HEADER_SIZE + n * PROCESS_INFO_SIZE) % 0x1_0000_0000) as u32;
      EnumResult(STATUS_SUCCESS, (PROCESS_LIST_HEADER_SIZE + written * PROCESS_INFO_SIZE) as u32,
                 Some(ProcessListHeader(written as u32, totalSize)), Marshal(svc.entries[..written]))
  }

  /** The records that fit, with the header, never exceed the buffer. */
  lemma RecordsFit(outSize: u32, written: nat)
    requires PROCESS_LIST_HEADER_SIZE <= outSize as nat && written <= RecordSlots(outSize)
    ensures PROCESS_LIST_HEADER_SIZE + written * PROCESS_INFO_SIZE <= outSize as nat
  {
    var room := outSize as nat - PROCESS_LIST_HEADER_SIZE;
    assert written * PROCESS_INFO_SIZE <= RecordSlots(outSize) * PROCESS_INFO_SIZE <= room;
  }

  /**
   * The caller can tell a truncated list from a complete one: as long as
   * the required size fits a ULONG, TotalSize exceeds the bytes written
   * exactly when fewer records were written than there are processes.
   */
  lemma {:induction false} TruncationIsVisible(outSize: u32, svc: SnapshotService)
    requires svc.Valid()
    requires Enumerate(outSize, svc).header.Some?
    requires PROCESS_LIST_HEADER_SIZE + ChainLength(svc.entries) * PROCESS_INFO_SIZE < 0x1_0000_0000
    ensures var r := Enumerate(outSize, svc);
      r.header.value.totalSize as nat == PROCESS_LIST_HEADER_SIZE + ChainLength(svc.entries) * PROCESS_INFO_SIZE &&
      (r.header.value.totalSize > r.bytesWritten <==> (r.header.value.count as nat) < ChainLength(svc.entries))
  {
    var r := Enumerate(outSize, svc);
    var n := ChainLength(svc.entries);
    var c := r.header.value.count as nat;
    assert r.bytesWritten as nat == PROCESS_LIST_HEADER_SIZE + c * PROCESS_INFO_SIZE;
    assert c <= n;
    RecordBytesMonotone(c, n);
  }

  /** More records take more bytes, and equally many take equally many. */
  lemma RecordBytesMonotone(c: nat, n: nat)
    requires c <= n
    ensures c < n <==> c * PROCESS_INFO_SIZE < n * PROCESS_INFO_SIZE
  {
    if c < n {
      assert n * PROCESS_INFO_SIZE == c * PROCESS_INFO_SIZE + (n - c) * PROCESS_INFO_SIZE;
    }
  }

  /**
   * A buffer sized for exactly `k` records and the header, with more than
   * `k` processes in the snapshot, receives exactly `k` records.
   */
  lemma {:induction false} ExactFitWritesK(outSize: u32, svc: SnapshotService, k: nat)
    requires svc.Valid()
    requires svc.probeStatus == STATUS_INFO_LENGTH_MISMATCH && svc.pool.Some? && NtSuccess(svc.fetchStatus)
    requires outSize as nat == PROCESS_LIST_HEADER_SIZE + k * PROCESS_INFO_SIZE
    requires k < ChainLength(svc.entries)
    ensures Enumerate(outSize, svc).status == STATUS_SUCCESS
    ensures Enumerate(outSize, svc).header.value.count as nat == k
    ensures Enumerate(outSize, svc).records == Marshal(svc.entries[..k])
  {
    SlotsOfExactFit(k);
    assert RecordSlots(outSize) == k;
  }

  lemma SlotsOfExactFit(k: nat)
    ensures (k * PROCESS_INFO_SIZE) / PROCESS_INFO_SIZE == k
  {
  }

  /**
   * ProcessEnumerate.  BytesWritten starts at 0.  The probe, the
   * allocation (probed size plus slack, as a ULONG), the fetch and the
   * header-size check can each end the call, writing nothing; every exit
   * after a successful allocation frees the buffer exactly once, with the
   * tag it was allocated with.  Otherwise the chain is walked once to count
   * it and a second time to copy records into the buffer, TotalSize first
   * and Count last.
   */
  method ProcessEnumerate(out: OutputBuffer, svc: SnapshotService)
    returns (status: NtStatus, bytesWritten: u32, ghost trace: seq<KernelCall>)
    requires out.Valid() && svc.Valid()
    modifies out, out.records
    ensures var r := Enumerate(out.size, svc);
      status == r.status && bytesWritten == r.bytesWritten &&
      (r.header.None? ==> out.header == old(out.header) && out.records[..] == old(out.records[..])) &&
      (r.header.Some? ==> out.header == r.header.value &&
                          out.records[..] == r.records + old(out.records[..])[|r.records|..])
    ensures Balanced(trace)
    ensures PoolAllocated(trace) == (if svc.probeStatus == STATUS_INFO_LENGTH_MISMATCH && svc.pool.Some? then 1 else 0)
    ensures PoolAllocated(trace) == 1 ==> trace[|trace| - 1] == ExFreePoolWithTag(svc.pool.value, POOL_TAG_KSYS)
  {
    ghost var r := Enumerate(out.size, svc);
    bytesWritten := 0;
    trace := [ZwQuerySystemInformation(SYSTEM_PROCESS_INFORMATION, 0)];
    CountsSnoc([], trace[0]);
    assert [] + [trace[0]] == trace;
    status := svc.probeStatus;
    if status != STATUS_INFO_LENGTH_MISMATCH {
      assert r == EnumResult(status, 0, None, []);
      return;
    }

    var bufferSize := ((svc.probeLength as nat + SNAPSHOT_SLACK) % 0x1_0000_0000) as u32;
    CountsSnoc(trace, ExAllocatePool2(POOL_FLAG_NON_PAGED, bufferSize, POOL_TAG_KSYS, svc.pool));
    trace := trace + [ExAllocatePool2(POOL_FLAG_NON_PAGED, bufferSize, POOL_TAG_KSYS, svc.pool)];
    if svc.pool.None? {
      status := STATUS_INSUFFICIENT_RESOURCES;
      assert r == EnumResult(status, 0, None, []);
      return;
    }
    var buffer := svc.pool.value;

    CountsSnoc(trace, ZwQuerySystemInformation(SYSTEM_PROCESS_INFORMATION, bufferSize));

    trace := trace + [ZwQuerySystemInformation(SYSTEM_PROCESS_INFORMATION, bufferSize)];
    status := svc.fetchStatus;
    if !NtSuccess(status) {
      CountsSnoc(trace, ExFreePoolWithTag(buffer, POOL_TAG_KSYS));
      trace := trace + [ExFreePoolWithTag(buffer, POOL_TAG_KSYS)];
      assert r == EnumResult(status, 0, None, []);
      return;
    }

    var processCount := CountChain(svc.entries);

    var requiredSize := ((PROCESS_LIST_HEADER_SIZE + processCount * PROCESS_INFO_SIZE) % 0x1_0000_0000) as u32;
    if (out.size as nat) < PROCESS_LIST_HEADER_SIZE {
      CountsSnoc(trace, ExFreePoolWithTag(buffer, POOL_TAG_KSYS));
      trace := trace + [ExFreePoolWithTag(buffer, POOL_TAG_KSYS)];
      status := STATUS_BUFFER_TOO_SMALL;
      assert r == EnumResult(status, 0, None, []);
      return;
    }

    bytesWritten := WriteProcessList(out, svc.entries, requiredSize);
    assert r.header == Some(out.header) && r.bytesWritten == bytesWritten;

    CountsSnoc(trace, ExFreePoolWithTag(buffer, POOL_TAG_KSYS));

    trace := trace + [ExFreePoolWithTag(buffer, POOL_TAG_KSYS)];
    status := STATUS_SUCCESS;
  }

  /**
   * The writing part of ProcessEnumerate, once the snapshot is counted and
   * the buffer is known to hold the header: TotalSize is stored first, then
   * the records that fit, then Count; the bytes written are returned.
   */
  method WriteProcessList(out: OutputBuffer, entries: seq<SourceProcess>, requiredSize: u32)
    returns (bytesWritten: u32)
    requires out.Valid() && PROCESS_LIST_HEADER_SIZE <= out.size as nat
    requires ChainEnds(entries) && forall k :: 0 <= k < |entries| ==> entries[k].imageName.Valid()
    modifies out, out.records
    ensures var written := Min(ChainLength(entries), RecordSlots(out.size));
      out.header == ProcessListHeader(written as u32, requiredSize) &&
      out.records[..] == Marshal(entries[..written]) + old(out.records[..])[written..] &&
      bytesWritten as nat == PROCESS_LIST_HEADER_SIZE + written * PROCESS_INFO_SIZE
  {
    out.header := out.header.(totalSize := requiredSize);
    var maxEntries := (out.size as nat - PROCESS_LIST_HEADER_SIZE) / PROCESS_INFO_SIZE;
    var written := CopyRecords(out, entries, maxEntries);
    RecordsFit(out.size, written);
    out.header := out.header.(count := written as u32);
    bytesWritten := (PROCESS_LIST_HEADER_SIZE + written * PROCESS_INFO_SIZE) as u32;
  }

  /**
   * The first pass of ProcessEnumerate: walk the chain from its start,
   * counting entries up to and including the one whose NextEntryOffset is 0.
   */
  method CountChain(entries: seq<SourceProcess>) returns (processCount: nat)
    requires ChainEnds(entries)
    ensures processCount == ChainLength(entries)
  {
    ghost var n := ChainLength(entries);
    processCount := 0;
    var entry := 0;
    while true
      invariant entry < n && processCount == entry
      decreases n - entry
    {
      processCount := processCount + 1;
      if entries[entry].nextEntryOffset == 0 {
        break;
      }
      entry := entry + 1;
    }
  }

  /**
   * The second pass of ProcessEnumerate: walk the chain from its start,
   * storing one record per entry into the next free slot, until either the
   * slots or the chain run out.
   */
  method CopyRecords(out: OutputBuffer, entries: seq<SourceProcess>, maxEntries: nat)
    returns (written: nat)
    requires out.Valid() && maxEntries == out.records.Length
    requires ChainEnds(entries) && forall k :: 0 <= k < |entries| ==> entries[k].imageName.Valid()
    modifies out.records
    ensures written == Min(ChainLength(entries), maxEntries)
    ensures out.records[..] == Marshal(entries[..written]) + old(out.records[..])[written..]
  {
    ghost var n := ChainLength(entries);
    written := 0;
    var entry := 0;
    while true
      invariant entry < n && written == entry && written <= maxEntries
      invariant out.records[..written] == Marshal(entries[..written])
      invariant out.records[written..] == old(out.records[..])[written..]
      decreases n - entry
    {
      if written >= maxEntries {
        break;
      }
      ghost var before := out.records[..];
      out.records[written] := ToProcessInfo(entries[entry]);
      assert out.records[..] == before[written := ToProcessInfo(entries[entry])];
      MarshalSnoc(entries, written);
      StoreNext(before, written, ToProcessInfo(entries[entry]), old(out.records[..]));
      written := written + 1;
      if entries[entry].nextEntryOffset == 0 {
        break;
      }
      entry := entry + 1;
    }
    assert out.records[..] == out.records[..written] + out.records[written..];
  }

  /**
   * Storing into the first slot not yet written extends the written prefix
   * by that record and leaves the slots after it as they were.
   */
  lemma StoreNext(slots: seq<ProcessInfo>, w: nat, record: ProcessInfo, original: seq<ProcessInfo>)
    requires w < |slots| == |original| && slots[w..] == original[w..]
    ensures slots[w := record][..w + 1] == slots[..w] + [record]
    ensures slots[w := record][w + 1..] == original[w + 1..]
  {
    var updated := slots[w := record];
    assert forall k :: w + 1 <= k < |slots| ==> updated[k] == slots[k] == slots[w..][k - w] == original[k];
  }

  /** Marshalling one more entry appends its record. */
  lemma MarshalSnoc(entries: seq<SourceProcess>, k: nat)
    requires k < |entries| && forall j :: 0 <= j < |entries| ==> entries[j].imageName.Valid()
    ensures Marshal(entries[..k + 1]) == Marshal(entries[..k]) + [ToProcessInfo(entries[k])]
  {
    assert entries[..k + 1][k] == entries[k];
  }

  // ---------- kill / freeze / unfreeze ----------

  /** PIDs 0 (the idle process) and 4 (System) are never acted upon. */
  predicate IsReservedPid(pid: u32) {
    pid == 0 || pid == 4
  }

  /** What ZwOpenProcess reports: its status and, on success, the handle. */
  datatype OpenResult = OpenResult(status: NtStatus, handle: Handle)

  /**
   * OpenProcessById: one ZwOpenProcess for exactly `access`, with a kernel
   * handle (OBJ_KERNEL_HANDLE), whose status is returned as is; the handle
   * exists only when that status is a success.
   */
  method OpenProcessById(pid: u32, access: Mask, open: OpenResult)
    returns (status: NtStatus, handle: Option<Handle>, ghost trace: seq<KernelCall>)
    ensures status == open.status
    ensures handle.Some? <==> NtSuccess(status)
    ensures handle.Some? ==> handle.value == open.handle
    ensures trace == [ZwOpenProcess(pid, access, OBJ_KERNEL_HANDLE, handle)]
  {
    status := open.status;
    handle := if NtSuccess(status) then Some(open.handle) else None;
    trace := [ZwOpenProcess(pid, access, OBJ_KERNEL_HANDLE, handle)];
  }

  datatype ProcessAction = Terminate | Suspend | Resume

  /** The right each action opens the process with. */
  function ActionAccess(action: ProcessAction): Mask {
    if action == Terminate then PROCESS_TERMINATE else PROCESS_SUSPEND_RESUME
  }

  /** The kernel call that performs the action on an open handle. */
  function ActionCall(action: ProcessAction, process: Handle): KernelCall {
    match action
    case Terminate => ZwTerminateProcess(process, STATUS_SUCCESS)
    case Suspend => NtSuspendProcess(process)
    case Resume => NtResumeProcess(process)
  }

  /**
   * The shape shared by ProcessKill, ProcessFreeze and ProcessUnfreeze:
   * a reserved PID is refused before anything is opened; a failed open is
   * reported with its own status and nothing else is done; otherwise the
   * action runs on the handle, the handle is closed whatever the action
   * reported, and the action's status is returned.  No handle is leaked.
   */
  method OpenActClose(pid: u32, action: ProcessAction, open: OpenResult, actionStatus: NtStatus)
    returns (status: NtStatus, ghost trace: seq<KernelCall>)
    ensures IsReservedPid(pid) ==> status == STATUS_ACCESS_DENIED
    ensures !IsReservedPid(pid) && !NtSuccess(open.status) ==> status == open.status
    ensures IsReservedPid(pid) ==> trace == []
    ensures !IsReservedPid(pid) && !NtSuccess(open.status) ==>
      trace == [ZwOpenProcess(pid, ActionAccess(action), OBJ_KERNEL_HANDLE, None)]
    ensures !IsReservedPid(pid) && NtSuccess(open.status) ==> status == actionStatus
    ensures !IsReservedPid(pid) && NtSuccess(open.status) ==>
      trace == [ZwOpenProcess(pid, ActionAccess(action), OBJ_KERNEL_HANDLE, Some(open.handle)),
                ActionCall(action, open.handle), ZwClose(open.handle)]
    ensures Balanced(trace)
  {
    if IsReservedPid(pid) {
      return STATUS_ACCESS_DENIED, [];
    }
    var handle;
    status, handle, trace := OpenProcessById(pid, ActionAccess(action), open);
    CountsSnoc([], trace[0]);
    assert [] + [trace[0]] == trace;
    if !NtSuccess(status) {
      return;
    }
    CountsSnoc(trace, ActionCall(action, handle.value));
    trace := trace + [ActionCall(action, handle.value)];
    status := actionStatus;
    CountsSnoc(trace, ZwClose(handle.value));
    trace := trace + [ZwClose(handle.value)];
  }

  /** ProcessKill: open with PROCESS_TERMINATE, terminate with exit status STATUS_SUCCESS, close. */
  method ProcessKill(pid: u32, open: OpenResult, terminateStatus: NtStatus)
    returns (status: NtStatus, ghost trace: seq<KernelCall>)
    ensures IsReservedPid(pid) ==> status == STATUS_ACCESS_DENIED
    ensures !IsReservedPid(pid) && !NtSuccess(open.status) ==> status == open.status
    ensures IsReservedPid(pid) ==> trace == []
    ensures !IsReservedPid(pid) && !NtSuccess(open.status) ==>
      trace == [ZwOpenProcess(pid, PROCESS_TERMINATE, OBJ_KERNEL_HANDLE, None)]
    ensures !IsReservedPid(pid) && NtSuccess(open.status) ==> status == terminateStatus
    ensures !IsReservedPid(pid) && NtSuccess(open.status) ==>
      trace == [ZwOpenProcess(pid, PROCESS_TERMINATE, OBJ_KERNEL_HANDLE, Some(open.handle)),
                ZwTerminateProcess(open.handle, STATUS_SUCCESS), ZwClose(open.handle)]
    ensures Balanced(trace)
  {
    status, trace := OpenActClose(pid, Terminate, open, terminateStatus);
  }

  /** ProcessFreeze: open with PROCESS_SUSPEND_RESUME, suspend, close. */
  method ProcessFreeze(pid: u32, open: OpenResult, suspendStatus: NtStatus)
    returns (status: NtStatus, ghost trace: seq<KernelCall>)
    ensures IsReservedPid(pid) ==> status == STATUS_ACCESS_DENIED
    ensures !IsReservedPid(pid) && !NtSuccess(open.status) ==> status == open.status
    ensures IsReservedPid(pid) ==> trace == []
    ensures !IsReservedPid(pid) && !NtSuccess(open.status) ==>
      trace == [ZwOpenProcess(pid, PROCESS_SUSPEND_RESUME, OBJ_KERNEL_HANDLE, None)]
    ensures !IsReservedPid(pid) && NtSuccess(open.status) ==> status == suspendStatus
    ensures !IsReservedPid(pid) && NtSuccess(open.status) ==>
      trace == [ZwOpenProcess(pid, PROCESS_SUSPEND_RESUME, OBJ_KERNEL_HANDLE, Some(open.handle)),
                NtSuspendProcess(open.handle), ZwClose(open.handle)]
    ensures Balanced(trace)
  {
    status, trace := OpenActClose(pid, Suspend, open, suspendStatus);
  }

  /** ProcessUnfreeze: open with PROCESS_SUSPEND_RESUME, resume, close. */
  method ProcessUnfreeze(pid: u32, open: OpenResult, resumeStatus: NtStatus)
    returns (status: NtStatus, ghost trace: seq<KernelCall>)
    ensures IsReservedPid(pid) ==> status == STATUS_ACCESS_DENIED
    ensures !IsReservedPid(pid) && !NtSuccess(open.status) ==> status == open.status
    ensures IsReservedPid(pid) ==> trace == []
    ensures !IsReservedPid(pid) && !NtSuccess(open.status) ==>
      trace == [ZwOpenProcess(pid, PROCESS_SUSPEND_RESUME, OBJ_KERNEL_HANDLE, None)]
    ensures !IsReservedPid(pid) && NtSuccess(open.status) ==> status == resumeStatus
    ensures !IsReservedPid(pid) && NtSuccess(open.status) ==>
      trace == [ZwOpenProcess(pid, PROCESS_SUSPEND_RESUME, OBJ_KERNEL_HANDLE, Some(open.handle)),
                NtResumeProcess(open.handle), ZwClose(open.handle)]
    ensures Balanced(trace)
  {
    status, trace := OpenActClose(pid, Resume, open, resumeStatus);
  }
}
