# OpenSysKit kernel driver — a verified model of its core

OpenSysKit's Windows kernel driver exposes a device that user mode drives
with six buffered IOCTLs. This project models the part of the driver that
decides and keeps books, and proves what it promises:

- **Protected-PID registry** (`Registry`, `Context`, `Driver`). `DRIVER_CONTEXT` holds a 64-slot array of PIDs and a count.
  - Protect scans for a duplicate and appends at `count`.
  - Unprotect moves the last PID into the freed slot.
  - The class `Context.DriverContext` keeps the array in place. The pure `Registry.Add` / `Registry.Remove` say what each command does to the slots in use.
- **IOCTL dispatcher** (`Driver.DispatchDeviceControl`). It maps the six codes to enumerate, kill, protect and unprotect, and refuses freeze, unfreeze and unknown codes. It checks the input length before reading a `PROCESS_REQUEST`.
- **Object-open callback** (`Callbacks`). It strips `PROCESS_TERMINATE | PROCESS_SUSPEND_RESUME` from every creation or duplication of a handle that is not a kernel handle (`OBJ_KERNEL_HANDLE`) and targets a protected process, whoever asks for it. The module also models callback registration and its idempotent removal.
- **Process enumeration** (`Process.ProcessEnumerate`). It probes the snapshot size, allocates, fetches and counts the `NextEntryOffset` chain. It then writes a `PROCESS_LIST_HEADER` and as many whole `PROCESS_INFO` records as fit, with a zero-terminated image name.
- **Process actions** (`Process.ProcessKill`, `ProcessFreeze`, `ProcessUnfreeze`). PIDs 0 and 4 are denied. Otherwise the action opens a kernel handle, acts on it, and closes it whatever the action reported.
- **driver.h** (`DriverH`, `Ntdef`): the access bits, `CTL_CODE` and the IOCTL codes, and the request and response layouts.

### How kernel services are modelled

The model does not implement the kernel services the driver calls. What each one reports is a parameter: `SnapshotService`, `OpenResult`, `RegisterOutcome` and the action statuses.

Every call to the kernel services listed under "## Left out", except `PsGetProcessId`, is appended to a ghost trace of `Kernel.KernelCall`. "No handle leaks" and "the pool buffer is freed exactly once" are therefore statements about that trace (`Kernel.Balanced`).

### Other modelling choices

- NTSTATUS values are their real 32-bit patterns, and `NtSuccess` is `NT_SUCCESS`.
- Struct sizes are those of the x64 build: `PROCESS_INFO` is 544 bytes and `PROCESS_LIST_HEADER` is 8.
- The global context is passed explicitly as `ctx`.

Protect tests capacity before the duplicate scan (src/driver.cpp:60), so protecting a PID that is already present fails when the registry is full; `Registry.Add` states exactly this.

## Model

| member | source | states |
|---|---|---|
| Ntdef.Truncate32 | src/process.cpp:92-93 | the `(ULONG)(ULONG_PTR)` cast keeps the low 32 bits, and is the identity on values that fit |
| DriverH.AccessRightBits | src/driver.h:6-11 | `PROCESS_TERMINATE` and `PROCESS_SUSPEND_RESUME` are single bits and disjoint |
| DriverH.CtlCodeFields | src/driver.h:22-27 | `CTL_CODE` packs device type, access, function and method so that each field can be read back unchanged |
| DriverH.IoctlCodesDisjoint | src/driver.h:20-27 | the six IOCTLs are buffered, any-access codes of device type 0x8000 with function numbers 0x800–0x805, so they are six distinct codes |
| DriverH.WriteProcessRequest | src/driver.h:32-34 | a `PROCESS_REQUEST` occupies exactly 4 bytes |
| DriverH.ProcessRequestRoundTrip | src/driver.h:32-34 | reading the first 4 bytes of what a client wrote gives back its `ProcessId`, whatever follows |
| DriverH.ReadProcessRequest | src/driver.cpp:43 | the `PROCESS_REQUEST` read from the system buffer is the little-endian ULONG of its first four bytes: byte 0 is the low byte, byte 3 the high byte |
| Registry.IndexOf | src/driver.cpp:64-69 | the scan stops at the first slot holding the PID, or at the count when no slot does |
| Registry.Add | src/driver.cpp:60-72 | a full registry refuses with `STATUS_INSUFFICIENT_RESOURCES` and is unchanged, even when the PID is present; with room, a present PID leaves it unchanged and an absent one is appended; the result contains the PID, no other PID is gained or lost, and capacity and no-duplicates are kept |
| Registry.Remove | src/driver.cpp:86-91 | an absent PID leaves the registry as it is; a present one shrinks it by one, its first slot receives the last entry, and every other slot keeps its entry |
| Registry.RemoveSpec | src/driver.cpp:86-91 | after unprotect the PID is absent, every other member stays, the size drops by one exactly when the PID was present, an absent PID changes nothing, and the invariant is kept |
| Registry.ReplayKeepsValid | src/driver.cpp:52-95 | across any sequence of protect and unprotect commands, the count stays within 64 and the slots in use hold no duplicates |
| Context.DriverContext.Protected | src/driver.h:53-61 | the slots in use form a valid registry of at most `MAX_PROTECTED_PIDS` distinct PIDs |
| Context.DriverContext.constructor | src/driver.cpp:4 | the zero-initialised context has 64 zero slots, count 0, and no device or callback handle |
| Context.DriverContext.Find | src/callbacks.cpp:20-26 | the membership scan reports a PID as protected exactly when it is among the first `ProtectedPidCount` slots, and returns its slot |
| Callbacks.Narrow | src/callbacks.cpp:33-37 | the narrowed mask requests no right the original did not, lacks both stripped rights, and keeps every other requested bit |
| Callbacks.NarrowIdempotent | src/callbacks.cpp:33-37 | narrowing twice equals narrowing once |
| Callbacks.RewriteAccess | src/callbacks.cpp:10-39 | no mask is widened; a kernel handle or an unprotected target leaves both masks bit for bit; only the mask of the current operation can change, and for a create or duplicate of a handle to a protected process that is not a kernel handle, whoever asks, it is narrowed |
| Callbacks.RewriteAccessIdempotent | src/callbacks.cpp:30-39 | running the callback's rewrite twice gives the same masks as once |
| Callbacks.OnPreOpenProcess | src/callbacks.cpp:3-42 | the callback always returns `OB_PREOP_SUCCESS`; the masks it leaves in place are `RewriteAccess` of the old ones, with the target's id cut to a ULONG and checked against the registry |
| Callbacks.ProtectRegistration | src/callbacks.cpp:44-64 | registration asks for one pre-operation routine on process objects, for handle create and duplicate, at altitude "321000", with no post-operation routine and no context |
| Callbacks.RegisterProtectCallbacks | src/callbacks.cpp:47-67 | one `ObRegisterCallbacks` call with that registration; its status is returned, and on success the handle is stored |
| Callbacks.UnregisterProtectCallbacks | src/callbacks.cpp:69-75 | with no handle it does nothing; otherwise it unregisters that handle once; either way the handle ends NULL, so a second call does nothing |
| Process.ChainLength | src/process.cpp:65-72 | the process count is the position of the first entry whose `NextEntryOffset` is 0, and every earlier entry has a nonzero offset |
| Process.CountChain | src/process.cpp:65-72 | the first `while (TRUE)` pass counts exactly `ChainLength` entries |
| Process.CopyImageName | src/process.cpp:97-101 | the name field is 520 bytes: the first `min(Length, 518)` source bytes, then zeros; all zeros for a NULL or empty name; the last WCHAR is always 0 |
| Process.ToProcessInfo | src/process.cpp:92-101 | a record keeps the low 32 bits of the id and parent id, and copies the thread count and working-set size unchanged |
| Process.Marshal | src/process.cpp:89-108 | the records are built one per entry, in chain order |
| Process.Enumerate | src/process.cpp:42-115 | a probe status other than `STATUS_INFO_LENGTH_MISMATCH`, a failed allocation, a failed fetch and a buffer smaller than the header each give their own status and write nothing with 0 bytes; on success `Count = min(N, records that fit)`, the records are the first `Count` processes, `TotalSize = 8 + N·544` as a ULONG, and `BytesWritten = 8 + Count·544 ≤ OutputBufferSize` |
| Process.RecordsFit | src/process.cpp:84-111 | the header and the records written never exceed the output buffer |
| Process.TruncationIsVisible | src/process.cpp:74-82 | while the required size fits a ULONG, `TotalSize` exceeds the bytes written exactly when some processes were left out |
| Process.ExactFitWritesK | src/process.cpp:84-110 | a buffer sized for exactly K records and the header, with more than K processes, receives exactly K records and `Count = K` |
| Process.ProcessEnumerate | src/process.cpp:42-115 | the status, bytes written, header and records agree with `Enumerate`; failures leave the buffer untouched; the pool buffer is freed exactly once, with tag 'ksyS', after a successful allocation, and never otherwise |
| Process.WriteProcessList | src/process.cpp:81-111 | the header holds `TotalSize` and `Count = min(N, slots)`; the first `Count` slots hold the marshalled entries and the later slots are untouched; header plus record bytes are returned |
| Process.CopyRecords | src/process.cpp:84-108 | the second `while (TRUE)` pass fills the first `min(N, maxEntries)` slots with the marshalled entries and leaves the later slots alone |
| Process.OpenProcessById | src/process.cpp:119-129 | one `ZwOpenProcess` for exactly the requested access with `OBJ_KERNEL_HANDLE`; its status is returned, and a handle exists exactly when that status is a success |
| Process.OpenActClose | src/process.cpp:133-186 | PIDs 0 and 4 are denied before anything is opened; a failed open returns its status with no action and no close; otherwise the action runs, the handle is closed, and the action's status is returned; no handle leaks |
| Process.ProcessKill | src/process.cpp:133-148 | kill opens with `PROCESS_TERMINATE`, terminates with exit status `STATUS_SUCCESS` and closes; it returns the terminate status, or `STATUS_ACCESS_DENIED` / the open status as above |
| Process.ProcessFreeze | src/process.cpp:152-167 | freeze opens with `PROCESS_SUSPEND_RESUME`, suspends and closes, under the same rules |
| Process.ProcessUnfreeze | src/process.cpp:171-186 | unfreeze opens with `PROCESS_SUSPEND_RESUME`, resumes and closes, under the same rules |
| Driver.ProtectProcess | src/driver.cpp:52-76 | the in-place protect has exactly the status and resulting slots of `Registry.Add`; slots past the count are untouched; the registry invariant is kept |
| Driver.UnprotectProcess | src/driver.cpp:78-95 | the in-place swap-with-last removal yields exactly `Registry.Remove` of the old slots and always succeeds; the vacated last slot keeps its stale value; the invariant is kept |
| Driver.DispatchDeviceControl | src/driver.cpp:19-106 | enumerate agrees with `Enumerate`; kill, protect and unprotect with fewer than 4 input bytes give `STATUS_BUFFER_TOO_SMALL` and change nothing; protect and unprotect follow `Registry.Add` and `Registry.Remove`; kill follows `ProcessKill`, with the exact open-terminate-close trace or the lone failed open; freeze and unfreeze give `STATUS_NOT_SUPPORTED`; unknown codes give `STATUS_INVALID_DEVICE_REQUEST`; every command except enumerate reports 0 bytes; the invariant holds and nothing leaks |
| Driver.DriverUnload | src/driver.cpp:108-132 | the callback is unregistered (if installed) before the device is deleted (if present), and both handles end NULL |

## Left out

- The spin lock `ProtectLock` (src/driver.cpp:59, 74, 85, 93; src/callbacks.cpp:18, 28) and any concurrency. Each registry command and each membership scan is taken to be atomic.
- `DriverEntry`, `DispatchCreateClose`, device and symbolic-link creation and deletion, `DO_DEVICE_INITIALIZING`, `IoCompleteRequest` and `DbgPrint` (src/driver.cpp:10-17, 102-104, 112, 122-124, 131-202). This is lifecycle and I/O plumbing with nothing to decide; `DriverUnload` is modelled only for its unregister-then-delete order.
- The 200 ms `KeDelayExecutionThread` grace period in `DriverUnload` (src/driver.cpp:118-120). It is a timing heuristic with no sequential behaviour to state.
- The kernel services themselves: `ZwQuerySystemInformation`, `ExAllocatePool2`, `ExFreePoolWithTag`, `ZwOpenProcess`, `ZwTerminateProcess`, `NtSuspendProcess`, `NtResumeProcess`, `ZwClose`, `ObRegisterCallbacks`, `ObUnRegisterCallbacks`, `IoDeleteDevice` and `PsGetProcessId`. Their results are inputs. Their calls are recorded in the ghost trace, except `PsGetProcessId`: its result is the `targetProcessId` field of `Callbacks.OperationInformation`, and the call is not traced.
- Pointer arithmetic over `NextEntryOffset`, and the layout of `SYSTEM_PROCESS_INFORMATION`. The snapshot is the sequence of its entries in chain order; a snapshot whose chain does not end is excluded by `SnapshotService.Valid`.
- Byte-level output layout: the header and each `PROCESS_INFO` are stored as values, and a record is stored whole rather than field by field. In METHOD_BUFFERED I/O the input and output share one system buffer; the model keeps the request bytes and the output buffer apart.
- Process.ProcessEnumerate: the allocation size `bufferSize + 4096` wraps as a ULONG and is only recorded in the trace; the model does not tie the snapshot's size to it.
- Process.ProcessEnumerate: a probe that returns a success status is returned as that status with no output, exactly like any other status that is not `STATUS_INFO_LENGTH_MISMATCH`.
- Callbacks.RegisterProtectCallbacks: a failed `ObRegisterCallbacks` is taken to leave the stored handle unchanged; what the kernel writes into the handle on failure is not modelled.
- Callbacks.RewriteAccess: the create and duplicate DesiredAccess are modelled as two fields although they share one union member; 'the other mask is untouched' is a statement about the model.
- src/process.h holds only prototypes and is not part of this model.
