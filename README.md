# xhypervisor, modelled in Dafny

xhypervisor is a thin safe Rust wrapper over Apple's Hypervisor framework. It has two
backends: x86-64 (VMX) and aarch64. Nearly every public function is a single
framework call whose `hv_return_t` status goes through `match_error_code`.
This project models the decision logic around those calls and the two guest drivers in
the test suite:

- `errors.dfy` (module `Errors`): the closed `Error` set, the classification of a
  native status, the `?`-then-`Ok(value)` pattern of every value-returning accessor,
  and the `Debug` labels of `Error`.
- `vm.dfy` (module `Vm`): the `MemPerm` protection encoding and the VM-wide calls
  (create, destroy, map, protect, unmap, TSC sync, interrupt).
- `aarch64_registers.dfy` (module `Aarch64Registers`): the `Register` and
  `SystemRegister` catalogs and their translations to native register names.
- `aarch64.dfy` (module `Aarch64`): classification of the exit record, and the
  aarch64 `VirtualCpu`, a class whose handle and exit-record pointer are `const`
  fields set once by `new`.
- `x86_64.dfy` (module `X86`): the x86 register catalog, `VMXCap` and its
  discriminants, the x86 `VirtualCpu` (caller id plus native handle, both `const`),
  and the access-rights bit fields that the x86 `Debug` dump decodes.
- `hvdos.dfy` (module `Hvdos`): the x86 guest driver in `tests/hvdos.rs`. It covers
  `cap2ctrl`, the control words, loading the guest code into the memory array, and
  the exit loop (exit-reason mask, I/O port decode, RIP advance, character counter).
  The loop is a `while` method proved equal to a recursive specification function.
  The loop's properties are proved about that function.
- `hvc.dfy` (module `Hvc`): the aarch64 guest driver in `tests/hvc.rs`. It covers the
  in-place payload copy, the vCPU set-up, the exception-class extraction and the
  single-run HVC loop.

Every framework call is an oracle passed in as a parameter. It is a function from the
exact arguments the wrapper passes to the status, or the status and out-value, that
the native layer answers with (`Errors.Reply`). The contracts therefore state what
reaches the native layer, and how its answer becomes the wrapper's result.

## Model

| member | source | states |
|---|---|---|
| Errors.MatchErrorCode | src/lib.rs:101-111 | `Ok` exactly for `HV_SUCCESS`; never `Err(Success)`; the generic `Error` exactly for codes that are neither success nor one of the five named failures |
| Errors.ClassificationReachesEveryFailure | src/lib.rs:101-111 | every variant except `Success` is produced by some status code |
| Errors.NamedFailuresAreDistinguished | src/lib.rs:104-108 | the five named failures each map to their own variant: two named codes classified alike are equal |
| Errors.Forward | src/lib.rs:596-604 | an accessor yields `Ok(value)` exactly on native success, with the value the call left in the out-parameter; otherwise the classified, non-`Success` error |
| Errors.Label | src/lib.rs:86-98 | the `Debug` text of each variant, one fixed label per variant; that no two variants share a label is `LabelIdentifiesError` |
| Errors.LabelIdentifiesError | src/lib.rs:86-98 | each variant renders to its own fixed label ("Bad argument" for `BadArg`, …), so the label identifies the variant |
| Vm.MatchMemPerm | src/lib.rs:146-154 | READ is set for every permission except bare `Exec`; WRITE exactly for `Write` and `ExecAndWrite`; EXEC exactly for the three exec permissions; no other bits |
| Vm.PermRoundTrip | src/lib.rs:146-154 | the encoding is injective: each permission is recovered from its bitmask |
| Vm.WriteImpliesRead | src/lib.rs:149-151 | whenever the WRITE bit is present, the READ bit is too |
| Vm.CreateVm | src/x86_64/mod.rs:12-14 | the native create receives `HV_VM_DEFAULT`, the zero word that the aarch64 backend's null pointer (src/aarch64/mod.rs:9-11) also is; `Ok` exactly when that call succeeds, otherwise the classified error |
| Vm.DestroyVm | src/lib.rs:126-128 | destroy succeeds exactly when `hv_vm_destroy` succeeds; otherwise the classified error |
| Vm.MapMem | src/aarch64/mod.rs:15-24 | the buffer, its length and the `match_MemPerm` encoding reach the native call unchanged; `Ok` exactly on native success |
| Vm.ProtectMem | src/aarch64/mod.rs:33-37 | address, size and the `match_MemPerm` encoding are forwarded unchanged; `Ok` exactly on native success |
| Vm.UnmapMem | src/x86_64/mod.rs:38-40 | address and size are forwarded unchanged; `Ok` exactly on native success |
| Vm.SyncTsc | src/x86_64/mod.rs:45-47 | the guest TSC value is forwarded unchanged; `Ok` exactly on native success |
| Vm.InterruptVcpus | src/x86_64/mod.rs:52-54 | the id list and its own length are passed together; `Ok` exactly on native success |
| Aarch64Registers.ToHvReg | src/aarch64/mod.rs:199-241 | every one of the 37 variants is translated to the native name of that same register |
| Aarch64Registers.RegisterTranslationIsInjective | src/lib.rs:400-442 | distinct registers get distinct native names, including X29/FP and X30/LR |
| Aarch64Registers.ToHvSysReg | src/aarch64/mod.rs:583-700 | every one of the 112 system-register variants is translated to the native name of that same register |
| Aarch64Registers.SystemRegisterTranslationIsInjective | src/aarch64/mod.rs:583-700 | distinct system registers get distinct native names |
| Aarch64.ExitReasonOf | src/aarch64/mod.rs:60-74 | CANCELED, EXCEPTION and VTIMER_ACTIVATED select their variants; an exception carries the record's exception part unchanged; every other tag, UNKNOWN included, gives `Unknown` |
| Aarch64.ExitReasonRoundTrip | src/lib.rs:253-267 | every exit reason, with every exception payload, is produced by some record |
| Aarch64.StaleExceptionIsIgnored | src/lib.rs:253-267 | outside an exception exit, the record's exception part does not affect the result |
| Aarch64.VirtualCpu.constructor | src/aarch64/mod.rs:710-713 | the handle and the exit-record pointer are stored as given |
| Aarch64.VirtualCpu.New | src/aarch64/mod.rs:703-714 | a vCPU is built exactly when create succeeds, holding create's handle and exit-record pointer; otherwise the classified error |
| Aarch64.VirtualCpu.GetId | src/aarch64/mod.rs:716-718 | the handle stored at construction; what it returns after `new` is `NewThenGetId` |
| Aarch64.VirtualCpu.ExitReason | src/aarch64/mod.rs:720-722 | the record at the stored pointer is classified: `Cancelled`, `Exception` (with its payload) and `VTimerActivated` exactly for their tags, `Unknown` exactly for unrecognised tags |
| Aarch64.VirtualCpu.Run | src/lib.rs:533-536 | the stored handle is run; `Ok` exactly on native success |
| Aarch64.VirtualCpu.Destroy | src/lib.rs:528-531 | the stored handle is destroyed; `Ok` exactly on native success |
| Aarch64.VirtualCpu.ReadRegister | src/aarch64/mod.rs:726-734 | asks for the translated register of the stored handle; a value only on native success, and then the one read |
| Aarch64.VirtualCpu.WriteRegister | src/aarch64/mod.rs:737-739 | the translated register and the value reach the native call unchanged; `Ok` exactly on native success |
| Aarch64.VirtualCpu.ReadSystemRegister | src/aarch64/mod.rs:742-750 | as `ReadRegister`, over the system-register translation |
| Aarch64.VirtualCpu.WriteSystemRegister | src/aarch64/mod.rs:753-755 | as `WriteRegister`, over the system-register translation |
| Aarch64.NewThenGetId | src/aarch64/mod.rs:716-718 | after a successful `new`, `get_id` gives create's handle, and `exit_reason` classifies the record at create's pointer |
| X86.VmxCapValue | src/x86_64/mod.rs:420-433 | the explicit discriminant of each variant; that they are 0, 1, 2, 3, 4 and 32 and pairwise distinct is `VmxCapValues` and `VmxCapRoundTrip` |
| X86.VmxCapRoundTrip | src/x86_64/mod.rs:420-433 | each variant is recovered from its discriminant, so no two share one |
| X86.VmxCapValues | src/x86_64/mod.rs:420-433 | the discriminants in use are exactly 0, 1, 2, 3, 4 and 32 |
| X86.VmxCapLabel | src/x86_64/mod.rs:444-455 | the `Display` text of each capability; that no two share one is `VmxCapLabelsDistinct` |
| X86.VmxCapLabelsDistinct | src/x86_64/mod.rs:444-455 | distinct capabilities are rendered with distinct `Display` texts |
| X86.ReadVmxCap | src/x86_64/mod.rs:436-442 | the selector is forwarded; a value only on native success, and then the one read |
| X86.VirtualCpu.constructor | src/x86_64/mod.rs:131 | the caller's id and the native handle are stored as given |
| X86.VirtualCpu.New | src/x86_64/mod.rs:126-132 | a vCPU is built exactly when create succeeds, keeping the caller's `id` and create's handle; otherwise the classified error |
| X86.VirtualCpu.Run | src/lib.rs:533-536 | the stored handle is run; `Ok` exactly on native success |
| X86.VirtualCpu.Destroy | src/lib.rs:528-531 | the stored handle is destroyed; `Ok` exactly on native success |
| X86.VirtualCpu.Interrupt | src/x86_64/mod.rs:143-145 | a one-element list holding this vCPU's handle, with count 1, reaches the native call |
| X86.VirtualCpu.ExecTime | src/x86_64/mod.rs:148-155 | the execution time only on native success, and then the one read |
| X86.VirtualCpu.Flush | src/x86_64/mod.rs:158-160 | `Ok` exactly when flushing the stored handle succeeds |
| X86.VirtualCpu.InvalidateTlb | src/x86_64/mod.rs:163-165 | `Ok` exactly when invalidating the stored handle's TLB succeeds |
| X86.VirtualCpu.EnableNativeMsr | src/x86_64/mod.rs:168-170 | MSR number and flag are forwarded unchanged; `Ok` exactly on native success |
| X86.VirtualCpu.ReadMsr | src/x86_64/mod.rs:173-180 | the MSR value only on native success, and then the one read |
| X86.VirtualCpu.WriteMsr | src/x86_64/mod.rs:183-185 | MSR number and value are forwarded unchanged; `Ok` exactly on native success |
| X86.VirtualCpu.ReadRegister | src/x86_64/mod.rs:189-197 | the register value only on native success, and then the one read |
| X86.VirtualCpu.WriteRegister | src/x86_64/mod.rs:200-202 | register and value are forwarded unchanged; `Ok` exactly on native success |
| X86.VirtualCpu.ReadVmcs | src/x86_64/mod.rs:205-211 | the VMCS field value only on native success, and then the one read |
| X86.VirtualCpu.WriteVmcs | src/x86_64/mod.rs:214-216 | field and value are forwarded unchanged; `Ok` exactly on native success |
| X86.VirtualCpu.SetApicAddr | src/x86_64/mod.rs:220-222 | the APIC guest address is forwarded unchanged; `Ok` exactly on native success |
| X86.VirtualCpu.GetId | src/x86_64/mod.rs:134-136 | the caller's id stored at construction; what it returns after `new(id)` is `NewThenGetIds` |
| X86.VirtualCpu.GetHandle | src/x86_64/mod.rs:138-140 | the native handle stored at construction; what it returns after `new(id)` is `NewThenGetIds` |
| X86.NewThenGetIds | src/x86_64/mod.rs:126-140 | after a successful `new(id)`, `get_id` is the caller's `id` and `get_handle` is create's handle |
| X86.DecodeAccessRights | src/x86_64/mod.rs:361-379 | type is below 16, DPL below 4, the six flags are 0 or 1, and re-encoding the fields gives exactly the word's bits 0-7 and 12-15 |
| X86.AccessRightsRoundTrip | src/x86_64/mod.rs:361-379 | decoding loses no field: well-formed fields come back unchanged from their encoding |
| X86.DecodeSeesOnlyShownBits | src/x86_64/mod.rs:361-379 | two words decode alike exactly when they agree on bits 0-7 and 12-15 (reserved bits 8-11 and bit 16 are not shown) |
| X86.RowOf | src/x86_64/mod.rs:377-400 | one printed segment row: the segment's selector, base and limit with its rights decoded; its properties are those of `DecodeAccessRights` and `SegmentTable` |
| X86.SegmentTable | src/x86_64/mod.rs:327-400 | eight rows cs, ss, ds, es, fs, gs, tr, ldt, each with its own segment's selector, base and limit, and with its rights decoded by the same function |
| Hvdos.Cap2Ctrl | tests/hvdos.rs:20-22 | the result lies within the allowed-1 bits of `cap >> 32`, its top 32 bits are zero, and it holds every bit that both words of `cap` force |
| Hvdos.Cap2CtrlForcedZero | tests/hvdos.rs:20-22 | bits clear in the high word come out 0 whatever is desired |
| Hvdos.Cap2CtrlForcedOne | tests/hvdos.rs:20-22 | bits set in both words come out 1 whatever is desired |
| Hvdos.Cap2CtrlFree | tests/hvdos.rs:20-22 | bits set only in the high word come out as desired |
| Hvdos.Cap2CtrlIdempotent | tests/hvdos.rs:20-22 | constraining an already constrained word changes nothing |
| Hvdos.ReadCapabilities | tests/hvdos.rs:30-50 | the four capabilities are obtained exactly when all four reads succeed, and then they are the values read |
| Hvdos.InitialControls | tests/hvdos.rs:68-81 | the four control words written at set-up, each `cap2ctrl` of its capability; their properties are `InitialControlsEnableHlt` and `InitialControlsForcedOnly` |
| Hvdos.InitialControlsEnableHlt | tests/hvdos.rs:70-77 | HLT exiting, which ends the loop, is enabled whenever the capability allows it |
| Hvdos.InitialControlsForcedOnly | tests/hvdos.rs:68-81 | the pin-based, secondary and entry words hold exactly the bits their capabilities force to 1 |
| Hvdos.WriteToSlice | tests/hvdos.rs:149 | writes as many bytes as fit from `start`, reports that count, and leaves everything else unchanged |
| Hvdos.LoadGuestCode | tests/hvdos.rs:138-152 | all 27 code bytes land at offset 256 of the 4096-byte buffer, the entry RIP 0x100 is the first code byte, and nothing else changes |
| Hvdos.BasicExitReason | tests/hvdos.rs:164 | the dispatch reason is below 2^16 and equals the field without its bits above 15 |
| Hvdos.IoPort | tests/hvdos.rs:184 | the port is below 2^16 and is exactly qualification bits 31:16 |
| Hvdos.RipAfter | tests/hvdos.rs:199 | `rip + inst_length` without wrap-around: no value when `inst_length` exceeds the room `2^64 - 1 - rip` left above `rip`, otherwise the 64-bit sum; used by `HandleIoAdvancesRip` and `HandleSerialWrite` |
| Hvdos.HandleExit | tests/hvdos.rs:162-204 | one iteration of the loop; its behaviour is stated by `HandleExitDispatch`, `HandleExitAccepts`, `HandleExitTooManyChars`, `HandleSerialWrite`, `HandleSerialWriteRejected` and `HandleHalt` |
| Hvdos.HandleIo | tests/hvdos.rs:178-204 | the I/O branch of one iteration; its behaviour is stated by `HandleIoWritesBackOnlyForSerial`, `HandleIoAdvancesRip` and its converse `HandleIoSerialAccepted`, `HandleIoContinuesOnlyAccepting` and `HandleIoOtherPort` |
| Hvdos.DriveFrom | tests/hvdos.rs:161-220 | the loop consumes at most the exits available, and only extends the characters accepted and the RIP values written back |
| Hvdos.Drive | tests/hvdos.rs:161-220 | the whole loop from the first exit with nothing accepted; its properties are `DriveAccepts`, `DriveHaltsOnHlt` and `DrivePanicsOnlyOnIo` |
| Hvdos.RunExitLoop | tests/hvdos.rs:161-220 | the imperative loop, counter and write-backs included, computes exactly the recursive specification `DriveFrom` |
| Hvdos.RunDosGuest | tests/hvdos.rs:161-220 | the test's loop on a vCPU is `Drive` for that vCPU and counter check |
| Hvdos.HandleExitAccepts | tests/hvdos.rs:180-195 | an iteration accepts at most one character, only while the counter passes the check, and the first two accepted are '8' and '\n' |
| Hvdos.DriveFromAccepts | tests/hvdos.rs:161-220 | from any point, the loop keeps at most `panicAbove + 1` characters, all checked |
| Hvdos.DriveAccepts | tests/hvdos.rs:161-220 | a whole run accepts at most `panicAbove + 1` characters, the first '8' and the second '\n' |
| Hvdos.HandleExitDispatch | tests/hvdos.rs:163-178 | an iteration halts exactly on a HLT exit whose reads succeed; IRQ, EPT-violation and unhandled exits continue with nothing accepted and RIP untouched; an I/O exit goes to the I/O branch with the RIP read at the top; a failed read ends the loop |
| Hvdos.HandleIoWritesBackOnlyForSerial | tests/hvdos.rs:183-200 | RIP is written back only after a successful qualification read that names port 0x3F8 |
| Hvdos.HandleIoAdvancesRip | tests/hvdos.rs:197-200 | the RIP written back is the RIP read at the top of the iteration plus the instruction length read from the VMCS, and only when that sum does not overflow |
| Hvdos.HandleIoOtherPort | tests/hvdos.rs:201-204 | an I/O exit to any port other than 0x3F8 ends the loop, reporting that port |
| Hvdos.HandleIoSerialAccepted | tests/hvdos.rs:178-200 | for every qualification whose port field is 0x3F8 and every instruction length: once the counter check passes, the reads and the RIP write succeed, RAX passes its check and the sum does not overflow, RAX is accepted, RIP is written back as the old RIP plus the instruction length, and the loop continues |
| Hvdos.HandleIoContinuesOnlyAccepting | tests/hvdos.rs:178-200 | an I/O iteration that does not end the loop has accepted a character and written RIP back, so every continuing I/O exit moves the counter up by one |
| Hvdos.HandleExitTooManyChars | tests/hvdos.rs:178-182 | an iteration panics for too many characters exactly on an I/O exit (to any port, since the check precedes the port read) seen while the counter is above the bound; as written, with the counter at 3 a fourth I/O exit panics |
| Hvdos.DriveFromEndsAt | tests/hvdos.rs:161-220 | the loop ends a given way only at an exit on which the handler ends it that way |
| Hvdos.DriveHaltsOnHlt | tests/hvdos.rs:172-174 | when the loop halts, the last exit it consumed was a HLT exit whose reads succeeded |
| Hvdos.DrivePanicsOnlyOnIo | tests/hvdos.rs:178-182 | when the loop panics for too many characters, the last exit it consumed was an I/O exit whose reads succeeded |
| Hvdos.HandleSerialWrite | tests/hvdos.rs:178-200 | a serial write passing the counter and character checks accepts the character and moves RIP past the one-byte `out` |
| Hvdos.HandleSerialWriteRejected | tests/hvdos.rs:180-182 | a serial write past the counter check panics before anything else is read |
| Hvdos.HandleHalt | tests/hvdos.rs:172-174 | a `hlt` exit halts the loop |
| Hvdos.AsWrittenAcceptsThirdChar | tests/hvdos.rs:180-182 | as written, a guest writing '8', '\n' and a third character and then halting ends normally with all three accepted |
| Hvdos.CorrectedRejectsThirdChar | tests/hvdos.rs:180-182 | with the intended check, the same guest panics at its third character after accepting "8\n" |
| Hvdos.CorrectedAcceptsAtMostTwoChars | tests/hvdos.rs:180-195 | with the intended check, whatever the guest does, the accepted output is a prefix of "8\n" |
| Hvc.PayloadIsMovThenHvc | tests/hvc.rs:22-25 | the payload's first word encodes MOVZ X0 with immediate 2 and no shift, and its second encodes HVC with immediate 0 |
| Hvc.CloneFromSlice | tests/hvc.rs:37 | the copy succeeds exactly when the slice lies in the buffer and has the source's length; the slice then holds the source and the rest is unchanged; otherwise nothing changes |
| Hvc.LoadPayloadAsWritten | tests/hvc.rs:37 | the copy as written always panics and leaves memory untouched |
| Hvc.LoadPayload | tests/hvc.rs:26-37 | the intended copy puts the eight payload bytes at 0x20000 of the 0x80000-byte buffer and changes nothing else |
| Hvc.SetUpVcpu | tests/hvc.rs:42-44 | set-up succeeds exactly when CPSR is set to 0x3c4 and PC to the payload address; a failed CPSR write gives that write's classified error whatever the PC write would answer, and once CPSR is set the outcome is the PC write's |
| Hvc.ExceptionClass | tests/hvc.rs:52 | the class is below 64 and is exactly syndrome bits 31:26 |
| Hvc.HvcRun | tests/hvc.rs:47-69 | one iteration of the loop; its outcome is characterised by `HvcRunOutcome` |
| Hvc.HvcLoop | tests/hvc.rs:46-70 | the loop performs exactly one run whenever there is an exit, and its outcome is that first exit's |
| Hvc.HvcRunOutcome | tests/hvc.rs:46-70 | an executed HVC is reported exactly when the run succeeds and stops on an exception of class 0x16 and X0 can be read, and then X0 as read; any other exception reports its class; any other exit reports its reason |
| Hvc.RunHvcTest | tests/hvc.rs:20-77 | as written the test panics at the copy and leaves memory untouched; as intended the payload is in memory, and the test reports an executed HVC, an unknown class or an unexpected exit exactly under the conditions above, with every preceding call succeeding |

## Left out

- The framework calls themselves (`hv_vm_*`, `hv_vcpu_*`, `hv_vmx_*`) are not modelled: their effects on the VM are not visible in the repository. Each is an oracle parameter that answers a status, or a status and an out-value.
- The numeric values of `HV_REG_*` and `HV_SYS_REG_*` are not modelled: a native register is represented by its constant's name. Status codes, VMCS field encodings, the aarch64 exit tags `HV_EXIT_REASON_*` (0 to 3) and the VMX exit reasons carry their documented values. Besides their distinctness, the model relies on the VMX exit reasons fitting in 16 bits, so that the dispatch on the masked field can match them, and on the serial qualification 0x03F8_0000 of the guest's one-byte `out` having 0x3F8 in bits 31:16. The x86 `Register` reaches the native layer as the variant itself.
- Aarch64Registers.RegisterTranslationIsInjective: distinctness is stated over constant names. Whether the framework defines `HV_REG_FP` or `HV_REG_LR` as an alias of `HV_REG_X29` or `HV_REG_X30` is not covered.
- `read_fpstate` and `write_fpstate` are not modelled. They pass opaque floating-point and SIMD buffers whose size the framework checks.
- Thread affinity of vCPUs is not modelled. It is a concurrency concern, as are the cross-thread effects of `interrupt`.
- The `exit_reason` raw-pointer dereference is modelled as a lookup in an oracle map from pointer to record, taken at the time of the call.
- All `Debug` and `Display` formatting output is left out. So are the dump's VMCS register table and its GDT, IDT and link-pointer lines, and its `unwrap`s. What is kept: the `Error` labels, the `VMXCap` texts, the segment rows and their access-rights arithmetic.
- src/lib.rs holds an older copy of the x86 `VirtualCpu`. Its `new()` takes no id, and `id` is the native handle. The model's `X86.VirtualCpu` follows the `src/x86_64/mod.rs` struct (`new(id)`, `get_id`, `get_handle`). That file has no `run` or `destroy`. `X86.VirtualCpu.Run` and `X86.VirtualCpu.Destroy` therefore model `src/lib.rs:528-536`, with the older struct's `self.id` replaced by the newer struct's native handle `vcpu_handle`. The same holds for `Aarch64.VirtualCpu.Run` and `Aarch64.VirtualCpu.Destroy`: `src/aarch64/mod.rs` has neither, so they model `src/lib.rs:528-536` on the aarch64 handle `id`.
- Memory allocation and deallocation, `println!`, and the final `drop`/`unmap_mem` of `tests/hvdos.rs` are left out.
- The guest-state VMCS writes of `tests/hvdos.rs:82-136`, and the register set-up after RIP, are not modelled. Each is an `unwrap` on a forwarded write whose contract the `X86.VirtualCpu` accessors already state.
- The guest instructions are not executed. RAX, RIP, the exit reason and the instruction length come from the oracle, so the model does not derive that the guest computes '8'.
- Hvdos.DriveFrom: the test's loop has no bound on exits. The model runs over a finite sequence of exits, and ends with `ExitsExhausted` when that sequence runs out first.
- Hvdos.HandleExit: the test's counter is a `u8`. It is modelled as a `nat`, because the counter check stops it long before it could wrap.
- Hvdos.HandleIoAdvancesRip: the Rust `rip + inst_length` panics on overflow. The model states this as the bit-vector test `len <= 2^64 - 1 - rip`. That this test coincides with the mathematical sum staying below 2^64 is not proved.
- Hvc.HvcLoop: each exit carries the oracles of one run. Since every branch breaks, `RunHvcTest` passes the loop a single exit.
- `tests/hvdos.rs` calls `VirtualCpu::new()` with no id, which is the older lib.rs signature. The driver is modelled on the `src/x86_64/mod.rs` vCPU with an arbitrary id, since the id plays no part in the loop.

## Findings

| source | as written | input that shows it | evidently intended | confidence | as-written member | corrected member |
|---|---|---|---|---|---|---|
| tests/hvdos.rs:180 | `if chars > 2` panics only once three characters have been accepted, so a third serial write is accepted | a guest that writes '8', '\n' and any third character to port 0x3F8 and then halts: the loop halts normally with three characters | "should not return more than 2 chars": the check should reject the third character (`chars > 1`, i.e. `chars >= 2`) | not executed | Hvdos.AsWrittenAcceptsThirdChar | Hvdos.CorrectedAcceptsAtMostTwoChars |
| tests/hvc.rs:37 | `mem[0x20000..].clone_from_slice(&payload)` copies into a slice running to the end of the 0x80000-byte buffer, 0x60000 bytes against the payload's 8, so `clone_from_slice` always panics | any run of the test: the lengths differ whatever the buffer holds | copy into `mem[0x20000..0x20008]`, so that the payload lands at its guest address | not executed | Hvc.LoadPayloadAsWritten | Hvc.LoadPayload |
