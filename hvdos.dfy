/** The x86 guest driver of tests/hvdos.rs: control words constrained by the
    VMX capability words (the convention of Intel SDM Vol. 3, Appendix A.3:
    allowed 0-settings in bits 31:0, allowed 1-settings in bits 63:32), the
    guest code written into guest memory, and the exit-handling loop that
    emulates a serial port. Each exit the loop sees is given by the oracles
    the native layer would answer with for that exit. */
module Hvdos {
  import opened Errors
  import opened X86

  /** `cap2ctrl`: the desired control word, with every bit the capability
      forces to 1 set and every bit it forces to 0 cleared. */
  function Cap2Ctrl(cap: bv64, ctrl: bv64): (r: bv64)
    ensures r & !(cap >> 32) == 0
    ensures r >> 32 == 0
    ensures (cap & 0xffff_ffff) & (cap >> 32) & !r == 0
  {
    (ctrl | (cap & 0xffff_ffff)) & (cap >> 32)
  }

  /** Bits the high word of the capability does not allow come out 0,
      whatever is desired. */
  lemma Cap2CtrlForcedZero(cap: bv64, ctrl: bv64, m: bv64)
    requires (cap >> 32) & m == 0
    ensures Cap2Ctrl(cap, ctrl) & m == 0
  {
  }

  /** Bits that both words of the capability set come out 1, whatever is
      desired. */
  lemma Cap2CtrlForcedOne(cap: bv64, ctrl: bv64, m: bv64)
    requires m & !(cap >> 32) == 0 && m & !(cap & 0xffff_ffff) == 0
    ensures Cap2Ctrl(cap, ctrl) & m == m
  {
  }

  /** Bits that only the high word sets are free: they come out as desired. */
  lemma Cap2CtrlFree(cap: bv64, ctrl: bv64, m: bv64)
    requires m & !(cap >> 32) == 0 && (cap & 0xffff_ffff) & m == 0
    ensures Cap2Ctrl(cap, ctrl) & m == ctrl & m
  {
  }

  /** Constraining an already constrained word changes nothing. */
  lemma Cap2CtrlIdempotent(cap: bv64, ctrl: bv64)
    ensures Cap2Ctrl(cap, Cap2Ctrl(cap, ctrl)) == Cap2Ctrl(cap, ctrl)
  {
  }

  // Primary processor-based control bits (Intel SDM Vol. 3, Table 25-6):
  // HLT exiting, CR8-load exiting, CR8-store exiting.
  const CPU_BASED_HLT: bv64 := 1 << 7
  const CPU_BASED_CR8_LOAD: bv64 := 1 << 19
  const CPU_BASED_CR8_STORE: bv64 := 1 << 20

  /** The four capability words the test asks the host for. */
  datatype Capabilities = Capabilities(pinBased: bv64, procBased: bv64, procBased2: bv64, entry: bv64)

  /** Reads the four capabilities in order; the test panics (None here) on
      the first non-zero status. */
  function ReadCapabilities(hv: VMXCap -> Reply<bv64>): (r: Option<Capabilities>)
    ensures r.Some? <==> forall c :: c in [PINBASED, PROCBASED, PROCBASED2, ENTRY] ==> hv(c).status == HV_SUCCESS
    ensures r.Some? ==> r.value == Capabilities(hv(PINBASED).out, hv(PROCBASED).out, hv(PROCBASED2).out, hv(ENTRY).out)
  {
    if hv(PINBASED).status != HV_SUCCESS then None
    else if hv(PROCBASED).status != HV_SUCCESS then None
    else if hv(PROCBASED2).status != HV_SUCCESS then None
    else if hv(ENTRY).status != HV_SUCCESS then None
    else Some(Capabilities(hv(PINBASED).out, hv(PROCBASED).out, hv(PROCBASED2).out, hv(ENTRY).out))
  }

  /** The pin-based, primary, secondary and entry control words written at
      setup. */
  datatype Controls = Controls(pinBased: bv64, cpuBased: bv64, cpuBased2: bv64, entry: bv64)

  /** Only the primary processor-based word asks for anything (HLT exiting
      and CR8 load/store exiting); the others ask for nothing. */
  function InitialControls(caps: Capabilities): Controls {
    Controls(
      Cap2Ctrl(caps.pinBased, 0),
      Cap2Ctrl(caps.procBased, CPU_BASED_HLT | CPU_BASED_CR8_LOAD | CPU_BASED_CR8_STORE),
      Cap2Ctrl(caps.procBased2, 0),
      Cap2Ctrl(caps.entry, 0))
  }

  /** HLT exiting, which the loop relies on to stop, is enabled whenever the
      capability allows it. */
  lemma InitialControlsEnableHlt(caps: Capabilities)
    ensures (caps.procBased >> 32) & CPU_BASED_HLT != 0 ==> InitialControls(caps).cpuBased & CPU_BASED_HLT != 0
  {
    var want := CPU_BASED_HLT | CPU_BASED_CR8_LOAD | CPU_BASED_CR8_STORE;
    if (caps.procBased >> 32) & CPU_BASED_HLT != 0 {
      if (caps.procBased & 0xffff_ffff) & CPU_BASED_HLT == 0 {
        Cap2CtrlFree(caps.procBased, want, CPU_BASED_HLT);
      } else {
        Cap2CtrlForcedOne(caps.procBased, want, CPU_BASED_HLT);
      }
    }
  }

  /** A control word that asks for nothing holds exactly the bits its
      capability forces to 1. */
  lemma InitialControlsForcedOnly(caps: Capabilities)
    ensures InitialControls(caps).pinBased == (caps.pinBased & 0xffff_ffff) & (caps.pinBased >> 32)
    ensures InitialControls(caps).cpuBased2 == (caps.procBased2 & 0xffff_ffff) & (caps.procBased2 >> 32)
    ensures InitialControls(caps).entry == (caps.entry & 0xffff_ffff) & (caps.entry >> 32)
  {
  }

  /** Size of the guest memory buffer mapped at guest address 0. */
  const GUEST_MEM_CAPACITY: nat := 4 * 1024
  /** Where the guest code is written, and where RIP starts. */
  const GUEST_CODE_OFFSET: nat := 256
  const GUEST_ENTRY_RIP: bv64 := 0x100

  const CHAR_EIGHT: bv64 := 0x38    // '8'
  const CHAR_NEWLINE: bv64 := 0x0a  // '\n'

  /** The 16-bit guest: `mov $0x3f8, %dx; add %bl, %al; add $'0', %al;
      out %al, (%dx); mov $'\n', %al; out %al, (%dx)`, fifteen `nop`s and
      `hlt`. */
  const GUEST_CODE: seq<bv8> := [
    0xba, 0xf8, 0x03,
    0x00, 0xd8,
    0x04, 0x30,
    0xee,
    0xb0, 0x0a,
    0xee,
    0x90, 0x90, 0x90, 0x90, 0x90, 0x90, 0x90, 0x90, 0x90, 0x90, 0x90, 0x90, 0x90, 0x90,
    0x90, 0xf4]

  /** `io::Write` for a byte slice starting at `start`: copies as many bytes
      as fit and reports how many. */
  method WriteToSlice(mem: array<bv8>, start: nat, data: seq<bv8>) returns (n: nat)
    requires start <= mem.Length
    modifies mem
    ensures n == if |data| <= mem.Length - start then |data| else mem.Length - start
    ensures mem[..] == old(mem[..start]) + data[..n] + old(mem[start + n..])
  {
    n := if |data| <= mem.Length - start then |data| else mem.Length - start;
    var j := 0;
    while j < n
      invariant 0 <= j <= n
      invariant mem[..start] == old(mem[..start])
      invariant mem[start..start + j] == data[..j]
      invariant mem[start + j..] == old(mem[start + j..])
    {
      mem[start + j] := data[j];
      j := j + 1;
    }
    assert mem[..] == mem[..start] + mem[start..start + n] + mem[start + n..];
  }

  /** The guest code lands whole at offset 256 of the 4096-byte buffer, so
      the entry point 0x100 is its first byte; nothing else changes. */
  method LoadGuestCode(mem: array<bv8>)
    requires mem.Length == GUEST_MEM_CAPACITY
    modifies mem
    ensures mem[GUEST_CODE_OFFSET..GUEST_CODE_OFFSET + |GUEST_CODE|] == GUEST_CODE
    ensures mem[..GUEST_CODE_OFFSET] == old(mem[..GUEST_CODE_OFFSET])
    ensures mem[GUEST_CODE_OFFSET + |GUEST_CODE|..] == old(mem[GUEST_CODE_OFFSET + |GUEST_CODE|..])
    ensures mem[GUEST_ENTRY_RIP as nat] == GUEST_CODE[0]
  {
    var written := WriteToSlice(mem, GUEST_CODE_OFFSET, GUEST_CODE);
    assert written == |GUEST_CODE|;
    assert mem[GUEST_CODE_OFFSET..GUEST_CODE_OFFSET + |GUEST_CODE|] == GUEST_CODE;
  }

  // VMCS field encodings (Intel SDM Vol. 3, Appendix B) and basic exit
  // reasons (Appendix C); the model relies only on their being distinct.
  const VMCS_RO_EXIT_REASON: bv32 := 0x4402
  const VMCS_RO_EXIT_QUALIFIC: bv32 := 0x6400
  const VMCS_RO_VMEXIT_INSTR_LEN: bv32 := 0x440c
  const VMX_REASON_IRQ: bv64 := 1
  const VMX_REASON_HLT: bv64 := 12
  const VMX_REASON_IO: bv64 := 30
  const VMX_REASON_EPT_VIOLATION: bv64 := 48

  /** The serial port the guest writes to. */
  const SERIAL_PORT: bv64 := 0x3F8

  /** What the native layer answers during the handling of one exit: the
      run itself, VMCS reads, register reads and register writes. */
  datatype VmxExit = VmxExit(
    run: VcpuId -> Status,
    vmcs: (VcpuId, bv32) -> Reply<bv64>,
    regs: (VcpuId, Register) -> Reply<bv64>,
    setReg: (VcpuId, Register, bv64) -> Status)

  /** Why the test panics. */
  datatype Panic =
    | Unwrapped(error: Error)          // an `unwrap` on a failed call
    | TooManyChars                     // the counter check before an I/O exit
    | UnexpectedChar(index: nat, rax: bv64)  // an `assert_eq!` on RAX
    | RipOverflow                      // `rip + inst_length` overflows

  /** How the loop ends. */
  datatype DosEnd =
    | Halted
    | UnrecognizedPort(port: bv64)
    | Panicked(cause: Panic)
    | ExitsExhausted                   // the modelled exits ran out first

  /** The effect of handling one exit: whether the loop ends, the character
      accepted (if any) and the RIP written back (if any). */
  datatype DosStep = DosStep(end: Option<DosEnd>, accepted: Option<bv64>, ripWrite: Option<bv64>)

  function Stop(end: DosEnd): DosStep {
    DosStep(Some(end), None, None)
  }

  const Continue: DosStep := DosStep(None, None, None)

  /** The exit reason used for dispatch: the VMCS field's low 16 bits. */
  function BasicExitReason(raw: bv64): (r: bv64)
    ensures r < 0x1_0000
    ensures r == raw - (raw >> 16 << 16)
  {
    raw & 0xffff
  }

  /** The I/O port of an I/O exit: exit-qualification bits 31:16. */
  function IoPort(qual: bv64): (port: bv64)
    ensures port < 0x1_0000
    ensures port << 16 == qual & 0xffff_0000
  {
    (qual >> 16) & 0xFFFF
  }

  /** `rip + inst_length` on `u64`, which panics rather than wrap around:
      nothing when `len` exceeds the room left above `rip`, otherwise the
      sum. */
  function RipAfter(rip: bv64, len: bv64): Option<bv64> {
    if len > 0xffff_ffff_ffff_ffff - rip then None else Some(rip + len)
  }

  /** One iteration of the loop, for the exit `e`, with `chars` characters
      accepted so far; the counter check panics once `chars > panicAbove`. */
  function HandleExit(vcpu: VirtualCpu, e: VmxExit, chars: nat, panicAbove: nat): DosStep {
    match vcpu.Run(e.run)
    case Err(err) => Stop(Panicked(Unwrapped(err)))
    case Ok(_) =>
      match vcpu.ReadVmcs(VMCS_RO_EXIT_REASON, e.vmcs)
      case Err(err) => Stop(Panicked(Unwrapped(err)))
      case Ok(raw) =>
        var exitReason := BasicExitReason(raw);
        match vcpu.ReadRegister(RIP, e.regs)
        case Err(err) => Stop(Panicked(Unwrapped(err)))
        case Ok(rip) =>
          if exitReason == VMX_REASON_IRQ then Continue
          else if exitReason == VMX_REASON_HLT then Stop(Halted)
          else if exitReason == VMX_REASON_EPT_VIOLATION then Continue
          else if exitReason == VMX_REASON_IO then HandleIo(vcpu, e, chars, panicAbove, rip)
          else Continue
  }

  /** The I/O branch of the loop, with the RIP read at the top of the
      iteration. */
  function HandleIo(vcpu: VirtualCpu, e: VmxExit, chars: nat, panicAbove: nat, rip: bv64): DosStep {
    if chars > panicAbove then Stop(Panicked(TooManyChars))
    else
      match vcpu.ReadVmcs(VMCS_RO_EXIT_QUALIFIC, e.vmcs)
      case Err(err) => Stop(Panicked(Unwrapped(err)))
      case Ok(qual) =>
        if IoPort(qual) != SERIAL_PORT then Stop(UnrecognizedPort(IoPort(qual)))
        else
          match vcpu.ReadRegister(RAX, e.regs)
          case Err(err) => Stop(Panicked(Unwrapped(err)))
          case Ok(rax) =>
            if chars == 0 && rax != CHAR_EIGHT then Stop(Panicked(UnexpectedChar(0, rax)))
            else if chars == 1 && rax != CHAR_NEWLINE then Stop(Panicked(UnexpectedChar(1, rax)))
            else
              // The character is counted before the instruction length is read.
              match vcpu.ReadVmcs(VMCS_RO_VMEXIT_INSTR_LEN, e.vmcs)
              case Err(err) => DosStep(Some(Panicked(Unwrapped(err))), Some(rax), None)
              case Ok(len) =>
                match RipAfter(rip, len)
                case None => DosStep(Some(Panicked(RipOverflow)), Some(rax), None)
                case Some(next) =>
                  match vcpu.WriteRegister(RIP, next, e.setReg)
                  case Err(err) => DosStep(Some(Panicked(Unwrapped(err))), Some(rax), None)
                  case Ok(_) => DosStep(None, Some(rax), Some(next))
  }

  /** The outcome of the loop: how it ended, the characters accepted, the
      RIP values written back, and how many exits it consumed. */
  datatype DosRun = DosRun(end: DosEnd, output: seq<bv64>, ripWrites: seq<bv64>, runs: nat)

  function Emitted(o: Option<bv64>): seq<bv64> {
    if o.Some? then [o.value] else []
  }

  /** The handling of one exit as the loop sees it: given the exit and the
      characters accepted so far, what the iteration does. */
  type ExitHandler = (VmxExit, nat) -> DosStep

  /** The handler of the test's loop, for a given vCPU and counter check. */
  function DosHandler(vcpu: VirtualCpu, panicAbove: nat): ExitHandler {
    (e: VmxExit, chars: nat) => HandleExit(vcpu, e, chars, panicAbove)
  }

  /** The loop from exit `k` on, with the characters and RIP writes so far. */
  function DriveFrom(handle: ExitHandler, trace: seq<VmxExit>, k: nat,
                     output: seq<bv64>, ripWrites: seq<bv64>): (r: DosRun)
    requires k <= |trace|
    ensures k <= r.runs <= |trace|
    ensures output <= r.output && ripWrites <= r.ripWrites
    decreases |trace| - k
  {
    if k == |trace| then DosRun(ExitsExhausted, output, ripWrites, k)
    else
      var step := handle(trace[k], |output|);
      var output' := output + Emitted(step.accepted);
      var ripWrites' := ripWrites + Emitted(step.ripWrite);
      assert output <= output' && ripWrites <= ripWrites';
      if step.end.Some? then DosRun(step.end.value, output', ripWrites', k + 1)
      else DriveFrom(handle, trace, k + 1, output', ripWrites')
  }

  /** The whole loop of the test over the exits of `trace`. */
  function Drive(vcpu: VirtualCpu, trace: seq<VmxExit>, panicAbove: nat): DosRun {
    DriveFrom(DosHandler(vcpu, panicAbove), trace, 0, [], [])
  }

  /** The counter check of the test as written (`chars > 2`), and the one
      its panic message describes (no more than two characters). */
  const PANIC_ABOVE_AS_WRITTEN: nat := 2
  const PANIC_ABOVE: nat := 1

  /** The exit-handling loop: runs one exit after another until an exit ends
      it, keeping the character counter and the RIP values written back. */
  method RunExitLoop(handle: ExitHandler, trace: seq<VmxExit>) returns (r: DosRun)
    ensures r == DriveFrom(handle, trace, 0, [], [])
  {
    var chars: nat := 0;
    var output: seq<bv64> := [];
    var ripWrites: seq<bv64> := [];
    var k := 0;
    while k < |trace|
      invariant k <= |trace|
      invariant chars == |output|
      invariant DriveFrom(handle, trace, k, output, ripWrites) == DriveFrom(handle, trace, 0, [], [])
      decreases |trace| - k
    {
      var step := handle(trace[k], chars);
      ghost var before := (output, ripWrites);
      k := k + 1;
      if step.accepted.Some? {
        chars := chars + 1;
        output := output + [step.accepted.value];
      }
      if step.ripWrite.Some? {
        ripWrites := ripWrites + [step.ripWrite.value];
      }
      assert output == before.0 + Emitted(step.accepted);
      assert ripWrites == before.1 + Emitted(step.ripWrite);
      if step.end.Some? {
        return DosRun(step.end.value, output, ripWrites, k);
      }
    }
    return DosRun(ExitsExhausted, output, ripWrites, k);
  }

  /** The test's loop on a vCPU. */
  method RunDosGuest(vcpu: VirtualCpu, trace: seq<VmxExit>, panicAbove: nat) returns (r: DosRun)
    ensures r == Drive(vcpu, trace, panicAbove)
  {
    r := RunExitLoop(DosHandler(vcpu, panicAbove), trace);
  }

  /** The first accepted character is '8' and the second '\n'. */
  predicate Checked(output: seq<bv64>) {
    && (|output| > 0 ==> output[0] == CHAR_EIGHT)
    && (|output| > 1 ==> output[1] == CHAR_NEWLINE)
  }

  /** One exit accepts at most one character, and only while the counter is
      at most `panicAbove`; an accepted character passes the checks. */
  lemma HandleExitAccepts(vcpu: VirtualCpu, e: VmxExit, output: seq<bv64>, panicAbove: nat)
    requires Checked(output)
    ensures var step := HandleExit(vcpu, e, |output|, panicAbove);
      && (step.accepted.Some? ==> |output| <= panicAbove)
      && Checked(output + Emitted(step.accepted))
  {
  }

  /** Every run of the loop accepts at most `panicAbove + 1` characters, all
      checked. */
  lemma {:induction false} DriveFromAccepts(vcpu: VirtualCpu, panicAbove: nat, trace: seq<VmxExit>, k: nat,
                                           output: seq<bv64>, ripWrites: seq<bv64>)
    requires k <= |trace|
    requires |output| <= panicAbove + 1 && Checked(output)
    ensures var r := DriveFrom(DosHandler(vcpu, panicAbove), trace, k, output, ripWrites);
      |r.output| <= panicAbove + 1 && Checked(r.output)
    decreases |trace| - k
  {
    if k < |trace| {
      var step := HandleExit(vcpu, trace[k], |output|, panicAbove);
      assert DosHandler(vcpu, panicAbove)(trace[k], |output|) == step;
      HandleExitAccepts(vcpu, trace[k], output, panicAbove);
      if step.end.None? {
        DriveFromAccepts(vcpu, panicAbove, trace, k + 1, output + Emitted(step.accepted),
                         ripWrites + Emitted(step.ripWrite));
      }
    }
  }

  /** Whole-loop form: at most `panicAbove + 1` characters, the first '8',
      the second '\n'. */
  lemma DriveAccepts(vcpu: VirtualCpu, trace: seq<VmxExit>, panicAbove: nat)
    ensures |Drive(vcpu, trace, panicAbove).output| <= panicAbove + 1
    ensures Checked(Drive(vcpu, trace, panicAbove).output)
  {
    DriveFromAccepts(vcpu, panicAbove, trace, 0, [], []);
  }

  /** The reads at the top of every iteration all succeed. */
  predicate ReadsSucceed(vcpu: VirtualCpu, e: VmxExit) {
    && vcpu.Run(e.run).Ok?
    && vcpu.ReadVmcs(VMCS_RO_EXIT_REASON, e.vmcs).Ok?
    && vcpu.ReadRegister(RIP, e.regs).Ok?
  }

  /** The masked exit reason of an exit whose reads succeed. */
  function ReasonOf(vcpu: VirtualCpu, e: VmxExit): bv64
    requires ReadsSucceed(vcpu, e)
  {
    BasicExitReason(vcpu.ReadVmcs(VMCS_RO_EXIT_REASON, e.vmcs).value)
  }

  /** Only a HLT exit halts the loop; IRQ and EPT-violation exits (and any
      unhandled reason) continue with nothing accepted and RIP untouched; an
      I/O exit is handled by the I/O branch with the RIP read at the top. */
  lemma HandleExitDispatch(vcpu: VirtualCpu, e: VmxExit, chars: nat, panicAbove: nat)
    ensures HandleExit(vcpu, e, chars, panicAbove).end == Some(Halted) <==>
      ReadsSucceed(vcpu, e) && ReasonOf(vcpu, e) == VMX_REASON_HLT
    ensures ReadsSucceed(vcpu, e) && ReasonOf(vcpu, e) !in {VMX_REASON_HLT, VMX_REASON_IO} ==>
      HandleExit(vcpu, e, chars, panicAbove) == Continue
    ensures ReadsSucceed(vcpu, e) && ReasonOf(vcpu, e) == VMX_REASON_IO ==>
      HandleExit(vcpu, e, chars, panicAbove) == HandleIo(vcpu, e, chars, panicAbove, vcpu.ReadRegister(RIP, e.regs).value)
    ensures !ReadsSucceed(vcpu, e) ==> HandleExit(vcpu, e, chars, panicAbove).end.Some?
  {
  }

  /** Only a write to the serial port writes RIP back. */
  lemma HandleIoWritesBackOnlyForSerial(vcpu: VirtualCpu, e: VmxExit, chars: nat, panicAbove: nat, rip: bv64)
    ensures var step := HandleIo(vcpu, e, chars, panicAbove, rip);
      step.ripWrite.Some? ==>
        && vcpu.ReadVmcs(VMCS_RO_EXIT_QUALIFIC, e.vmcs).Ok?
        && IoPort(vcpu.ReadVmcs(VMCS_RO_EXIT_QUALIFIC, e.vmcs).value) == SERIAL_PORT
  {
  }

  /** The RIP written back is the RIP read at the top advanced by the
      instruction length, and only when that sum does not overflow. */
  lemma HandleIoAdvancesRip(vcpu: VirtualCpu, e: VmxExit, chars: nat, panicAbove: nat, rip: bv64)
    ensures var step := HandleIo(vcpu, e, chars, panicAbove, rip);
      step.ripWrite.Some? ==>
        && vcpu.ReadVmcs(VMCS_RO_VMEXIT_INSTR_LEN, e.vmcs).Ok?
        && RipAfter(rip, vcpu.ReadVmcs(VMCS_RO_VMEXIT_INSTR_LEN, e.vmcs).value) == Some(step.ripWrite.value)
  {
  }

  /** The converse of `HandleIoAdvancesRip`, for every qualification whose
      port field names the serial port and every instruction length: when
      the counter check passes, every call succeeds, the character passes
      its check and the sum does not overflow, the character is accepted,
      RIP moves on by the instruction length and the loop continues. */
  lemma HandleIoSerialAccepted(vcpu: VirtualCpu, e: VmxExit, chars: nat, panicAbove: nat, rip: bv64)
    requires chars <= panicAbove
    requires vcpu.ReadVmcs(VMCS_RO_EXIT_QUALIFIC, e.vmcs).Ok?
    requires IoPort(vcpu.ReadVmcs(VMCS_RO_EXIT_QUALIFIC, e.vmcs).value) == SERIAL_PORT
    requires vcpu.ReadRegister(RAX, e.regs).Ok?
    requires chars == 0 ==> vcpu.ReadRegister(RAX, e.regs).value == CHAR_EIGHT
    requires chars == 1 ==> vcpu.ReadRegister(RAX, e.regs).value == CHAR_NEWLINE
    requires vcpu.ReadVmcs(VMCS_RO_VMEXIT_INSTR_LEN, e.vmcs).Ok?
    requires RipAfter(rip, vcpu.ReadVmcs(VMCS_RO_VMEXIT_INSTR_LEN, e.vmcs).value).Some?
    requires vcpu.WriteRegister(RIP, rip + vcpu.ReadVmcs(VMCS_RO_VMEXIT_INSTR_LEN, e.vmcs).value, e.setReg).Ok?
    ensures HandleIo(vcpu, e, chars, panicAbove, rip)
      == DosStep(None, Some(vcpu.ReadRegister(RAX, e.regs).value),
                 Some(rip + vcpu.ReadVmcs(VMCS_RO_VMEXIT_INSTR_LEN, e.vmcs).value))
  {
  }

  /** An I/O iteration that lets the loop go on has always accepted a
      character and written RIP back; so every I/O exit that does not end
      the loop moves the counter up by one. */
  lemma HandleIoContinuesOnlyAccepting(vcpu: VirtualCpu, e: VmxExit, chars: nat, panicAbove: nat, rip: bv64)
    ensures var step := HandleIo(vcpu, e, chars, panicAbove, rip);
      step.end.None? ==> step.accepted.Some? && step.ripWrite.Some?
    ensures var step := HandleExit(vcpu, e, chars, panicAbove);
      ReadsSucceed(vcpu, e) && ReasonOf(vcpu, e) == VMX_REASON_IO && step.end.None? ==>
        step.accepted.Some? && step.ripWrite.Some?
  {
  }

  /** An I/O exit to any port other than the serial port ends the loop. */
  lemma HandleIoOtherPort(vcpu: VirtualCpu, e: VmxExit, chars: nat, panicAbove: nat, rip: bv64)
    requires chars <= panicAbove
    requires vcpu.ReadVmcs(VMCS_RO_EXIT_QUALIFIC, e.vmcs).Ok?
    requires IoPort(vcpu.ReadVmcs(VMCS_RO_EXIT_QUALIFIC, e.vmcs).value) != SERIAL_PORT
    ensures HandleIo(vcpu, e, chars, panicAbove, rip)
      == Stop(UnrecognizedPort(IoPort(vcpu.ReadVmcs(VMCS_RO_EXIT_QUALIFIC, e.vmcs).value)))
  {
  }

  /** The counter check runs on every I/O exit, before the port is read: an
      iteration panics for too many characters exactly when its exit is an
      I/O exit (to any port) seen while the counter is above `panicAbove`. */
  lemma HandleExitTooManyChars(vcpu: VirtualCpu, e: VmxExit, chars: nat, panicAbove: nat)
    ensures HandleExit(vcpu, e, chars, panicAbove).end == Some(Panicked(TooManyChars)) <==>
      ReadsSucceed(vcpu, e) && ReasonOf(vcpu, e) == VMX_REASON_IO && chars > panicAbove
  {
  }

  /** Whatever way a handler ends the loop, the loop ends that way only at
      an exit on which the handler ends it so: if every exit the handler
      stops at with `end` satisfies `q`, the last exit consumed does. */
  lemma {:induction false} DriveFromEndsAt(handle: ExitHandler, trace: seq<VmxExit>, k: nat,
                                           output: seq<bv64>, ripWrites: seq<bv64>,
                                           end: DosEnd, q: VmxExit -> bool)
    requires k <= |trace| && !end.ExitsExhausted?
    requires forall e, chars :: handle(e, chars).end == Some(end) ==> q(e)
    ensures var r := DriveFrom(handle, trace, k, output, ripWrites);
      r.end == end ==> 0 < r.runs && q(trace[r.runs - 1])
    decreases |trace| - k
  {
    if k < |trace| {
      var step := handle(trace[k], |output|);
      if step.end.None? {
        DriveFromEndsAt(handle, trace, k + 1, output + Emitted(step.accepted),
                        ripWrites + Emitted(step.ripWrite), end, q);
      }
    }
  }

  /** When the loop halts, the last exit it consumed was a HLT exit. */
  lemma DriveHaltsOnHlt(vcpu: VirtualCpu, trace: seq<VmxExit>, panicAbove: nat)
    ensures var r := Drive(vcpu, trace, panicAbove);
      r.end.Halted? ==> 0 < r.runs && ReadsSucceed(vcpu, trace[r.runs - 1])
                        && ReasonOf(vcpu, trace[r.runs - 1]) == VMX_REASON_HLT
  {
    var q := (e: VmxExit) => ReadsSucceed(vcpu, e) && ReasonOf(vcpu, e) == VMX_REASON_HLT;
    forall e, chars | DosHandler(vcpu, panicAbove)(e, chars).end == Some(Halted)
      ensures q(e)
    {
      HandleExitDispatch(vcpu, e, chars, panicAbove);
    }
    DriveFromEndsAt(DosHandler(vcpu, panicAbove), trace, 0, [], [], Halted, q);
  }

  /** When the loop panics for too many characters, the last exit it
      consumed was an I/O exit whose reads succeeded. */
  lemma DrivePanicsOnlyOnIo(vcpu: VirtualCpu, trace: seq<VmxExit>, panicAbove: nat)
    ensures var r := Drive(vcpu, trace, panicAbove);
      r.end == Panicked(TooManyChars) ==> 0 < r.runs && ReadsSucceed(vcpu, trace[r.runs - 1])
                                          && ReasonOf(vcpu, trace[r.runs - 1]) == VMX_REASON_IO
  {
    var q := (e: VmxExit) => ReadsSucceed(vcpu, e) && ReasonOf(vcpu, e) == VMX_REASON_IO;
    forall e, chars | DosHandler(vcpu, panicAbove)(e, chars).end == Some(Panicked(TooManyChars))
      ensures q(e)
    {
      HandleExitTooManyChars(vcpu, e, chars, panicAbove);
    }
    DriveFromEndsAt(DosHandler(vcpu, panicAbove), trace, 0, [], [], Panicked(TooManyChars), q);
  }

  /** An exit on which every call succeeds and the guest executes a
      one-byte `out` of `ch` to the serial port at `rip`. */
  predicate SerialWriteExit(vcpu: VirtualCpu, e: VmxExit, rip: bv64, ch: bv64) {
    var h := vcpu.vcpuHandle;
    && e.run(h) == HV_SUCCESS
    && e.vmcs(h, VMCS_RO_EXIT_REASON) == Reply(HV_SUCCESS, VMX_REASON_IO)
    && e.regs(h, RIP) == Reply(HV_SUCCESS, rip)
    && e.vmcs(h, VMCS_RO_EXIT_QUALIFIC) == Reply(HV_SUCCESS, SERIAL_QUAL)
    && e.regs(h, RAX) == Reply(HV_SUCCESS, ch)
    && e.vmcs(h, VMCS_RO_VMEXIT_INSTR_LEN) == Reply(HV_SUCCESS, 1)
    && e.setReg(h, RIP, rip + 1) == HV_SUCCESS
  }

  /** An exit on which every call succeeds and the guest executes `hlt`. */
  predicate HaltExit(vcpu: VirtualCpu, e: VmxExit) {
    var h := vcpu.vcpuHandle;
    && e.run(h) == HV_SUCCESS
    && e.vmcs(h, VMCS_RO_EXIT_REASON).status == HV_SUCCESS
    && BasicExitReason(e.vmcs(h, VMCS_RO_EXIT_REASON).out) == VMX_REASON_HLT
    && e.regs(h, RIP).status == HV_SUCCESS
  }

  /** The exit qualification of an I/O exit on the serial port. */
  const SERIAL_QUAL: bv64 := 0x03F8_0000

  /** A serial write that passes the counter check and the character checks
      is accepted, and RIP moves past the one-byte `out`. */
  lemma HandleSerialWrite(vcpu: VirtualCpu, e: VmxExit, rip: bv64, ch: bv64, chars: nat, panicAbove: nat)
    requires SerialWriteExit(vcpu, e, rip, ch) && RipAfter(rip, 1).Some?
    requires chars <= panicAbove
    requires chars == 0 ==> ch == CHAR_EIGHT
    requires chars == 1 ==> ch == CHAR_NEWLINE
    ensures HandleExit(vcpu, e, chars, panicAbove) == DosStep(None, Some(ch), Some(rip + 1))
  {
    assert IoPort(SERIAL_QUAL) == SERIAL_PORT;
    assert BasicExitReason(VMX_REASON_IO) == VMX_REASON_IO;
  }

  /** A serial write past the counter check panics before anything is read. */
  lemma HandleSerialWriteRejected(vcpu: VirtualCpu, e: VmxExit, rip: bv64, ch: bv64, chars: nat, panicAbove: nat)
    requires SerialWriteExit(vcpu, e, rip, ch)
    requires chars > panicAbove
    ensures HandleExit(vcpu, e, chars, panicAbove) == Stop(Panicked(TooManyChars))
  {
    assert BasicExitReason(VMX_REASON_IO) == VMX_REASON_IO;
  }

  /** A `hlt` exit halts the loop. */
  lemma HandleHalt(vcpu: VirtualCpu, e: VmxExit, chars: nat, panicAbove: nat)
    requires HaltExit(vcpu, e)
    ensures HandleExit(vcpu, e, chars, panicAbove) == Stop(Halted)
  {
  }

  /** An iteration that accepts a character and writes RIP back, and goes on. */
  lemma DriveFromAccepting(handle: ExitHandler, trace: seq<VmxExit>, k: nat, output: seq<bv64>,
                           ripWrites: seq<bv64>, ch: bv64, rip: bv64)
    requires k < |trace| && handle(trace[k], |output|) == DosStep(None, Some(ch), Some(rip))
    ensures DriveFrom(handle, trace, k, output, ripWrites)
      == DriveFrom(handle, trace, k + 1, output + [ch], ripWrites + [rip])
  {
  }

  /** An iteration that ends the loop without accepting anything. */
  lemma DriveFromStopping(handle: ExitHandler, trace: seq<VmxExit>, k: nat, output: seq<bv64>,
                          ripWrites: seq<bv64>, end: DosEnd)
    requires k < |trace| && handle(trace[k], |output|) == Stop(end)
    ensures DriveFrom(handle, trace, k, output, ripWrites) == DosRun(end, output, ripWrites, k + 1)
  {
  }

  /** A guest that writes '8', '\n' and a third character to the serial port
      (from RIP `r0`, `r1`, `r2`) and then halts. */
  predicate ThreeCharsThenHalt(vcpu: VirtualCpu, trace: seq<VmxExit>, r0: bv64, r1: bv64, r2: bv64, third: bv64) {
    && |trace| == 4
    && RipAfter(r0, 1).Some? && RipAfter(r1, 1).Some? && RipAfter(r2, 1).Some?
    && SerialWriteExit(vcpu, trace[0], r0, CHAR_EIGHT)
    && SerialWriteExit(vcpu, trace[1], r1, CHAR_NEWLINE)
    && SerialWriteExit(vcpu, trace[2], r2, third)
    && HaltExit(vcpu, trace[3])
  }

  /** From exit `k` on, a handler that accepts two characters and then
      stops ends the loop three exits later. */
  lemma DriveFromTwoThenStop(handle: ExitHandler, trace: seq<VmxExit>, k: nat, output: seq<bv64>,
                             ripWrites: seq<bv64>, a: bv64, b: bv64, w0: bv64, w1: bv64, end: DosEnd)
    requires k + 3 <= |trace|
    requires handle(trace[k], |output|) == DosStep(None, Some(a), Some(w0))
    requires handle(trace[k + 1], |output| + 1) == DosStep(None, Some(b), Some(w1))
    requires handle(trace[k + 2], |output| + 2) == Stop(end)
    ensures DriveFrom(handle, trace, k, output, ripWrites)
      == DosRun(end, output + [a, b], ripWrites + [w0, w1], k + 3)
  {
    DriveFromAccepting(handle, trace, k, output, ripWrites, a, w0);
    DriveFromAccepting(handle, trace, k + 1, output + [a], ripWrites + [w0], b, w1);
    DriveFromStopping(handle, trace, k + 2, output + [a] + [b], ripWrites + [w0] + [w1], end);
    assert output + [a] + [b] == output + [a, b];
    assert ripWrites + [w0] + [w1] == ripWrites + [w0, w1];
  }

  /** A loop whose handler accepts three characters at the first three
      exits and stops at the fourth. */
  lemma DriveThreeThenStop(handle: ExitHandler, trace: seq<VmxExit>, a: bv64, b: bv64, c: bv64,
                           w0: bv64, w1: bv64, w2: bv64, end: DosEnd)
    requires 4 <= |trace|
    requires handle(trace[0], 0) == DosStep(None, Some(a), Some(w0))
    requires handle(trace[1], 1) == DosStep(None, Some(b), Some(w1))
    requires handle(trace[2], 2) == DosStep(None, Some(c), Some(w2))
    requires handle(trace[3], 3) == Stop(end)
    ensures DriveFrom(handle, trace, 0, [], []) == DosRun(end, [a, b, c], [w0, w1, w2], 4)
  {
    var e: seq<bv64> := [];
    DriveFromAccepting(handle, trace, 0, e, e, a, w0);
    DriveFromTwoThenStop(handle, trace, 1, e + [a], e + [w0], b, c, w1, w2, end);
    assert e + [a] + [b, c] == [a, b, c];
    assert e + [w0] + [w1, w2] == [w0, w1, w2];
  }

  /** As written, the counter check lets a third character through: the
      loop halts normally with three characters accepted. */
  lemma AsWrittenAcceptsThirdChar(vcpu: VirtualCpu, trace: seq<VmxExit>, r0: bv64, r1: bv64, r2: bv64, third: bv64)
    requires ThreeCharsThenHalt(vcpu, trace, r0, r1, r2, third)
    ensures Drive(vcpu, trace, PANIC_ABOVE_AS_WRITTEN).end == Halted
    ensures Drive(vcpu, trace, PANIC_ABOVE_AS_WRITTEN).output == [CHAR_EIGHT, CHAR_NEWLINE, third]
  {
    var p := PANIC_ABOVE_AS_WRITTEN;
    HandleSerialWrite(vcpu, trace[0], r0, CHAR_EIGHT, 0, p);
    HandleSerialWrite(vcpu, trace[1], r1, CHAR_NEWLINE, 1, p);
    HandleSerialWrite(vcpu, trace[2], r2, third, 2, p);
    HandleHalt(vcpu, trace[3], 3, p);
    DriveThreeThenStop(DosHandler(vcpu, p), trace, CHAR_EIGHT, CHAR_NEWLINE, third, r0 + 1, r1 + 1, r2 + 1, Halted);
  }

  /** With the intended check the same guest is stopped at its third
      character. */
  lemma CorrectedRejectsThirdChar(vcpu: VirtualCpu, trace: seq<VmxExit>, r0: bv64, r1: bv64, r2: bv64, third: bv64)
    requires ThreeCharsThenHalt(vcpu, trace, r0, r1, r2, third)
    ensures Drive(vcpu, trace, PANIC_ABOVE).end == Panicked(TooManyChars)
    ensures Drive(vcpu, trace, PANIC_ABOVE).output == [CHAR_EIGHT, CHAR_NEWLINE]
  {
    var p := PANIC_ABOVE;
    HandleSerialWrite(vcpu, trace[0], r0, CHAR_EIGHT, 0, p);
    HandleSerialWrite(vcpu, trace[1], r1, CHAR_NEWLINE, 1, p);
    HandleSerialWriteRejected(vcpu, trace[2], r2, third, 2, p);
    DriveFromTwoThenStop(DosHandler(vcpu, p), trace, 0, [], [], CHAR_EIGHT, CHAR_NEWLINE, r0 + 1, r1 + 1,
                         Panicked(TooManyChars));
    assert [] + [CHAR_EIGHT, CHAR_NEWLINE] == [CHAR_EIGHT, CHAR_NEWLINE];
  }

  /** With the intended check, whatever the guest does, the loop accepts at
      most the two expected characters: its output is a prefix of "8\n". */
  lemma CorrectedAcceptsAtMostTwoChars(vcpu: VirtualCpu, trace: seq<VmxExit>)
    ensures Drive(vcpu, trace, PANIC_ABOVE).output <= [CHAR_EIGHT, CHAR_NEWLINE]
  {
    DriveAccepts(vcpu, trace, PANIC_ABOVE);
    var out := Drive(vcpu, trace, PANIC_ABOVE).output;
    if |out| == 1 {
      assert out == [CHAR_EIGHT, CHAR_NEWLINE][..1];
    } else if |out| == 2 {
      assert out == [CHAR_EIGHT, CHAR_NEWLINE];
    }
  }
}
