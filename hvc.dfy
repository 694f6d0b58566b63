/** The aarch64 guest driver of tests/hvc.rs: an eight-byte EL1 payload
    (`mov x0, #2; hvc #0`) is copied into guest memory, the memory is mapped,
    a vCPU is pointed at the payload and run once, and the exit is
    classified by its exception class. Every native call is an oracle given
    by the host the test runs on. */
module Hvc {
  import opened Errors
  import opened Aarch64Registers
  import opened Aarch64
  import opened Vm

  /** `mov x0, #2` and `hvc #0`, little-endian. */
  const EL1_USER_PAYLOAD: seq<bv8> := [0x40, 0x00, 0x80, 0xD2, 0x02, 0x00, 0x00, 0xD4]
  /** Guest physical address of the payload; memory is mapped at 0. */
  const EL1_USER_PAYLOAD_ADDRESS: nat := 0x20000
  /** Size of the host buffer mapped as guest memory. */
  const GUEST_MEM_CAPACITY: nat := 8 * 0x10000
  /** CPSR at entry: EL1 with SP_EL0 (M = 0b0100), D, A, I and F masked. */
  const INITIAL_CPSR: bv64 := 0x3c4

  /** The 32-bit instruction at byte offset `i` of a little-endian buffer. */
  function Word(code: seq<bv8>, i: nat): bv32
    requires i + 4 <= |code|
  {
    (code[i] as bv32) | (code[i + 1] as bv32 << 8) | (code[i + 2] as bv32 << 16) | (code[i + 3] as bv32 << 24)
  }

  /** The payload is what its comments say (Arm ARM, C6.2 MOVZ and HVC): the
      first word is a 64-bit MOVZ of 2 into X0 with no shift, the second an
      HVC with immediate 0, which traps with exception class 0x16. */
  lemma PayloadIsMovThenHvc()
    ensures Word(EL1_USER_PAYLOAD, 0) >> 23 == 0x1A5
    ensures (Word(EL1_USER_PAYLOAD, 0) >> 21) & 0x3 == 0
    ensures (Word(EL1_USER_PAYLOAD, 0) >> 5) & 0xffff == 2
    ensures Word(EL1_USER_PAYLOAD, 0) & 0x1f == 0
    ensures Word(EL1_USER_PAYLOAD, 4) & 0xffe0_001f == 0xd400_0002
    ensures (Word(EL1_USER_PAYLOAD, 4) >> 5) & 0xffff == 0
  {
    assert Word(EL1_USER_PAYLOAD, 0) == 0xd280_0040;
    assert Word(EL1_USER_PAYLOAD, 4) == 0xd400_0002;
  }

  /** `mem[lo..hi].clone_from_slice(src)`: the slice must lie in the buffer
      and have exactly the source's length, or the call panics (`false`,
      nothing written); otherwise the slice now holds the source. */
  method CloneFromSlice(mem: array<bv8>, lo: nat, hi: nat, src: seq<bv8>) returns (ok: bool)
    modifies mem
    ensures ok <==> lo <= hi <= mem.Length && hi - lo == |src|
    ensures ok ==> mem[..] == old(mem[..lo]) + src + old(mem[hi..])
    ensures !ok ==> mem[..] == old(mem[..])
  {
    if !(lo <= hi <= mem.Length && hi - lo == |src|) {
      return false;
    }
    var j := 0;
    while j < |src|
      invariant 0 <= j <= |src|
      invariant mem[..lo] == old(mem[..lo])
      invariant mem[lo..lo + j] == src[..j]
      invariant mem[lo + j..] == old(mem[lo + j..])
    {
      mem[lo + j] := src[j];
      j := j + 1;
    }
    assert mem[..] == mem[..lo] + mem[lo..hi] + mem[hi..];
    return true;
  }

  /** The copy as written, `mem[0x20000..]`: the slice runs to the end of the
      buffer, 0x60000 bytes against the payload's 8, so it always panics and
      memory is untouched. */
  method LoadPayloadAsWritten(mem: array<bv8>) returns (ok: bool)
    requires mem.Length == GUEST_MEM_CAPACITY
    modifies mem
    ensures !ok
    ensures mem[..] == old(mem[..])
  {
    ok := CloneFromSlice(mem, EL1_USER_PAYLOAD_ADDRESS, mem.Length, EL1_USER_PAYLOAD);
  }

  /** The copy as intended, `mem[0x20000..0x20008]`: the payload lands at
      its guest address and nothing else changes. */
  method LoadPayload(mem: array<bv8>) returns (ok: bool)
    requires mem.Length == GUEST_MEM_CAPACITY
    modifies mem
    ensures ok
    ensures mem[EL1_USER_PAYLOAD_ADDRESS..EL1_USER_PAYLOAD_ADDRESS + |EL1_USER_PAYLOAD|] == EL1_USER_PAYLOAD
    ensures mem[..EL1_USER_PAYLOAD_ADDRESS] == old(mem[..EL1_USER_PAYLOAD_ADDRESS])
    ensures mem[EL1_USER_PAYLOAD_ADDRESS + |EL1_USER_PAYLOAD|..]
      == old(mem[EL1_USER_PAYLOAD_ADDRESS + |EL1_USER_PAYLOAD|..])
  {
    var hi := EL1_USER_PAYLOAD_ADDRESS + |EL1_USER_PAYLOAD|;
    ok := CloneFromSlice(mem, EL1_USER_PAYLOAD_ADDRESS, hi, EL1_USER_PAYLOAD);
    assert mem[EL1_USER_PAYLOAD_ADDRESS..hi] == EL1_USER_PAYLOAD;
  }

  /** The vCPU set-up: CPSR, then PC at the payload. A failed CPSR write
      ends the set-up with its own error, and the PC write only decides the
      outcome once CPSR is set. */
  function SetUpVcpu(vcpu: VirtualCpu, hv: (VcpuHandle, HvReg, bv64) -> Status): (r: Result<()>)
    ensures r.Ok? <==> hv(vcpu.id, HV_REG(CPSR), INITIAL_CPSR) == HV_SUCCESS
                       && hv(vcpu.id, HV_REG(PC), EL1_USER_PAYLOAD_ADDRESS as bv64) == HV_SUCCESS
    ensures hv(vcpu.id, HV_REG(CPSR), INITIAL_CPSR) != HV_SUCCESS ==>
      r == MatchErrorCode(hv(vcpu.id, HV_REG(CPSR), INITIAL_CPSR))
    ensures hv(vcpu.id, HV_REG(CPSR), INITIAL_CPSR) == HV_SUCCESS ==>
      r == MatchErrorCode(hv(vcpu.id, HV_REG(PC), EL1_USER_PAYLOAD_ADDRESS as bv64))
  {
    match vcpu.WriteRegister(CPSR, INITIAL_CPSR, hv)
    case Err(e) => Err(e)
    case Ok(_) => vcpu.WriteRegister(PC, EL1_USER_PAYLOAD_ADDRESS as bv64, hv)
  }

  /** Exception class of a syndrome: ESR bits 31:26. */
  function ExceptionClass(syndrome: bv64): (ec: bv64)
    ensures ec < 64
    ensures ec << 26 == syndrome & 0xfc00_0000
  {
    (syndrome >> 26) & 0x3f
  }

  /** Exception class of an HVC instruction executed in AArch64 state. */
  const EC_HVC64: bv64 := 0x16

  /** What the native layer answers during the run: the run itself, the
      exit records in framework memory, and register reads. */
  datatype ArmExit = ArmExit(
    run: VcpuHandle -> Status,
    records: ExitPtr -> VcpuExit,
    regs: (VcpuHandle, HvReg) -> Reply<bv64>)

  /** Why the test panics. */
  datatype HvcPanic =
    | Unwrapped(error: Error)       // an `unwrap` on a failed call
    | CopyLengthMismatch            // `clone_from_slice` on slices of different lengths

  /** How the test ends. */
  datatype HvcEnd =
    | HvcExecuted(x0: bv64)
    | UnknownClass(ec: bv64)
    | Unexpected(reason: VirtualCpuExitReason)
    | Panicked(cause: HvcPanic)

  /** The exit loop. Every branch of its body breaks or panics, so one run
      is the whole loop. */
  function HvcRun(vcpu: VirtualCpu, e: ArmExit): HvcEnd {
    match vcpu.Run(e.run)
    case Err(err) => Panicked(Unwrapped(err))
    case Ok(_) =>
      match vcpu.ExitReason(e.records)
      case Exception(exception) =>
        var ec := ExceptionClass(exception.syndrome);
        if ec == EC_HVC64 then
          match vcpu.ReadRegister(X0, e.regs)
          case Err(err) => Panicked(Unwrapped(err))
          case Ok(x0) => HvcExecuted(x0)
        else UnknownClass(ec)
      case reason => Unexpected(reason)
  }

  /** The exit loop over the exits the native layer would produce, one per
      run. Every branch of the body breaks (or panics), so the loop performs
      exactly one run, whatever exits would follow. */
  method HvcLoop(vcpu: VirtualCpu, exits: seq<ArmExit>) returns (r: Option<HvcEnd>, runs: nat)
    ensures runs == if |exits| == 0 then 0 else 1
    ensures r.Some? <==> |exits| > 0
    ensures r.Some? ==> r.value == HvcRun(vcpu, exits[0])
  {
    r := None;
    runs := 0;
    // Every branch of the body breaks: the loop goes on only while no
    // iteration has ended yet.
    while runs < |exits| && r.None?
      invariant runs <= |exits|
      invariant r.None? <==> runs == 0
      invariant r.Some? ==> runs == 1 && r.value == HvcRun(vcpu, exits[0])
    {
      var end := HvcRun(vcpu, exits[runs]);
      runs := runs + 1;
      r := Some(end);
    }
  }

  /** The exit record the run leaves for the vCPU. */
  function RecordAfterRun(vcpu: VirtualCpu, e: ArmExit): VcpuExit {
    e.records(vcpu.vcpuExit)
  }

  /** The loop reports an executed HVC exactly when the run succeeds, stops
      on an exception whose class is HVC64, and X0 can be read; it then
      reports X0 as read. Any other exception reports its class, and any
      other exit its reason. */
  lemma HvcRunOutcome(vcpu: VirtualCpu, e: ArmExit)
    ensures HvcRun(vcpu, e).HvcExecuted? <==>
      && e.run(vcpu.id) == HV_SUCCESS
      && RecordAfterRun(vcpu, e).reason == HV_EXIT_REASON_EXCEPTION
      && ExceptionClass(RecordAfterRun(vcpu, e).exception.syndrome) == EC_HVC64
      && e.regs(vcpu.id, HV_REG(X0)).status == HV_SUCCESS
    ensures HvcRun(vcpu, e).HvcExecuted? ==> HvcRun(vcpu, e).x0 == e.regs(vcpu.id, HV_REG(X0)).out
    ensures HvcRun(vcpu, e).UnknownClass? <==>
      && e.run(vcpu.id) == HV_SUCCESS
      && RecordAfterRun(vcpu, e).reason == HV_EXIT_REASON_EXCEPTION
      && ExceptionClass(RecordAfterRun(vcpu, e).exception.syndrome) != EC_HVC64
    ensures HvcRun(vcpu, e).Unexpected? <==>
      e.run(vcpu.id) == HV_SUCCESS && RecordAfterRun(vcpu, e).reason != HV_EXIT_REASON_EXCEPTION
    ensures HvcRun(vcpu, e).Unexpected? ==> HvcRun(vcpu, e).reason == ExitReasonOf(RecordAfterRun(vcpu, e))
  {
  }

  /** The host the test runs on: what each native call answers. */
  datatype HvcHost = HvcHost(
    createVm: Status,
    mapMem: MapCall,
    createVcpu: Reply<(VcpuHandle, ExitPtr)>,
    setReg: (VcpuHandle, HvReg, bv64) -> Status,
    exit: ArmExit,
    unmapMem: UnmapCall)

  /** Every call up to and including the run succeeds: the VM is created,
      the buffer mapped at guest address 0 with `ExecAndWrite`, the vCPU
      created and set up, and run. */
  predicate RunsToExit(mem: seq<bv8>, host: HvcHost) {
    var h := host.createVcpu.out.0;
    && host.createVm == HV_SUCCESS
    && host.mapMem(mem, 0, |mem|, MatchMemPerm(ExecAndWrite)) == HV_SUCCESS
    && host.createVcpu.status == HV_SUCCESS
    && host.setReg(h, HV_REG(CPSR), INITIAL_CPSR) == HV_SUCCESS
    && host.setReg(h, HV_REG(PC), EL1_USER_PAYLOAD_ADDRESS as bv64) == HV_SUCCESS
    && host.exit.run(h) == HV_SUCCESS
  }

  /** The exit record the run leaves at the pointer the create reply gave. */
  function HostRecord(host: HvcHost): VcpuExit {
    host.exit.records(host.createVcpu.out.1)
  }

  /** The test, with the payload copy as written (`asWritten`) or as
      intended. Nothing but a panic can happen as written; as intended, the
      test reports an executed HVC exactly when every call succeeds and the
      exit is an exception of class HVC64, an unknown class for any other
      exception, and an unexpected exit otherwise. */
  method RunHvcTest(mem: array<bv8>, host: HvcHost, asWritten: bool) returns (r: HvcEnd)
    requires mem.Length == GUEST_MEM_CAPACITY
    modifies mem
    ensures host.createVm != HV_SUCCESS ==> r == Panicked(Unwrapped(MatchErrorCode(host.createVm).error))
    ensures asWritten ==> r.Panicked? && mem[..] == old(mem[..])
    ensures asWritten && host.createVm == HV_SUCCESS ==> r == Panicked(CopyLengthMismatch)
    ensures !asWritten && host.createVm == HV_SUCCESS ==>
      mem[..] == old(mem[..EL1_USER_PAYLOAD_ADDRESS]) + EL1_USER_PAYLOAD
                 + old(mem[EL1_USER_PAYLOAD_ADDRESS + |EL1_USER_PAYLOAD|..])
    ensures r.HvcExecuted? <==>
      && !asWritten && RunsToExit(mem[..], host)
      && HostRecord(host).reason == HV_EXIT_REASON_EXCEPTION
      && ExceptionClass(HostRecord(host).exception.syndrome) == EC_HVC64
      && host.exit.regs(host.createVcpu.out.0, HV_REG(X0)).status == HV_SUCCESS
      && host.unmapMem(0, GUEST_MEM_CAPACITY) == HV_SUCCESS
    ensures r.HvcExecuted? ==> r.x0 == host.exit.regs(host.createVcpu.out.0, HV_REG(X0)).out
    ensures r.UnknownClass? <==>
      && !asWritten && RunsToExit(mem[..], host)
      && HostRecord(host).reason == HV_EXIT_REASON_EXCEPTION
      && ExceptionClass(HostRecord(host).exception.syndrome) != EC_HVC64
      && host.unmapMem(0, GUEST_MEM_CAPACITY) == HV_SUCCESS
    ensures r.Unexpected? <==>
      && !asWritten && RunsToExit(mem[..], host)
      && HostRecord(host).reason != HV_EXIT_REASON_EXCEPTION
      && host.unmapMem(0, GUEST_MEM_CAPACITY) == HV_SUCCESS
  {
    var created := MatchErrorCode(host.createVm);
    if created.Err? {
      return Panicked(Unwrapped(created.error));
    }
    var hi := if asWritten then mem.Length else EL1_USER_PAYLOAD_ADDRESS + |EL1_USER_PAYLOAD|;
    var copied := CloneFromSlice(mem, EL1_USER_PAYLOAD_ADDRESS, hi, EL1_USER_PAYLOAD);
    if !copied {
      return Panicked(CopyLengthMismatch);
    }
    var mapped := MapMem(mem[..], 0, ExecAndWrite, host.mapMem);
    if mapped.Err? {
      return Panicked(Unwrapped(mapped.error));
    }
    var vcpu := VirtualCpu.New(host.createVcpu);
    if vcpu.Err? {
      return Panicked(Unwrapped(vcpu.error));
    }
    var setUp := SetUpVcpu(vcpu.value, host.setReg);
    if setUp.Err? {
      return Panicked(Unwrapped(setUp.error));
    }
    HvcRunOutcome(vcpu.value, host.exit);
    var ended, runs := HvcLoop(vcpu.value, [host.exit]);
    r := ended.value;
    if r.Panicked? {
      return r;
    }
    var unmapped := UnmapMem(0, mem.Length, host.unmapMem);
    if unmapped.Err? {
      return Panicked(Unwrapped(unmapped.error));
    }
  }
}
