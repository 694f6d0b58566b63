/** The aarch64 virtual CPU (src/aarch64/mod.rs, repeated in src/lib.rs):
    classification of the exit record the framework fills in after a run,
    and the `VirtualCpu` handle whose fields are set once by `new`.
    Every native call is an oracle passed as a parameter: a function from the
    exact arguments the wrapper passes to what the native layer answers. */
module Aarch64 {
  import opened Errors
  import opened Aarch64Registers

  // hv_exit_reason_t values.
  const HV_EXIT_REASON_CANCELED: bv32 := 0
  const HV_EXIT_REASON_EXCEPTION: bv32 := 1
  const HV_EXIT_REASON_VTIMER_ACTIVATED: bv32 := 2
  const HV_EXIT_REASON_UNKNOWN: bv32 := 3

  /** The tags with a dedicated variant (`HV_EXIT_REASON_UNKNOWN` has none
      of its own: it shares `Unknown` with every unrecognised tag). */
  predicate IsKnownExitTag(tag: bv32) {
    tag in {HV_EXIT_REASON_CANCELED, HV_EXIT_REASON_EXCEPTION, HV_EXIT_REASON_VTIMER_ACTIVATED}
  }

  /** `hv_vcpu_exit_exception_t`: syndrome and faulting addresses. */
  datatype ExitException = ExitException(syndrome: bv64, virtualAddress: bv64, physicalAddress: bv64)

  /** `hv_vcpu_exit_t`: the raw exit record. Its `exception` part is only
      meaningful when the tag says so. */
  datatype VcpuExit = VcpuExit(reason: bv32, exception: ExitException)

  /** `VirtualCpuExitReason`. */
  datatype VirtualCpuExitReason =
    | Cancelled
    | Exception(exception: ExitException)
    | VTimerActivated
    | Unknown

  /** `From<hv_vcpu_exit_t> for VirtualCpuExitReason`: each known tag selects
      its variant, an exception carries the record's exception unchanged, and
      any unrecognised tag falls back to `Unknown`, so the conversion never
      fails. */
  function ExitReasonOf(value: VcpuExit): (r: VirtualCpuExitReason)
    ensures r.Cancelled? <==> value.reason == HV_EXIT_REASON_CANCELED
    ensures r.Exception? <==> value.reason == HV_EXIT_REASON_EXCEPTION
    ensures r.Exception? ==> r.exception == value.exception
    ensures r.VTimerActivated? <==> value.reason == HV_EXIT_REASON_VTIMER_ACTIVATED
    ensures r.Unknown? <==> !IsKnownExitTag(value.reason)
  {
    if value.reason == HV_EXIT_REASON_CANCELED then Cancelled
    else if value.reason == HV_EXIT_REASON_EXCEPTION then Exception(value.exception)
    else if value.reason == HV_EXIT_REASON_VTIMER_ACTIVATED then VTimerActivated
    else if value.reason == HV_EXIT_REASON_UNKNOWN then Unknown
    else Unknown
  }

  /** A raw record that the framework could have written for a given exit
      reason (the exception part is zero when it does not matter). */
  function RecordOf(r: VirtualCpuExitReason): VcpuExit {
    match r
    case Cancelled => VcpuExit(HV_EXIT_REASON_CANCELED, ExitException(0, 0, 0))
    case Exception(e) => VcpuExit(HV_EXIT_REASON_EXCEPTION, e)
    case VTimerActivated => VcpuExit(HV_EXIT_REASON_VTIMER_ACTIVATED, ExitException(0, 0, 0))
    case Unknown => VcpuExit(HV_EXIT_REASON_UNKNOWN, ExitException(0, 0, 0))
  }

  /** Every exit reason is produced by some record: the classification loses
      no variant and no exception detail. */
  lemma ExitReasonRoundTrip(r: VirtualCpuExitReason)
    ensures ExitReasonOf(RecordOf(r)) == r
  {
  }

  /** Outside an exception exit, whatever is left in the record's exception
      part has no influence on the classification. */
  lemma StaleExceptionIsIgnored(v1: VcpuExit, v2: VcpuExit)
    requires v1.reason == v2.reason && v1.reason != HV_EXIT_REASON_EXCEPTION
    ensures ExitReasonOf(v1) == ExitReasonOf(v2)
  {
  }

  /** `hv_vcpu_t`, the native vCPU handle. */
  type VcpuHandle = bv64
  /** Address of the framework-owned exit record handed out by create. */
  type ExitPtr = bv64

  /** `VirtualCpu`: the handle and the exit-record pointer returned by the
      native create, both fixed for the lifetime of the object. */
  class VirtualCpu {
    const id: VcpuHandle
    const vcpuExit: ExitPtr

    constructor (id: VcpuHandle, vcpuExit: ExitPtr)
      ensures this.id == id && this.vcpuExit == vcpuExit
    {
      this.id := id;
      this.vcpuExit := vcpuExit;
    }

    /** `new`: builds a vCPU only if `hv_vcpu_create` succeeds, storing the
        handle and exit-record pointer it returned; otherwise the classified
        error. */
    static method New(create: Reply<(VcpuHandle, ExitPtr)>) returns (r: Result<VirtualCpu>)
      ensures r.Ok? <==> create.status == HV_SUCCESS
      ensures r.Ok? ==> fresh(r.value) && r.value.id == create.out.0 && r.value.vcpuExit == create.out.1
      ensures r.Err? ==> MatchErrorCode(create.status) == Err(r.error)
    {
      var status := MatchErrorCode(create.status);
      if status.Err? {
        return Err(status.error);
      }
      var vcpu := new VirtualCpu(create.out.0, create.out.1);
      return Ok(vcpu);
    }

    /** `get_id`: the handle stored at construction. */
    function GetId(): VcpuHandle {
      id
    }

    /** `exit_reason`: classifies the record found at the stored pointer.
        `records` is the framework-owned memory at the time of the call. */
    function ExitReason(records: ExitPtr -> VcpuExit): (r: VirtualCpuExitReason)
      ensures r.Cancelled? <==> records(vcpuExit).reason == HV_EXIT_REASON_CANCELED
      ensures r.Exception? <==> records(vcpuExit).reason == HV_EXIT_REASON_EXCEPTION
      ensures r.Exception? ==> r.exception == records(vcpuExit).exception
      ensures r.VTimerActivated? <==> records(vcpuExit).reason == HV_EXIT_REASON_VTIMER_ACTIVATED
      ensures r.Unknown? <==> !IsKnownExitTag(records(vcpuExit).reason)
    {
      ExitReasonOf(records(vcpuExit))
    }

    /** `run`: runs this vCPU's handle; the outcome is the classified status. */
    function Run(hv: VcpuHandle -> Status): (r: Result<()>)
      ensures r.Ok? <==> hv(id) == HV_SUCCESS
      ensures r.Err? ==> r.error != Success && r == MatchErrorCode(hv(id))
    {
      MatchErrorCode(hv(id))
    }

    /** `destroy`: destroys this vCPU's handle. */
    function Destroy(hv: VcpuHandle -> Status): (r: Result<()>)
      ensures r.Ok? <==> hv(id) == HV_SUCCESS
      ensures r.Err? ==> r.error != Success && r == MatchErrorCode(hv(id))
    {
      MatchErrorCode(hv(id))
    }

    /** `read_register`: asks for the translated register of this handle and
        yields the value only when the native call succeeds. */
    function ReadRegister(reg: Register, hv: (VcpuHandle, HvReg) -> Reply<bv64>): (r: Result<bv64>)
      ensures r.Ok? <==> hv(id, ToHvReg(reg)).status == HV_SUCCESS
      ensures r.Ok? ==> r.value == hv(id, ToHvReg(reg)).out
      ensures r.Err? ==> Err(r.error) == MatchErrorCode(hv(id, ToHvReg(reg)).status)
    {
      Forward(hv(id, ToHvReg(reg)))
    }

    /** `write_register`: hands the translated register and the value to the
        native layer unchanged. */
    function WriteRegister(reg: Register, value: bv64, hv: (VcpuHandle, HvReg, bv64) -> Status): (r: Result<()>)
      ensures r.Ok? <==> hv(id, ToHvReg(reg), value) == HV_SUCCESS
      ensures r.Err? ==> r.error != Success && r == MatchErrorCode(hv(id, ToHvReg(reg), value))
    {
      MatchErrorCode(hv(id, ToHvReg(reg), value))
    }

    /** `read_system_register`: like `read_register`, over the system
        register catalog. */
    function ReadSystemRegister(reg: SystemRegister, hv: (VcpuHandle, HvSysReg) -> Reply<bv64>): (r: Result<bv64>)
      ensures r.Ok? <==> hv(id, ToHvSysReg(reg)).status == HV_SUCCESS
      ensures r.Ok? ==> r.value == hv(id, ToHvSysReg(reg)).out
      ensures r.Err? ==> Err(r.error) == MatchErrorCode(hv(id, ToHvSysReg(reg)).status)
    {
      Forward(hv(id, ToHvSysReg(reg)))
    }

    /** `write_system_register`. */
    function WriteSystemRegister(reg: SystemRegister, value: bv64, hv: (VcpuHandle, HvSysReg, bv64) -> Status): (r: Result<()>)
      ensures r.Ok? <==> hv(id, ToHvSysReg(reg), value) == HV_SUCCESS
      ensures r.Err? ==> r.error != Success && r == MatchErrorCode(hv(id, ToHvSysReg(reg), value))
    {
      MatchErrorCode(hv(id, ToHvSysReg(reg), value))
    }
  }

  /** A vCPU created from a successful native reply reports that reply's
      handle from `get_id`, and classifies the record at that reply's
      exit-record pointer. */
  method NewThenGetId(create: Reply<(VcpuHandle, ExitPtr)>, records: ExitPtr -> VcpuExit)
    returns (r: Result<(VcpuHandle, VirtualCpuExitReason)>)
    ensures r.Ok? <==> create.status == HV_SUCCESS
    ensures r.Ok? ==> r.value == (create.out.0, ExitReasonOf(records(create.out.1)))
  {
    var vcpu := VirtualCpu.New(create);
    if vcpu.Err? {
      return Err(vcpu.error);
    }
    return Ok((vcpu.value.GetId(), vcpu.value.ExitReason(records)));
  }
}
