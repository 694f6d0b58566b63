/** The x86 virtual CPU (src/x86_64/mod.rs, with the older copy in src/lib.rs):
    the register catalog, the VMX capability selector, the accessor contracts
    of `VirtualCpu`, and the access-rights bit fields decoded by its `Debug`
    dump. Every native call is an oracle passed as a parameter: a function
    from the exact arguments the wrapper passes to what the native layer
    answers. */
module X86 {
  import opened Errors

  /** `Register`: the architectural registers in declaration order. The
      native layer receives the variant itself (the enum is `repr(C)`). */
  datatype Register =
    | RIP | RFLAGS | RAX | RCX | RDX | RBX | RSI | RDI | RSP | RBP | R8 | R9 | R10 | R11
    | R12 | R13 | R14 | R15 | CS | SS | DS | ES | FS | GS | IDT_BASE | IDT_LIMIT | GDT_BASE
    | GDT_LIMIT | LDTR | LDT_BASE | LDT_LIMIT | LDT_AR | TR | TSS_BASE | TSS_LIMIT | TSS_AR
    | CR0 | CR1 | CR2 | CR3 | CR4 | DR0 | DR1 | DR2 | DR3 | DR4 | DR5 | DR6 | DR7 | TPR
    | XCR0 | REGISTERS_MAX

  /** `hv_vcpuid_t`, the native vCPU handle. */
  type VcpuId = bv32

  /** `VMXCap`: the capability the host is asked about. */
  datatype VMXCap = PINBASED | PROCBASED | PROCBASED2 | ENTRY | EXIT | PREEMPTION_TIMER

  /** The explicit discriminant of each `VMXCap` variant. */
  function VmxCapValue(cap: VMXCap): bv32 {
    match cap
    case PINBASED => 0
    case PROCBASED => 1
    case PROCBASED2 => 2
    case ENTRY => 3
    case EXIT => 4
    case PREEMPTION_TIMER => 32
  }

  /** Reads a discriminant back as a capability selector. */
  function VmxCapOf(value: bv32): (r: Option<VMXCap>)
    ensures r.Some? ==> VmxCapValue(r.value) == value
  {
    if value == 0 then Some(PINBASED)
    else if value == 1 then Some(PROCBASED)
    else if value == 2 then Some(PROCBASED2)
    else if value == 3 then Some(ENTRY)
    else if value == 4 then Some(EXIT)
    else if value == 32 then Some(PREEMPTION_TIMER)
    else None
  }

  /** Each discriminant names its own variant, so no two variants share one. */
  lemma VmxCapRoundTrip(cap: VMXCap)
    ensures VmxCapOf(VmxCapValue(cap)) == Some(cap)
  {
  }

  /** The discriminants in use are exactly 0, 1, 2, 3, 4 and 32. */
  lemma VmxCapValues(value: bv32)
    ensures VmxCapOf(value).Some? <==> value in {0, 1, 2, 3, 4, 32}
  {
  }

  /** The `Display` rendering of a capability. */
  function VmxCapLabel(cap: VMXCap): string {
    match cap
    case PINBASED => "Pin-based VMX capabilities"
    case PROCBASED => "Primary proc-based VMX capabilities"
    case PROCBASED2 => "Secondary proc-based VMX capabilities"
    case ENTRY => "VM-entry VMX capabilities"
    case EXIT => "VM-exit VMX capabilities"
    case PREEMPTION_TIMER => "VMX preemption timer frequency"
  }

  /** Distinct capabilities are rendered differently. */
  lemma VmxCapLabelsDistinct(c1: VMXCap, c2: VMXCap)
    ensures VmxCapLabel(c1) == VmxCapLabel(c2) ==> c1 == c2
  {
  }

  /** `read_vmx_cap`: the selector is handed over unchanged and the value is
      yielded only on native success. */
  function ReadVmxCap(cap: VMXCap, hv: VMXCap -> Reply<bv64>): (r: Result<bv64>)
    ensures r.Ok? <==> hv(cap).status == HV_SUCCESS
    ensures r.Ok? ==> r.value == hv(cap).out
    ensures r.Err? ==> Err(r.error) == MatchErrorCode(hv(cap).status)
  {
    Forward(hv(cap))
  }

  /** `VirtualCpu`: the caller's processor number and the native handle
      returned by create, both fixed for the lifetime of the object. */
  class VirtualCpu {
    const id: bv32
    const vcpuHandle: VcpuId

    constructor (id: bv32, vcpuHandle: VcpuId)
      ensures this.id == id && this.vcpuHandle == vcpuHandle
    {
      this.id := id;
      this.vcpuHandle := vcpuHandle;
    }

    /** `new(id)`: builds a vCPU only if `hv_vcpu_create` succeeds, keeping
        the caller's `id` and the handle create returned. */
    static method New(id: bv32, create: Reply<VcpuId>) returns (r: Result<VirtualCpu>)
      ensures r.Ok? <==> create.status == HV_SUCCESS
      ensures r.Ok? ==> fresh(r.value) && r.value.id == id && r.value.vcpuHandle == create.out
      ensures r.Err? ==> MatchErrorCode(create.status) == Err(r.error)
    {
      var status := MatchErrorCode(create.status);
      if status.Err? {
        return Err(status.error);
      }
      var vcpu := new VirtualCpu(id, create.out);
      return Ok(vcpu);
    }

    /** `get_id`. */
    function GetId(): bv32 {
      id
    }

    /** `get_handle`. */
    function GetHandle(): VcpuId {
      vcpuHandle
    }

    /** `run`: runs this vCPU's native handle. */
    function Run(hv: VcpuId -> Status): (r: Result<()>)
      ensures r.Ok? <==> hv(vcpuHandle) == HV_SUCCESS
      ensures r.Err? ==> r.error != Success && r == MatchErrorCode(hv(vcpuHandle))
    {
      MatchErrorCode(hv(vcpuHandle))
    }

    /** `destroy`: destroys this vCPU's native handle. */
    function Destroy(hv: VcpuId -> Status): (r: Result<()>)
      ensures r.Ok? <==> hv(vcpuHandle) == HV_SUCCESS
      ensures r.Err? ==> r.error != Success && r == MatchErrorCode(hv(vcpuHandle))
    {
      MatchErrorCode(hv(vcpuHandle))
    }

    /** `interrupt`: asks for an exit of exactly this one vCPU (a one-element
        handle list). */
    function Interrupt(hv: (seq<VcpuId>, nat) -> Status): (r: Result<()>)
      ensures r.Ok? <==> hv([vcpuHandle], 1) == HV_SUCCESS
      ensures r.Err? ==> r.error != Success && r == MatchErrorCode(hv([vcpuHandle], 1))
    {
      MatchErrorCode(hv([vcpuHandle], 1))
    }

    /** `exec_time`: the cumulative execution time, only on native success. */
    function ExecTime(hv: VcpuId -> Reply<bv64>): (r: Result<bv64>)
      ensures r.Ok? <==> hv(vcpuHandle).status == HV_SUCCESS
      ensures r.Ok? ==> r.value == hv(vcpuHandle).out
      ensures r.Err? ==> Err(r.error) == MatchErrorCode(hv(vcpuHandle).status)
    {
      Forward(hv(vcpuHandle))
    }

    /** `flush`. */
    function Flush(hv: VcpuId -> Status): (r: Result<()>)
      ensures r.Ok? <==> hv(vcpuHandle) == HV_SUCCESS
      ensures r.Err? ==> r.error != Success && r == MatchErrorCode(hv(vcpuHandle))
    {
      MatchErrorCode(hv(vcpuHandle))
    }

    /** `invalidate_tlb`. */
    function InvalidateTlb(hv: VcpuId -> Status): (r: Result<()>)
      ensures r.Ok? <==> hv(vcpuHandle) == HV_SUCCESS
      ensures r.Err? ==> r.error != Success && r == MatchErrorCode(hv(vcpuHandle))
    {
      MatchErrorCode(hv(vcpuHandle))
    }

    /** `enable_native_msr`: the MSR number and the flag are forwarded. */
    function EnableNativeMsr(msr: bv32, enable: bool, hv: (VcpuId, bv32, bool) -> Status): (r: Result<()>)
      ensures r.Ok? <==> hv(vcpuHandle, msr, enable) == HV_SUCCESS
      ensures r.Err? ==> r.error != Success && r == MatchErrorCode(hv(vcpuHandle, msr, enable))
    {
      MatchErrorCode(hv(vcpuHandle, msr, enable))
    }

    /** `read_msr`: the MSR value, only on native success. */
    function ReadMsr(msr: bv32, hv: (VcpuId, bv32) -> Reply<bv64>): (r: Result<bv64>)
      ensures r.Ok? <==> hv(vcpuHandle, msr).status == HV_SUCCESS
      ensures r.Ok? ==> r.value == hv(vcpuHandle, msr).out
      ensures r.Err? ==> Err(r.error) == MatchErrorCode(hv(vcpuHandle, msr).status)
    {
      Forward(hv(vcpuHandle, msr))
    }

    /** `write_msr`. */
    function WriteMsr(msr: bv32, value: bv64, hv: (VcpuId, bv32, bv64) -> Status): (r: Result<()>)
      ensures r.Ok? <==> hv(vcpuHandle, msr, value) == HV_SUCCESS
      ensures r.Err? ==> r.error != Success && r == MatchErrorCode(hv(vcpuHandle, msr, value))
    {
      MatchErrorCode(hv(vcpuHandle, msr, value))
    }

    /** `read_register`: the register value, only on native success. */
    function ReadRegister(reg: Register, hv: (VcpuId, Register) -> Reply<bv64>): (r: Result<bv64>)
      ensures r.Ok? <==> hv(vcpuHandle, reg).status == HV_SUCCESS
      ensures r.Ok? ==> r.value == hv(vcpuHandle, reg).out
      ensures r.Err? ==> Err(r.error) == MatchErrorCode(hv(vcpuHandle, reg).status)
    {
      Forward(hv(vcpuHandle, reg))
    }

    /** `write_register`. */
    function WriteRegister(reg: Register, value: bv64, hv: (VcpuId, Register, bv64) -> Status): (r: Result<()>)
      ensures r.Ok? <==> hv(vcpuHandle, reg, value) == HV_SUCCESS
      ensures r.Err? ==> r.error != Success && r == MatchErrorCode(hv(vcpuHandle, reg, value))
    {
      MatchErrorCode(hv(vcpuHandle, reg, value))
    }

    /** `read_vmcs`: the VMCS field value, only on native success. */
    function ReadVmcs(field: bv32, hv: (VcpuId, bv32) -> Reply<bv64>): (r: Result<bv64>)
      ensures r.Ok? <==> hv(vcpuHandle, field).status == HV_SUCCESS
      ensures r.Ok? ==> r.value == hv(vcpuHandle, field).out
      ensures r.Err? ==> Err(r.error) == MatchErrorCode(hv(vcpuHandle, field).status)
    {
      Forward(hv(vcpuHandle, field))
    }

    /** `write_vmcs`. */
    function WriteVmcs(field: bv32, value: bv64, hv: (VcpuId, bv32, bv64) -> Status): (r: Result<()>)
      ensures r.Ok? <==> hv(vcpuHandle, field, value) == HV_SUCCESS
      ensures r.Err? ==> r.error != Success && r == MatchErrorCode(hv(vcpuHandle, field, value))
    {
      MatchErrorCode(hv(vcpuHandle, field, value))
    }

    /** `set_apic_addr`: the guest-physical APIC address is forwarded. */
    function SetApicAddr(gpa: bv64, hv: (VcpuId, bv64) -> Status): (r: Result<()>)
      ensures r.Ok? <==> hv(vcpuHandle, gpa) == HV_SUCCESS
      ensures r.Err? ==> r.error != Success && r == MatchErrorCode(hv(vcpuHandle, gpa))
    {
      MatchErrorCode(hv(vcpuHandle, gpa))
    }
  }

  /** A vCPU created from a successful native reply reports the caller's id
      from `get_id` and create's handle from `get_handle`. */
  method NewThenGetIds(id: bv32, create: Reply<VcpuId>) returns (r: Result<(bv32, VcpuId)>)
    ensures r.Ok? <==> create.status == HV_SUCCESS
    ensures r.Ok? ==> r.value == (id, create.out)
  {
    var vcpu := VirtualCpu.New(id, create);
    if vcpu.Err? {
      return Err(vcpu.error);
    }
    return Ok((vcpu.value.GetId(), vcpu.value.GetHandle()));
  }

  /** The fields of a VMCS segment access-rights word, in the order the dump
      prints them: type, P, DPL, D/B, S, L, G, AVL. */
  datatype AccessRights = AccessRights(
    segType: bv64, present: bv64, dpl: bv64, defaultSize: bv64,
    descriptorType: bv64, longMode: bv64, granularity: bv64, available: bv64)

  /** Every field fits its width: four bits of type, two of DPL, one each
      for the flags. */
  predicate WellFormed(d: AccessRights) {
    && d.segType < 16 && d.dpl < 4
    && d.present < 2 && d.defaultSize < 2 && d.descriptorType < 2
    && d.longMode < 2 && d.granularity < 2 && d.available < 2
  }

  /** The bits of an access-rights word that the dump shows: 3-0 and 7-4
      (type, S, DPL, P) and 15-12 (AVL, L, D/B, G); the reserved bits 11-8
      and the unusable bit 16 are not shown. */
  const SHOWN_BITS: bv64 := 0xf0ff

  /** The shift-and-mask decoding applied to each access-rights word. */
  function DecodeAccessRights(ar: bv64): (d: AccessRights)
    ensures WellFormed(d)
    ensures EncodeAccessRights(d) == ar & SHOWN_BITS
  {
    AccessRights(
      ar & 0xf, (ar >> 7) & 0x1, (ar >> 5) & 0x3, (ar >> 14) & 0x1,
      (ar >> 4) & 0x1, (ar >> 13) & 0x1, (ar >> 15) & 0x1, (ar >> 12) & 1)
  }

  /** Puts every field back at its position in the access-rights word. */
  function EncodeAccessRights(d: AccessRights): bv64
    requires WellFormed(d)
  {
    d.segType | (d.descriptorType << 4) | (d.dpl << 5) | (d.present << 7)
    | (d.available << 12) | (d.longMode << 13) | (d.defaultSize << 14) | (d.granularity << 15)
  }

  /** Decoding loses none of the fields: a well-formed set of fields comes
      back unchanged from its encoding. */
  lemma AccessRightsRoundTrip(d: AccessRights)
    requires WellFormed(d)
    ensures DecodeAccessRights(EncodeAccessRights(d)) == d
  {
  }

  /** Two access-rights words decode alike exactly when they agree on the
      shown bits. */
  lemma DecodeSeesOnlyShownBits(a1: bv64, a2: bv64)
    ensures DecodeAccessRights(a1) == DecodeAccessRights(a2) <==> a1 & SHOWN_BITS == a2 & SHOWN_BITS
  {
    if a1 & SHOWN_BITS == a2 & SHOWN_BITS {
      AccessRightsRoundTrip(DecodeAccessRights(a1));
      AccessRightsRoundTrip(DecodeAccessRights(a2));
    }
  }

  /** What the dump reads for one segment register: the selector (a
      register read) and the limit, base and access-rights VMCS fields. */
  datatype Segment = Segment(selector: bv64, base: bv64, limit: bv64, ar: bv64)

  /** One printed row of the segment table. */
  datatype SegmentRow = SegmentRow(name: string, selector: bv64, base: bv64, limit: bv64, rights: AccessRights)

  /** The row labels, in printing order. */
  const SEGMENT_NAMES: seq<string> := ["cs", "ss", "ds", "es", "fs", "gs", "tr", "ldt"]

  /** One row: the values read for the segment, with its access rights
      decoded. */
  function RowOf(name: string, seg: Segment): SegmentRow {
    SegmentRow(name, seg.selector, seg.base, seg.limit, DecodeAccessRights(seg.ar))
  }

  /** The segment table of the `Debug` dump: one row per segment register in
      the order cs, ss, ds, es, fs, gs, tr, ldt, every row decoded by the same
      function from its own segment. */
  function SegmentTable(cs: Segment, ss: Segment, ds: Segment, es: Segment,
                        fs: Segment, gs: Segment, tr: Segment, ldtr: Segment): (rows: seq<SegmentRow>)
    ensures |rows| == |SEGMENT_NAMES|
    ensures forall i :: 0 <= i < |rows| ==>
      var seg := [cs, ss, ds, es, fs, gs, tr, ldtr][i];
      && rows[i].name == SEGMENT_NAMES[i]
      && rows[i].selector == seg.selector && rows[i].base == seg.base && rows[i].limit == seg.limit
      && rows[i].rights == DecodeAccessRights(seg.ar)
  {
    var segments := [cs, ss, ds, es, fs, gs, tr, ldtr];
    seq(|SEGMENT_NAMES|, i requires 0 <= i < |SEGMENT_NAMES| => RowOf(SEGMENT_NAMES[i], segments[i]))
  }
}
