/** Guest memory permissions and the VM-wide calls (src/lib.rs,
    src/aarch64/mod.rs, src/x86_64/mod.rs). The native calls are oracles:
    functions from the exact arguments the wrappers pass to the status the
    native layer answers. */
module Vm {
  import opened Errors

  /** `MemPerm`: the five permissions a caller can request. */
  datatype MemPerm = Read | Write | Exec | ExecAndWrite | ExecAndRead

  // Protection bits of hv_memory_flags_t.
  const HV_MEMORY_READ: bv64 := 1
  const HV_MEMORY_WRITE: bv64 := 2
  const HV_MEMORY_EXEC: bv64 := 4

  /** `match_MemPerm`: the protection bitmask handed to the native layer.
      Write implies read; bare `Exec` carries no read bit. */
  function MatchMemPerm(p: MemPerm): (r: bv64)
    ensures r & HV_MEMORY_READ != 0 <==> !p.Exec?
    ensures r & HV_MEMORY_WRITE != 0 <==> p.Write? || p.ExecAndWrite?
    ensures r & HV_MEMORY_EXEC != 0 <==> p.Exec? || p.ExecAndWrite? || p.ExecAndRead?
    ensures r & !(HV_MEMORY_READ | HV_MEMORY_WRITE | HV_MEMORY_EXEC) == 0
  {
    match p
    case Read => HV_MEMORY_READ
    case Write => HV_MEMORY_WRITE | HV_MEMORY_READ
    case Exec => HV_MEMORY_EXEC
    case ExecAndWrite => HV_MEMORY_EXEC | HV_MEMORY_WRITE | HV_MEMORY_READ
    case ExecAndRead => HV_MEMORY_EXEC | HV_MEMORY_READ
  }

  /** Reads a protection bitmask back as a permission, if it is one of the
      five encodings. */
  function PermOfFlags(flags: bv64): Option<MemPerm> {
    if flags == HV_MEMORY_READ then Some(Read)
    else if flags == HV_MEMORY_WRITE | HV_MEMORY_READ then Some(Write)
    else if flags == HV_MEMORY_EXEC then Some(Exec)
    else if flags == HV_MEMORY_EXEC | HV_MEMORY_WRITE | HV_MEMORY_READ then Some(ExecAndWrite)
    else if flags == HV_MEMORY_EXEC | HV_MEMORY_READ then Some(ExecAndRead)
    else None
  }

  /** The encoding loses nothing: the requested permission can be read back
      from the bitmask, so distinct permissions give distinct bitmasks. */
  lemma PermRoundTrip(p: MemPerm)
    ensures PermOfFlags(MatchMemPerm(p)) == Some(p)
  {
  }

  /** Whenever the write bit is requested, the read bit is set too. */
  lemma WriteImpliesRead(p: MemPerm)
    ensures MatchMemPerm(p) & HV_MEMORY_WRITE != 0 ==> MatchMemPerm(p) & HV_MEMORY_READ != 0
  {
  }

  /** The configuration word `hv_vm_create` receives. The x86 backend passes
      `HV_VM_DEFAULT` and the aarch64 backend a null configuration pointer;
      both are the zero word. */
  const HV_VM_DEFAULT: bv64 := 0

  /** `create_vm`: creates the VM with the default configuration; the outcome
      is the classified native status. */
  function CreateVm(hv: bv64 -> Status): (r: Result<()>)
    ensures r.Ok? <==> hv(HV_VM_DEFAULT) == HV_SUCCESS
    ensures r.Err? ==> r.error != Success && r == MatchErrorCode(hv(HV_VM_DEFAULT))
  {
    MatchErrorCode(hv(HV_VM_DEFAULT))
  }

  /** `destroy_vm`: the outcome of `hv_vm_destroy`, classified. */
  function DestroyVm(hv: () -> Status): (r: Result<()>)
    ensures r.Ok? <==> hv() == HV_SUCCESS
    ensures r.Err? ==> r.error != Success && r == MatchErrorCode(hv())
  {
    MatchErrorCode(hv())
  }

  /** Host buffer, guest address, length and flags, as `hv_vm_map` receives them. */
  type MapCall = (seq<bv8>, bv64, nat, bv64) -> Status
  /** Guest address, length and flags, as `hv_vm_protect` receives them. */
  type ProtectCall = (bv64, nat, bv64) -> Status
  /** Guest address and length, as `hv_vm_unmap` receives them. */
  type UnmapCall = (bv64, nat) -> Status

  /** `map_mem`: the buffer, its length and the encoding of the permission are
      forwarded unchanged; the outcome is the classified native status. */
  function MapMem(mem: seq<bv8>, gpa: bv64, perm: MemPerm, hv: MapCall): (r: Result<()>)
    ensures r.Ok? <==> hv(mem, gpa, |mem|, MatchMemPerm(perm)) == HV_SUCCESS
    ensures r.Err? ==> r.error != Success && r == MatchErrorCode(hv(mem, gpa, |mem|, MatchMemPerm(perm)))
  {
    MatchErrorCode(hv(mem, gpa, |mem|, MatchMemPerm(perm)))
  }

  /** `protect_mem`: like `map_mem`, the permission reaches the native layer
      as its `match_MemPerm` encoding. */
  function ProtectMem(gpa: bv64, size: nat, perm: MemPerm, hv: ProtectCall): (r: Result<()>)
    ensures r.Ok? <==> hv(gpa, size, MatchMemPerm(perm)) == HV_SUCCESS
    ensures r.Err? ==> r.error != Success && r == MatchErrorCode(hv(gpa, size, MatchMemPerm(perm)))
  {
    MatchErrorCode(hv(gpa, size, MatchMemPerm(perm)))
  }

  /** `unmap_mem`: address and size forwarded unchanged. */
  function UnmapMem(gpa: bv64, size: nat, hv: UnmapCall): (r: Result<()>)
    ensures r.Ok? <==> hv(gpa, size) == HV_SUCCESS
    ensures r.Err? ==> r.error != Success && r == MatchErrorCode(hv(gpa, size))
  {
    MatchErrorCode(hv(gpa, size))
  }

  /** `sync_tsc`: the guest TSC value is forwarded unchanged. */
  function SyncTsc(tsc: bv64, hv: bv64 -> Status): (r: Result<()>)
    ensures r.Ok? <==> hv(tsc) == HV_SUCCESS
    ensures r.Err? ==> r.error != Success && r == MatchErrorCode(hv(tsc))
  {
    MatchErrorCode(hv(tsc))
  }

  /** `interrupt_vcpus`: the id list and its length reach the native layer
      together, so the count always describes the list. */
  function InterruptVcpus(ids: seq<bv32>, hv: (seq<bv32>, nat) -> Status): (r: Result<()>)
    ensures r.Ok? <==> hv(ids, |ids|) == HV_SUCCESS
    ensures r.Err? ==> r.error != Success && r == MatchErrorCode(hv(ids, |ids|))
  {
    MatchErrorCode(hv(ids, |ids|))
  }
}
