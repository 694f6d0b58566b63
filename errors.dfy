/** The error taxonomy shared by both backends (src/lib.rs): the closed
    `Error` enumeration, the classification of a native `hv_return_t` status,
    and the result of a native call that also hands back a value. */
module Errors {

  /** `Error` as declared in src/lib.rs; `Success` exists in the enumeration
      but is never produced by the classification. */
  datatype Error = Success | Error | Busy | BadArg | NoRes | NoDev | Unsupp

  /** `Result<T, Error>` of the Rust API. */
  datatype Result<T> = Ok(value: T) | Err(error: Error)

  /** A native status code (`hv_return_t`, a 32-bit Mach error value). */
  type Status = bv32

  // Values as in the Hypervisor framework's hv_error.h; the model relies
  // only on their being pairwise distinct.
  const HV_SUCCESS: Status := 0
  const HV_ERROR: Status := 0xfae9_4001
  const HV_BUSY: Status := 0xfae9_4002
  const HV_BAD_ARGUMENT: Status := 0xfae9_4003
  const HV_NO_RESOURCES: Status := 0xfae9_4005
  const HV_NO_DEVICE: Status := 0xfae9_4006
  const HV_UNSUPPORTED: Status := 0xfae9_400f

  /** What a native call that fills in an out-parameter gives back: the status
      and the value it left in the out-parameter. */
  datatype Reply<T> = Reply(status: Status, out: T)

  /** The status codes that have a dedicated `Error` variant. */
  predicate IsNamedFailure(code: Status) {
    code in {HV_BUSY, HV_BAD_ARGUMENT, HV_NO_RESOURCES, HV_NO_DEVICE, HV_UNSUPPORTED}
  }

  /** `match_error_code`: success is `Ok(())`, the five named failures map to
      their own variant, every other code to the generic `Error`. */
  function MatchErrorCode(code: Status): (r: Result<()>)
    ensures r.Ok? <==> code == HV_SUCCESS
    ensures r.Err? ==> r.error != Success
    ensures r == Err(Error) <==> code != HV_SUCCESS && !IsNamedFailure(code)
  {
    if code == HV_SUCCESS then Ok(())
    else if code == HV_BUSY then Err(Busy)
    else if code == HV_BAD_ARGUMENT then Err(BadArg)
    else if code == HV_NO_RESOURCES then Err(NoRes)
    else if code == HV_NO_DEVICE then Err(NoDev)
    else if code == HV_UNSUPPORTED then Err(Unsupp)
    else Err(Error)
  }

  /** A representative native code for each variant the classification can
      produce (the generic `Error` is represented by `HV_ERROR`). */
  function CodeOf(e: Error): Status
    requires e != Success
  {
    match e
    case Error => HV_ERROR
    case Busy => HV_BUSY
    case BadArg => HV_BAD_ARGUMENT
    case NoRes => HV_NO_RESOURCES
    case NoDev => HV_NO_DEVICE
    case Unsupp => HV_UNSUPPORTED
  }

  /** Every variant except `Success` is produced by its own code, so the
      classification reaches exactly the failure variants. */
  lemma ClassificationReachesEveryFailure(e: Error)
    requires e != Success
    ensures MatchErrorCode(CodeOf(e)) == Err(e)
  {
  }

  /** The named failures are told apart: two codes classified to the same
      specific variant are the same code. */
  lemma NamedFailuresAreDistinguished(c1: Status, c2: Status)
    requires IsNamedFailure(c1) && IsNamedFailure(c2)
    requires MatchErrorCode(c1) == MatchErrorCode(c2)
    ensures c1 == c2
  {
  }

  /** The pattern every value-returning accessor follows
      (`match_error_code(call)?; Ok(value)`): the value is handed out only
      when the native call succeeded, otherwise the classified error. */
  function Forward<T>(reply: Reply<T>): (r: Result<T>)
    ensures r.Ok? <==> reply.status == HV_SUCCESS
    ensures r.Ok? ==> r.value == reply.out
    ensures r.Err? ==> MatchErrorCode(reply.status) == Err(r.error) && r.error != Success
  {
    if reply.status == HV_SUCCESS then Ok(reply.out) else Err(MatchErrorCode(reply.status).error)
  }

  /** The `Debug` rendering of an `Error`. */
  function Label(e: Error): string {
    match e
    case Success => "Success"
    case Error => "Error"
    case Busy => "Busy"
    case BadArg => "Bad argument"
    case NoRes => "No resources"
    case NoDev => "No device"
    case Unsupp => "Unsupported"
  }

  /** The inverse of `Label` on the seven labels. */
  function ErrorOfLabel(s: string): (r: Option<Error>)
    ensures r.Some? ==> Label(r.value) == s
  {
    if s == "Success" then Some(Success)
    else if s == "Error" then Some(Error)
    else if s == "Busy" then Some(Busy)
    else if s == "Bad argument" then Some(BadArg)
    else if s == "No resources" then Some(NoRes)
    else if s == "No device" then Some(NoDev)
    else if s == "Unsupported" then Some(Unsupp)
    else None
  }

  /** Each variant renders to its own fixed label, so the rendering identifies
      the variant. */
  lemma LabelIdentifiesError(e: Error)
    ensures ErrorOfLabel(Label(e)) == Some(e)
  {
  }

  datatype Option<T> = None | Some(value: T)
}
