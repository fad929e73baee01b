/** verifyCredentials (src/functions/verifyCredentials.ts): one read-only
    call whose authentication failure is reported as `false`. */
module Credentials {
  import opened Common

  const AuthFailure := "AuthFailure"

  /** `outcome` is the error the describeInstances callback got, if any. */
  function VerifyCredentials(outcome: Option<SdkError>): (r: Result<bool>)
    ensures r == Ok(true) <==> outcome.None?
    ensures r == Ok(false) <==> outcome.Some? && outcome.value.code == AuthFailure
    ensures r.Err? <==> outcome.Some? && outcome.value.code != AuthFailure
    ensures r.Err? ==> r.failure == Sdk(outcome.value)
  {
    match outcome
    case None => Ok(true)
    case Some(err) => if err.code == AuthFailure then Ok(false) else Err(Sdk(err))
  }
}
