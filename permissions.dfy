/**
 * Reading the answer to a runtime permission request. The platform delivers
 * one result code per requested permission; when the request is interrupted
 * it delivers an empty array, which is to be read as a refusal.
 */
module Permissions {
  import opened Wrappers

  /** The platform's per-permission result codes. */
  const PERMISSION_GRANTED: int := 0
  const PERMISSION_DENIED: int := -1

  /**
   * The result handler as written reads the first result code without a length
   * check: `None` stands for the index-out-of-bounds exception it throws on an
   * empty array, `Some(g)` for the branch it then takes.
   */
  function GrantedAsWritten(grantResults: seq<int>): (outcome: Option<bool>)
    ensures outcome.None? <==> grantResults == []
    ensures outcome.Some? ==> (outcome.value <==> grantResults[0] == PERMISSION_GRANTED)
  {
    if |grantResults| == 0 then None else Some(grantResults[0] == PERMISSION_GRANTED)
  }

  /** An interrupted request (no result codes) makes the handler as written throw. */
  lemma InterruptedRequestThrows()
    ensures GrantedAsWritten([]) == None
  {
  }

  /**
   * The result as intended: granted exactly when a first result code exists and
   * is PERMISSION_GRANTED, so an interrupted request counts as a refusal.
   */
  function Granted(grantResults: seq<int>): (granted: bool)
    ensures grantResults == [] ==> !granted
    ensures granted ==> grantResults[0] == PERMISSION_GRANTED
  {
    |grantResults| > 0 && grantResults[0] == PERMISSION_GRANTED
  }

  /**
   * Wherever the handler as written does not throw, the corrected reading takes
   * the same branch; where it throws, the corrected reading refuses.
   */
  lemma GrantedAgreesWhereDefined(grantResults: seq<int>)
    ensures GrantedAsWritten(grantResults).Some? ==> GrantedAsWritten(grantResults).value == Granted(grantResults)
    ensures GrantedAsWritten(grantResults).None? ==> !Granted(grantResults)
  {
  }
}
