/**
 * The network boundary of the SDK. Nothing is sent here: the requests the
 * page makes are recorded as values, and the answer to the quota check is an
 * input describing how the request ended.
 */
module Gateway {

  /** A request the page sends to the backend. */
  datatype Request =
    | MeterCheck(site: string, path: string)
    | MeterHit(site: string, path: string)
    | Register(site: string, email: string, path: string)

  /** The body of a successful (`r.ok`) reply to the quota check. */
  datatype Body =
    | AllowedField(truthy: bool)  // a JSON body; `truthy` is the truthiness of its `allowed` member
    | Malformed                   // a body that does not parse as JSON, so `r.json()` rejects

  /** How the quota-check request ended. */
  datatype Response =
    | Ok(body: Body)  // a 2xx status
    | NotOk           // any other status
    | Threw           // fetch rejected: network failure

  datatype Verdict = Allow | Deny

  /** The quota check of the blur revision, fail-open: only a successful reply
    * whose `allowed` member is falsy denies; a failed request, a non-2xx status
    * and an unreadable body all allow. */
  function ServerCheck(r: Response): (v: Verdict)
    ensures v == Deny <==> r == Ok(AllowedField(false))
  {
    match r
    case Ok(AllowedField(allowed)) => if allowed then Allow else Deny
    case _ => Allow
  }

  /** How serverCheck settles as written. */
  datatype Settled = Resolved(verdict: Verdict) | Rejected

  /** serverCheck exactly as written: `return r.ok ? r.json() : ...` hands the
    * promise of `r.json()` back without awaiting it, so its rejection is not
    * caught by the surrounding try and serverCheck itself rejects. On every
    * other response it agrees with the fail-open ServerCheck. */
  function ServerCheckAsWritten(r: Response): (s: Settled)
    ensures s == Rejected <==> r == Ok(Malformed)
    ensures s.Resolved? ==> s.verdict == ServerCheck(r)
  {
    match r
    case Ok(Malformed) => Rejected
    case Ok(AllowedField(allowed)) => Resolved(if allowed then Allow else Deny)
    case NotOk => Resolved(Allow)
    case Threw => Resolved(Allow)
  }

  /** The discrepancy: for an OK reply with an unparsable body the intended
    * fail-open check allows, while the code as written rejects. */
  lemma MalformedBodyEscapesFailOpen()
    ensures ServerCheckAsWritten(Ok(Malformed)) == Rejected
    ensures ServerCheck(Ok(Malformed)) == Allow
  {
  }
}
