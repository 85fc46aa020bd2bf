/** What one HTTP call of the mobile app can come to, as `apiFetch` reports it. */
module Api {

  datatype Option<+T> = None | Some(value: T)

  /** The reply to one `fetch`: none at all (`fetch` rejects), or a status and a body that parses or does not. */
  datatype Reply = NoReply | Status(code: nat, readable: bool)

  /** How `apiFetch` settles: a value, a body that does not parse, `ApiError(status)` from the reply itself,
      `ApiError(401)` because the session could not be refreshed, or `NetworkError`. */
  datatype CallResult =
    | Success
    | Unreadable
    | Rejected(status: nat)
    | SessionExpired
    | Unreachable

  predicate Ok(code: nat) {
    200 <= code < 300
  }

  /** The end of `resolveResponse` and `apiFetch` once no refresh is due; a 204 has no body to parse. */
  function Settle(code: nat, readable: bool): CallResult {
    if !Ok(code) then Rejected(code)
    else if code == 204 || readable then Success
    else Unreadable
  }

  /** What such a reply says, status by status. */
  predicate Says(reply: Reply, r: CallResult) {
    match reply
    case NoReply => r == Unreachable
    case Status(code, readable) =>
      if code < 200 || 299 < code then r == Rejected(code)
      else r == if code == 204 || readable then Success else Unreadable
  }

  /** The test the offline queues make: `ApiError` with a status from 400 to 499.
      The session-expired error carries status 401 and passes it. */
  predicate ClientError(r: CallResult) {
    r == SessionExpired || (r.Rejected? && 400 <= r.status < 500)
  }

  /** A flush takes an item off its queue for a 2xx and for a 4xx, and for nothing else. */
  predicate Leaves(r: CallResult) {
    r == Success || ClientError(r)
  }
}
