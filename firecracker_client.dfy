/**
 * The Firecracker API client (firecracker_client.py): a PUT of a JSON
 * payload to a path of the VM's API socket, where only 204 No Content
 * counts as success.
 */
module FirecrackerClient {
  import opened Wrappers
  import opened Http

  /** `_unix_socket_url`: the scheme, the socket path, a colon and the API path. */
  function UnixSocketUrl(socketPath: string, path: string): (r: string)
    ensures |r| == 13 + |socketPath| + |path|
    ensures "http+unix://" <= r
    ensures r[|r| - |path| - 1..] == ":" + path
    ensures r[12..|r| - |path| - 1] == socketPath
  {
    "http+unix://" + socketPath + ":" + path
  }

  /** The exception `put_json` lets escape. */
  datatype PutError = HttpError(status: int) | RequestFailed

  /**
   * `put_json` given the reply to its PUT: True for 204, `HTTPError` for a
   * status from 400 to 599, and False for any other status.
   */
  function PutJson(reply: Reply): (r: Result<bool, PutError>)
    ensures r == Ok(true) <==> reply.Response? && reply.status == 204
    ensures r == Ok(false) <==> reply.Response? && reply.status != 204 && !RaisesForStatus(reply.status)
    ensures r.Err? && r.error.HttpError? <==> reply.Response? && RaisesForStatus(reply.status)
    ensures r.Err? && r.error.HttpError? ==> r.error.status == reply.status
    ensures r == Err(RequestFailed) <==> reply.NoResponse?
  {
    match reply
    case NoResponse => Err(RequestFailed)
    case Response(status, _) =>
      if status == 204 then Ok(true)
      else if RaisesForStatus(status) then Err(HttpError(status))
      else Ok(false)
  }

  /** A 200 OK, a redirect or any other success short of 204 is reported as failure without raising. */
  lemma OtherSuccessIsFalse(status: int)
    requires status != 204 && (200 <= status < 400)
    ensures forall body :: PutJson(Response(status, body)) == Ok(false)
  {
  }
}
