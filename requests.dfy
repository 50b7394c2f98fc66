/**
 * The outcome of one request to the vendor API as the controller sees it,
 * with the single 307 redirect it is prepared to follow.
 */
module Requests {
  import opened Common

  /** The vendor API host the controller connects to when it has no open connection. */
  const ApiHost: string := "developer-api.nest.com"

  /** One attempt: the request raised (connection error), or an answer with a status code arrived. */
  datatype Attempt = ConnectionError | Answered(status: int)

  /**
   * Everything the network does to one request: the first attempt, the host a
   * 307 answer's location names, and the attempt made on that host. The last
   * two matter only when the first attempt is answered with 307.
   */
  datatype Exchange = Exchange(first: Attempt, redirectHost: string, second: Attempt)

  /** A request the controller issued, in order: a state read or a change. */
  datatype Request = GetRequest(host: string) | PutRequest(host: string, url: string, payload: Payload)

  /** The first answer is a temporary redirect, which is followed once. */
  predicate Redirected(x: Exchange)
  {
    x.first == Answered(307)
  }

  /**
   * The attempt whose outcome the caller acts on: the redirected one when
   * there was a redirect, the first otherwise. A second 307 is not followed.
   */
  function Final(x: Exchange): (a: Attempt)
    ensures Redirected(x) ==> a == x.second
    ensures !Redirected(x) ==> a == x.first
    ensures a == Answered(200) ==> x.first == Answered(200) || (x.first == Answered(307) && x.second == Answered(200))
  {
    if Redirected(x) then x.second else x.first
  }

  /** The host a request goes to first: the open connection's, or the API host when none is open. */
  function OpenHost(conn: Option<string>): string
  {
    if conn.Some? then conn.value else ApiHost
  }
}
