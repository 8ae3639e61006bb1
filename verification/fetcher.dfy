/** The request handler's first two stages: the domain gate on the URL's
    host, and the classification of the single upstream fetch. */
module Fetcher {
  import opened Wrappers
  import opened Text

  const Domain := "myntra.com"
  const AccessDenied := "Access Denied"
  const NoPermission := "You don't have permission"

  const BadRequest: int := 400
  const Forbidden: int := 403
  const BadGateway: int := 502

  /** What the one outbound GET produced: a transport-level failure (DNS,
      connection, timeout), or a status code with the decoded body text. */
  datatype FetchOutcome = TransportFailure | Response(status: int, body: string)

  /** The host (netloc) names the supported site: a plain substring test. */
  predicate DomainAllowed(host: string) {
    Contains(host, Domain)
  }

  /** The body is the site's block page: either block phrase occurs in it. */
  predicate Blocked(html: string) {
    Contains(html, AccessDenied) || Contains(html, NoPermission)
  }

  /** The page text to scrape, or the status the handler reports: 502 for a
      transport failure, the upstream's own status for anything but 200, 403
      for a block page. */
  function Classify(fetch: FetchOutcome): (r: Result<string, int>)
    ensures r.Ok? <==> fetch.Response? && fetch.status == 200 && !Blocked(fetch.body)
    ensures r.Ok? ==> r.value == fetch.body
    ensures fetch.TransportFailure? ==> r == Err(BadGateway)
    ensures fetch.Response? && fetch.status == 200 && Blocked(fetch.body) ==> r == Err(Forbidden)
    ensures r.Err? && fetch.Response? && fetch.status != 200 ==> r.error == fetch.status
  {
    match fetch
    case TransportFailure => Err(BadGateway)
    case Response(status, body) =>
      if status != 200 then Err(status)
      else if Blocked(body) then Err(Forbidden)
      else Ok(body)
  }
}
