/**
 * What the adapters need from HTTP: their fixed endpoint configuration, the
 * authenticated GET they issue, and the outcome the transport reports.
 */
module Http {
  import opened Wrappers
  import opened UrlQuery

  /** The placeholder used for both user name and password when none is given. */
  const DEFAULT_CREDENTIAL: string := "mo"

  /**
   * An adapter's configuration: set once by its constructor and read by every
   * request; no operation of either adapter changes it.
   */
  datatype Endpoint = Endpoint(baseUrl: string, username: string, password: string)

  /** The adapters' constructor; an omitted credential takes the placeholder. */
  function NewEndpoint(baseUrl: string, username: Option<string>, password: Option<string>): (e: Endpoint)
    ensures e.baseUrl == baseUrl
    ensures username.None? ==> e.username == DEFAULT_CREDENTIAL
    ensures password.None? ==> e.password == DEFAULT_CREDENTIAL
    ensures forall u :: username == Some(u) ==> e.username == u
    ensures forall p :: password == Some(p) ==> e.password == p
  {
    Endpoint(baseUrl, username.GetOr(DEFAULT_CREDENTIAL), password.GetOr(DEFAULT_CREDENTIAL))
  }

  /** A GET with Basic-auth credentials and, for axios calls, a timeout. */
  datatype Request = Request(url: string, username: string, password: string, timeoutMs: Option<nat>)

  /**
   * What the transport reports for a request: an HTTP answer with a status and
   * a decoded body, or a failure with no answer (network error, timeout).
   */
  datatype Outcome<T> = Answered(status: int, body: T) | Failed

  /** `response.ok`, and axios's default acceptance of a status. */
  predicate IsOk(status: int)
  {
    200 <= status <= 299
  }

  /**
   * The adapters' containment policy: an answer with a 2xx status yields its
   * body; a failure, a timeout or any other status yields `null` (`None`).
   */
  function Settle<T>(o: Outcome<T>): (r: Option<T>)
    ensures r.Some? <==> o.Answered? && IsOk(o.status)
    ensures r.Some? ==> r.value == o.body
  {
    if o.Answered? && IsOk(o.status) then Some(o.body) else None
  }

  /** The GetCapabilities parameters of an OGC service at a protocol version. */
  function CapabilitiesParams(service: string, version: string): (ps: seq<Param>)
    ensures Keys(ps) == ["service", "version", "request"] && DistinctKeys(ps)
    ensures Lookup(ps, "service") == Some(service) && Lookup(ps, "version") == Some(version)
    ensures Lookup(ps, "request") == Some("GetCapabilities")
  {
    var ps := [("service", service), ("version", version), ("request", "GetCapabilities")];
    LookupAt(ps, 2);
    ps
  }
}
