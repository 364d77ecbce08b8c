/**
 * Talking to a VAULT_0 server: the base-URL normalization both callers share
 * (src/main/core/vault0-api-client.ts and the store's own `normalizeBaseUrl`
 * in src/main/core/vault-core.ts), the error text for a non-2xx response,
 * and the store's single-shot `fetchVault0Json`, which has no timeout and
 * no retry. The network is a parameter: each request is answered by a
 * `Reply` the caller supplies.
 */
module Remote {
  import opened Wrappers
  import opened Text

  /** `.replace(/\/+$/, "")`: drops the run of `/` at the end. */
  function DropTrailingSlashes(s: string): (r: string)
    ensures |r| <= |s| && r == s[..|r|]
    ensures r == [] || r[|r| - 1] != '/'
    ensures forall i :: |r| <= i < |s| ==> s[i] == '/'
  {
    if s != [] && s[|s| - 1] == '/' then DropTrailingSlashes(s[..|s| - 1]) else s
  }

  /**
   * `normalizeBaseUrl`: the trimmed base URL without its trailing slashes.
   * Only white space at the ends and `/` at the end are dropped.
   */
  function NormalizeBaseUrl(baseUrl: string): (r: string)
    ensures |r| <= |Trim(baseUrl)| && r == Trim(baseUrl)[..|r|]
    ensures r == [] || r[|r| - 1] != '/'
    ensures forall i :: |r| <= i < |Trim(baseUrl)| ==> Trim(baseUrl)[i] == '/'
  {
    DropTrailingSlashes(Trim(baseUrl))
  }

  /** A trailing slash on a base URL makes no difference to the requests made. */
  lemma TrailingSlashIgnored(baseUrl: string)
    requires IsTrimmed(baseUrl)
    ensures NormalizeBaseUrl(baseUrl + "/") == NormalizeBaseUrl(baseUrl)
  {
    var s := baseUrl + "/";
    assert s[|s| - 1] == '/' && s[..|s| - 1] == baseUrl;
    assert !IsWhitespace('/');
    assert IsTrimmed(s) by {
      if baseUrl != [] {
        assert s[0] == baseUrl[0];
      }
    }
    TrimOfTrimmed(s);
    TrimOfTrimmed(baseUrl);
    assert DropTrailingSlashes(s) == DropTrailingSlashes(baseUrl);
  }

  /** The repository's own example: "http://localhost:3000/" is requested as "http://localhost:3000" + route. */
  lemma LocalhostBaseUrl()
    ensures NormalizeBaseUrl("http://localhost:3000/") == "http://localhost:3000"
  {
    var b := "http://localhost:3000";
    assert IsTrimmed(b);
    TrailingSlashIgnored(b);
    TrimOfTrimmed(b);
    assert b + "/" == "http://localhost:3000/";
    assert b[|b| - 1] == '0';
  }

  /** `VAULT_0 API error <status> on <route>: <body, or the status text when the body is empty>`. */
  function HttpErrorMessage(status: nat, route: string, bodyText: string, statusText: string): (m: string)
    ensures var detail := if bodyText != "" then bodyText else statusText;
            IsInfix(route, m) && IsInfix(NatToDecimal(status), m) && |detail| <= |m| && m[|m| - |detail|..] == detail
  {
    var m := "VAULT_0 API error " + NatToDecimal(status) + " on " + route + ": " + (if bodyText != "" then bodyText else statusText);
    InfixOfConcat("VAULT_0 API error ", NatToDecimal(status), " on " + route + ": " + (if bodyText != "" then bodyText else statusText));
    assert m == "VAULT_0 API error " + NatToDecimal(status) + (" on " + route + ": " + (if bodyText != "" then bodyText else statusText));
    InfixOfConcat("VAULT_0 API error " + NatToDecimal(status) + " on ", route, ": " + (if bodyText != "" then bodyText else statusText));
    assert m == "VAULT_0 API error " + NatToDecimal(status) + " on " + route + (": " + (if bodyText != "" then bodyText else statusText));
    m
  }

  /** `response.ok`. */
  predicate IsOkStatus(status: nat) {
    200 <= status <= 299
  }

  /**
   * What one `GET` of a list route comes back as: a response (its status,
   * status text and body) whose JSON either fails to parse or is an object
   * that may or may not carry the list field; or a `fetch` that throws.
   */
  datatype Reply<T> =
    | Response(status: nat, statusText: string, bodyText: string, payload: Payload<T>)
    | NetworkFailure(message: string)

  datatype Payload<T> = NotJson(parseError: string) | Listed(items: Option<seq<T>>)

  /** The error a remote call of the store surfaces. */
  datatype RemoteError =
    | HttpError(status: nat, route: string, detail: string)
    | FetchFailed(message: string)
  {
    function Message(): string {
      match this
      case HttpError(status, route, detail) => HttpErrorMessage(status, route, detail, "")
      case FetchFailed(message) => message
    }
  }

  /**
   * `fetchVault0Json` followed by `payload.<field> ?? []`: one request, no
   * retry. A non-2xx status fails with the API error; a missing list field
   * reads as the empty list.
   */
  function FetchList<T>(route: string, reply: Reply<T>): (r: Result<seq<T>, RemoteError>)
    ensures reply.Response? && !IsOkStatus(reply.status) ==>
              r == Err(HttpError(reply.status, route, if reply.bodyText != "" then reply.bodyText else reply.statusText))
    ensures r.Ok? <==> reply.Response? && IsOkStatus(reply.status) && reply.payload.Listed?
    ensures r.Ok? ==> r.value == reply.payload.items.GetOr([])
  {
    match reply
    case NetworkFailure(message) => Err(FetchFailed(message))
    case Response(status, statusText, bodyText, payload) =>
      if !IsOkStatus(status) then Err(HttpError(status, route, if bodyText != "" then bodyText else statusText))
      else
        match payload
        case NotJson(parseError) => Err(FetchFailed(parseError))
        case Listed(items) => Ok(items.GetOr([]))
  }

  // The routes of the store's remote listings (`encodeURIComponent` is taken as the identity).

  const ProjectsRoute: string := "/api/projects"

  function AgentsRoute(projectId: string): string {
    "/api/agents?projectId=" + projectId + "&includeInactive=true"
  }

  function TicketsRoute(projectId: string): string {
    "/api/tickets?projectId=" + projectId
  }

  function MemoryRoute(projectId: string, limit: nat): string {
    "/api/memory?projectId=" + projectId + "&limit=" + NatToDecimal(limit)
  }
}
