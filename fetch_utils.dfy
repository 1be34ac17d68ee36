/** helper/fetchUtils.ts: `appFetch`, which forwards a request to `fetch` and
    decides only one thing itself, the credentials mode. */
module FetchUtils {
  import opened Wrappers
  import opened Json
  import opened Http
  import opened TokenUtils

  /** `RequestMethod`. "PATCH" is spelled in upper case because fetch
      normalises "post", "delete" and "get" but not "patch". */
  datatype RequestMethod = Post | Patch | Delete | Get
  {
    function Name(): string {
      match this
      case Post => "post"
      case Patch => "PATCH"
      case Delete => "delete"
      case Get => "GET"
    }
  }

  /** Different methods are sent under different names. */
  lemma MethodNamesDistinct(m: RequestMethod, n: RequestMethod)
    ensures m.Name() == n.Name() <==> m == n
  {
    if m != n {
      assert m.Name()[0] != n.Name()[0] || |m.Name()| != |n.Name()|;
    }
  }

  /** `hasValidToken ? "omit" : "include"`: cookies are left out exactly when a
      valid bearer token is stored, and sent otherwise. */
  function CredentialsFor(token: Option<string>, nowMs: int, decode: Decoder): (c: Credentials)
    ensures c == Omit <==> HasValidToken(token, nowMs, decode)
    ensures c == Include <==> !HasValidToken(token, nowMs, decode)
  {
    if token.Some? && token.value != "" && !IsTokenExpired(token.value, nowMs, decode) then Omit
    else Include
  }

  /** `appFetch({headers, method, url, body})` with the bearer slot holding
      `token`: the request handed to fetch, and what the call resolves to. The
      caller's headers go out as given (no Authorization is added here) and the
      body is `JSON.stringify(body)` whatever the method. fetch itself rejects
      a GET that carries a body; any other request resolves to what the network
      answered, whatever its status. */
  function AppFetch(token: Option<string>, nowMs: int, decode: Decoder,
                    url: string, verb: RequestMethod, headers: Headers, body: Option<Json>,
                    outcome: Outcome): (r: (Request, Outcome))
    ensures r.0.url == url && r.0.verb == verb.Name()
    ensures r.0.headers == headers
    ensures r.0.body.NoBody? <==> body.None?
    ensures body.Some? ==> r.0.body == JsonBody(body.value)
    ensures r.0.credentials == Omit <==> HasValidToken(token, nowMs, decode)
    ensures r.0.credentials == Include <==> !HasValidToken(token, nowMs, decode)
    ensures verb == Get && body.Some? ==> r.1 == NetworkFailure(BodyForbiddenMessage)
    ensures verb != Get || body.None? ==> r.1 == outcome
  {
    var hasValidToken := token.Some? && token.value != "" && !IsTokenExpired(token.value, nowMs, decode);
    var request := Request(url, verb.Name(), headers, BodyOf(body), if hasValidToken then Omit else Include);
    (request, Fetch(request, outcome))
  }

  /** `appFetch` and `getHeaders` agree: a request leaves cookies out exactly
      when the headers `getHeaders` builds carry the bearer token. */
  lemma CredentialsMatchHeaders(token: Option<string>, nowMs: int, decode: Decoder)
    ensures CredentialsFor(token, nowMs, decode) == Omit <==>
      "Authorization" in GetHeaders(token, nowMs, decode)
  {
  }
}
