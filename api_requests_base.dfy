/** helper/ApiRequestsBase.tsx: the `useGet` and `useRequest` hooks. Each hook
    is an object whose state (`data`, `loading`, `error`) its calls change in a
    fixed order; the response each call gets is a parameter. Besides the state
    the source keeps, every hook records the requests it sent and, as ghost
    state, every value it gave `loading`, so that the order of those updates
    can be stated. */
module ApiRequestsBase {
  import opened Wrappers
  import opened Text
  import opened Json
  import opened Http
  import opened Browser
  import opened TokenUtils
  import opened Provider
  import Query

  /** `FetchOptions`. Its `headers` member is never read by the hooks, so it is
      not modelled. `verb` is the `method` option. */
  datatype FetchOptions = FetchOptions(
    verb: Option<string>,
    body: Option<Json>,
    queryString: Option<string>)

  /** `options = {}` */
  const NoOptions := FetchOptions(None, None, None)

  /** `RequestMethod` of `useRequest`. */
  datatype RequestMethod = Post | Patch | Delete
  {
    function Name(): string {
      match this
      case Post => "post"
      case Patch => "patch"
      case Delete => "delete"
    }
  }

  /** The message of the error thrown for a non-2xx response:
      `Error: <status>`, from which the status can be read back. */
  function NotOkMessage(response: Response): (m: string)
    ensures StartsWith(m, "Error: ")
    ensures ParseInt(m[|"Error: "|..]) == Some(response.status)
  {
    var m := "Error: " + IntToString(response.status);
    IntToStringRoundTrip(response.status);
    assert m[|"Error: "|..] == IntToString(response.status);
    m
  }

  /** `apiBaseUrl + path + (options?.queryString ?? "")`: the base, then the
      path, then the query string if one was given. */
  function RequestUrl(apiBaseUrl: string, path: string, options: FetchOptions): (url: string)
    ensures |url| == |apiBaseUrl| + |path| + |options.queryString.GetOr("")|
    ensures url[..|apiBaseUrl|] == apiBaseUrl
    ensures url[|apiBaseUrl|..][..|path|] == path
    ensures url[|apiBaseUrl| + |path|..] == options.queryString.GetOr("")
  {
    var url := apiBaseUrl + path + options.queryString.GetOr("");
    assert url[|apiBaseUrl|..] == path + options.queryString.GetOr("");
    url
  }

  /** A query string given as serialized pairs reads back from the request
      URL, provided base and path carry no query or fragment of their own. */
  lemma RequestUrlQuery(apiBaseUrl: string, path: string, pairs: seq<(string, string)>, name: string)
    requires '?' !in apiBaseUrl + path && '#' !in apiBaseUrl + path
    requires forall i :: 0 <= i < |pairs| ==> Query.PlainPair(pairs[i])
    requires '#' !in Query.Serialize(pairs)
    ensures var url := RequestUrl(apiBaseUrl, path, NoOptions.(queryString := Some(Query.Serialize(pairs))));
      Query.Pairs(Query.SearchOf(url)) == pairs &&
      Query.Get(Query.SearchOf(url), name) == Query.Lookup(pairs, name)
  {
    var search := Query.Serialize(pairs);
    assert apiBaseUrl + path + search == (apiBaseUrl + path) + search;
    Query.SearchAfterPlainPrefix(apiBaseUrl + path, search);
    Query.GetSerialized(pairs, name);
  }

  /** `options.method || "GET"`: a missing or empty method means GET. */
  function VerbOf(options: FetchOptions): (v: string)
    ensures v != ""
    ensures options.verb.Some? && options.verb.value != "" ==> v == options.verb.value
    ensures options.verb.None? || options.verb.value == "" ==> v == "GET"
  {
    if options.verb.Some? && options.verb.value != "" then options.verb.value else "GET"
  }

  /** The request `useGet` hands to fetch. No `credentials` option is given, so
      fetch's default applies. */
  function GetRequest(apiBaseUrl: string, path: string, options: FetchOptions, headers: Headers): (r: Request)
    ensures r.url == RequestUrl(apiBaseUrl, path, options) && r.verb == VerbOf(options)
    ensures r.headers == headers && r.body == BodyOf(options.body)
    ensures r.credentials == SameOrigin
  {
    Request(RequestUrl(apiBaseUrl, path, options), VerbOf(options), headers, BodyOf(options.body), SameOrigin)
  }

  /** fetch rejects the request `useGet` makes: its method is GET or HEAD and
      `JSON.stringify(options.body)` gives it a body. */
  predicate BodyForbidden(options: FetchOptions) {
    ForbidsBody(VerbOf(options)) && options.body.Some?
  }

  /** A `useGet` given a body but no method is one of them. */
  lemma BodyWithoutMethodForbidden(options: FetchOptions)
    requires options.verb.None? || options.verb.value == ""
    ensures BodyForbidden(options) <==> options.body.Some?
  {
    assert ToUpper("GET") == "GET";
  }

  /** The request `useRequest.submit` hands to fetch. */
  function SubmitRequest(apiBaseUrl: string, path: string, options: FetchOptions, verb: RequestMethod,
                         headers: Headers, body: Option<Json>): (r: Request)
    ensures r.url == RequestUrl(apiBaseUrl, path, options) && r.verb == verb.Name()
    ensures r.headers == headers && r.body == BodyOf(body)
    ensures r.credentials == SameOrigin
  {
    Request(RequestUrl(apiBaseUrl, path, options), verb.Name(), headers, BodyOf(body), SameOrigin)
  }

  /** A hook's request carries the bearer token exactly when the session check
      says no login is needed. */
  lemma RequestAuthorizedIffSession(apiBaseUrl: string, path: string, options: FetchOptions,
                                    token: Option<string>, nowMs: int, decode: Decoder)
    ensures var r := GetRequest(apiBaseUrl, path, options, GetHeaders(token, nowMs, decode));
      ("Authorization" in r.headers <==> !ShouldLogin(token, nowMs, decode)) &&
      ("Authorization" in r.headers ==> r.headers["Authorization"] == "Bearer " + token.value)
  {
  }

  /** `useGet`: `data` starts undefined and `loading` true. */
  class GetHook {
    const apiBaseUrl: string
    const path: string
    const options: FetchOptions
    var data: Option<Json>
    var loading: bool
    var error: Option<string>
    var sent: seq<Request>
    ghost var loadingTrace: seq<bool>

    constructor (config: AuthConfig, path: string, options: FetchOptions)
      ensures apiBaseUrl == config.apiBaseUrl && this.path == path && this.options == options
      ensures data == None && loading && error == None
      ensures sent == [] && loadingTrace == []
    {
      apiBaseUrl := config.apiBaseUrl;
      this.path := path;
      this.options := options;
      data := None;
      loading := true;
      error := None;
      sent := [];
      loadingTrace := [];
    }

    /** `fetchData` with `store` as localStorage, at time `nowMs`, when fetch
      yields `outcome`. Loading is switched on and the error cleared first; one
      request goes out, with the headers of the stored token; a 2xx JSON body
      sets `data` to its `data` member (undefined when missing or null) and any
      failure sets `error` and leaves `data` alone; `loading` ends false on
      every path. */
    method FetchData(store: WebStorage, nowMs: int, decode: Decoder, outcome: Outcome)
      modifies this
      ensures sent == old(sent) +
        [GetRequest(apiBaseUrl, path, options, GetHeaders(GetBToken(store), nowMs, decode))]
      ensures loadingTrace == old(loadingTrace) + [true] + [false] && !loading
      ensures BodyForbidden(options) ==>
        data == old(data) && error == Some(BodyForbiddenMessage)
      ensures !BodyForbidden(options) && Settle(outcome, NotOkMessage).Success? ==>
        data == DataOrUndefined(Settle(outcome, NotOkMessage).value) && error == None
      ensures !BodyForbidden(options) && Settle(outcome, NotOkMessage).Failure? ==>
        data == old(data) && error == Some(Settle(outcome, NotOkMessage).error)
    {
      loading := true;
      loadingTrace := loadingTrace + [true];
      error := None;
      var headers := GetHeaders(GetBToken(store), nowMs, decode);
      var request := GetRequest(apiBaseUrl, path, options, headers);
      sent := sent + [request];
      match Settle(Fetch(request, outcome), NotOkMessage) {
        case Success(result) =>
          data := DataOrUndefined(result);
        case Failure(message) =>
          error := Some(message);
      }
      loading := false;
      loadingTrace := loadingTrace + [false];
    }
  }

  /** `useRequest`: `loading` starts false. The `onSuccess` callbacks a caller
      passes are recorded as the values they were called with. */
  class RequestHook {
    const apiBaseUrl: string
    const path: string
    const verb: RequestMethod
    const options: FetchOptions
    var loading: bool
    var error: Option<string>
    var sent: seq<Request>
    var successes: seq<Json>
    ghost var loadingTrace: seq<bool>

    constructor (config: AuthConfig, path: string, verb: RequestMethod, options: FetchOptions)
      ensures apiBaseUrl == config.apiBaseUrl && this.path == path
      ensures this.verb == verb && this.options == options
      ensures !loading && error == None
      ensures sent == [] && successes == [] && loadingTrace == []
    {
      apiBaseUrl := config.apiBaseUrl;
      this.path := path;
      this.verb := verb;
      this.options := options;
      loading := false;
      error := None;
      sent := [];
      successes := [];
      loadingTrace := [];
    }

    /** `submit(body, onSuccess)`. Without an `apiBaseUrl` the developer is
      alerted and nothing else happens: no request, no state change.
      Otherwise the request goes out with the stored token's headers; on a 2xx
      JSON body `onSuccess` receives that whole body (not its `data`), on any
      failure `error` is set; `loading` is true during the call and false
      after it. */
    method Submit(w: Window, body: Option<Json>, store: WebStorage, nowMs: int, decode: Decoder,
                  outcome: Outcome)
      modifies this, w
      ensures apiBaseUrl == "" ==>
        w.effects == old(w.effects) + [Alert("Dev:Provide apiBaseUrl in Auth Context")] &&
        loading == old(loading) && error == old(error) && sent == old(sent) &&
        successes == old(successes) && loadingTrace == old(loadingTrace)
      ensures apiBaseUrl != "" ==>
        w.effects == old(w.effects) &&
        sent == old(sent) + [SubmitRequest(apiBaseUrl, path, options, verb,
                                           GetHeaders(GetBToken(store), nowMs, decode), body)] &&
        loadingTrace == old(loadingTrace) + [true] + [false] && !loading
      ensures apiBaseUrl != "" && Settle(outcome, NotOkMessage).Success? ==>
        successes == old(successes) + [Settle(outcome, NotOkMessage).value] && error == None
      ensures apiBaseUrl != "" && Settle(outcome, NotOkMessage).Failure? ==>
        successes == old(successes) && error == Some(Settle(outcome, NotOkMessage).error)
    {
      if apiBaseUrl == "" {
        w.Alert("Dev:Provide apiBaseUrl in Auth Context");
        return;
      }
      loading := true;
      loadingTrace := loadingTrace + [true];
      error := None;
      var headers := GetHeaders(GetBToken(store), nowMs, decode);
      sent := sent + [SubmitRequest(apiBaseUrl, path, options, verb, headers, body)];
      match Settle(outcome, NotOkMessage) {
        case Success(result) =>
          successes := successes + [result];
        case Failure(message) =>
          error := Some(message);
      }
      loading := false;
      loadingTrace := loadingTrace + [false];
    }
  }

  /** `usePost`: a `useRequest` with method "post" on the same path. */
  method UsePost(config: AuthConfig, path: string, options: FetchOptions) returns (h: RequestHook)
    ensures fresh(h) && h.verb == Post && h.verb.Name() == "post"
    ensures h.path == path && h.options == options && h.apiBaseUrl == config.apiBaseUrl
    ensures !h.loading && h.error == None && h.sent == [] && h.successes == []
  {
    h := new RequestHook(config, path, Post, options);
  }

  /** `useDelete`: a `useRequest` with method "delete" on the same path. */
  method UseDelete(config: AuthConfig, path: string, options: FetchOptions) returns (h: RequestHook)
    ensures fresh(h) && h.verb == Delete && h.verb.Name() == "delete"
    ensures h.path == path && h.options == options && h.apiBaseUrl == config.apiBaseUrl
    ensures !h.loading && h.error == None && h.sent == [] && h.successes == []
  {
    h := new RequestHook(config, path, Delete, options);
  }

  /** `usePatch`: a `useRequest` with method "patch" on the same path. */
  method UsePatch(config: AuthConfig, path: string, options: FetchOptions) returns (h: RequestHook)
    ensures fresh(h) && h.verb == Patch && h.verb.Name() == "patch"
    ensures h.path == path && h.options == options && h.apiBaseUrl == config.apiBaseUrl
    ensures !h.loading && h.error == None && h.sent == [] && h.successes == []
  {
    h := new RequestHook(config, path, Patch, options);
  }

  /** A `useRequest` rendered outside any `AuthProvider` reads the default
      context, whose `apiBaseUrl` is empty: its submit alerts the developer
      and sends nothing. */
  method SubmitOutsideProvider(path: string, verb: RequestMethod, options: FetchOptions,
                               w: Window, body: Option<Json>, store: WebStorage, nowMs: int,
                               decode: Decoder, outcome: Outcome) returns (h: RequestHook)
    modifies w
    ensures fresh(h)
    ensures w.effects == old(w.effects) + [Alert("Dev:Provide apiBaseUrl in Auth Context")]
    ensures h.sent == [] && !h.loading && h.error == None && h.successes == []
  {
    h := new RequestHook(DefaultAuthConfig, path, verb, options);
    h.Submit(w, body, store, nowMs, decode, outcome);
  }

  /** Under `<AuthProvider apiBaseUrl={base}>` with a non-empty base, a
      `useRequest` submit sends one request, addressed below that base, and
      does not alert. */
  method SubmitUnderProvider(loginPageUrl: string, base: string, path: string, verb: RequestMethod,
                             options: FetchOptions, w: Window, body: Option<Json>,
                             store: WebStorage, nowMs: int, decode: Decoder, outcome: Outcome)
    returns (h: RequestHook)
    requires base != ""
    modifies w
    ensures fresh(h) && h.apiBaseUrl == base
    ensures w.effects == old(w.effects)
    ensures h.sent == [SubmitRequest(base, path, options, verb,
                                     GetHeaders(GetBToken(store), nowMs, decode), body)]
    ensures h.sent[0].url[..|base|] == base && h.sent[0].verb == verb.Name()
  {
    h := new RequestHook(AuthProvider(loginPageUrl, base), path, verb, options);
    h.Submit(w, body, store, nowMs, decode, outcome);
  }
}
