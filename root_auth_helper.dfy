/** AuthHelper.tsx, the older single-file variant of the helper: the bearer
    token travels in the page URL as `b_token` instead of localStorage, the
    expiry check signals a malformed token by throwing, and the hooks send the
    Authorization header unconditionally. */
module RootAuthHelper {
  import opened Wrappers
  import opened Text
  import opened Json
  import opened Http
  import opened Browser
  import opened Uri
  import Query
  import TokenUtils
  import Provider
  import LoginHelper
  import opened ApiRequestsBase

  const PopupWidth := 500
  const PopupHeight := 600

  /** The marker this variant asks the login page to hand back. */
  const TokenType := "b_token"

  /** `openLogin`: one `_blank` popup of 500 by 600 on the login URL, which
      asks for a `b_token`. */
  function OpenLogin(loginPageUrl: string, origin: string): (p: Popup)
    ensures p.width == 500 && p.height == 600 && p.target == "_blank"
    ensures p.url == loginPageUrl + "?redirectUrl=" + EncodeURIComponent(origin) + "&tokenType=b_token"
  {
    Popup(LoginHelper.LoginUrl(loginPageUrl, origin, TokenType), "_blank", PopupWidth, PopupHeight)
  }

  /** The popup's URL hands the login page the encoded origin and the
      `b_token` marker. */
  lemma OpenLoginQuery(loginPageUrl: string, origin: string)
    requires '?' !in loginPageUrl && '#' !in loginPageUrl
    ensures var search := Query.SearchOf(OpenLogin(loginPageUrl, origin).url);
      Query.Get(search, "redirectUrl") == Some(EncodeURIComponent(origin)) &&
      Query.Get(search, "tokenType") == Some("b_token")
  {
    LoginHelper.LoginUrlQuery(loginPageUrl, origin, TokenType);
  }

  /** The two login popups differ: this one is shorter and asks for a
      different token type. */
  lemma LoginPopupsDiffer(loginPageUrl: string, origin: string)
    ensures OpenLogin(loginPageUrl, origin).height != LoginHelper.OpenLogin(loginPageUrl, origin).height
    ensures OpenLogin(loginPageUrl, origin).url != LoginHelper.OpenLogin(loginPageUrl, origin).url
  {
    assert |OpenLogin(loginPageUrl, origin).url| + 5 == |LoginHelper.OpenLogin(loginPageUrl, origin).url|;
  }

  /** `getBToken`: the `b_token` parameter of the page's query string, the
      first one when several are given. */
  function GetBToken(search: string): (r: Option<string>)
    ensures r.None? <==> forall i :: 0 <= i < |Query.Pairs(search)| ==> Query.Pairs(search)[i].0 != "b_token"
    ensures r.Some? ==>
      exists i :: 0 <= i < |Query.Pairs(search)| &&
                  Query.Pairs(search)[i] == ("b_token", r.value) &&
                  forall j :: 0 <= j < i ==> Query.Pairs(search)[j].0 != "b_token"
  {
    Query.Get(search, "b_token")
  }

  /** How the `try` block of `isTokenExpired` ends: by throwing, or by
      returning a verdict. */
  datatype Attempt = Threw | Returned(expired: bool)

  /** The `try` block: a token that is not three segments throws "Invalid
      token", and so does a payload that cannot be decoded; a payload without
      (truthy) `exp` returns true; otherwise the verdict is whether the current
      second is past `exp`. */
  function TryIsTokenExpired(token: string, nowMs: int, decode: TokenUtils.Decoder): (a: Attempt)
    ensures a.Threw? <==>
      |Split(token, '.')| != 3 || decode(Split(token, '.')[1]).None?
    ensures a.Returned? && !a.expired ==> TokenUtils.ValidAt(token, nowMs, decode)
  {
    var parts := Split(token, '.');
    if |parts| != 3 then Threw
    else
      match decode(parts[1])
      case None => Threw
      case Some(exp) =>
        if exp.None? || exp.value == 0 then Returned(true)
        else
          assert TokenUtils.ClaimsExpiry(token, decode, exp.value);
          Returned(nowMs / 1000 > exp.value)
  }

  /** `isTokenExpired`: whatever was thrown counts as expired. The verdict is
      the same as that of helper/utils.ts, which returns instead of throwing. */
  function IsTokenExpired(token: string, nowMs: int, decode: TokenUtils.Decoder): (expired: bool)
    ensures expired == TokenUtils.IsTokenExpired(token, nowMs, decode)
    ensures !expired <==> TokenUtils.ValidAt(token, nowMs, decode)
  {
    match TryIsTokenExpired(token, nowMs, decode)
    case Threw => true
    case Returned(b) => b
  }

  /** `useAuthSession().shouldLogin` over the page's query string: login is
      needed unless a non-empty `b_token` is present and not expired. */
  function ShouldLogin(search: string, nowMs: int, decode: TokenUtils.Decoder): (r: bool)
    ensures !r <==> GetBToken(search).Some? && GetBToken(search).value != "" &&
                    TokenUtils.ValidAt(GetBToken(search).value, nowMs, decode)
    ensures r == Provider.ShouldLogin(GetBToken(search), nowMs, decode)
  {
    var token := GetBToken(search);
    if token.Some? && token.value != "" then
      if !IsTokenExpired(token.value, nowMs, decode) then false else true
    else true
  }

  /** The headers both hooks send: `Authorization: Bearer ${token}` always,
      so a missing token goes out as "Bearer null". */
  function BearerHeaders(token: Option<string>): (h: Headers)
    ensures h.Keys == {"Authorization", "Content-Type"}
    ensures h["Content-Type"] == "application/json"
    ensures token.Some? ==> h["Authorization"] == "Bearer " + token.value
    ensures token.None? ==> h["Authorization"] == "Bearer null"
  {
    map["Authorization" := "Bearer " + (if token.Some? then token.value else "null"),
        "Content-Type" := "application/json"]
  }

  /** The login button's click: an empty `loginPageUrl` only alerts the
      developer; otherwise the login popup opens. Nothing is stored. */
  method LoginButtonClick(w: Window, loginPageUrl: string)
    modifies w
    ensures loginPageUrl == "" ==>
      w.effects == old(w.effects) + [Alert("Dev:Provide loginPageUrl in Auth Context")]
    ensures loginPageUrl != "" ==>
      w.effects == old(w.effects) + [OpenWindow(OpenLogin(loginPageUrl, w.origin))]
    ensures w.sessionStorage.items == old(w.sessionStorage.items)
  {
    if loginPageUrl == "" {
      w.Alert("Dev:Provide loginPageUrl in Auth Context");
      return;
    }
    w.Open(OpenLogin(loginPageUrl, w.origin));
  }

  /** `useGet` of this variant: `data` starts as null, `loading` as true. */
  class GetHook {
    const apiBaseUrl: string
    const path: string
    const options: FetchOptions
    var data: Option<Json>
    var loading: bool
    var error: Option<string>
    var sent: seq<Request>
    ghost var loadingTrace: seq<bool>

    constructor (apiBaseUrl: string, path: string, options: FetchOptions)
      ensures this.apiBaseUrl == apiBaseUrl && this.path == path && this.options == options
      ensures data == Some(JNull) && loading && error == None
      ensures sent == [] && loadingTrace == []
    {
      this.apiBaseUrl := apiBaseUrl;
      this.path := path;
      this.options := options;
      data := Some(JNull);
      loading := true;
      error := None;
      sent := [];
      loadingTrace := [];
    }

    /** `fetchData` in page `w` when fetch yields `outcome`: as in the helper's
      `useGet`, except that the token is the page's `b_token` and is sent
      whether or not there is one. */
    method FetchData(w: Window, outcome: Outcome)
      modifies this
      ensures sent == old(sent) + [GetRequest(apiBaseUrl, path, options, BearerHeaders(GetBToken(w.search)))]
      ensures loadingTrace == old(loadingTrace) + [true] + [false] && !loading
      ensures BodyForbidden(options) ==>
        data == old(data) && error == Some(BodyForbiddenMessage)
      ensures !BodyForbidden(options) && Settle(outcome, NotOkMessage).Success? ==>
        data == DataOrUndefined(Settle(outcome, NotOkMessage).value) && error == None
      ensures !BodyForbidden(options) && Settle(outcome, NotOkMessage).Failure? ==>
        data == old(data) && error == Some(Settle(outcome, NotOkMessage).error)
    {
      var request := GetRequest(apiBaseUrl, path, options, BearerHeaders(GetBToken(w.search)));
      var settled := Settle(Fetch(request, outcome), NotOkMessage);
      loading := true;
      loadingTrace := loadingTrace + [true];
      error := None;
      sent := sent + [request];
      match settled {
        case Success(result) =>
          data := DataOrUndefined(result);
        case Failure(message) =>
          error := Some(message);
      }
      loading := false;
      loadingTrace := loadingTrace + [false];
    }
  }

  /** `useRequest` of this variant: no options, and `onSuccess` receives the
      body's `data` member (undefined when missing or null). */
  class RequestHook {
    const apiBaseUrl: string
    const path: string
    const verb: RequestMethod
    var loading: bool
    var error: Option<string>
    var sent: seq<Request>
    var successes: seq<Option<Json>>
    ghost var loadingTrace: seq<bool>

    constructor (apiBaseUrl: string, path: string, verb: RequestMethod)
      ensures this.apiBaseUrl == apiBaseUrl && this.path == path && this.verb == verb
      ensures !loading && error == None
      ensures sent == [] && successes == [] && loadingTrace == []
    {
      this.apiBaseUrl := apiBaseUrl;
      this.path := path;
      this.verb := verb;
      loading := false;
      error := None;
      sent := [];
      successes := [];
      loadingTrace := [];
    }

    /** `submit(body, onSuccess)` in page `w`. Without an `apiBaseUrl` the
      developer is alerted and nothing else changes. Otherwise the request
      goes to `apiBaseUrl + path` with the page's `b_token`. */
    method Submit(w: Window, body: Option<Json>, outcome: Outcome)
      modifies this, w
      ensures apiBaseUrl == "" ==>
        w.effects == old(w.effects) + [Alert("Dev:Provide apiBaseUrl in Auth Context")] &&
        loading == old(loading) && error == old(error) && sent == old(sent) &&
        successes == old(successes) && loadingTrace == old(loadingTrace)
      ensures apiBaseUrl != "" ==>
        w.effects == old(w.effects) &&
        sent == old(sent) + [SubmitRequest(apiBaseUrl, path, NoOptions, verb,
                                           BearerHeaders(GetBToken(w.search)), body)] &&
        loadingTrace == old(loadingTrace) + [true] + [false] && !loading
      ensures apiBaseUrl != "" && Settle(outcome, NotOkMessage).Success? ==>
        successes == old(successes) + [DataOrUndefined(Settle(outcome, NotOkMessage).value)] &&
        error == None
      ensures apiBaseUrl != "" && Settle(outcome, NotOkMessage).Failure? ==>
        successes == old(successes) && error == Some(Settle(outcome, NotOkMessage).error)
    {
      if apiBaseUrl == "" {
        w.Alert("Dev:Provide apiBaseUrl in Auth Context");
        return;
      }
      loading := true;
      loadingTrace := loadingTrace + [true];
      error := None;
      var token := GetBToken(w.search);
      sent := sent + [SubmitRequest(apiBaseUrl, path, NoOptions, verb, BearerHeaders(token), body)];
      match Settle(outcome, NotOkMessage) {
        case Success(result) =>
          successes := successes + [DataOrUndefined(result)];
        case Failure(message) =>
          error := Some(message);
      }
      loading := false;
      loadingTrace := loadingTrace + [false];
    }
  }

  /** The URL of a submit is `apiBaseUrl + path`: this variant has no query
      string. */
  lemma SubmitUrlHasNoQuery(apiBaseUrl: string, path: string, verb: RequestMethod,
                            headers: Headers, body: Option<Json>)
    ensures SubmitRequest(apiBaseUrl, path, NoOptions, verb, headers, body).url == apiBaseUrl + path
  {
  }

  /** `usePost`: a `useRequest` with method "post" on the same path. */
  method UsePost(apiBaseUrl: string, path: string) returns (h: RequestHook)
    ensures fresh(h) && h.verb == Post && h.verb.Name() == "post"
    ensures h.path == path && h.apiBaseUrl == apiBaseUrl
    ensures !h.loading && h.error == None && h.sent == [] && h.successes == []
  {
    h := new RequestHook(apiBaseUrl, path, Post);
  }

  /** `useDelete`: a `useRequest` with method "delete" on the same path. */
  method UseDelete(apiBaseUrl: string, path: string) returns (h: RequestHook)
    ensures fresh(h) && h.verb == Delete && h.verb.Name() == "delete"
    ensures h.path == path && h.apiBaseUrl == apiBaseUrl
    ensures !h.loading && h.error == None && h.sent == [] && h.successes == []
  {
    h := new RequestHook(apiBaseUrl, path, Delete);
  }

  /** `usePatch`: a `useRequest` with method "patch" on the same path. */
  method UsePatch(apiBaseUrl: string, path: string) returns (h: RequestHook)
    ensures fresh(h) && h.verb == Patch && h.verb.Name() == "patch"
    ensures h.path == path && h.apiBaseUrl == apiBaseUrl
    ensures !h.loading && h.error == None && h.sent == [] && h.successes == []
  {
    h := new RequestHook(apiBaseUrl, path, Patch);
  }
}
