/** helper/utils.ts: the two localStorage slots for the bearer and refresh
    tokens, the query-string lookups for tokens handed over in the URL, the
    fail-closed JWT expiry check, and the request headers built from the
    stored token. */
module TokenUtils {
  import opened Wrappers
  import opened Text
  import Query
  import opened Browser
  import opened Http

  const BearerTokenKey := "BearerTokenKey1"
  const RefreshTokenKey := "RefreshTokenKey1"

  /** What `localStorage.setItem(key, undefined)` stores: `String(undefined)`. */
  const UndefinedText := "undefined"

  /** `JSON.parse(atob(segment))` followed by reading `exp`: `None` when either
      call throws, `Some(None)` when the payload has no `exp`, `Some(Some(e))`
      otherwise. The decoding itself is a parameter of the model. */
  type Decoder = string -> Option<Option<int>>

  // ---------------------------------------------------------------------------
  // Tokens in the URL

  /** `getUrlBearerToken`: the `bearer_token` query value, or null. */
  function UrlBearerToken(search: string): (r: Option<string>)
    ensures r == Query.Lookup(Query.Pairs(search), "bearer_token")
    ensures r.None? <==> forall i :: 0 <= i < |Query.Pairs(search)| ==> Query.Pairs(search)[i].0 != "bearer_token"
    ensures r.Some? ==>
      exists i :: 0 <= i < |Query.Pairs(search)| &&
                  Query.Pairs(search)[i] == ("bearer_token", r.value) &&
                  forall j :: 0 <= j < i ==> Query.Pairs(search)[j].0 != "bearer_token"
  {
    Query.Get(search, "bearer_token")
  }

  /** `getUrlRefreshToken`: the `refresh_token` query value, or null. */
  function UrlRefreshToken(search: string): (r: Option<string>)
    ensures r == Query.Lookup(Query.Pairs(search), "refresh_token")
    ensures r.None? <==> forall i :: 0 <= i < |Query.Pairs(search)| ==> Query.Pairs(search)[i].0 != "refresh_token"
    ensures r.Some? ==>
      exists i :: 0 <= i < |Query.Pairs(search)| &&
                  Query.Pairs(search)[i] == ("refresh_token", r.value) &&
                  forall j :: 0 <= j < i ==> Query.Pairs(search)[j].0 != "refresh_token"
  {
    Query.Get(search, "refresh_token")
  }

  // ---------------------------------------------------------------------------
  // The two storage slots

  function StoredBToken(items: map<string, string>): Option<string> {
    Lookup(items, BearerTokenKey)
  }

  function StoredRefreshToken(items: map<string, string>): Option<string> {
    Lookup(items, RefreshTokenKey)
  }

  /** `getBToken` */
  function GetBToken(store: WebStorage): Option<string>
    reads store
  {
    StoredBToken(store.items)
  }

  /** `getRefreshToken` */
  function GetRefreshToken(store: WebStorage): Option<string>
    reads store
  {
    StoredRefreshToken(store.items)
  }

  /** `setBToken`: the bearer slot now holds `token`; the refresh slot and every
      other key are as before. */
  method SetBToken(store: WebStorage, token: string)
    modifies store
    ensures store.items == old(store.items)[BearerTokenKey := token]
    ensures GetBToken(store) == Some(token)
    ensures GetRefreshToken(store) == old(GetRefreshToken(store))
  {
    store.SetItem(BearerTokenKey, token);
  }

  /** `setRefreshToken`: the refresh slot now holds `token`; the bearer slot and
      every other key are as before. */
  method SetRefreshToken(store: WebStorage, token: string)
    modifies store
    ensures store.items == old(store.items)[RefreshTokenKey := token]
    ensures GetRefreshToken(store) == Some(token)
    ensures GetBToken(store) == old(GetBToken(store))
  {
    store.SetItem(RefreshTokenKey, token);
  }

  /** `logout`: both slots are overwritten with `undefined`, which Web Storage
      keeps as the text "undefined"; the keys are not removed and no other key
      changes. */
  method Logout(store: WebStorage)
    modifies store
    ensures store.items ==
      old(store.items)[BearerTokenKey := UndefinedText][RefreshTokenKey := UndefinedText]
    ensures GetBToken(store) == Some(UndefinedText)
    ensures GetRefreshToken(store) == Some(UndefinedText)
  {
    store.SetItem(BearerTokenKey, UndefinedText);
    store.SetItem(RefreshTokenKey, UndefinedText);
  }

  // ---------------------------------------------------------------------------
  // Expiry

  /** `isTokenExpired(token)` at wall-clock time `nowMs`: true when the token is
      not three dot-separated segments, when its payload cannot be decoded, when
      `exp` is missing (or falsy: 0), and otherwise when the current second
      `floor(nowMs / 1000)` is past `exp`. Never throws. */
  function IsTokenExpired(token: string, nowMs: int, decode: Decoder): (expired: bool)
    ensures !expired <==> ValidAt(token, nowMs, decode)
  {
    var parts := Split(token, '.');
    if |parts| != 3 then true
    else
      match decode(parts[1])
      case None => true
      case Some(exp) =>
        if exp.None? || exp.value == 0 then true
        else
          var e := exp.value;
          assert ClaimsExpiry(token, decode, e);
          assert forall e' :: ClaimsExpiry(token, decode, e') ==> e' == e;
          assert nowMs / 1000 <= e <==> nowMs < (e + 1) * 1000;
          nowMs / 1000 > e
  }

  /** The claim a token makes about its expiry, when it has one. */
  ghost predicate ClaimsExpiry(token: string, decode: Decoder, exp: int) {
    var parts := Split(token, '.');
    |parts| == 3 && decode(parts[1]) == Some(Some(exp)) && exp != 0
  }

  /** A token is usable at `nowMs` when it claims an expiry second `exp` and
      `nowMs` lies before the end of that second: a token whose `exp` is the
      current second is still valid. */
  ghost predicate ValidAt(token: string, nowMs: int, decode: Decoder) {
    exists exp :: ClaimsExpiry(token, decode, exp) && nowMs < (exp + 1) * 1000
  }

  /** The exact boundary: valid through the last millisecond of second `exp`,
      expired from the first millisecond after it. */
  lemma ExpiryBoundary(token: string, decode: Decoder, exp: int)
    requires ClaimsExpiry(token, decode, exp)
    ensures !IsTokenExpired(token, exp * 1000 + 999, decode)
    ensures IsTokenExpired(token, (exp + 1) * 1000, decode)
  {
    assert !ValidAt(token, (exp + 1) * 1000, decode) by {
      forall e | ClaimsExpiry(token, decode, e) ensures e == exp { }
    }
  }

  /** Once expired, a token stays expired as time goes on. */
  lemma ExpiredStaysExpired(token: string, decode: Decoder, nowMs: int, laterMs: int)
    requires nowMs <= laterMs
    requires IsTokenExpired(token, nowMs, decode)
    ensures IsTokenExpired(token, laterMs, decode)
  {
  }

  /** A string without a dot never passes the expiry check. */
  lemma {:induction false} DotlessTokenExpired(token: string, nowMs: int, decode: Decoder)
    requires '.' !in token
    ensures IsTokenExpired(token, nowMs, decode)
  {
    SplitAfterRun(token, "", '.');
    assert token + "" == token;
  }

  // ---------------------------------------------------------------------------
  // Headers

  /** `token && !isTokenExpired(token)`: a non-empty stored token that passes the
      expiry check. */
  predicate HasValidToken(token: Option<string>, nowMs: int, decode: Decoder) {
    token.Some? && token.value != "" && !IsTokenExpired(token.value, nowMs, decode)
  }

  /** `useHeaders().getHeaders()`: always `Content-Type: application/json`;
      `Authorization: Bearer <token>` exactly when the stored token is valid;
      nothing else. */
  function GetHeaders(token: Option<string>, nowMs: int, decode: Decoder): (h: Headers)
    ensures "Content-Type" in h && h["Content-Type"] == "application/json"
    ensures "Authorization" in h <==> HasValidToken(token, nowMs, decode)
    ensures "Authorization" in h ==> h["Authorization"] == "Bearer " + token.value
    ensures h.Keys <= {"Content-Type", "Authorization"}
  {
    if token.None? || token.value == "" || IsTokenExpired(token.value, nowMs, decode) then
      map["Content-Type" := "application/json"]
    else
      map["Authorization" := "Bearer " + token.value, "Content-Type" := "application/json"]
  }

  /** After `logout` the stored bearer slot holds "undefined", which has no dot:
      no request carries it and every session check treats the user as logged
      out. */
  lemma LogoutLeavesNoValidToken(items: map<string, string>, nowMs: int, decode: Decoder)
    ensures var after := items[BearerTokenKey := UndefinedText][RefreshTokenKey := UndefinedText];
      StoredBToken(after) == Some(UndefinedText) &&
      !HasValidToken(StoredBToken(after), nowMs, decode) &&
      "Authorization" !in GetHeaders(StoredBToken(after), nowMs, decode)
  {
    DotlessTokenExpired(UndefinedText, nowMs, decode);
  }
}
