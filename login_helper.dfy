/** helper/AuthHelper.tsx: the login popup and the login button that records
    where the user was before opening it. */
module LoginHelper {
  import opened Wrappers
  import opened Text
  import Query
  import opened Uri
  import opened Browser
  import opened Provider

  const PopupWidth := 500
  const PopupHeight := 700

  /** The marker this variant asks the login page to hand back. */
  const TokenType := "bearer_token"

  /** The login URL: the login page with the current origin, percent-encoded,
      as `redirectUrl`, and the token type marker. */
  function LoginUrl(loginPageUrl: string, origin: string, tokenType: string): string
  {
    loginPageUrl + "?redirectUrl=" + EncodeURIComponent(origin) + "&tokenType=" + tokenType
  }

  /** `openLogin`: one `_blank` popup of fixed size on the login URL. */
  function OpenLogin(loginPageUrl: string, origin: string): (p: Popup)
    ensures p.width == 500 && p.height == 700 && p.target == "_blank"
    ensures p.url == LoginUrl(loginPageUrl, origin, "bearer_token")
  {
    Popup(LoginUrl(loginPageUrl, origin, TokenType), "_blank", PopupWidth, PopupHeight)
  }

  /** The query string of a login URL reads back as exactly two parameters:
      `redirectUrl`, the encoded origin, and `tokenType`, the marker (as long as
      the login page URL has no query or fragment of its own). */
  lemma LoginUrlQuery(loginPageUrl: string, origin: string, tokenType: string)
    requires '?' !in loginPageUrl && '#' !in loginPageUrl
    requires '&' !in tokenType && '#' !in tokenType
    ensures Query.Pairs(Query.SearchOf(LoginUrl(loginPageUrl, origin, tokenType))) ==
      [("redirectUrl", EncodeURIComponent(origin)), ("tokenType", tokenType)]
    ensures Query.Get(Query.SearchOf(LoginUrl(loginPageUrl, origin, tokenType)), "redirectUrl") ==
      Some(EncodeURIComponent(origin))
    ensures Query.Get(Query.SearchOf(LoginUrl(loginPageUrl, origin, tokenType)), "tokenType") ==
      Some(tokenType)
  {
    EncodedIsPlain(origin);
    var search := LoginUrlSearch(loginPageUrl, origin, tokenType);
    SerializedLoginPairs(EncodeURIComponent(origin), tokenType);
  }

  /** The two login parameters read back from their serialization. */
  lemma SerializedLoginPairs(enc: string, tokenType: string)
    requires '&' !in enc && '=' !in enc && '&' !in tokenType
    ensures var search := Query.Serialize([("redirectUrl", enc), ("tokenType", tokenType)]);
      Query.Pairs(search) == [("redirectUrl", enc), ("tokenType", tokenType)] &&
      Query.Get(search, "redirectUrl") == Some(enc) &&
      Query.Get(search, "tokenType") == Some(tokenType)
  {
    var pairs := [("redirectUrl", enc), ("tokenType", tokenType)];
    assert Query.PlainPair(pairs[0]) && Query.PlainPair(pairs[1]);
    Query.GetSerialized(pairs, "redirectUrl");
    Query.GetSerialized(pairs, "tokenType");
  }

  /** The search part of a login URL is the serialization of its two pairs. */
  lemma LoginUrlSearch(loginPageUrl: string, origin: string, tokenType: string)
    returns (search: string)
    requires '?' !in loginPageUrl && '#' !in loginPageUrl
    requires '#' !in tokenType
    ensures search == Query.SearchOf(LoginUrl(loginPageUrl, origin, tokenType))
    ensures search ==
      Query.Serialize([("redirectUrl", EncodeURIComponent(origin)), ("tokenType", tokenType)])
  {
    var enc := EncodeURIComponent(origin);
    EncodedIsPlain(origin);
    search := LoginSearch(enc, tokenType);
    ConcatAssoc(loginPageUrl, "?redirectUrl=", enc, "&tokenType=", tokenType);
    Query.SearchAfterPlainPrefix(loginPageUrl, search);
  }

  /** Regrouping the login URL as the page URL followed by its query string. */
  lemma ConcatAssoc(a: string, b: string, c: string, d: string, e: string)
    ensures a + b + c + d + e == a + (b + c + d + e)
  {
  }

  /** No encoded character can end or split a query value. */
  lemma EncodedIsPlain(s: string)
    ensures var enc := EncodeURIComponent(s); '&' !in enc && '=' !in enc && '#' !in enc
  {
    var enc := EncodeURIComponent(s);
    forall k | 0 <= k < |enc| ensures enc[k] != '&' && enc[k] != '=' && enc[k] != '#' {
      assert Unreserved(enc[k]) || enc[k] == '%';
    }
  }

  lemma LoginSearch(enc: string, tokenType: string) returns (search: string)
    requires '#' !in enc && '#' !in tokenType
    ensures search == Query.Serialize([("redirectUrl", enc), ("tokenType", tokenType)])
    ensures search == "?redirectUrl=" + enc + "&tokenType=" + tokenType
    ensures search[0] == '?' && '#' !in search
  {
    var pairs := [("redirectUrl", enc), ("tokenType", tokenType)];
    var pieces := ["redirectUrl=" + enc, "tokenType=" + tokenType];
    assert "redirectUrl" + "=" + enc == pieces[0];
    assert "tokenType" + "=" + tokenType == pieces[1];
    assert Query.Pieces(pairs) == pieces;
    assert Join(pieces[1..], '&') == pieces[1];
    assert Join(pieces, '&') == pieces[0] + ['&'] + pieces[1];
    search := Query.Serialize(pairs);
    assert '#' !in "?redirectUrl=" && '#' !in "&tokenType=";
  }

  /** The login button's click. An empty `loginPageUrl` only alerts the
      developer: nothing is stored and no popup opens. Otherwise the current
      `pathname + search` is written to session storage under the return-path
      key first, and then the login popup opens. The key's value is not part of
      the shown source, so it is a parameter here. */
  method LoginButtonClick(w: Window, config: AuthConfig, returnPathKey: string)
    modifies w, w.sessionStorage
    ensures config.loginPageUrl == "" ==>
      w.sessionStorage.items == old(w.sessionStorage.items) &&
      w.effects == old(w.effects) + [Alert("Dev:Provide loginPageUrl in Auth Context")]
    ensures config.loginPageUrl != "" ==>
      w.sessionStorage.items ==
        old(w.sessionStorage.items)[returnPathKey := w.pathname + w.search] &&
      w.effects == old(w.effects) + [
        StorageWrite(returnPathKey, w.pathname + w.search),
        OpenWindow(OpenLogin(config.loginPageUrl, w.origin))]
  {
    if config.loginPageUrl == "" {
      w.Alert("Dev:Provide loginPageUrl in Auth Context");
      return;
    }
    var currentPath := w.pathname + w.search;
    w.StoreInSession(returnPathKey, currentPath);
    w.Open(OpenLogin(config.loginPageUrl, w.origin));
  }
}
