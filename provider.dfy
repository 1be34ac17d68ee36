/** helper/provider.tsx: the auth context (login page and API base URL) and
    the session query `shouldLogin` over the stored bearer token. */
module Provider {
  import opened Wrappers
  import opened Browser
  import opened TokenUtils

  /** The value of the auth context. */
  datatype AuthConfig = AuthConfig(loginPageUrl: string, apiBaseUrl: string)

  /** `createContext({ loginPageUrl: "", apiBaseUrl: "" })`: what a component
      reads when no `AuthProvider` is above it. */
  const DefaultAuthConfig := AuthConfig("", "")

  /** `AuthProvider`: the context value is exactly the two props. */
  function AuthProvider(loginPageUrl: string, apiBaseUrl: string): (c: AuthConfig)
    ensures c.loginPageUrl == loginPageUrl && c.apiBaseUrl == apiBaseUrl
  {
    AuthConfig(loginPageUrl, apiBaseUrl)
  }

  /** `shouldLogin` over a token read from somewhere: login is needed unless a
      non-empty token is present and not expired. */
  function ShouldLogin(token: Option<string>, nowMs: int, decode: Decoder): (r: bool)
    ensures !r <==> token.Some? && token.value != "" &&
                    ValidAt(token.value, nowMs, decode)
    ensures !r <==> HasValidToken(token, nowMs, decode)
  {
    if token.Some? && token.value != "" then
      if !IsTokenExpired(token.value, nowMs, decode) then false else true
    else true
  }

  /** `useAuthSession().shouldLogin` as helper/provider.tsx computes it, from
      the bearer slot of localStorage. */
  function ShouldLoginFromStore(store: WebStorage, nowMs: int, decode: Decoder): (r: bool)
    reads store
    ensures GetBToken(store).None? ==> r
    ensures GetBToken(store).Some? && IsTokenExpired(GetBToken(store).value, nowMs, decode) ==> r
    ensures !r <==> "Authorization" in GetHeaders(GetBToken(store), nowMs, decode)
  {
    ShouldLogin(GetBToken(store), nowMs, decode)
  }
}
