/** What token storage holds: packages/oauth/src/token-state.ts. */
module TokenState {
  import opened Wrappers

  datatype TokenInfo = TokenInfo(accessToken: string, refreshToken: string, expiresAt: int,
                                 scope: string, tokenType: string, expiresIn: int)

  datatype TokenState = Valid(token: TokenInfo) | Revoked(scope: string, tokenType: string) | Missing

  function ClassifyToken(token: Option<TokenInfo>): TokenState {
    if token.None? then Missing
    else if |token.value.accessToken| == 0 then Revoked(token.value.scope, token.value.tokenType)
    else Valid(token.value)
  }

  function RevokedTombstone(prior: TokenInfo): TokenInfo {
    TokenInfo("", "", 0, prior.scope, prior.tokenType, 0)
  }

  lemma TombstoneIsRevoked(prior: TokenInfo)
    ensures ClassifyToken(Some(RevokedTombstone(prior))) == Revoked(prior.scope, prior.tokenType)
  {
  }

  // ---------- when a token is due (OAuthManager.shouldRefreshToken) ----------

  const MIN_REFRESH_THRESHOLD_SECONDS := 300.0

  /** `defaultRefreshThreshold`; half the lifetime, but at least five minutes. */
  function DefaultRefreshThreshold(expiresIn: int): real {
    var half := expiresIn as real * 0.5;
    if expiresIn > 0 && half > MIN_REFRESH_THRESHOLD_SECONDS then half else MIN_REFRESH_THRESHOLD_SECONDS
  }

  predicate ShouldRefresh(token: TokenInfo, force: bool, now: int) {
    force || (token.expiresAt != 0 && (token.expiresAt - now) as real < DefaultRefreshThreshold(token.expiresIn))
  }
}
