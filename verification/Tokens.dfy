/** The token value object and its staleness test (app/core/domain/token.py). */
module Tokens {
  import opened Wrappers

  // Instants and durations are integers in one unit, the millisecond.
  datatype TokenSet = TokenSet(
    accessToken: string,
    expiresAt: int,
    tokenType: string,
    refreshToken: Option<string>,
    scope: Option<string>,
    tenantId: Option<string>)

  /** The staleness test of the token managers: expired, or about to expire within the buffer. */
  predicate NearExpiry(tok: TokenSet, buffer: int, now: int) {
    tok.expiresAt <= now + buffer
  }

  predicate Empty(field: Option<string>) { field.Some? && |field.value| == 0 }

  /** Redis hashes hold no null, so an absent and an empty optional string are one and the same there. */
  function OrAbsent(field: Option<string>): Option<string> {
    if Empty(field) then None else field
  }

  /** What a token looks like after it has been through the store. */
  function Normal(tok: TokenSet): TokenSet {
    tok.(refreshToken := OrAbsent(tok.refreshToken), scope := OrAbsent(tok.scope), tenantId := OrAbsent(tok.tenantId))
  }
}
