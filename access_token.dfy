/** OAuth2AccessToken: the token bundle the Fitbit API returns, and its
    freshness test. Times are whole seconds on one UTC axis; the clock
    reading DateTime.UtcNow is the parameter `now`. */
module OAuth2 {

  const MinInt32: int := -0x8000_0000
  const MaxInt32: int := 0x7FFF_FFFF

  /** A C# int. */
  type Int32 = x: int | MinInt32 <= x <= MaxInt32

  datatype OAuth2AccessToken = OAuth2AccessToken(
    token: string,
    tokenType: string,
    scope: string,
    expiresIn: Int32,
    refreshToken: string,
    userId: string)

  /** The tolerance IsFresh uses when the caller gives none. */
  const DefaultTolerance: Int32 := 600

  /** Unary minus on a C# int in an unchecked context: int.MinValue has no
      positive counterpart and negates to itself. */
  function Negate(x: Int32): (r: Int32)
    ensures x != MinInt32 ==> r == -x
    ensures x == MinInt32 ==> r == MinInt32
  {
    if x == MinInt32 then MinInt32 else -x
  }

  /** IsFresh(tokenCreationDateTime, tolerance): the token is stale once the
      moment `tolerance` seconds before its expiry lies strictly before now. */
  function IsFresh(t: OAuth2AccessToken, created: int, now: int, tolerance: Int32 := DefaultTolerance): (live: bool)
    ensures tolerance != MinInt32 ==> (live <==> now <= created + t.expiresIn - tolerance)
  {
    var expirationDate := created + t.expiresIn + Negate(tolerance);
    !(expirationDate < now)
  }

  /** The last second at which a token still counts as fresh is its
      expiry less the tolerance: the comparison is strict. */
  lemma FreshAtBoundary(t: OAuth2AccessToken, created: int, tolerance: Int32)
    requires tolerance != MinInt32
    ensures IsFresh(t, created, created + t.expiresIn - tolerance, tolerance)
    ensures !IsFresh(t, created, created + t.expiresIn - tolerance + 1, tolerance)
  {
  }

  /** With the default tolerance a token is fresh until ten minutes before
      it expires. */
  lemma DefaultToleranceIsTenMinutes(t: OAuth2AccessToken, created: int, now: int)
    ensures IsFresh(t, created, now) <==> now <= created + t.expiresIn - 600
  {
  }

  /** Fresh now means fresh at every earlier moment. */
  lemma FreshEarlier(t: OAuth2AccessToken, created: int, now: int, earlier: int, tolerance: Int32)
    requires earlier <= now
    requires IsFresh(t, created, now, tolerance)
    ensures IsFresh(t, created, earlier, tolerance)
  {
  }

  /** A larger tolerance never turns a stale token fresh (for tolerances
      whose negation does not wrap). */
  lemma StaleUnderLargerTolerance(t: OAuth2AccessToken, created: int, now: int, tol: Int32, larger: Int32)
    requires MinInt32 < tol <= larger
    requires !IsFresh(t, created, now, tol)
    ensures !IsFresh(t, created, now, larger)
  {
  }

  /** A shorter lifetime never turns a stale token fresh. */
  lemma StaleWithShorterLifetime(t: OAuth2AccessToken, created: int, now: int, tol: Int32, shorter: Int32)
    requires shorter <= t.expiresIn
    requires !IsFresh(t, created, now, tol)
    ensures !IsFresh(t.(expiresIn := shorter), created, now, tol)
  {
  }

  /** int.MinValue as tolerance wraps: instead of extending the token's life
      by 2^31 seconds it shortens it by 2^31 seconds, so the token is stale
      whenever a tolerance one larger would find it fresh at a moment more
      than 2^32 - 1 seconds before its expiry. */
  lemma MinValueToleranceWraps(t: OAuth2AccessToken, created: int)
    ensures var now := created + t.expiresIn + MinInt32 + 1;
      !IsFresh(t, created, now, MinInt32) && IsFresh(t, created, now, MinInt32 + 1)
  {
  }
}
