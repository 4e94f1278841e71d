/**
 * The bearer credential carried in the `token` cookie.  Signing, the secret
 * key and the JSON encoding are not modelled: an issued token is a value of
 * `Token`, and decoding a cookie is an abstract partial function that yields
 * the claims it carries (see the Middleware module).
 */
module Tokens {
  import opened Wrappers

  /** A freshly issued token lives for thirty minutes. */
  const TokenLifetimeMinutes: int := 30
  const SecondsPerMinute: int := 60
  const TokenLifetimeSeconds: int := TokenLifetimeMinutes * SecondsPerMinute

  /**
   * The claims a decoded cookie yields.  `None` stands for a claim absent
   * from the payload (or one, such as `null` or a number, on which the
   * guard's membership test raises); a present `permissions` claim is a list.
   */
  datatype Payload = Payload(id: Option<string>, permissions: Option<seq<string>>)

  /**
   * A token minted by the profile resource: the user's id, the permission
   * names of the user's ledger, and the expiry instant in seconds.
   */
  datatype Token = Token(id: string, permissions: seq<string>, exp: int)

  /** What decoding an unexpired, correctly signed token yields. */
  function ClaimsOf(t: Token): Payload
  {
    Payload(Some(t.id), Some(t.permissions))
  }
}
