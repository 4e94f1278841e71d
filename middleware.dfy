/**
 * The `token_required` guard of helper_functions/middleware_functions.py:
 * before a protected handler runs, the `token` cookie must be present, must
 * decode, and its `permissions` claim must hold the required permission.
 * The guard is modelled as a standalone decision; how the decorator is
 * attached to the resource's handlers is not part of this model.
 */
module Middleware {
  import opened Wrappers
  import opened Tokens

  const StatusUnauthorized: int := 401
  const StatusForbidden: int := 403

  const TokenMissing: string := "Token is missing!"
  const TokenInvalid: string := "Token is invalid!"
  const AccessDenied: string := "Unauthorized access!"

  /** Either the guard answered itself, or it called the wrapped handler. */
  datatype Guarded<R> = Rejected(status: int, message: string) | Handled(result: R)

  /** A cookie that is absent or empty counts as no token at all. */
  predicate TokenAbsent(cookie: Option<string>)
  {
    cookie.None? || cookie.value == ""
  }

  /** The permissions claim of the cookie's token, when it decodes and has one. */
  function GrantedPermissions(cookie: Option<string>, decode: string -> Option<Payload>): Option<seq<string>>
  {
    if TokenAbsent(cookie) then None
    else match decode(cookie.value)
      case None => None
      case Some(payload) => payload.permissions
  }

  /**
   * The decision of `decorated_function`.  `decode` stands for the signature
   * and expiry check: it yields `None` whenever decoding raises.  A payload
   * whose `permissions` claim is absent (or `null`, or a number) makes the
   * membership test raise, which the bare `except` also turns into
   * "Token is invalid!".
   */
  function TokenRequired<R>(permission: string, cookie: Option<string>,
                            decode: string -> Option<Payload>, handler: () -> R): (g: Guarded<R>)
    ensures TokenAbsent(cookie) <==> g == Rejected(StatusUnauthorized, TokenMissing)
    ensures g == Rejected(StatusUnauthorized, TokenInvalid) <==>
      !TokenAbsent(cookie) && GrantedPermissions(cookie, decode).None?
    ensures g == Rejected(StatusForbidden, AccessDenied) <==>
      GrantedPermissions(cookie, decode).Some? && permission !in GrantedPermissions(cookie, decode).value
    ensures g.Handled? <==>
      GrantedPermissions(cookie, decode).Some? && permission in GrantedPermissions(cookie, decode).value
    ensures g.Handled? ==> g.result == handler()
    ensures g.Rejected? ==> g.status == StatusUnauthorized || g.status == StatusForbidden
  {
    if TokenAbsent(cookie) then
      Rejected(StatusUnauthorized, TokenMissing)
    else
      match decode(cookie.value)
      case None => Rejected(StatusUnauthorized, TokenInvalid)
      case Some(payload) =>
        match payload.permissions
        case None => Rejected(StatusUnauthorized, TokenInvalid)
        case Some(held) =>
          if permission !in held then Rejected(StatusForbidden, AccessDenied)
          else Handled(handler())
  }

  /**
   * Holding more permissions never makes the guard refuse a request it
   * would have let through.
   */
  lemma MorePermissionsNeverRefused<R>(permission: string, c1: Option<string>, c2: Option<string>,
                                       decode: string -> Option<Payload>, handler: () -> R)
    requires GrantedPermissions(c1, decode).Some? && GrantedPermissions(c2, decode).Some?
    requires forall p :: p in GrantedPermissions(c1, decode).value ==> p in GrantedPermissions(c2, decode).value
    ensures TokenRequired(permission, c1, decode, handler).Handled? ==>
            TokenRequired(permission, c2, decode, handler) == TokenRequired(permission, c1, decode, handler)
  {
  }
}
