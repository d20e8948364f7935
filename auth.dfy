/**
 * backend/middleware/authMiddleware.js: `protect` turns the Authorization
 * header into the request's user or a 401, and `authorize(roles)` lets
 * through only users whose role is listed. Token verification is a
 * parameter: `verify` gives the user id a valid token carries, or None
 * where `jwt.verify` throws.
 */
module Auth {
  import opened Wrappers
  import opened Js
  import opened Docs
  import opened Records

  /** What a middleware does with the request. */
  datatype Gate =
    | Deny(status: int, error: string)   // answers itself; the next handler is not called
    | Proceed(user: Option<Profile>)     // `req.user` is set (possibly to null) and `next()` is called
    | Throws                             // an exception escapes to Express's own error handler

  /** `req.header('Authorization')?.replace('Bearer ', '')`. */
  function Token(header: Option<string>): (t: Option<string>)
    ensures header.None? <==> t.None?
  {
    if header.None? then None else Some(ReplaceFirst(header.value, "Bearer ", ""))
  }

  /** A well-formed header yields exactly the token after the prefix. */
  lemma BearerStripped(token: string)
    ensures Token(Some("Bearer " + token)) == Some(token)
  {
    var h := "Bearer " + token;
    assert OccursAt(h, "Bearer ", 0) by {
      assert h[..|"Bearer "|] == "Bearer ";
    }
    assert forall j: nat :: j < 0 ==> !OccursAt(h, "Bearer ", j);
    assert ReplaceFirst(h, "Bearer ", "") == h[..0] + "" + h[|"Bearer "|..];
    assert h[..0] + "" + h[|"Bearer "|..] == token;
  }

  /** A header without the prefix anywhere is taken as the token itself. */
  lemma UnprefixedKept(header: string)
    requires forall j: nat :: !OccursAt(header, "Bearer ", j)
    ensures Token(Some(header)) == Some(header)
  {
  }

  /** The user `User.findById(id).select('-password')` attaches: null once the user is gone. */
  function Attached(users: seq<User>, id: Id): (p: Option<Profile>)
    ensures p.Some? <==> FindUser(users, id).Some?
    ensures p.Some? ==> p.value == WithoutPassword(FindUser(users, id).value)
  {
    match FindUser(users, id)
    case None => None
    case Some(u) => Some(WithoutPassword(u))
  }

  /** `protect`. */
  function Protect(header: Option<string>, verify: string -> Option<Id>, users: seq<User>): (g: Gate)
    ensures !TruthyText(Token(header)) ==> g == Deny(401, "Unauthorized: No token provided")
    ensures TruthyText(Token(header)) && verify(Token(header).value).None? ==> g == Deny(401, "Unauthorized: Invalid token")
    ensures TruthyText(Token(header)) && verify(Token(header).value).Some? ==>
      g == Proceed(Attached(users, verify(Token(header).value).value))
    ensures !g.Throws?
  {
    var token := Token(header);
    if !TruthyText(token) then Deny(401, "Unauthorized: No token provided")
    else match verify(token.value)
      case None => Deny(401, "Unauthorized: Invalid token")
      case Some(id) => Proceed(Attached(users, id))
  }

  /** Without a token, verification is never consulted: any verifier gives the same 401. */
  lemma NoTokenNoVerify(header: Option<string>, verify: string -> Option<Id>, other: string -> Option<Id>, users: seq<User>)
    requires !TruthyText(Token(header))
    ensures Protect(header, verify, users) == Protect(header, other, users)
    ensures Protect(header, verify, users).Deny? && Protect(header, verify, users).status == 401
  {
  }

  /**
   * `authorize(roles)`: a listed role proceeds with the same user; an unset
   * or unlisted role is 403; a null `req.user` throws on `.role`.
   */
  function Authorize(roles: seq<string>, user: Option<Profile>): (g: Gate)
    ensures user.None? ==> g == Throws
    ensures user.Some? && user.value.role.Some? && user.value.role.value in roles ==> g == Proceed(user)
    ensures user.Some? && !(user.value.role.Some? && user.value.role.value in roles) ==> g == Deny(403, "Forbidden: Access denied")
  {
    if user.None? then Throws
    else if user.value.role.Some? && user.value.role.value in roles then Proceed(user)
    else Deny(403, "Forbidden: Access denied")
  }

  /**
   * `protect, authorize(['Admin'])` in front of the admin summary and the
   * user listing: the handler runs only for a valid token whose user still
   * exists and has the role 'Admin'.
   */
  function AdminRoute(header: Option<string>, verify: string -> Option<Id>, users: seq<User>): Gate {
    match Protect(header, verify, users)
    case Proceed(user) => Authorize(["Admin"], user)
    case g => g
  }

  lemma AdminRouteNeedsAdmin(header: Option<string>, verify: string -> Option<Id>, users: seq<User>)
    ensures AdminRoute(header, verify, users).Proceed? <==>
      && TruthyText(Token(header))
      && verify(Token(header).value).Some?
      && FindUser(users, verify(Token(header).value).value).Some?
      && FindUser(users, verify(Token(header).value).value).value.role == Some("Admin")
    ensures AdminRoute(header, verify, users).Proceed? ==>
      AdminRoute(header, verify, users).user == Some(WithoutPassword(FindUser(users, verify(Token(header).value).value).value))
  {
  }
}
