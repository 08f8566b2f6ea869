/** The request guards of the backend middleware: `auth`, `optionalAuth`,
    `adminAuth` and `moderatorAuth`. Signature checking of the JSON Web Token
    is an oracle `verify` from a token to the user id it carries (None when
    `jwt.verify` throws); the users collection is a map. */
module Auth {
  import opened Common
  import opened Users

  /** The outcome of a guard: the request goes on with `req.user` attached,
      or it is answered with a status and message. */
  datatype Access = Granted(user: User) | Denied(status: int, message: string)

  /** An outcome the `auth` guard can produce: it refuses only with 401. */
  predicate FromAuth(a: Access) {
    a.Denied? ==> a.status == 401
  }

  const BearerPrefix: string := "Bearer "

  /** Whether `pat` occurs somewhere in `s`. */
  predicate Contains(s: string, pat: string)
    decreases |s|
  {
    |pat| <= |s| && (s[..|pat|] == pat || (|s| > 0 && Contains(s[1..], pat)))
  }

  /** JavaScript `s.replace(pat, rep)` with a string pattern: only the first
      occurrence is replaced, wherever it is. */
  function ReplaceFirst(s: string, pat: string, rep: string): (r: string)
    decreases |s|
  {
    if |s| < |pat| then s
    else if s[..|pat|] == pat then rep + s[|pat|..]
    else [s[0]] + ReplaceFirst(s[1..], pat, rep)
  }

  lemma {:induction false} ReplaceFirstAbsent(s: string, pat: string, rep: string)
    requires !Contains(s, pat)
    ensures ReplaceFirst(s, pat, rep) == s
    decreases |s|
  {
    if |s| >= |pat| && s[..|pat|] != pat {
      ReplaceFirstAbsent(s[1..], pat, rep);
    }
  }

  /** `req.header('Authorization')?.replace('Bearer ', '')`, where an empty
      result is as falsy as a missing header. */
  function ExtractToken(header: Option<string>): (t: Option<string>)
    ensures header.None? ==> t.None?
    ensures t.Some? ==> t.value != ""
  {
    if header.None? then None
    else
      var t := ReplaceFirst(header.value, BearerPrefix, "");
      if t == "" then None else Some(t)
  }

  /** A well-formed `Bearer <token>` header yields exactly the token. */
  lemma BearerToken(t: string)
    ensures ExtractToken(Some(BearerPrefix + t)) == if t == "" then None else Some(t)
  {
    assert (BearerPrefix + t)[..|BearerPrefix|] == BearerPrefix;
    assert (BearerPrefix + t)[|BearerPrefix|..] == t;
    assert ReplaceFirst(BearerPrefix + t, BearerPrefix, "") == t;
  }

  /** A header that never mentions `Bearer ` is taken whole as the token. */
  lemma HeaderWithoutPrefix(h: string)
    requires h != "" && !Contains(h, BearerPrefix)
    ensures ExtractToken(Some(h)) == Some(h)
  {
    ReplaceFirstAbsent(h, BearerPrefix, "");
  }

  /** The user a token resolves to: verification succeeds and the id it
      carries names an existing user. */
  function Resolve(token: string, verify: string -> Option<Id>, accounts: map<Id, User>): Option<User> {
    var decoded := verify(token);
    if decoded.Some? && decoded.value in accounts then Some(accounts[decoded.value]) else None
  }

  /** The `auth` guard. */
  function Authenticate(header: Option<string>, verify: string -> Option<Id>, accounts: map<Id, User>): (a: Access)
    ensures ExtractToken(header).None? ==> a == Denied(401, "No token, authorization denied")
    ensures a.Denied? ==> a.status == 401
    ensures FromAuth(a)
    ensures a.Granted? <==> ExtractToken(header).Some? && Resolve(ExtractToken(header).value, verify, accounts).Some?
    ensures a.Granted? ==> a.user in accounts.Values
    ensures a.Granted? ==> Resolve(ExtractToken(header).value, verify, accounts) == Some(a.user)
    ensures a.Granted? && Keyed(accounts) ==> a.user.id == verify(ExtractToken(header).value).value
  {
    var token := ExtractToken(header);
    if token.None? then Denied(401, "No token, authorization denied")
    else
      var user := Resolve(token.value, verify, accounts);
      if user.None? then Denied(401, "Token is not valid") else Granted(user.value)
  }

  /** The `optionalAuth` guard: the request always goes on, with the user
      attached when one resolves. */
  function OptionalAuthenticate(header: Option<string>, verify: string -> Option<Id>, accounts: map<Id, User>): (viewer: Option<User>)
    ensures viewer.Some? ==> viewer.value in accounts.Values
    ensures viewer.Some? ==> ExtractToken(header).Some? && Resolve(ExtractToken(header).value, verify, accounts) == viewer
  {
    var token := ExtractToken(header);
    if token.None? then None else Resolve(token.value, verify, accounts)
  }

  /** The optional guard attaches a user exactly when the required one would
      have let the request through, and the same user. */
  lemma OptionalAgreesWithRequired(header: Option<string>, verify: string -> Option<Id>, accounts: map<Id, User>)
    ensures var a := Authenticate(header, verify, accounts);
      OptionalAuthenticate(header, verify, accounts) == if a.Granted? then Some(a.user) else None
  {
  }

  /** The role check of `adminAuth` applied to the outcome of `auth`. A
      refusal by `auth` is what the client sees. */
  function AdminGate(a: Access): (r: Access)
    ensures r.Granted? <==> a.Granted? && a.user.role == Admin
    ensures a.Granted? && a.user.role != Admin ==> r == Denied(403, "Access denied. Admin only.")
    ensures a.Denied? ==> r == a
    ensures r.Granted? ==> r == a
  {
    if a.Denied? then a
    else if a.user.role != Admin then Denied(403, "Access denied. Admin only.")
    else a
  }

  /** The role check of `moderatorAuth` applied to the outcome of `auth`. */
  function ModeratorGate(a: Access): (r: Access)
    ensures r.Granted? <==> a.Granted? && a.user.role in {Admin, Moderator}
    ensures a.Granted? && a.user.role == Member ==> r == Denied(403, "Access denied. Moderator or admin only.")
    ensures a.Denied? ==> r == a
    ensures r.Granted? ==> r == a
  {
    if a.Denied? then a
    else if a.user.role !in {Admin, Moderator} then Denied(403, "Access denied. Moderator or admin only.")
    else a
  }

  /** The `adminAuth` middleware: `auth`, then the admin role check. */
  function AdminAuth(header: Option<string>, verify: string -> Option<Id>, accounts: map<Id, User>): (r: Access)
    ensures r.Granted? <==> (
      var a := Authenticate(header, verify, accounts);
      a.Granted? && a.user.role == Admin)
    ensures r.Granted? ==> Resolve(ExtractToken(header).value, verify, accounts) == Some(r.user)
    ensures r.Denied? ==> r.status == 401 || r == Denied(403, "Access denied. Admin only.")
  {
    AdminGate(Authenticate(header, verify, accounts))
  }

  /** The `moderatorAuth` middleware: `auth`, then the moderator-or-admin
      role check. */
  function ModeratorAuth(header: Option<string>, verify: string -> Option<Id>, accounts: map<Id, User>): (r: Access)
    ensures r.Granted? <==> (
      var a := Authenticate(header, verify, accounts);
      a.Granted? && a.user.role in {Admin, Moderator})
    ensures r.Granted? ==> Resolve(ExtractToken(header).value, verify, accounts) == Some(r.user)
    ensures r.Denied? ==> r.status == 401 || r == Denied(403, "Access denied. Moderator or admin only.")
  {
    ModeratorGate(Authenticate(header, verify, accounts))
  }

  /** Whoever passes the admin guard passes the moderator guard, and both
      let through only users that `auth` resolves. */
  lemma GatesNarrowAuth(header: Option<string>, verify: string -> Option<Id>, accounts: map<Id, User>)
    ensures AdminAuth(header, verify, accounts).Granted? ==> ModeratorAuth(header, verify, accounts).Granted?
    ensures ModeratorAuth(header, verify, accounts).Granted? ==> Authenticate(header, verify, accounts).Granted?
    ensures Authenticate(header, verify, accounts).Denied? ==>
      AdminAuth(header, verify, accounts).status == 401 && ModeratorAuth(header, verify, accounts).status == 401
  {
  }
}
