/**
 * The authentication middleware of the REST API: bearer-token extraction, `authenticate`
 * (401 unless the token verifies and names an existing user), `authorize(...roles)` (401 / 403)
 * and `optionalAuth` (never answers, always continues). Token verification and the user lookup
 * are oracles passed in by the caller.
 */
module AuthMiddleware {
  import opened Wrappers
  import opened Store
  import Strings

  const BearerPrefix := "Bearer "

  /** The header with exactly the prefix "Bearer " yields the rest of it; any other header none. */
  function ExtractToken(header: Option<string>): (token: Option<string>)
    ensures token.Some? <==> header.Some? && Strings.StartsWith(header.value, BearerPrefix)
    ensures token.Some? ==> header.value == BearerPrefix + token.value
  {
    if header.Some? && Strings.StartsWith(header.value, BearerPrefix) then Some(header.value[7..]) else None
  }

  /** The header the frontend's request interceptor sends for a stored token. */
  function BearerHeader(token: string): (header: string)
    ensures Strings.StartsWith(header, BearerPrefix) && |header| == |token| + 7
  {
    BearerPrefix + token
  }

  /** Every token the frontend sends parses back to itself. */
  lemma BearerRoundTrip(token: string)
    ensures ExtractToken(Some(BearerHeader(token))) == Some(token)
  {
    assert BearerHeader(token)[7..] == token;
  }

  /** A header parses to a token exactly when it is the header built from that token. */
  lemma ExtractTokenInverse(header: string, token: string)
    ensures ExtractToken(Some(header)) == Some(token) <==> header == BearerHeader(token)
  {
    if header == BearerHeader(token) {
      BearerRoundTrip(token);
    }
  }

  /** Any header that does not start with exactly "Bearer " yields no token. */
  lemma OtherSchemesRejected(header: string)
    requires !Strings.StartsWith(header, BearerPrefix)
    ensures ExtractToken(Some(header)) == None
  {
  }

  /** Examples: the prefix is matched exactly, so another case or a missing space gives no token. */
  lemma OtherSchemesExamples()
    ensures ExtractToken(Some("bearer abc")) == None
    ensures ExtractToken(Some("Bearer")) == None
    ensures ExtractToken(None) == None
  {
    assert "bearer abc"[0] != "Bearer "[0];
  }

  /** A token that JavaScript treats as true: present and not the empty string. */
  predicate Usable(token: Option<string>) {
    token.Some? && token.value != ""
  }

  /** The outcome of a middleware: continue with a user, or answer with a status and message. */
  datatype Verdict = Proceed(user: User) | Deny(status: int, message: string)

  /**
   * The `authenticate` decision. `verified` is the user id the token verifies to (None: the
   * verification throws); `lookupThrows` makes the user lookup throw.
   */
  function AuthenticateVerdict(token: Option<string>, verified: Option<UserId>, users: map<UserId, User>,
                               lookupThrows: bool): (v: Verdict)
    ensures v.Proceed? <==> Usable(token) && verified.Some? && !lookupThrows && verified.value in users
    ensures v.Proceed? ==> v.user == users[verified.value]
    ensures !Usable(token) ==> v == Deny(401, "Access token required")
    ensures Usable(token) && (verified.None? || lookupThrows) ==> v == Deny(401, "Invalid token")
    ensures Usable(token) && verified.Some? && !lookupThrows && verified.value !in users
      ==> v == Deny(401, "User not found")
  {
    if !Usable(token) then Deny(401, "Access token required")
    else if verified.None? || lookupThrows then Deny(401, "Invalid token")
    else if verified.value !in users then Deny(401, "User not found")
    else Proceed(users[verified.value])
  }

  /** Every refusal of `authenticate` is a 401: it never answers 403 or lets a request through. */
  lemma AuthenticateDeniesWith401(token: Option<string>, verified: Option<UserId>, users: map<UserId, User>, lookupThrows: bool)
    ensures AuthenticateVerdict(token, verified, users, lookupThrows).Deny? ==>
      AuthenticateVerdict(token, verified, users, lookupThrows).status == 401
  {
  }

  /** The `authorize(...roles)` decision on the user `authenticate` left on the request. */
  function AuthorizeVerdict(user: Option<User>, roles: seq<string>): (v: Verdict)
    ensures v.Proceed? <==> user.Some? && user.value.role in roles
    ensures v.Proceed? ==> v.user == user.value
    ensures user.None? ==> v == Deny(401, "Authentication required")
    ensures user.Some? && user.value.role !in roles ==> v == Deny(403, "Insufficient permissions")
  {
    if user.None? then Deny(401, "Authentication required")
    else if user.value.role !in roles then Deny(403, "Insufficient permissions")
    else Proceed(user.value)
  }

  /** `authorize()` with no roles lets nobody through. */
  lemma EmptyRolesRejectAll(user: Option<User>)
    ensures AuthorizeVerdict(user, []).Deny?
  {
  }

  /** Authenticating and then authorizing passes exactly the verified users whose role is listed. */
  lemma AuthenticateThenAuthorize(token: Option<string>, verified: Option<UserId>, users: map<UserId, User>,
                                  lookupThrows: bool, roles: seq<string>)
    requires AuthenticateVerdict(token, verified, users, lookupThrows).Proceed?
    ensures AuthorizeVerdict(Some(AuthenticateVerdict(token, verified, users, lookupThrows).user), roles).Proceed?
      <==> users[verified.value].role in roles
  {
  }

  /** The user `optionalAuth` attaches: the verified, existing user, and otherwise none. */
  function OptionalUser(token: Option<string>, verified: Option<UserId>, users: map<UserId, User>,
                        lookupThrows: bool): (u: Option<User>)
    ensures u.Some? <==> AuthenticateVerdict(token, verified, users, lookupThrows).Proceed?
    ensures u.Some? ==> u.value == users[verified.value]
  {
    if Usable(token) && verified.Some? && !lookupThrows && verified.value in users then Some(users[verified.value])
    else None
  }

  datatype Answer = Answer(status: int, message: string)

  /** One request/response exchange as the middleware chain sees it. */
  class Exchange {
    /** `req.user`. */
    var user: Option<User>
    /** The response written so far (None while nothing has been sent). */
    var answer: Option<Answer>
    /** How many times `next()` has been called. */
    var nextCalls: nat

    constructor ()
      ensures user == None && answer == None && nextCalls == 0
    {
      user := None;
      answer := None;
      nextCalls := 0;
    }

    /** `authenticate`: either sets `req.user` and calls next once, or answers 401 and stops. */
    method Authenticate(header: Option<string>, verified: Option<UserId>, users: map<UserId, User>, lookupThrows: bool)
      modifies this
      ensures var v := AuthenticateVerdict(ExtractToken(header), verified, users, lookupThrows);
        if v.Proceed? then
          user == Some(v.user) && nextCalls == old(nextCalls) + 1 && answer == old(answer)
        else
          answer == Some(Answer(v.status, v.message)) && user == old(user) && nextCalls == old(nextCalls)
    {
      var token := ExtractToken(header);
      if !Usable(token) {
        answer := Some(Answer(401, "Access token required"));
        return;
      }
      if verified.None? || lookupThrows {
        answer := Some(Answer(401, "Invalid token"));
        return;
      }
      if verified.value !in users {
        answer := Some(Answer(401, "User not found"));
        return;
      }
      user := Some(users[verified.value]);
      nextCalls := nextCalls + 1;
    }

    /** `authorize(...roles)`: answers 401 / 403 or calls next; `req.user` is left as it is. */
    method Authorize(roles: seq<string>)
      modifies this
      ensures user == old(user)
      ensures var v := AuthorizeVerdict(old(user), roles);
        if v.Proceed? then nextCalls == old(nextCalls) + 1 && answer == old(answer)
        else answer == Some(Answer(v.status, v.message)) && nextCalls == old(nextCalls)
    {
      if user.None? {
        answer := Some(Answer(401, "Authentication required"));
      } else if user.value.role !in roles {
        answer := Some(Answer(403, "Insufficient permissions"));
      } else {
        nextCalls := nextCalls + 1;
      }
    }

    /** `optionalAuth`: never answers, always calls next once, attaches a user only if one verifies. */
    method OptionalAuth(header: Option<string>, verified: Option<UserId>, users: map<UserId, User>, lookupThrows: bool)
      modifies this
      ensures answer == old(answer) && nextCalls == old(nextCalls) + 1
      ensures var u := OptionalUser(ExtractToken(header), verified, users, lookupThrows);
        user == if u.Some? then u else old(user)
    {
      var token := ExtractToken(header);
      if Usable(token) && verified.Some? && !lookupThrows && verified.value in users {
        user := Some(users[verified.value]);
      }
      nextCalls := nextCalls + 1;
    }
  }
}
