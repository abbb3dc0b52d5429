/** The request gates every route passes: `authenticateJWT` takes the bearer
    token from the Authorization header, verifies it and records its claims on
    the request; `authorizeRole(roles)` admits the request when the recorded
    role is one of `roles`. Token verification is a parameter. */
module AuthMiddleware {
  import opened Json
  import opened Store

  /** `s.split(sep)`: the pieces between separators, empty pieces included. */
  function Split(s: string, sep: char): (parts: seq<string>)
    ensures |parts| >= 1
    ensures forall i :: 0 <= i < |parts| ==> sep !in parts[i]
    decreases |s|
  {
    if s == [] then [""]
    else if s[0] == sep then [""] + Split(s[1..], sep)
    else
      var rest := Split(s[1..], sep);
      [[s[0]] + rest[0]] + rest[1..]
  }

  /** `parts.join(sep)`. */
  function Join(parts: seq<string>, sep: char): string
    requires |parts| >= 1
    decreases |parts|
  {
    if |parts| == 1 then parts[0] else parts[0] + [sep] + Join(parts[1..], sep)
  }

  /** Splitting loses nothing: the pieces joined back give the header. */
  lemma {:induction false} SplitJoin(s: string, sep: char)
    ensures Join(Split(s, sep), sep) == s
    decreases |s|
  {
    if s != [] {
      var rest := Split(s[1..], sep);
      SplitJoin(s[1..], sep);
      if s[0] == sep {
        assert Split(s, sep) == [""] + rest;
        assert ([""] + rest)[1..] == rest;
      } else {
        var parts := [[s[0]] + rest[0]] + rest[1..];
        assert Split(s, sep) == parts;
        if |rest| > 1 {
          assert parts[1..] == rest[1..];
          assert Join(rest, sep) == rest[0] + [sep] + Join(rest[1..], sep);
        }
        assert s == [s[0]] + s[1..];
      }
    }
  }

  lemma {:induction false} SplitWithoutSeparator(s: string, sep: char)
    requires sep !in s
    ensures Split(s, sep) == [s]
    decreases |s|
  {
    if s != [] {
      SplitWithoutSeparator(s[1..], sep);
      assert [s[0]] + s[1..] == s;
    }
  }

  lemma {:induction false} SplitAfterWord(w: string, sep: char, t: string)
    requires sep !in w
    ensures Split(w + [sep] + t, sep) == [w] + Split(t, sep)
    decreases |w|
  {
    var s := w + [sep] + t;
    if w == [] {
      assert s == [sep] + t;
      assert s[1..] == t;
    } else {
      assert s[0] == w[0];
      assert s[1..] == w[1..] + [sep] + t;
      SplitAfterWord(w[1..], sep, t);
      assert [w[0]] + w[1..] == w;
    }
  }

  /** `req.header('Authorization')?.split(' ')[1]`, where an empty piece is
      as falsy as a missing one. */
  function Token(header: Option<string>): Option<string>
  {
    if header.None? then None
    else
      var parts := Split(header.value, ' ');
      if |parts| > 1 && parts[1] != "" then Some(parts[1]) else None
  }

  /** A header `Bearer <t>` carries the token t; no header, or a header
      without a space, carries none. */
  lemma TokenOfBearer(scheme: string, t: string)
    requires ' ' !in scheme && ' ' !in t && t != ""
    ensures Token(Some(scheme + " " + t)) == Some(t)
    ensures Token(Some(scheme)) == None
    ensures Token(None) == None
  {
    SplitAfterWord(scheme, ' ', t);
    SplitWithoutSeparator(t, ' ');
    SplitWithoutSeparator(scheme, ' ');
    assert scheme + " " + t == scheme + [' '] + t;
  }

  /** The decoded token payload: the user's id and role, the role being
      whatever value the payload holds. */
  datatype Claims = Claims(uid: string, role: Value)

  /** The answer of a middleware: pass on to the next handler, or respond. */
  datatype Outcome = Next | Respond(status: int)

  /** The parts of an Express request the gates use. */
  class Request {
    var authorization: Option<string>
    var user: Option<Claims>

    constructor (authorization: Option<string>)
      ensures this.authorization == authorization && user.None?
    {
      this.authorization := authorization;
      user := None;
    }
  }

  /** `authenticateJWT`. `verify` is `jwt.verify` with the server's secret:
      the payload of a valid token, `None` for any verification error. */
  method AuthenticateJwt(req: Request, verify: string -> Option<Claims>) returns (outcome: Outcome)
    modifies req
    ensures req.authorization == old(req.authorization)
    ensures Token(req.authorization).None? ==> outcome == Respond(UNAUTHORIZED) && req.user == old(req.user)
    ensures Token(req.authorization).Some? && verify(Token(req.authorization).value).None? ==>
      outcome == Respond(FORBIDDEN) && req.user == old(req.user)
    ensures Token(req.authorization).Some? && verify(Token(req.authorization).value).Some? ==>
      outcome == Next && req.user == verify(Token(req.authorization).value)
  {
    var token := Token(req.authorization);
    if token.None? {
      return Respond(UNAUTHORIZED);
    }
    var claims := verify(token.value);
    if claims.None? {
      return Respond(FORBIDDEN);
    }
    req.user := claims;
    outcome := Next;
  }

  /** `roles.includes(role)`: strict equality, so only a string role that
      matches one of the listed names exactly, case included. */
  predicate Authorized(roles: seq<string>, role: Value)
  {
    role.Str? && role.s in roles
  }

  /** `authorizeRole(roles)`. Without recorded claims, reading the role
      throws and the framework answers 500. */
  method AuthorizeRole(roles: seq<string>, req: Request) returns (outcome: Outcome)
    ensures outcome == Next <==> req.user.Some? && Authorized(roles, req.user.value.role)
    ensures req.user.Some? && !Authorized(roles, req.user.value.role) ==> outcome == Respond(FORBIDDEN)
    ensures req.user.None? ==> outcome == Respond(SERVER_ERROR)
  {
    if req.user.None? {
      return Respond(SERVER_ERROR);
    }
    var role := req.user.value.role;
    if !(role.Str? && role.s in roles) {
      return Respond(FORBIDDEN);
    }
    outcome := Next;
  }

  /** Role names are compared exactly: 'admin' is not 'Admin'. */
  lemma RolesAreCaseSensitive()
    ensures !Authorized(["admin"], Str("Admin")) && !Authorized(["Admin"], Str("admin"))
    ensures forall r :: !Authorized(["admin"], r) || !Authorized(["Admin"], r)
  {
  }
}
