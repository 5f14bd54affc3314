/** The two Express middlewares of the server: `authenticateToken`, which takes
    the second space-separated word of the `Authorization` header as the token
    and verifies it, and `requireAdmin`. Token verification (a JWT signature
    and expiry check) is a parameter `verify` returning the token's claims. */
module Gates {
  import opened Wrappers

  /** The identity a token carries: `{ id, email, role }`. */
  datatype Claims = Claims(id: string, email: string, role: string)

  /** What a middleware chain decides: continue with the caller's claims, or answer with an error. */
  datatype Gate = Pass(claims: Claims) | Reject(status: int, message: string)

  /** Index of the first space in `s`, or `|s|` when there is none. */
  function SpaceAt(s: string): (i: nat)
    ensures i <= |s|
    ensures i < |s| ==> s[i] == ' '
    ensures forall j :: 0 <= j < i ==> s[j] != ' '
  {
    if s == [] || s[0] == ' ' then 0 else 1 + SpaceAt(s[1..])
  }

  predicate NoSpace(s: string) { forall j :: 0 <= j < |s| ==> s[j] != ' ' }

  /** `s.split(' ')[1]`: the text between the first and the second space (or the end);
      `None` (JavaScript `undefined`) when `s` has no space. */
  function SecondWord(s: string): (w: Option<string>)
    ensures w.None? <==> NoSpace(s)
    ensures w.Some? ==> NoSpace(w.value)
    ensures w.Some? ==> var i := SpaceAt(s);
                        s[..i + 1] + w.value <= s &&
                        (i + 1 + |w.value| == |s| || s[i + 1 + |w.value|] == ' ')
  {
    var i := SpaceAt(s);
    if i == |s| then None
    else
      var rest := s[i + 1..];
      Some(rest[..SpaceAt(rest)])
  }

  /** `authHeader && authHeader.split(' ')[1]`, where an absent or empty result is no token. */
  function ExtractToken(header: Option<string>): (t: Option<string>)
    ensures t.Some? ==> t.value != "" && NoSpace(t.value)
    ensures header.None? || NoSpace(header.value) ==> t.None?
    ensures header.Some? && SecondWord(header.value) == Some("") ==> t.None?
  {
    if header.None? || header.value == "" then None
    else
      match SecondWord(header.value)
      case None => None
      case Some(w) => if w == "" then None else Some(w)
  }

  lemma {:induction false} SpaceAtWordHead(word: string, tail: string)
    requires NoSpace(word)
    ensures SpaceAt(word + " " + tail) == |word|
    decreases |word|
  {
    if word != [] {
      assert (word + " " + tail)[1..] == word[1..] + " " + tail;
      SpaceAtWordHead(word[1..], tail);
    }
  }

  /** `SpaceAt` stops at the end of a space-free prefix followed by a space or the end of the text. */
  lemma {:induction false} SpaceAtEnd(word: string, rest: string)
    requires NoSpace(word)
    requires rest == "" || rest[0] == ' '
    ensures SpaceAt(word + rest) == |word|
    decreases |word|
  {
    if word != [] {
      assert (word + rest)[1..] == word[1..] + rest;
      SpaceAtEnd(word[1..], rest);
    }
  }

  /** The scheme word is never checked: `<any word> <token>[ <more>]` yields exactly `<token>`. */
  lemma TokenAfterAnyScheme(scheme: string, token: string, rest: string)
    requires NoSpace(scheme) && NoSpace(token) && token != ""
    requires rest == "" || rest[0] == ' '
    ensures ExtractToken(Some(scheme + " " + token + rest)) == Some(token)
  {
    var h := scheme + " " + token + rest;
    assert h == scheme + " " + (token + rest);
    SpaceAtWordHead(scheme, token + rest);
    assert h[|scheme| + 1..] == token + rest;
    SpaceAtEnd(token, rest);
    assert (token + rest)[..|token|] == token;
  }

  /** `authenticateToken`: 401 without a token, 403 when verification fails, otherwise continue with the claims. */
  function Authenticate(header: Option<string>, verify: string -> Option<Claims>): (g: Gate)
    ensures ExtractToken(header).None? ==> g == Reject(401, "Access token required")
    ensures ExtractToken(header).Some? && verify(ExtractToken(header).value).None? ==>
              g == Reject(403, "Invalid or expired token")
    ensures g.Pass? ==> Some(g.claims) == verify(ExtractToken(header).value)
    ensures ExtractToken(header).Some? && verify(ExtractToken(header).value).Some? ==>
              g == Pass(verify(ExtractToken(header).value).value)
  {
    match ExtractToken(header)
    case None => Reject(401, "Access token required")
    case Some(token) =>
      match verify(token)
      case None => Reject(403, "Invalid or expired token")
      case Some(claims) => Pass(claims)
  }

  /** `requireAdmin`: 403 unless the claims' role is exactly "admin". */
  function RequireAdmin(claims: Claims): (g: Gate)
    ensures g.Pass? <==> claims.role == "admin"
    ensures g.Pass? ==> g.claims == claims
    ensures g.Reject? ==> g == Reject(403, "Admin access required")
  {
    if claims.role != "admin" then Reject(403, "Admin access required") else Pass(claims)
  }

  /** The chain `authenticateToken, requireAdmin` in front of the admin routes. */
  function AdminGate(header: Option<string>, verify: string -> Option<Claims>): Gate
  {
    match Authenticate(header, verify)
    case Reject(s, m) => Reject(s, m)
    case Pass(claims) => RequireAdmin(claims)
  }

  /** A bearer header whose token verifies to non-admin claims is always refused with 403. */
  lemma NonAdminTokenForbidden(token: string, verify: string -> Option<Claims>)
    requires token != "" && NoSpace(token)
    requires verify(token).Some? && verify(token).value.role != "admin"
    ensures AdminGate(Some("Bearer " + token), verify) == Reject(403, "Admin access required")
  {
    assert NoSpace("Bearer");
    TokenAfterAnyScheme("Bearer", token, "");
    assert "Bearer" + " " + token + "" == "Bearer " + token;
  }

  /** The admin chain lets a request through exactly when its token verifies to admin claims. */
  lemma AdminGatePassesOnlyAdmins(header: Option<string>, verify: string -> Option<Claims>)
    ensures AdminGate(header, verify).Pass? <==>
              ExtractToken(header).Some? && verify(ExtractToken(header).value).Some?
              && verify(ExtractToken(header).value).value.role == "admin"
  {
  }
}
