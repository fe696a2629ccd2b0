/**
 * authenticateToken: the Express middleware that reads the Authorization
 * header, answers 401 or 403, or fills in `req.user` and calls `next()`.
 * `jwt.verify` (signature and expiry) is an abstract partial function.
 */
module TokenGate {
  import opened Wrappers
  import opened Js
  import opened Codes

  /** The claims the verifier returns. */
  datatype Payload = Payload(id: string, name: string, email: string, createdAt: Option<string>, updatedAt: Option<string>)

  /** A timestamp of `req.user`: `new Date(text)` of a payload claim, or `new Date()` at the clock's reading. */
  datatype Moment = FromPayload(text: string) | ClockNow(now: int)

  datatype AuthUser = AuthUser(id: string, name: string, email: string, createdAt: Moment, updatedAt: Moment)

  /** The three outcomes of one request. */
  datatype Decision = Unauthorized | Forbidden | Proceed(user: AuthUser)

  /** `authHeader && authHeader.split(' ')[1]`: an absent or empty header is returned as it is. */
  function ExtractToken(header: Option<string>): Option<string> {
    match header
    case None => None
    case Some(h) =>
      if h == "" then Some("")
      else
        var words := Split(h, ' ');
        if |words| >= 2 then Some(words[1]) else None
  }

  /** `t` is the run of non-spaces right after the first space of `h`. */
  ghost predicate SecondWord(h: string, t: string) {
    exists i :: 0 <= i < |h| && h[i] == ' ' && ' ' !in h[..i] && WordStart(h[i + 1..], t)
  }

  /** `t` is the longest space-free prefix of `rest`. */
  ghost predicate WordStart(rest: string, t: string) {
    |t| <= |rest| && t == rest[..|t|] && ' ' !in t && (|t| == |rest| || rest[|t|] == ' ')
  }

  /** A non-empty header yields its second space-separated word, and yields nothing exactly when it holds no space. */
  lemma ExtractTokenIsSecondWord(h: string)
    requires h != ""
    ensures ExtractToken(Some(h)).None? <==> ' ' !in h
    ensures ExtractToken(Some(h)).Some? ==> SecondWord(h, ExtractToken(Some(h)).value)
  {
    var p := Split(h, ' ');
    SplitFirst(h, ' ');
    if |p| >= 2 {
      var i := |p[0]|;
      var rest := h[i + 1..];
      SplitFirst(rest, ' ');
      assert p[1] == Split(rest, ' ')[0];
      assert h[..i] == p[0];
      assert WordStart(rest, p[1]);
      assert h[i] in h;
    } else {
      assert h == p[0];
    }
  }

  /** The scheme word is never looked at: any space-free first word gives the same token. */
  lemma SchemeNotChecked(scheme: string, other: string, rest: string)
    requires ' ' !in scheme && ' ' !in other
    ensures ExtractToken(Some(scheme + " " + rest)) == ExtractToken(Some(other + " " + rest))
    ensures ExtractToken(Some(scheme + " " + rest)) == Some(Split(rest, ' ')[0])
  {
    SplitAt(scheme, rest, ' ');
    SplitAt(other, rest, ' ');
  }

  /** A header of the form "Bearer <token>" with a space-free token yields that token. */
  lemma BearerHeader(token: string)
    requires ' ' !in token
    ensures ExtractToken(Some("Bearer " + token)) == Some(token)
  {
    assert "Bearer " + token == "Bearer" + " " + token;
    SchemeNotChecked("Bearer", "Bearer", token);
    SplitFree(token, ' ');
  }

  /** `!token || token.trim() === ''`. */
  predicate MissingToken(token: Option<string>) {
    token.None? || Trim(token.value) == ""
  }

  /** A missing header, a header without a space, and an empty or blank second word all count as no token. */
  lemma NoTokenCases(header: Option<string>)
    ensures header.None? ==> MissingToken(ExtractToken(header))
    ensures header.Some? && ' ' !in header.value ==> MissingToken(ExtractToken(header))
    ensures ExtractToken(header).Some? && AllWhitespace(ExtractToken(header).value) ==> MissingToken(ExtractToken(header))
  {
    if header.Some? && header.value != "" {
      ExtractTokenIsSecondWord(header.value);
    }
    if header.Some? && header.value == "" {
      TrimEmptyIffBlank("");
    }
    if ExtractToken(header).Some? {
      TrimEmptyIffBlank(ExtractToken(header).value);
    }
  }

  /** `decoded.x ? new Date(decoded.x) : new Date()`. */
  function StampOf(claim: Option<string>, now: int): (m: Moment)
    ensures Truthy(claim) ==> m == FromPayload(claim.value)
    ensures !Truthy(claim) ==> m == ClockNow(now)
  {
    if Truthy(claim) then FromPayload(claim.value) else ClockNow(now)
  }

  /** The `req.user` record built from a verified payload. */
  function UserOf(p: Payload, now: int): (u: AuthUser)
    ensures u.id == p.id && u.name == p.name && u.email == p.email
    ensures u.createdAt == StampOf(p.createdAt, now) && u.updatedAt == StampOf(p.updatedAt, now)
  {
    AuthUser(p.id, p.name, p.email, StampOf(p.createdAt, now), StampOf(p.updatedAt, now))
  }

  /** The middleware's decision for one request. */
  function Decide(header: Option<string>, verify: string -> Option<Payload>, now: int): (d: Decision)
    ensures d.Unauthorized? <==> MissingToken(ExtractToken(header))
    ensures d.Forbidden? <==> !MissingToken(ExtractToken(header)) && verify(ExtractToken(header).value).None?
    ensures d.Proceed? <==> !MissingToken(ExtractToken(header)) && verify(ExtractToken(header).value).Some?
    ensures d.Proceed? ==> d.user == UserOf(verify(ExtractToken(header).value).value, now)
  {
    var token := ExtractToken(header);
    if MissingToken(token) then Unauthorized
    else match verify(token.value)
      case None => Forbidden
      case Some(p) => Proceed(UserOf(p, now))
  }

  /** The request/response pair as the middleware touches it. */
  class Exchange {
    var user: Option<AuthUser>
    var status: Option<int>
    var body: Option<(string, Code)>
    var nextCalls: nat

    /** A request that nothing has answered yet. */
    constructor ()
      ensures user == None && status == None && body == None && nextCalls == 0
    {
      user := None;
      status := None;
      body := None;
      nextCalls := 0;
    }

    /**
     * Runs the middleware: exactly one of a 401 answer, a 403 answer, or
     * `req.user` set and `next()` called once.
     */
    method AuthenticateToken(header: Option<string>, verify: string -> Option<Payload>, now: int) returns (d: Decision)
      modifies this
      ensures d == Decide(header, verify, now)
      ensures d.Unauthorized? ==>
        status == Some(401) && body == Some(("Access token required - please login", Codes.NoToken))
        && user == old(user) && nextCalls == old(nextCalls)
      ensures d.Forbidden? ==>
        status == Some(403) && body == Some(("Invalid or expired token - please login again", Codes.InvalidToken))
        && user == old(user) && nextCalls == old(nextCalls)
      ensures d.Proceed? ==>
        user == Some(d.user) && nextCalls == old(nextCalls) + 1 && status == old(status) && body == old(body)
    {
      var authHeader := header;
      var token := ExtractToken(authHeader);
      if token.None? || Trim(token.value) == "" {
        status := Some(401);
        body := Some(("Access token required - please login", Codes.NoToken));
        return Unauthorized;
      }
      var decoded := verify(token.value);
      if decoded.None? {
        status := Some(403);
        body := Some(("Invalid or expired token - please login again", Codes.InvalidToken));
        return Forbidden;
      }
      var p := decoded.value;
      var createdAt := if Truthy(p.createdAt) then FromPayload(p.createdAt.value) else ClockNow(now);
      var updatedAt := if Truthy(p.updatedAt) then FromPayload(p.updatedAt.value) else ClockNow(now);
      user := Some(AuthUser(p.id, p.name, p.email, createdAt, updatedAt));
      nextCalls := nextCalls + 1;
      d := Proceed(user.value);
    }
  }
}
