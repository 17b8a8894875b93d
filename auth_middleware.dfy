/** The authentication and role middleware: the Bearer-header check that
    attaches the caller to the request, and the three role gates. JWT
    verification is a parameter (`verify`), since it is a foreign call. */
module AuthMiddleware {
  import opened Common
  import opened UserModel

  /** A middleware either passes the request on or answers it. */
  datatype Gate = Pass | Deny(status: int, message: string)

  /** What `protect` does: continue with `req.user` set to the stored user
      (absent when the token's id names no user), or answer 401. */
  datatype AuthOutcome = Proceed(user: Option<User>) | Reject(status: int, message: string)

  const NotLoggedIn := "未授权，请登录"
  const InvalidToken := "无效的令牌，请重新登录"
  const NotPermitted := "您没有权限执行此操作"
  const NotProvider := "您不是服务提供商，无法执行此操作"
  const NotAdmin := "您不是管理员，无法执行此操作"

  /** `authorize(...roles)`: passes exactly when the caller's role is listed,
      otherwise 403. */
  function Authorize(roles: seq<Role>, role: Role): (g: Gate)
    ensures g.Pass? <==> role in roles
    ensures g.Deny? ==> g == Deny(403, NotPermitted)
  {
    if role in roles then Pass else Deny(403, NotPermitted)
  }

  /** `verifyProvider`: providers and admins pass, otherwise 403. */
  function VerifyProvider(role: Role): (g: Gate)
    ensures g.Pass? <==> role == Provider || role == Admin
    ensures g.Deny? ==> g == Deny(403, NotProvider)
  {
    if role != Provider && role != Admin then Deny(403, NotProvider) else Pass
  }

  /** `verifyAdmin`: only admins pass, otherwise 403. */
  function VerifyAdmin(role: Role): (g: Gate)
    ensures g.Pass? <==> role == Admin
    ensures g.Deny? ==> g == Deny(403, NotAdmin)
  {
    if role != Admin then Deny(403, NotAdmin) else Pass
  }

  /** The admin gate is the stricter one, and the provider gate admits the
      same roles as `authorize('provider', 'admin')`. */
  lemma GatesNest(role: Role)
    ensures VerifyAdmin(role).Pass? ==> VerifyProvider(role).Pass?
    ensures VerifyProvider(role).Pass? == Authorize([Provider, Admin], role).Pass?
  {
  }

  /** `header.startsWith(prefix)`. */
  predicate StartsWith(s: string, prefix: string)
  {
    |prefix| <= |s| && s[..|prefix|] == prefix
  }

  /** `s.split(sep)` for a one-character separator: the pieces between the
      separators, empty pieces included. */
  function Split(s: string, sep: char): (r: seq<string>)
    ensures |r| >= 1
    ensures forall i :: 0 <= i < |r| ==> sep !in r[i]
  {
    if s == [] then [""]
    else if s[0] == sep then [""] + Split(s[1..], sep)
    else
      var rest := Split(s[1..], sep);
      [[s[0]] + rest[0]] + rest[1..]
  }

  /** A string without the separator splits into itself. */
  lemma {:induction false} SplitNoSeparator(s: string, sep: char)
    requires sep !in s
    ensures Split(s, sep) == [s]
  {
    if s != [] {
      SplitNoSeparator(s[1..], sep);
      assert [s[0]] + s[1..] == s;
    }
  }

  /** Splitting at the first separator: the piece before it comes first,
      then the pieces of the rest. */
  lemma {:induction false} SplitAtFirst(a: string, sep: char, b: string)
    requires sep !in a
    ensures Split(a + [sep] + b, sep) == [a] + Split(b, sep)
  {
    if a == [] {
      assert a + [sep] + b == [sep] + b;
      assert ([sep] + b)[1..] == b;
    } else {
      SplitAtFirst(a[1..], sep, b);
      assert (a + [sep] + b)[1..] == a[1..] + [sep] + b;
      assert [a[0]] + a[1..] == a;
    }
  }

  /** `header.split(' ')[1]`: the second space-separated word, absent when
      the header has no space. */
  function BearerToken(header: string): (t: Option<string>)
    ensures t.Some? ==> ' ' !in t.value
  {
    var words := Split(header, ' ');
    if |words| > 1 then Some(words[1]) else None
  }

  /** The header the client sends, `Bearer <token>`, yields exactly its token. */
  lemma BearerTokenOfHeader(token: string)
    requires ' ' !in token
    ensures StartsWith("Bearer " + token, "Bearer")
    ensures BearerToken("Bearer " + token) == Some(token)
  {
    assert "Bearer " + token == "Bearer" + [' '] + token;
    SplitAtFirst("Bearer", ' ', token);
    SplitNoSeparator(token, ' ');
  }

  /** A header with a second space keeps only the word between the first two. */
  lemma BearerTokenStopsAtSpace(token: string, extra: string)
    requires ' ' !in token
    ensures BearerToken("Bearer " + token + " " + extra) == Some(token)
  {
    assert "Bearer " + token + " " + extra == "Bearer" + [' '] + (token + [' '] + extra);
    SplitAtFirst("Bearer", ' ', token + [' '] + extra);
    SplitAtFirst(token, ' ', extra);
  }

  /** `protect`. A header that is missing or does not start with "Bearer" is
      answered 401 "not logged in". Otherwise the token is the header's second
      word; a missing or empty token, or one `verify` rejects, is answered 401
      "invalid token". For a missing or empty token the later "not logged in"
      `res.status(401).json` then runs on a response already sent: it throws
      `ERR_HTTP_HEADERS_SENT`, which the async middleware leaves as an
      unhandled rejection, and the client keeps the first answer. A verified
      token continues with `req.user` looked up by the id it carries. */
  method Protect(header: Option<string>, verify: string -> Option<Id>, users: map<Id, User>)
    returns (r: AuthOutcome)
    ensures !(header.Some? && StartsWith(header.value, "Bearer")) ==> r == Reject(401, NotLoggedIn)
    ensures header.Some? && StartsWith(header.value, "Bearer") ==>
              var token := BearerToken(header.value);
              if !Given(token) || verify(token.value).None? then r == Reject(401, InvalidToken)
              else r == Proceed(if verify(token.value).value in users
                                then Some(users[verify(token.value).value]) else None)
    ensures r.Reject? ==> r.status == 401
  {
    var token: Option<string> := None;
    var answered := false;
    r := Reject(401, NotLoggedIn);
    if header.Some? && StartsWith(header.value, "Bearer") {
      token := BearerToken(header.value);
      var decoded := if Given(token) then verify(token.value) else None;
      if decoded.None? {
        r := Reject(401, InvalidToken);
        answered := true;
      } else {
        r := Proceed(if decoded.value in users then Some(users[decoded.value]) else None);
      }
    }
    if !Given(token) && !answered {
      r := Reject(401, NotLoggedIn);
    }
  }
}
