/** Users and authentication (src/models/user.rs): the stored user, the
    ObjectId text that JWT subjects carry, access and refresh claims, token
    verification, and the request middleware that attaches the caller.
    RS256 signing and checking, and bcrypt, are function parameters. */
module Auth {
  import opened Base

  datatype UserDoc = UserDoc(id: ObjectId, roleId: seq<ObjectId>, name: string, email: string, password: string)

  function UserKey(u: UserDoc): ObjectId { u.id }

  /** What the middleware attaches to an authenticated request. */
  datatype AuthData = AuthData(id: ObjectId, roleId: seq<ObjectId>, token: seq<bv8>)

  /** The JWT payload: audience, expiry (seconds), issuer and subject. */
  datatype UserClaim = UserClaim(aud: string, exp: int, iss: string, sub: string)

  const AccessLifetime: int := 1800
  const RefreshLifetime: int := 259200
  const Issuer: string := "Redian"

  // ---------------------------------------------------------------- ObjectId text

  function Pow16(k: nat): nat
  {
    if k == 0 then 1 else 16 * Pow16(k - 1)
  }

  function HexDigit(d: nat): char
    requires d < 16
  {
    "0123456789abcdef"[d]
  }

  /** The value of one hexadecimal digit of either case. */
  function HexValue(c: char): Option<nat>
  {
    if '0' <= c <= '9' then Some(c as int - '0' as int)
    else if 'a' <= c <= 'f' then Some(c as int - 'a' as int + 10)
    else if 'A' <= c <= 'F' then Some(c as int - 'A' as int + 10)
    else None
  }

  /** `width` lower-case hexadecimal digits of `n`, most significant first. */
  function ToHex(n: nat, width: nat): (s: string)
    ensures |s| == width
  {
    if width == 0 then "" else ToHex(n / 16, width - 1) + [HexDigit(n % 16)]
  }

  function ParseHex(s: string): Option<nat>
  {
    if |s| == 0 then Some(0)
    else match (ParseHex(s[..|s| - 1]), HexValue(s[|s| - 1]))
      case (Some(high), Some(low)) => Some(high * 16 + low)
      case _ => None
  }

  /** `ObjectId::to_string`: twenty-four lower-case hexadecimal digits. */
  function IdText(id: ObjectId): (s: string)
    ensures |s| == 24
  {
    ToHex(id, 24)
  }

  /** `ObjectId::from_str`: exactly twenty-four hexadecimal digits of either case. */
  function ParseObjectId(s: string): Option<ObjectId>
  {
    if |s| != 24 then None
    else match ParseHex(s)
      case Some(n) => if n < ObjectIdLimit then Some(n) else None
      case None => None
  }

  lemma HexDigitValue(d: nat)
    requires d < 16
    ensures HexValue(HexDigit(d)) == Some(d)
  {
    assert "0123456789abcdef"[d] == HexDigit(d);
    if d < 10 {
      assert HexDigit(d) as int == '0' as int + d by {
        assert "0123456789"[d] == "0123456789abcdef"[d];
      }
    } else {
      assert HexDigit(d) as int == 'a' as int + d - 10;
    }
  }

  lemma {:induction false} ParseToHex(n: nat, width: nat)
    requires n < Pow16(width)
    ensures ParseHex(ToHex(n, width)) == Some(n)
    decreases width
  {
    if width > 0 {
      var s := ToHex(n, width);
      var high, d := n / 16, n % 16;
      assert n == high * 16 + d && d < 16;
      assert high < Pow16(width - 1);
      assert s == ToHex(high, width - 1) + [HexDigit(d)];
      assert s[..|s| - 1] == ToHex(high, width - 1);
      ParseToHex(high, width - 1);
      HexDigitValue(d);
    }
  }

  lemma {:induction false} Pow16Add(a: nat, b: nat)
    ensures Pow16(a + b) == Pow16(a) * Pow16(b)
    decreases a
  {
    if a > 0 {
      Pow16Add(a - 1, b);
    }
  }

  /** Twenty-four hexadecimal digits are exactly the twelve bytes of an ObjectId. */
  lemma Pow16At24()
    ensures Pow16(24) == ObjectIdLimit
  {
    assert Pow16(3) == 4096;
    Pow16Add(3, 3);
    Pow16Add(6, 6);
    Pow16Add(12, 12);
  }

  /** The subject of a token parses back to the user it was issued for. */
  lemma ObjectIdTextRoundTrip(id: ObjectId)
    ensures ParseObjectId(IdText(id)) == Some(id)
  {
    Pow16At24();
    ParseToHex(id, 24);
  }

  // ---------------------------------------------------------------- claims

  /** The access claim built by `authenticate` and `refresh`. */
  function AccessClaim(user: ObjectId, now: int, baseUrl: string): (c: UserClaim)
    ensures c.exp == now + 1800 && c.iss == "Redian" && c.aud == baseUrl
    ensures ParseObjectId(c.sub) == Some(user)
  {
    ObjectIdTextRoundTrip(user);
    UserClaim(baseUrl, now + AccessLifetime, Issuer, IdText(user))
  }

  /** The refresh claim: the same subject, valid for three days. */
  function RefreshClaim(user: ObjectId, now: int, baseUrl: string): (c: UserClaim)
    ensures c.exp == now + 259200 && c.iss == "Redian" && c.aud == baseUrl
    ensures ParseObjectId(c.sub) == Some(user)
    ensures c.exp - AccessClaim(user, now, baseUrl).exp == 72 * 3600 - 30 * 60
  {
    ObjectIdTextRoundTrip(user);
    UserClaim(baseUrl, now + RefreshLifetime, Issuer, IdText(user))
  }

  /** The token pair `authenticate` and `refresh` hand out, once both claims
      are signed and the user's details can be read. */
  function IssueTokens(user: ObjectId, now: int, baseUrl: string,
                       signAccess: UserClaim -> Option<string>, signRefresh: UserClaim -> Option<string>,
                       detailFound: bool): (r: Result<(string, string)>)
    ensures r.Ok? <==> (signAccess(AccessClaim(user, now, baseUrl)).Some?
                        && signRefresh(RefreshClaim(user, now, baseUrl)).Some? && detailFound)
    ensures r.Ok? ==> r.value == (signAccess(AccessClaim(user, now, baseUrl)).value,
                                  signRefresh(RefreshClaim(user, now, baseUrl)).value)
    ensures r.Err? ==> r.error == (if signAccess(AccessClaim(user, now, baseUrl)).Some?
                                      && signRefresh(RefreshClaim(user, now, baseUrl)).Some?
                                   then "USER_NOT_FOUND" else "GENERATING_FAILED")
  {
    match (signAccess(AccessClaim(user, now, baseUrl)), signRefresh(RefreshClaim(user, now, baseUrl)))
    case (Some(atk), Some(rtk)) => if detailFound then Ok((atk, rtk)) else Err("USER_NOT_FOUND")
    case _ => Err("GENERATING_FAILED")
  }

  /** `UserCredential::authenticate`: `found` is the user stored under the
      e-mail, `passwordMatches` is bcrypt's verdict on the stored hash. */
  function Authenticate(found: Option<UserDoc>, password: string, passwordMatches: (string, string) -> bool,
                        now: int, baseUrl: string,
                        signAccess: UserClaim -> Option<string>, signRefresh: UserClaim -> Option<string>,
                        detailFound: bool): (r: Result<(string, string)>)
    ensures found.None? ==> r == Err("INVALID_COMBINATION")
    ensures found.Some? && !passwordMatches(password, found.value.password) ==> r == Err("INVALID_COMBINATION")
    ensures r.Ok? ==> found.Some? && passwordMatches(password, found.value.password)
                      && signAccess(AccessClaim(found.value.id, now, baseUrl)) == Some(r.value.0)
                      && signRefresh(RefreshClaim(found.value.id, now, baseUrl)) == Some(r.value.1)
    ensures found.Some? && passwordMatches(password, found.value.password)
            ==> r == IssueTokens(found.value.id, now, baseUrl, signAccess, signRefresh, detailFound)
  {
    match found
    case None => Err("INVALID_COMBINATION")
    case Some(user) =>
      if !passwordMatches(password, user.password) then Err("INVALID_COMBINATION")
      else IssueTokens(user.id, now, baseUrl, signAccess, signRefresh, detailFound)
  }

  /** `UserCredential::refresh`: the refresh token must decode, its subject must
      be an ObjectId of a stored user; then a fresh pair is issued. */
  function Refresh(token: string, decodeRefresh: string -> Option<UserClaim>, users: seq<UserDoc>,
                   now: int, baseUrl: string,
                   signAccess: UserClaim -> Option<string>, signRefresh: UserClaim -> Option<string>,
                   detailFound: bool): (r: Result<(string, string)>)
    ensures decodeRefresh(token).None? ==> r == Err("INVALID_TOKEN")
    ensures decodeRefresh(token).Some? && ParseObjectId(decodeRefresh(token).value.sub).None? ==> r == Err("INVALID_ID")
    ensures decodeRefresh(token).Some? && ParseObjectId(decodeRefresh(token).value.sub).Some?
            && Find(users, UserKey, ParseObjectId(decodeRefresh(token).value.sub).value).None?
            ==> r == Err("USER_NOT_FOUDN")
    ensures r.Ok? ==> decodeRefresh(token).Some?
                      && var id := ParseObjectId(decodeRefresh(token).value.sub);
                         id.Some? && Find(users, UserKey, id.value).Some?
                         && signAccess(AccessClaim(id.value, now, baseUrl)) == Some(r.value.0)
                         && signRefresh(RefreshClaim(id.value, now, baseUrl)) == Some(r.value.1)
    ensures decodeRefresh(token).Some? && ParseObjectId(decodeRefresh(token).value.sub).Some?
            && Find(users, UserKey, ParseObjectId(decodeRefresh(token).value.sub).value).Some?
            ==> r == IssueTokens(ParseObjectId(decodeRefresh(token).value.sub).value, now, baseUrl,
                                 signAccess, signRefresh, detailFound)
  {
    match decodeRefresh(token)
    case None => Err("INVALID_TOKEN")
    case Some(claim) =>
      match ParseObjectId(claim.sub)
      case None => Err("INVALID_ID")
      case Some(id) =>
        if Find(users, UserKey, id).None? then Err("USER_NOT_FOUDN")
        else IssueTokens(id, now, baseUrl, signAccess, signRefresh, detailFound)
  }

  /** `UserCredential::verify`: the user id of a valid access token. */
  function Verify(token: seq<bv8>, decodeAccess: seq<bv8> -> Option<UserClaim>): (r: Option<ObjectId>)
    ensures r.Some? <==> decodeAccess(token).Some? && ParseObjectId(decodeAccess(token).value.sub).Some?
    ensures r.Some? ==> r == ParseObjectId(decodeAccess(token).value.sub)
  {
    match decodeAccess(token)
    case Some(claim) => ParseObjectId(claim.sub)
    case None => None
  }

  /** A token that decodes to an access claim issued for `user` verifies as `user`. */
  lemma IssuedTokenVerifies(user: ObjectId, now: int, baseUrl: string,
                            token: seq<bv8>, decodeAccess: seq<bv8> -> Option<UserClaim>)
    requires decodeAccess(token) == Some(AccessClaim(user, now, baseUrl))
    ensures Verify(token, decodeAccess) == Some(user)
  {
  }

  // ---------------------------------------------------------------- middleware

  /** What the middleware takes as the token: everything after the first seven
      bytes of the Authorization header, when there is more than that. */
  function TokenOf(header: Option<seq<bv8>>): (t: Option<seq<bv8>>)
    ensures t.Some? <==> header.Some? && |header.value| > 7
    ensures t.Some? ==> |t.value| == |header.value| - 7 && header.value == header.value[..7] + t.value
  {
    if header.Some? && |header.value| > 7 then Some(header.value[7..]) else None
  }

  /** The seven bytes are dropped unseen: any prefix, not only "Bearer ", works. */
  lemma AnyPrefixIsDropped(prefix: seq<bv8>, token: seq<bv8>)
    requires |prefix| == 7 && |token| > 0
    ensures TokenOf(Some(prefix + token)) == Some(token)
  {
    assert (prefix + token)[7..] == token;
  }

  /** The middleware's copy loop and `drain(0..7)`. */
  method BearerToken(header: Option<seq<bv8>>) returns (token: Option<seq<bv8>>)
    ensures token == TokenOf(header)
  {
    token := None;
    if header.Some? {
      var bytes: seq<bv8> := [];
      var h := header.value;
      for i := 0 to |h|
        invariant bytes == h[..i]
      {
        bytes := bytes + [h[i]];
      }
      assert bytes == h;
      if |bytes| > 7 {
        bytes := bytes[7..];
        token := Some(bytes);
      }
    }
  }

  /** Well-formed UTF-8, as `String::from_utf8` accepts it: no overlong
      forms, no surrogates, nothing above U+10FFFF. */
  predicate Continuation(b: bv8)
  {
    0x80 <= b <= 0xBF
  }

  /** The length of the character a lead byte opens, or 0 for a byte that
      cannot open one. */
  function LeadWidth(lead: bv8): nat
  {
    if lead < 0x80 then 1
    else if 0xC2 <= lead <= 0xDF then 2
    else if 0xE0 <= lead <= 0xEF then 3
    else if 0xF0 <= lead <= 0xF4 then 4
    else 0
  }

  /** `b` opens with one well-formed character. */
  predicate FirstCharOk(b: seq<bv8>)
  {
    |b| > 0 && LeadWidth(b[0]) > 0 && |b| >= LeadWidth(b[0])
    && (forall j :: 1 <= j < LeadWidth(b[0]) ==> Continuation(b[j]))
    && (b[0] == 0xE0 ==> b[1] >= 0xA0) && (b[0] == 0xED ==> b[1] <= 0x9F)
    && (b[0] == 0xF0 ==> b[1] >= 0x90) && (b[0] == 0xF4 ==> b[1] <= 0x8F)
  }

  predicate ValidUtf8(b: seq<bv8>)
    decreases |b|
  {
    |b| == 0 || (FirstCharOk(b) && ValidUtf8(b[LeadWidth(b[0])..]))
  }

  /** ASCII bytes are always well-formed. */
  lemma {:induction false} AsciiIsUtf8(b: seq<bv8>)
    requires forall i :: 0 <= i < |b| ==> b[i] < 0x80
    ensures ValidUtf8(b)
    decreases |b|
  {
    if |b| > 0 {
      AsciiIsUtf8(b[1..]);
    }
  }

  /** Well-formed text stays well-formed when more is appended. */
  lemma {:induction false} Utf8Concat(a: seq<bv8>, b: seq<bv8>)
    requires ValidUtf8(a) && ValidUtf8(b)
    ensures ValidUtf8(a + b)
    decreases |a|
  {
    if |a| > 0 {
      var k := LeadWidth(a[0]);
      assert forall j :: 0 <= j < k ==> (a + b)[j] == a[j];
      assert FirstCharOk(a + b);
      assert a[k..] + b == (a + b)[k..];
      Utf8Concat(a[k..], b);
    } else {
      assert a + b == b;
    }
  }

  /** A lone continuation byte after the prefix is not UTF-8. */
  lemma StrayContinuationIsInvalid(prefix: seq<bv8>, rest: seq<bv8>)
    requires |prefix| == 7
    ensures TokenOf(Some(prefix + [0x80] + rest)).Some?
    ensures !ValidUtf8(TokenOf(Some(prefix + [0x80] + rest)).value)
  {
    assert (prefix + [0x80] + rest)[7..] == [0x80] + rest;
  }

  /** The middleware `call`: the token must be UTF-8 (otherwise the
      `from_utf8(..).unwrap()` panics); a request is authenticated when its
      token verifies to an id and that user is stored; it then carries the
      user's roles. */
  method Authenticated(header: Option<seq<bv8>>, decodeAccess: seq<bv8> -> Option<UserClaim>,
                       users: seq<UserDoc>) returns (auth: Option<AuthData>, panicked: bool)
    ensures panicked <==> TokenOf(header).Some? && !ValidUtf8(TokenOf(header).value)
    ensures panicked ==> auth.None?
    ensures auth.Some? <==> !panicked && TokenOf(header).Some? && Verify(TokenOf(header).value, decodeAccess).Some?
                            && Find(users, UserKey, Verify(TokenOf(header).value, decodeAccess).value).Some?
    ensures auth.Some? ==> auth.value.token == TokenOf(header).value
                           && auth.value.id == Verify(auth.value.token, decodeAccess).value
                           && auth.value.roleId == Find(users, UserKey, auth.value.id).value.roleId
  {
    auth := None;
    panicked := false;
    var token := BearerToken(header);
    if token.Some? {
      if !ValidUtf8(token.value) {
        panicked := true;
        return;
      }
      var id := Verify(token.value, decodeAccess);
      if id.Some? {
        var user := Find(users, UserKey, id.value);
        if user.Some? {
          auth := Some(AuthData(id.value, user.value.roleId, token.value));
        }
      }
    }
  }
}
