/**
 * server/session.js: the prototype server's login flow. Three module-level
 * dictionaries are kept: the nonces issued in `WWW-Authenticate` headers, the
 * sessions by cookie, and the cookies waiting to be claimed by cookie id.
 * Unlike the passport strategy, a nonce is never spent and the auth-scheme is
 * compared case-sensitively.
 */
module Session {
  import opened Js
  import opened OpenPgp
  import opened AuthHeader
  import Pgp
  import ServerPgp

  const AUTH_COOKIE: string := "pgp-auth-test-cookie"
  /** `new Date(0).toUTCString()` */
  const EXPIRED: string := "Thu, 01 Jan 1970 00:00:00 GMT"
  const REALM: string := "PGP realm=\"Testing PGP Auth\""
  const NO_EGGS: string := "No eggs for you"
  const DEFAULT_FAIL_TEXT: string := "Unauthorized"
  const DEFAULT_SUCCESS_TEXT: string := "Successfully logged in"
  /** `crypto.randomBytes(COOKIE_BYTES / 2)` for cookies and cookie ids, with `COOKIE_BYTES` = 32. */
  const COOKIE_HEX_BYTES: nat := 16

  /** A session record: `DEF_SESSION` with the user's fields assigned over it. */
  datatype Session = Session(email: Option<string>, name: Option<string>, favColor: Option<string>, cookie: Option<string>)

  const DEF_SESSION: Session := Session(None, None, None, None)

  /** `Object.assign(Object.assign({}, DEF_SESSION), user)`; a null user assigns nothing. */
  function NewSession(user: Option<Pgp.UserId>): (s: Session)
    ensures s.favColor.None? && s.cookie.None?
    ensures user.None? <==> s == DEF_SESSION
    ensures user.Some? ==> s.name == Some(user.value.name) && s.email == Some(user.value.email)
  {
    match user
    case None => DEF_SESSION
    case Some(u) => DEF_SESSION.(email := Some(u.email), name := Some(u.name))
  }

  datatype Store = Store(sessions: map<string, Session>, nonces: set<string>, unclaimed: map<string, string>)

  // ---------------------------------------------------------------- responses

  datatype Header = Header(name: string, value: string)

  /** What the handler finally does with the response. */
  datatype Action = Send(body: string) | RedirectTo(url: string) | Next | NextError(err: string)

  /** The status set (200 unless changed), the headers set in order, and the final action. */
  datatype Reply = Reply(status: nat, headers: seq<Header>, action: Action)

  function Refuse(err: string): Reply {
    Reply(200, [], NextError(err))
  }

  const CLEAR_COOKIE: Header := Header("set-cookie", AUTH_COOKIE + "=null; Expires=" + EXPIRED)

  /** The header `applyCookie` sets. */
  function ClaimedCookie(value: string): Header {
    Header("Set-Cookie", AUTH_COOKIE + "=" + value + "; Path=/")
  }

  // ---------------------------------------------------------------- nonces

  /** `generateWWWAuthenticateHeader`, with the random nonce as a parameter. */
  function IssueNonce(st: Store, nonce: string): (r: (Store, string))
    ensures r.0 == st.(nonces := st.nonces + {nonce})
    ensures r.1 == REALM + ", nonce=" + nonce
  {
    (st.(nonces := st.nonces + {nonce}), REALM + ", nonce=" + nonce)
  }

  // ---------------------------------------------------------------- parseAuthHeader

  /** The characters `[ A-Z]` between the dashes of a delimiter. */
  predicate IsDelimiterChar(c: char) {
    c == ' ' || IsUpper(c)
  }

  /** A match of `/-{5}[ A-Z]*-{5}/`. */
  predicate IsDelimiter(t: string) {
    && |t| >= 10 && t[..5] == "-----" && t[|t| - 5..] == "-----"
    && forall i :: 5 <= i < |t| - 5 ==> IsDelimiterChar(t[i])
  }

  /** The greedy `[ A-Z]*` at the start of `s`. */
  function DelimiterRun(s: string): (n: nat)
    ensures n <= |s|
    ensures forall i :: 0 <= i < n ==> IsDelimiterChar(s[i])
    ensures n < |s| ==> !IsDelimiterChar(s[n])
  {
    if s != [] && IsDelimiterChar(s[0]) then 1 + DelimiterRun(s[1..]) else 0
  }

  /** Length of the delimiter matched at the start of `s`, or 0. */
  function DelimiterLen(s: string): (n: nat)
    ensures n <= |s|
    ensures n > 0 ==> IsDelimiter(s[..n])
  {
    if !StartsWith(s, "-----") then 0
    else
      var k := DelimiterRun(s[5..]);
      if !StartsWith(s[5 + k..], "-----") then 0
      else
        var n := 10 + k;
        assert s[..n][n - 5..] == s[5 + k..][..5];
        assert forall i :: 5 <= i < n - 5 ==> s[..n][i] == s[5..][i - 5];
        n
  }

  /** `s.match(/(-{5}[ A-Z]*-{5})/g)`, as a list (empty for null). */
  function Delimiters(s: string): (ds: seq<string>)
    ensures |ds| <= |s|
    decreases |s|
  {
    if s == [] then []
    else
      var n := DelimiterLen(s);
      if n > 0 then [s[..n]] + Delimiters(s[n..]) else Delimiters(s[1..])
  }

  lemma {:induction false} DelimitersAreDelimiters(s: string)
    ensures forall d :: d in Delimiters(s) ==> IsDelimiter(d)
    decreases |s|
  {
    if s != [] {
      var n := DelimiterLen(s);
      if n > 0 {
        DelimitersAreDelimiters(s[n..]);
        assert Delimiters(s) == [s[..n]] + Delimiters(s[n..]);
      } else {
        DelimitersAreDelimiters(s[1..]);
      }
    }
  }

  /** The second delimiter, or the text `${undefined}` gives when there is none. */
  function Footer(ds: seq<string>): string {
    if |ds| >= 2 then ds[1] else "undefined"
  }

  datatype AuthParts = AuthParts(authType: string, data: string)

  /**
   * `parseAuthHeader`: null (`Ok(None)`) when the header is not
   * `<type> <rest>`; a TypeError when the rest holds no delimiter; otherwise
   * the first delimiter, the rest with both delimiters cut out and every
   * space made a newline, and the second delimiter.
   */
  function ParseAuthHeader(h: string): (r: Result<Option<AuthParts>>)
    ensures r == Ok(None) <==> SplitAuthHeader(h).None?
    ensures r.Err? <==> SplitAuthHeader(h).Some? && Delimiters(SplitAuthHeader(h).value.rest) == []
    ensures r.Err? ==> r.error == TYPE_ERROR
    ensures r.Ok? && r.value.Some? ==>
      var rest := SplitAuthHeader(h).value.rest;
      var ds := Delimiters(rest);
      && ds != []
      && r.value.value.authType == SplitAuthHeader(h).value.scheme
      && ' ' !in r.value.value.authType
      && IsDelimiter(ds[0])
      && (IsDelimiter(Footer(ds)) || Footer(ds) == "undefined")
      && |ds[0]| + |Footer(ds)| <= |r.value.value.data|
      && r.value.value.data[..|ds[0]|] == ds[0]
      && r.value.value.data[|r.value.value.data| - |Footer(ds)|..] == Footer(ds)
      && ' ' !in r.value.value.data[|ds[0]|..|r.value.value.data| - |Footer(ds)|]
  {
    match SplitAuthHeader(h)
    case None => Ok(None)
    case Some(Split(authType, rest)) =>
      var ds := Delimiters(rest);
      if ds == [] then Err(TYPE_ERROR)
      else
        var hdr, ftr := ds[0], Footer(ds);
        var body := ReplaceChar(RemoveFirst(RemoveFirst(rest, hdr), ftr), ' ', '\n');
        var data := hdr + body + ftr;
        assert data[..|hdr|] == hdr && data[|hdr|..|data| - |ftr|] == body && data[|data| - |ftr|..] == ftr;
        DelimitersAreDelimiters(rest);
        assert ds[0] in ds && (|ds| >= 2 ==> ds[1] in ds);
        Ok(Some(AuthParts(authType, data)))
  }

  lemma {:induction false} DelimiterRunOf(x: string, w: string)
    requires forall i :: 0 <= i < |x| ==> IsDelimiterChar(x[i])
    requires w != [] && !IsDelimiterChar(w[0])
    ensures DelimiterRun(x + w) == |x|
  {
    if x == [] {
      assert x + w == w;
    } else {
      assert (x + w)[0] == x[0];
      assert (x + w)[1..] == x[1..] + w;
      DelimiterRunOf(x[1..], w);
    }
  }

  /** A delimiter at the start of the text is matched whole. */
  lemma DelimiterFirst(d: string, z: string)
    requires IsDelimiter(d)
    ensures Delimiters(d + z) == [d] + Delimiters(z)
  {
    var s := d + z;
    assert s[..5] == d[..5];
    var mid := d[5..|d| - 5];
    assert s[5..] == mid + ("-----" + z);
    DelimiterRunOf(mid, "-----" + z);
    assert s[5 + |mid|..][..5] == "-----";
    assert DelimiterLen(s) == |d|;
    assert s[..|d|] == d && s[|d|..] == z;
  }

  /** Text without a dash holds no delimiter and is skipped. */
  lemma {:induction false} DelimitersSkip(x: string, z: string)
    requires '-' !in x
    ensures Delimiters(x + z) == Delimiters(z)
  {
    if x == [] {
      assert x + z == z;
    } else {
      var s := x + z;
      assert s[0] == x[0] && x[0] in x;
      assert !StartsWith(s, "-----");
      assert s[1..] == x[1..] + z;
      DelimitersSkip(x[1..], z);
    }
  }

  /** Every character of `y` is a newline or no line terminator at all. */
  predicate OnlyNewlineBreaks(y: string) {
    forall i :: 0 <= i < |y| ==> y[i] == '\n' || !IsLineTerminator(y[i])
  }

  /** A delimiter holds dashes, spaces and upper-case letters only. */
  lemma DelimiterNoLineTerminator(d: string)
    requires IsDelimiter(d)
    ensures NoLineTerminator(d)
  {
    forall i | 0 <= i < |d| ensures !IsLineTerminator(d[i]) {
      if 5 <= i < |d| - 5 {
        assert IsDelimiterChar(d[i]);
      } else if i < 5 {
        assert d[..5][i] == d[i];
      } else {
        assert d[|d| - 5..][i - (|d| - 5)] == d[i];
      }
    }
  }

  lemma NoLineTerminatorConcat(a: string, b: string, c: string)
    requires NoLineTerminator(a) && NoLineTerminator(b) && NoLineTerminator(c)
    ensures NoLineTerminator(a + b + c)
  {
    var s := a + b + c;
    forall i | 0 <= i < |s| ensures !IsLineTerminator(s[i]) {
      if i < |a| {
        assert s[i] == a[i];
      } else if i < |a| + |b| {
        assert s[i] == b[i - |a|];
      } else {
        assert s[i] == c[i - |a| - |b|];
      }
    }
  }

  /** The squeezed text between the delimiters keeps no dash and no line terminator. */
  lemma SqueezedText(y: string)
    requires '-' !in y && OnlyNewlineBreaks(y)
    ensures '-' !in ReplaceChar(y, '\n', ' ') && NoLineTerminator(ReplaceChar(y, '\n', ' '))
  {
    var y1 := ReplaceChar(y, '\n', ' ');
    forall i | 0 <= i < |y1| ensures y1[i] != '-' && !IsLineTerminator(y1[i]) {
      assert y[i] in y;
    }
  }

  /** Between two delimiters, text without a dash adds no match. */
  lemma DelimitersAround(hdr: string, x: string, ftr: string)
    requires IsDelimiter(hdr) && IsDelimiter(ftr) && '-' !in x
    ensures Delimiters(hdr + x + ftr) == [hdr, ftr]
  {
    assert hdr + x + ftr == hdr + (x + ftr);
    DelimiterFirst(hdr, x + ftr);
    DelimitersSkip(x, ftr);
    assert ftr == ftr + [];
    DelimiterFirst(ftr, []);
  }

  /** Cutting out both delimiters leaves the text between them. */
  lemma CutDelimiters(hdr: string, x: string, ftr: string)
    requires IsDelimiter(ftr) && '-' !in x
    ensures RemoveFirst(RemoveFirst(hdr + x + ftr, hdr), ftr) == x
  {
    CutHeader(hdr, x + ftr);
    assert hdr + x + ftr == hdr + (x + ftr);
    CutFooter(x, ftr);
  }

  /** Removing a leading header leaves what follows it. */
  lemma CutHeader(hdr: string, rest: string)
    ensures RemoveFirst(hdr + rest, hdr) == rest
  {
    var s := hdr + rest;
    assert StartsWith(s, hdr);
    FindAtStart(s, hdr);
    assert s[..0] + s[|hdr|..] == rest;
  }

  /** Removing a delimiter that follows dash-free text leaves that text. */
  lemma CutFooter(x: string, ftr: string)
    requires IsDelimiter(ftr) && '-' !in x
    ensures RemoveFirst(x + ftr, ftr) == x
  {
    assert ftr[0] == ftr[..5][0] == '-';
    assert StartsWith(ftr, ftr);
    FindAfter(x, ftr, ftr);
    assert (x + ftr)[..|x|] + (x + ftr)[|x| + |ftr|..] == x;
  }

  /**
   * The round trip `parseAuthHeader` exists for: an armored message whose
   * line breaks a client squeezed into spaces, between two delimiters, is
   * given back with its line breaks.
   */
  lemma ParseAuthHeaderRoundTrip(hdr: string, y: string, ftr: string)
    requires IsDelimiter(hdr) && IsDelimiter(ftr)
    requires ' ' !in y && '-' !in y && OnlyNewlineBreaks(y)
    ensures ParseAuthHeader("PGP " + hdr + ReplaceChar(y, '\n', ' ') + ftr) == Ok(Some(AuthParts("PGP", hdr + y + ftr)))
  {
    var y1 := ReplaceChar(y, '\n', ' ');
    var rest := hdr + y1 + ftr;
    assert "PGP " + hdr + y1 + ftr == "PGP" + " " + rest;
    SqueezedText(y);
    DelimiterNoLineTerminator(hdr);
    DelimiterNoLineTerminator(ftr);
    NoLineTerminatorConcat(hdr, y1, ftr);
    SplitRoundTrip("PGP", rest);
    DelimitersAround(hdr, y1, ftr);
    CutDelimiters(hdr, y1, ftr);
    SpacesUndoSqueeze(y);
    assert Footer([hdr, ftr]) == ftr;
  }

  // ---------------------------------------------------------------- login

  /** The `login(options)` settings; each is read with `||`. */
  datatype LoginOptions = LoginOptions(
    failRedirect: Option<string>, successRedirect: Option<string>,
    failText: Option<string>, successText: Option<string>)

  /** The answer to a logged-in client: the success redirect if set, else the success text. */
  function SuccessReply(opts: LoginOptions, headers: seq<Header>): (r: Reply)
    ensures r.status == 200 && r.headers == headers
    ensures Truthy(opts.successRedirect) ==> r.action == RedirectTo(opts.successRedirect.value)
    ensures !Truthy(opts.successRedirect) ==>
      r.action == Send("<pre>" + OrElse(opts.successText, DEFAULT_SUCCESS_TEXT) + "</pre>")
  {
    if Truthy(opts.successRedirect) then Reply(200, headers, RedirectTo(opts.successRedirect.value))
    else Reply(200, headers, Send("<pre>" + OrElse(opts.successText, DEFAULT_SUCCESS_TEXT) + "</pre>"))
  }

  /** The headers of a successful login: the quoted cookie, and the id to claim it with. */
  function LoginHeaders(cookie: string, cid: string): seq<Header> {
    [Header("Set-Cookie", AUTH_COOKIE + "=\"" + cookie + "\""), Header("x-cookie-url", cid)]
  }

  /** The `try` block of the login handler; an error is what `next(e.error || e.message)` passes on. */
  function LoginChecks(lib: Library, nonces: set<string>, authorization: string): (r: Result<ServerPgp.Verified>)
    ensures r.Ok? ==> Trim(r.value.data) in nonces
  {
    match ParseAuthHeader(authorization)
    case Err(e) => Err(e)
    case Ok(None) => Err(TYPE_ERROR)
    case Ok(Some(parts)) =>
      if parts.authType != "PGP" then Err(NO_EGGS)
      else match ServerPgp.Verify(lib, ServerPgp.PK_CACHE, parts.data)
        case Err(e) => Err(e)
        case Ok(v) => if Trim(v.data) !in nonces then Err(Pgp.INVALID_SIGNATURE) else Ok(v)
  }
  /**
   * What a passing `try` block has established: the header parsed, its
   * scheme is exactly `PGP`, the server's `verify` accepted the data and the
   * trimmed data is an issued nonce. A scheme other than `PGP` is refused.
   */
  lemma LoginChecksSound(lib: Library, nonces: set<string>, authorization: string)
    ensures
      var r := LoginChecks(lib, nonces, authorization);
      r.Ok? ==>
        && ParseAuthHeader(authorization).Ok? && ParseAuthHeader(authorization).value.Some?
        && ParseAuthHeader(authorization).value.value.authType == "PGP"
        && ServerPgp.Verify(lib, ServerPgp.PK_CACHE, ParseAuthHeader(authorization).value.value.data) == Ok(r.value)
        && Trim(r.value.data) in nonces
    ensures (&& ParseAuthHeader(authorization).Ok? && ParseAuthHeader(authorization).value.Some?
             && ParseAuthHeader(authorization).value.value.authType != "PGP")
            ==> LoginChecks(lib, nonces, authorization) == Err(NO_EGGS)
    ensures ParseAuthHeader(authorization).Err? ==> LoginChecks(lib, nonces, authorization) == Err(ParseAuthHeader(authorization).error)
    ensures ParseAuthHeader(authorization) == Ok(None) ==> LoginChecks(lib, nonces, authorization) == Err(TYPE_ERROR)
    ensures (&& ParseAuthHeader(authorization).Ok? && ParseAuthHeader(authorization).value.Some?
             && ParseAuthHeader(authorization).value.value.authType == "PGP") ==>
      var v := ServerPgp.Verify(lib, ServerPgp.PK_CACHE, ParseAuthHeader(authorization).value.value.data);
      && (v.Err? ==> LoginChecks(lib, nonces, authorization) == Err(v.error))
      && (v.Ok? && Trim(v.value.data) !in nonces ==> LoginChecks(lib, nonces, authorization) == Err(Pgp.INVALID_SIGNATURE))
      && (v.Ok? && Trim(v.value.data) in nonces ==> LoginChecks(lib, nonces, authorization) == Ok(v.value))
  {
    var p := ParseAuthHeader(authorization);
    if p.Ok? && p.value.Some? {
      var parts := p.value.value;
      if parts.authType == "PGP" {
        var v := ServerPgp.Verify(lib, ServerPgp.PK_CACHE, parts.data);
        if v.Ok? && Trim(v.value.data) in nonces {
          assert LoginChecks(lib, nonces, authorization) == Ok(v.value);
        }
      }
    }
  }


  /**
   * A POST to the login handler. With a verified signature over an issued
   * nonce, a new session is stored under `cookie` and `cookie` is parked
   * under `cid` for `applyCookie`; nothing is stored otherwise.
   */
  function LoginPost(opts: LoginOptions, lib: Library, st: Store, authorization: Option<string>, cookie: string, cid: string): (r: (Store, Reply))
    ensures r.0.nonces == st.nonces
    ensures r.1.action.NextError? ==> r.0 == st
    ensures authorization.None? ==> r == (st, Refuse(NO_EGGS))
    ensures !r.1.action.NextError? ==>
      && authorization.Some?
      && LoginChecks(lib, st.nonces, authorization.value).Ok?
      && r.0.sessions == st.sessions[cookie := NewSession(LoginChecks(lib, st.nonces, authorization.value).value.user)]
      && r.0.unclaimed == st.unclaimed[cid := cookie]
      && r.1 == SuccessReply(opts, LoginHeaders(cookie, cid))
    ensures authorization.Some? && LoginChecks(lib, st.nonces, authorization.value).Err? ==>
      r == (st, Refuse(LoginChecks(lib, st.nonces, authorization.value).error))
    ensures authorization.Some? && LoginChecks(lib, st.nonces, authorization.value).Ok? ==>
      var v := LoginChecks(lib, st.nonces, authorization.value).value;
      r == (st.(sessions := st.sessions[cookie := NewSession(v.user)], unclaimed := st.unclaimed[cid := cookie]),
            SuccessReply(opts, LoginHeaders(cookie, cid)))
  {
    match authorization
    case None => (st, Refuse(NO_EGGS))
    case Some(h) =>
      match LoginChecks(lib, st.nonces, h)
      case Err(e) => (st, Refuse(e))
      case Ok(v) =>
        var st1 := st.(sessions := st.sessions[cookie := NewSession(v.user)], unclaimed := st.unclaimed[cid := cookie]);
        (st1, SuccessReply(opts, LoginHeaders(cookie, cid)))
  }

  /** A cookie names a live session: `sessions[cookie]` is an own entry. */
  predicate IsLive(sessions: map<string, Session>, cookie: Option<string>) {
    cookie.Some? && cookie.value in sessions
  }

  /**
   * Any other method: a live session is simply told it is logged in;
   * otherwise the client is challenged with a new nonce.
   */
  function LoginOther(opts: LoginOptions, st: Store, reqCookie: Option<string>, nonce: string): (r: (Store, Reply))
    ensures IsLive(st.sessions, reqCookie) ==> r == (st, SuccessReply(opts, []))
    ensures !IsLive(st.sessions, reqCookie) ==>
      && r.0 == st.(nonces := st.nonces + {nonce})
      && r.1 == Reply(401, [Header("WWW-Authenticate", REALM + ", nonce=" + nonce)], Next)
  {
    if IsLive(st.sessions, reqCookie) then (st, SuccessReply(opts, []))
    else
      var (st1, header) := IssueNonce(st, nonce);
      (st1, Reply(401, [Header("WWW-Authenticate", header)], Next))
  }

  /** The login handler: `req.method.toUpperCase() === 'POST'` picks the branch. */
  function LoginStep(opts: LoginOptions, lib: Library, st: Store, httpMethod: string, authorization: Option<string>,
                 reqCookie: Option<string>, nonce: string, cookie: string, cid: string): (r: (Store, Reply))
    ensures st.nonces <= r.0.nonces
    ensures ToUpper(httpMethod) != "POST" ==> r.0.sessions == st.sessions && r.0.unclaimed == st.unclaimed
    ensures ToUpper(httpMethod) == "POST" ==> r == LoginPost(opts, lib, st, authorization, cookie, cid)
    ensures ToUpper(httpMethod) != "POST" ==> r == LoginOther(opts, st, reqCookie, nonce)
  {
    if ToUpper(httpMethod) == "POST" then LoginPost(opts, lib, st, authorization, cookie, cid)
    else LoginOther(opts, st, reqCookie, nonce)
  }

  /** A header with an auth-scheme other than exactly `PGP` is refused, and nothing changes. */
  lemma WrongSchemeRefused(opts: LoginOptions, lib: Library, st: Store, h: string, cookie: string, cid: string)
    requires ParseAuthHeader(h).Ok? && ParseAuthHeader(h).value.Some?
    requires ParseAuthHeader(h).value.value.authType != "PGP"
    ensures LoginPost(opts, lib, st, Some(h), cookie, cid) == (st, Refuse(NO_EGGS))
  {
  }

  /**
   * The prototype's flow: a client without a session is sent a nonce, signs
   * it, and posts the signed header; the login then succeeds and the new
   * session is stored.
   */
  lemma NonceThenLogin(opts: LoginOptions, lib: Library, st: Store, reqCookie: Option<string>, nonce: string,
                       h: string, v: ServerPgp.Verified, cookie: string, cid: string)
    requires !IsLive(st.sessions, reqCookie)
    requires ParseAuthHeader(h).Ok? && ParseAuthHeader(h).value.Some?
    requires ParseAuthHeader(h).value.value.authType == "PGP"
    requires ServerPgp.Verify(lib, ServerPgp.PK_CACHE, ParseAuthHeader(h).value.value.data) == Ok(v)
    requires Trim(v.data) == nonce
    ensures
      var st1 := LoginOther(opts, st, reqCookie, nonce).0;
      var (st2, reply) := LoginPost(opts, lib, st1, Some(h), cookie, cid);
      && reply == SuccessReply(opts, LoginHeaders(cookie, cid))
      && st2.sessions == st.sessions[cookie := NewSession(v.user)]
      && st2.unclaimed == st.unclaimed[cid := cookie]
      && st2.nonces == st.nonces + {nonce}
  {
    LoginChecksSound(lib, st.nonces + {nonce}, h);
  }

  /** A space-free scheme, a space and a one-line rest holding a delimiter parse with that scheme. */
  lemma ParsesWithScheme(scheme: string, rest: string)
    requires ' ' !in scheme && NoLineTerminator(rest) && Delimiters(rest) != []
    ensures ParseAuthHeader(scheme + " " + rest).Ok? && ParseAuthHeader(scheme + " " + rest).value.Some?
    ensures ParseAuthHeader(scheme + " " + rest).value.value.authType == scheme
  {
    SplitRoundTrip(scheme, rest);
  }

  /**
   * The comparison is case-sensitive: `pgp ...` is refused here, though the
   * strategy takes it (`Strategy.SchemeCaseInsensitive`).
   */
  lemma LowerCaseSchemeRefused(opts: LoginOptions, lib: Library, st: Store, rest: string, cookie: string, cid: string)
    requires NoLineTerminator(rest) && Delimiters(rest) != []
    ensures LoginPost(opts, lib, st, Some("pgp " + rest), cookie, cid) == (st, Refuse(NO_EGGS))
  {
    assert "pgp " + rest == "pgp" + " " + rest;
    ParsesWithScheme("pgp", rest);
    assert "pgp" != "PGP" by { assert "pgp"[0] != "PGP"[0]; }
    WrongSchemeRefused(opts, lib, st, "pgp " + rest, cookie, cid);
  }

  /** A login goes through only for signed data whose trimmed text is an issued nonce. */
  lemma LoginNeedsNonce(opts: LoginOptions, lib: Library, st: Store, h: string, cookie: string, cid: string)
    requires !LoginPost(opts, lib, st, Some(h), cookie, cid).1.action.NextError?
    ensures ParseAuthHeader(h).Ok? && ParseAuthHeader(h).value.Some?
    ensures
      var data := ParseAuthHeader(h).value.value.data;
      && ServerPgp.Verify(lib, ServerPgp.PK_CACHE, data).Ok?
      && Trim(ServerPgp.Verify(lib, ServerPgp.PK_CACHE, data).value.data) in st.nonces
  {
  }

  /**
   * Nonces are never spent: after a successful login the same header logs in
   * again, with whatever new cookie and cookie id are drawn.
   */
  lemma NonceReplayAccepted(opts: LoginOptions, lib: Library, st: Store, h: string, cookie: string, cid: string, cookie2: string, cid2: string)
    requires !LoginPost(opts, lib, st, Some(h), cookie, cid).1.action.NextError?
    ensures
      var st1 := LoginPost(opts, lib, st, Some(h), cookie, cid).0;
      !LoginPost(opts, lib, st1, Some(h), cookie2, cid2).1.action.NextError?
  {
  }

  /** After a login, the new cookie opens its session, holding the user's name and email. */
  lemma LoginThenEnsureLoggedIn(opts: LoginOptions, gate: GateOptions, lib: Library, st: Store, h: string, cookie: string, cid: string)
    requires !LoginPost(opts, lib, st, Some(h), cookie, cid).1.action.NextError?
    ensures
      var st1 := LoginPost(opts, lib, st, Some(h), cookie, cid).0;
      EnsureLoggedIn(gate, st1, Some(cookie)) == Admit(NewSession(LoginChecks(lib, st.nonces, h).value.user))
  {
  }

  /** After a login, its cookie id hands the cookie out once; a second claim yields `undefined`. */
  lemma LoginThenApplyCookie(opts: LoginOptions, lib: Library, st: Store, h: string, cookie: string, cid: string, url: string)
    requires !LoginPost(opts, lib, st, Some(h), cookie, cid).1.action.NextError?
    ensures
      var st1 := LoginPost(opts, lib, st, Some(h), cookie, cid).0;
      var (st2, reply) := ApplyCookieStep(st1, cid, url);
      && reply.headers == [ClaimedCookie(cookie)]
      && ApplyCookieStep(st2, cid, url).1.headers == [ClaimedCookie("undefined")]
  {
  }

  // ---------------------------------------------------------------- applyCookie, logout

  /**
   * `applyCookie(redirectUrl)`: set the cookie parked under `cid` (the text
   * `undefined` when there is none), forget `cid`, and redirect.
   */
  function ApplyCookieStep(st: Store, cid: string, redirectUrl: string): (r: (Store, Reply))
    ensures r.0 == st.(unclaimed := st.unclaimed - {cid})
    ensures cid in st.unclaimed ==> r.1.headers == [ClaimedCookie(st.unclaimed[cid])]
    ensures cid !in st.unclaimed ==> r.1.headers == [ClaimedCookie("undefined")]
    ensures r.1.status == 200 && r.1.action == RedirectTo(redirectUrl)
  {
    var value := if cid in st.unclaimed then st.unclaimed[cid] else "undefined";
    (st.(unclaimed := st.unclaimed - {cid}), Reply(200, [ClaimedCookie(value)], RedirectTo(redirectUrl)))
  }

  /** `logout`: expire the cookie and go on; no dictionary is touched. */
  function Logout(): (r: Reply)
    ensures r.headers == [CLEAR_COOKIE] && r.action == Next
  {
    Reply(200, [CLEAR_COOKIE], Next)
  }

  // ---------------------------------------------------------------- ensureLoggedIn

  datatype GateOptions = GateOptions(redirect: Option<string>, failText: Option<string>)

  /** The handler either admits the request with its session as `req.user`, or answers it. */
  datatype Gate = Admit(user: Session) | Deny(reply: Reply)

  /**
   * `ensureLoggedIn(options)`: a live session is admitted; a cookie that is
   * present but names no session is cleared; a refused request is redirected
   * if so configured, else it gets a 401 with the realm challenge.
   */
  function EnsureLoggedIn(opts: GateOptions, st: Store, reqCookie: Option<string>): (g: Gate)
    ensures g.Admit? <==> IsLive(st.sessions, reqCookie)
    ensures g.Admit? ==> g.user == st.sessions[reqCookie.value]
    ensures g.Deny? && reqCookie.Some? ==> |g.reply.headers| >= 1 && g.reply.headers[0] == CLEAR_COOKIE
    ensures g.Deny? && reqCookie.None? ==> CLEAR_COOKIE !in g.reply.headers
    ensures g.Deny? ==>
      g.reply.headers == (if reqCookie.Some? then [CLEAR_COOKIE] else []) +
                         (if Truthy(opts.redirect) then [] else [Header("WWW-Authenticate", REALM)])
    ensures g.Deny? && Truthy(opts.redirect) ==>
      g.reply.status == 200 && g.reply.action == RedirectTo(opts.redirect.value)
    ensures g.Deny? && !Truthy(opts.redirect) ==>
      && g.reply.status == 401
      && |g.reply.headers| >= 1
      && g.reply.headers[|g.reply.headers| - 1] == Header("WWW-Authenticate", REALM)
      && g.reply.action == Send("<pre>" + OrElse(opts.failText, DEFAULT_FAIL_TEXT) + "</pre>")
  {
    if IsLive(st.sessions, reqCookie) then Admit(st.sessions[reqCookie.value])
    else
      var cleared := if reqCookie.Some? then [CLEAR_COOKIE] else [];
      if Truthy(opts.redirect) then Deny(Reply(200, cleared, RedirectTo(opts.redirect.value)))
      else Deny(Reply(401, cleared + [Header("WWW-Authenticate", REALM)], Send("<pre>" + OrElse(opts.failText, DEFAULT_FAIL_TEXT) + "</pre>")))
  }

  /**
   * `sessions[cookie] != null` as the source writes it, on an object built
   * from `{}`: own entries and inherited members both pass.
   */
  predicate IsLiveAsWritten(sessions: map<string, Session>, cookie: Option<string>) {
    cookie.Some? && !Get(sessions, cookie.value).Undefined?
  }

  /** The check as written agrees with `IsLive` except on the inherited member names. */
  lemma IsLiveAsWrittenAgrees(sessions: map<string, Session>, cookie: Option<string>)
    requires cookie.Some? ==> cookie.value !in INHERITED_NAMES
    ensures IsLiveAsWritten(sessions, cookie) <==> IsLive(sessions, cookie)
  {
  }

  /** A cookie named `toString` passes the check as written with no session at all. */
  lemma InheritedCookieAdmittedAsWritten(opts: GateOptions)
    ensures IsLiveAsWritten(map[], Some("toString"))
    ensures EnsureLoggedIn(opts, Store(map[], {}, map[]), Some("toString")).Deny?
  {
    assert "toString" in INHERITED_NAMES;
  }

  // ---------------------------------------------------------------- the module's dictionaries

  class SessionServer {
    var sessions: map<string, Session>
    var nonces: set<string>
    var unclaimed: map<string, string>

    function State(): Store
      reads this
    {
      Store(sessions, nonces, unclaimed)
    }

    constructor()
      ensures sessions == map[] && nonces == {} && unclaimed == map[]
    {
      sessions := map[];
      nonces := {};
      unclaimed := map[];
    }

    method GenerateWWWAuthenticateHeader(nonce: string) returns (header: string)
      modifies this
      ensures nonces == old(nonces) + {nonce}
      ensures sessions == old(sessions) && unclaimed == old(unclaimed)
      ensures header == REALM + ", nonce=" + nonce
    {
      nonces := nonces + {nonce};
      header := REALM + ", nonce=" + nonce;
    }

    /** The handler `login(options)` returns, with the random nonce, cookie and cookie id as parameters. */
    method Login(opts: LoginOptions, lib: Library, httpMethod: string, authorization: Option<string>,
                 reqCookie: Option<string>, nonce: string, cookie: string, cid: string) returns (reply: Reply)
      requires IsHexOfBytes(cookie, COOKIE_HEX_BYTES) && IsHexOfBytes(cid, COOKIE_HEX_BYTES)
      modifies this
      ensures old(nonces) <= nonces
      ensures (State(), reply) == LoginStep(opts, lib, old(State()), httpMethod, authorization, reqCookie, nonce, cookie, cid)
    {
      if ToUpper(httpMethod) == "POST" {
        match authorization {
          case None =>
            reply := Refuse(NO_EGGS);
          case Some(h) =>
            match LoginChecks(lib, nonces, h) {
              case Err(e) =>
                reply := Refuse(e);
              case Ok(v) =>
                unclaimed := unclaimed[cid := cookie];
                sessions := sessions[cookie := NewSession(v.user)];
                reply := SuccessReply(opts, LoginHeaders(cookie, cid));
            }
        }
        assert (State(), reply) == LoginPost(opts, lib, old(State()), authorization, cookie, cid);
      } else {
        if IsLive(sessions, reqCookie) {
          reply := SuccessReply(opts, []);
        } else {
          var header := GenerateWWWAuthenticateHeader(nonce);
          reply := Reply(401, [Header("WWW-Authenticate", header)], Next);
        }
        assert (State(), reply) == LoginOther(opts, old(State()), reqCookie, nonce);
      }
    }

    /** The handler `applyCookie(redirectUrl)` returns, for the request's `cookieId`. */
    method ApplyCookie(cid: string, redirectUrl: string) returns (reply: Reply)
      modifies this
      ensures unclaimed == old(unclaimed) - {cid}
      ensures sessions == old(sessions) && nonces == old(nonces)
      ensures (State(), reply) == ApplyCookieStep(old(State()), cid, redirectUrl)
    {
      var value := if cid in unclaimed then unclaimed[cid] else "undefined";
      reply := Reply(200, [ClaimedCookie(value)], RedirectTo(redirectUrl));
      unclaimed := unclaimed - {cid};
    }
  }
}
