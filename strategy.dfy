/**
 * passport-hpga/lib/strategy.js: the HPGA passport strategy. It keeps the
 * outstanding challenges and the one-time tokens, and answers every request
 * with one passport verdict. The pure functions below are the specification
 * of one request; the class `HPGAStrategy` performs the same steps on its two
 * stores and is proved to agree with them.
 */
module Strategy {
  import opened Js
  import opened OpenPgp
  import opened AuthHeader
  import Armor
  import Pgp

  const INVALID_CHALLENGE: string := "Message does not contain valid challenge"
  const NO_KEY: string := "Could not find public key for "
  const UNSUPPORTED: string := "Unsupported method: "

  /** `crypto.randomBytes(24)` for a one-time token. */
  const TOKEN_BYTES: nat := 24

  /** The parts of an Express request the strategy reads. */
  datatype Request = Request(
    httpMethod: string,
    authorization: Option<string>,
    paramsToken: Option<string>,
    queryToken: Option<string>,
    path: string,
    /** `req.isAuthenticated()` */
    authenticated: bool,
    user: Option<Pgp.User>)

  /** The passport action a request ends in. */
  datatype Verdict =
    /** `fail('PGP challenge="<c>"')`: the challenge a client must sign. */
    | Challenge(header: string)
    /** `fail(null, status)` */
    | Fail(status: nat)
    /** `error(reason)` */
    | Error(reason: string)
    | Redirect(url: string)
    | Success(user: Option<Pgp.User>)
    /** `getUser(user, cb)` has been called; `ResumeWithUser` continues with its answer. */
    | AwaitUser(keyUser: Pgp.User)
    /** The promise of `authenticate` rejects: an exception nothing catches. */
    | Unhandled(reason: string)

  /** `options.findKey`, if it is a function, and whether a `getUser` was given. */
  datatype Config = Config(findKey: Option<string -> KeyLookup>, hasGetUser: bool)

  /** `_challenges` (its keys set to `true`) and `_oneTimeTokens`. */
  datatype Store = Store(challenges: set<string>, tokens: map<string, Option<Pgp.User>>)

  predicate IsSuccessful(v: Verdict) {
    v.Redirect? || v.AwaitUser?
  }

  // ---------------------------------------------------------------- challenges

  function ChallengeHeader(c: string): string {
    "PGP challenge=\"" + c + "\""
  }

  /** Some draw of the random source is not outstanding yet. */
  predicate HasFresh(draws: seq<string>, used: set<string>) {
    exists i :: 0 <= i < |draws| && draws[i] !in used
  }

  /** The value the do-while of `generateChallenge` stops at: the first draw not outstanding. */
  function FirstFresh(draws: seq<string>, used: set<string>): (c: string)
    requires HasFresh(draws, used)
    ensures c !in used
    ensures exists i :: 0 <= i < |draws| && draws[i] == c && forall j :: 0 <= j < i ==> draws[j] in used
    decreases |draws|
  {
    if draws[0] !in used then draws[0]
    else
      assert HasFresh(draws[1..], used) by {
        var i :| 0 <= i < |draws| && draws[i] !in used;
        assert draws[1..][i - 1] == draws[i];
      }
      var c := FirstFresh(draws[1..], used);
      assert exists i :: 0 <= i < |draws| && draws[i] == c && forall j :: 0 <= j < i ==> draws[j] in used by {
        var i :| 0 <= i < |draws[1..]| && draws[1..][i] == c && forall j :: 0 <= j < i ==> draws[1..][j] in used;
        assert draws[i + 1] == c;
        assert forall j :: 1 <= j < i + 1 ==> draws[j] == draws[1..][j - 1];
      }
      c
  }

  /** Whichever loop finds the first fresh draw finds `FirstFresh`. */
  lemma {:induction false} FirstFreshAt(draws: seq<string>, used: set<string>, i: nat)
    requires i < |draws| && draws[i] !in used
    requires forall j :: 0 <= j < i ==> draws[j] in used
    ensures FirstFresh(draws, used) == draws[i]
    decreases i
  {
    if i > 0 {
      assert draws[1..][i - 1] == draws[i];
      assert forall j :: 0 <= j < i - 1 ==> draws[1..][j] == draws[j + 1];
      FirstFreshAt(draws[1..], used, i - 1);
    }
  }

  /** `generateChallenge`: draw until fresh, then record the draw as outstanding. */
  function IssueChallenge(st: Store, draws: seq<string>): (r: (Store, string))
    requires HasFresh(draws, st.challenges)
    ensures r.1 !in st.challenges && r.1 in draws
    ensures r.0.challenges == st.challenges + {r.1} && r.0.tokens == st.tokens
  {
    var c := FirstFresh(draws, st.challenges);
    (st.(challenges := st.challenges + {c}), c)
  }

  // ---------------------------------------------------------------- one-time tokens

  /** `redirectToOneTimeURL`: remember the user under the token and send the client to its URL. */
  function IssueToken(st: Store, path: string, token: string, user: Option<Pgp.User>): (r: (Store, Verdict))
    ensures r.0.challenges == st.challenges
    ensures r.0.tokens == st.tokens[token := user]
    ensures r.1 == Redirect(path + "?token=" + token)
  {
    (st.(tokens := st.tokens[token := user]), Redirect(path + "?token=" + token))
  }

  /**
   * `req.params.token || req.query.token`: a truthy path parameter wins;
   * otherwise the query parameter, even when it is empty.
   */
  function TokenOf(req: Request): (r: Option<string>)
    ensures r.None? <==> !Truthy(req.paramsToken) && req.queryToken.None?
    ensures Truthy(req.paramsToken) ==> r == req.paramsToken
    ensures !Truthy(req.paramsToken) ==> r == req.queryToken
  {
    Or(req.paramsToken, req.queryToken)
  }

  /**
   * `handleTokenClaim`: no token is a 400; a token that names no user is a
   * 404; otherwise the token is spent and the user succeeds. The store is
   * read by its own entries (see `ClaimSucceedsAsWritten` for the lookup the
   * JavaScript object performs).
   */
  function Claim(st: Store, req: Request): (r: (Store, Verdict))
    ensures r.0.challenges == st.challenges
    ensures TokenOf(req).None? <==> r.1 == Fail(400)
    ensures r.1.Success? <==> TokenOf(req).Some? && TokenOf(req).value in st.tokens && st.tokens[TokenOf(req).value].Some?
    ensures r.1.Success? ==> r.1.user == st.tokens[TokenOf(req).value] && r.0.tokens == st.tokens - {TokenOf(req).value}
    ensures !r.1.Success? ==> r.0 == st && (r.1 == Fail(400) || r.1 == Fail(404))
  {
    match TokenOf(req)
    case None => (st, Fail(400))
    case Some(t) =>
      if t in st.tokens && st.tokens[t].Some? then (st.(tokens := st.tokens - {t}), Success(st.tokens[t]))
      else (st, Fail(404))
  }

  /** A token is spent by its claim: claiming it again is a 404, and the store stays put. */
  lemma ClaimOnce(st: Store, req: Request)
    requires Claim(st, req).1.Success?
    ensures Claim(Claim(st, req).0, req) == (Claim(st, req).0, Fail(404))
  {
  }

  /** Issuing a token and then claiming it yields the user and undoes the issue. */
  lemma IssueThenClaim(st: Store, path: string, token: string, u: Pgp.User, req: Request)
    requires token !in st.tokens
    requires TokenOf(req) == Some(token)
    ensures Claim(IssueToken(st, path, token, Some(u)).0, req) == (st, Success(Some(u)))
  {
    assert st.tokens[token := Some(u)] - {token} == st.tokens;
  }

  /**
   * What `this._oneTimeTokens[token]` finds on the JavaScript object: own
   * entries, and the members every `{}` inherits. A claim goes through when
   * that value is not null or undefined.
   */
  predicate ClaimSucceedsAsWritten(tokens: map<string, Option<Pgp.User>>, token: string) {
    match Get(tokens, token)
    case Own(u) => u.Some?
    case Inherited(_) => true
    case Undefined => false
  }

  /** The lookup as written agrees with `Claim` except on the inherited member names. */
  lemma ClaimAsWrittenAgrees(st: Store, req: Request)
    requires TokenOf(req).Some? && TokenOf(req).value !in INHERITED_NAMES
    ensures ClaimSucceedsAsWritten(st.tokens, TokenOf(req).value) <==> Claim(st, req).1.Success?
  {
  }

  /** `?token=constructor` on an empty store: the source calls `success` with `Object`. */
  lemma InheritedTokenIsClaimed(req: Request)
    requires TokenOf(req) == Some("constructor")
    ensures ClaimSucceedsAsWritten(map[], "constructor")
    ensures Claim(Store({}, map[]), req).1 == Fail(404)
  {
    assert "constructor" in INHERITED_NAMES;
  }

  // ---------------------------------------------------------------- verification

  /** `type.toUpperCase() !== 'PGP'` with ASCII upper-casing: the scheme is PGP in any case. */
  lemma SchemeCaseInsensitive(s: string)
    ensures ToUpper(s) == "PGP" <==>
      |s| == 3 && (s[0] == 'P' || s[0] == 'p') && (s[1] == 'G' || s[1] == 'g') && (s[2] == 'P' || s[2] == 'p')
  {
    if |s| == 3 {
      var u := ToUpper(s);
      assert u == [UpperChar(s[0]), UpperChar(s[1]), UpperChar(s[2])];
    }
  }

  /**
   * `findKey` of the strategy: the application's `findKey` first, where both a
   * throw and a null answer count as no key; then the key server, whose
   * rejection is not caught.
   */
  function ResolveKey(cfg: Config, lib: Library, keyId: string): (r: KeyLookup)
    ensures cfg.findKey.Some? && cfg.findKey.value(keyId).Found? ==> r == cfg.findKey.value(keyId)
    ensures !(cfg.findKey.Some? && cfg.findKey.value(keyId).Found?) ==> r == Pgp.FindKey(lib, keyId)
    ensures r.NotFound? <==>
      && !(cfg.findKey.Some? && cfg.findKey.value(keyId).Found?)
      && lib.hkpLookup(keyId).Ok? && lib.readKey(lib.hkpLookup(keyId).value).None?
  {
    if cfg.findKey.Some? && cfg.findKey.value(keyId).Found? then cfg.findKey.value(keyId)
    else Pgp.FindKey(lib, keyId)
  }

  /** How far the header gets: a message with its signing key id, or the verdict that ends it. */
  datatype Signed = Signed(msg: Message, keyId: string) | Halted(verdict: Verdict)

  /**
   * Lines 81-94: split the header, check the scheme, read the armored
   * message and take its signing key id. A header that does not split makes
   * the destructuring throw; so does a body without armor tokens, or one the
   * OpenPGP parser rejects.
   */
  function ReadSigned(lib: Library, header: string): (r: Signed)
    ensures SplitAuthHeader(header).None? ==> r == Halted(Unhandled(TYPE_ERROR))
    ensures SplitAuthHeader(header).Some? && ToUpper(SplitAuthHeader(header).value.scheme) != "PGP"
            ==> r == Halted(Fail(400))
    ensures r.Halted? ==> r.verdict == Fail(400) || r.verdict.Error? || r.verdict.Unhandled?
    ensures r.Signed? ==>
      && SplitAuthHeader(header).Some?
      && ToUpper(SplitAuthHeader(header).value.scheme) == "PGP"
      && Armor.ReadArmoredText(SplitAuthHeader(header).value.rest).Ok?
      && lib.readMessage(Armor.ReadArmoredText(SplitAuthHeader(header).value.rest).value) == Ok(r.msg)
      && Pgp.GetSigningKeyId(lib.signingKeyIds(r.msg)) == Ok(r.keyId)
    ensures SplitAuthHeader(header).Some? && ToUpper(SplitAuthHeader(header).value.scheme) == "PGP" ==>
      var text := Armor.ReadArmoredText(SplitAuthHeader(header).value.rest);
      && (text.Err? ==> r == Halted(Unhandled(text.error)))
      && (text.Ok? && lib.readMessage(text.value).Err? ==> r == Halted(Unhandled(lib.readMessage(text.value).error)))
      && (text.Ok? && lib.readMessage(text.value).Ok? ==>
            var signers := lib.signingKeyIds(lib.readMessage(text.value).value);
            && (signers == [] ==> r == Halted(Error(Pgp.NO_SIGNATURES)))
            && (signers != [] ==> r == Signed(lib.readMessage(text.value).value, ToUpper(signers[0]))))
  {
    match SplitAuthHeader(header)
    case None => Halted(Unhandled(TYPE_ERROR))
    case Some(Split(scheme, body)) =>
      if ToUpper(scheme) != "PGP" then Halted(Fail(400))
      else match Armor.ReadArmoredText(body)
        case Err(e) => Halted(Unhandled(e))
        case Ok(text) =>
          match lib.readMessage(text)
          case Err(e) => Halted(Unhandled(e))
          case Ok(msg) =>
            match Pgp.GetSigningKeyId(lib.signingKeyIds(msg))
            case Err(e) => Halted(Error(e))
            case Ok(keyId) => Signed(msg, keyId)
  }

  /** The signature check passes with the verified user and data, or ends the request. */
  datatype Checked = Passed(verified: Pgp.Verified) | Stopped(verdict: Verdict)

  /** Lines 96-110: resolve the key, then verify the message against it. */
  function CheckSignature(cfg: Config, lib: Library, header: string): (r: Checked)
    ensures ReadSigned(lib, header).Halted? ==> r == Stopped(ReadSigned(lib, header).verdict)
    ensures ReadSigned(lib, header).Signed? && ResolveKey(cfg, lib, ReadSigned(lib, header).keyId).NotFound?
            ==> r == Stopped(Error(NO_KEY + ReadSigned(lib, header).keyId))
    ensures r.Stopped? ==> r.verdict == Fail(400) || r.verdict.Error? || r.verdict.Unhandled?
    ensures r.Passed? ==>
      && ReadSigned(lib, header).Signed?
      && var s := ReadSigned(lib, header);
         && ResolveKey(cfg, lib, s.keyId).Found?
         && Pgp.Verify(lib, s.msg, ResolveKey(cfg, lib, s.keyId).key) == Ok(r.verified)
    ensures ReadSigned(lib, header).Signed? ==>
      var s := ReadSigned(lib, header);
      var k := ResolveKey(cfg, lib, s.keyId);
      && (k.Threw? ==> r == Stopped(Unhandled(k.reason)))
      && (k.Found? && Pgp.Verify(lib, s.msg, k.key).Err? ==> r == Stopped(Error(Pgp.Verify(lib, s.msg, k.key).error)))
      && (k.Found? && Pgp.Verify(lib, s.msg, k.key).Ok? ==> r == Passed(Pgp.Verify(lib, s.msg, k.key).value))
  {
    match ReadSigned(lib, header)
    case Halted(v) => Stopped(v)
    case Signed(msg, keyId) =>
      match ResolveKey(cfg, lib, keyId)
      case Threw(e) => Stopped(Unhandled(e))
      case NotFound => Stopped(Error(NO_KEY + keyId))
      case Found(key) =>
        match Pgp.Verify(lib, msg, key)
        case Err(e) => Stopped(Error(e))
        case Ok(v) => Passed(v)
  }

  /**
   * `handleVerification`: after the signature check the signed data must be
   * an outstanding challenge, which is then spent; the user goes to the
   * application's `getUser` when there is one, else straight to a one-time URL.
   */
  function VerifyStep(cfg: Config, lib: Library, st: Store, header: string, path: string, token: string): (r: (Store, Verdict))
    ensures !IsSuccessful(r.1) ==> r.0 == st
    ensures r.1 == Fail(400) || r.1.Error? || r.1.Unhandled? || IsSuccessful(r.1)
    ensures IsSuccessful(r.1) ==>
      && CheckSignature(cfg, lib, header).Passed?
      && var d := CheckSignature(cfg, lib, header).verified.data;
         && d in st.challenges
         && r.0.challenges == st.challenges - {d}
    ensures CheckSignature(cfg, lib, header).Stopped? ==> r == (st, CheckSignature(cfg, lib, header).verdict)
    ensures CheckSignature(cfg, lib, header).Passed? ==>
      var v := CheckSignature(cfg, lib, header).verified;
      var st1 := st.(challenges := st.challenges - {v.data});
      && (v.data !in st.challenges ==> r == (st, Error(INVALID_CHALLENGE)))
      && (v.data in st.challenges && cfg.hasGetUser ==> r == (st1, AwaitUser(v.user)))
      && (v.data in st.challenges && !cfg.hasGetUser ==> r == IssueToken(st1, path, token, Some(v.user)))
  {
    match CheckSignature(cfg, lib, header)
    case Stopped(v) => (st, v)
    case Passed(v) =>
      if v.data !in st.challenges then (st, Error(INVALID_CHALLENGE))
      else
        var st1 := st.(challenges := st.challenges - {v.data});
        if cfg.hasGetUser then (st1, AwaitUser(v.user))
        else IssueToken(st1, path, token, Some(v.user))
  }

  /** The continuation handed to `getUser`: an error ends the request, a user gets a one-time URL. */
  function ResumeStep(st: Store, path: string, token: string, err: Option<string>, user: Option<Pgp.User>): (r: (Store, Verdict))
    ensures Truthy(err) ==> r == (st, Error(err.value))
    ensures !Truthy(err) ==> r == IssueToken(st, path, token, user)
  {
    if Truthy(err) then (st, Error(err.value)) else IssueToken(st, path, token, user)
  }

  /** A scheme other than PGP, in any letter case, is a 400 and touches neither store. */
  lemma BadSchemeFails(cfg: Config, lib: Library, st: Store, header: string, path: string, token: string)
    requires SplitAuthHeader(header).Some? && ToUpper(SplitAuthHeader(header).value.scheme) != "PGP"
    ensures VerifyStep(cfg, lib, st, header, path, token) == (st, Fail(400))
  {
  }

  /** When neither the application nor the key server has the key, the request errs with the id. */
  lemma MissingKeyIsError(cfg: Config, lib: Library, st: Store, header: string, path: string, token: string, msg: Message, keyId: string)
    requires ReadSigned(lib, header) == Signed(msg, keyId)
    requires !(cfg.findKey.Some? && cfg.findKey.value(keyId).Found?)
    requires lib.hkpLookup(keyId).Ok? && lib.readKey(lib.hkpLookup(keyId).value).None?
    ensures VerifyStep(cfg, lib, st, header, path, token) == (st, Error(NO_KEY + keyId))
  {
  }

  /** A key found by the application is used as it is: the key server plays no part. */
  lemma AppKeyWins(cfg: Config, lib1: Library, lib2: Library, keyId: string)
    requires cfg.findKey.Some? && cfg.findKey.value(keyId).Found?
    ensures ResolveKey(cfg, lib1, keyId) == ResolveKey(cfg, lib2, keyId) == cfg.findKey.value(keyId)
  {
  }

  /** Signed data that is not an outstanding challenge is refused, and nothing changes. */
  lemma UnknownChallengeRejected(cfg: Config, lib: Library, st: Store, header: string, path: string, token: string)
    requires CheckSignature(cfg, lib, header).Passed?
    requires CheckSignature(cfg, lib, header).verified.data !in st.challenges
    ensures VerifyStep(cfg, lib, st, header, path, token) == (st, Error(INVALID_CHALLENGE))
  {
  }

  /**
   * A challenge is good for one verification: once a header has been
   * accepted, presenting the same header again is refused.
   */
  lemma ReplayRejected(cfg: Config, lib: Library, st: Store, header: string, path: string, token: string, token2: string)
    requires IsSuccessful(VerifyStep(cfg, lib, st, header, path, token).1)
    ensures
      var st1 := VerifyStep(cfg, lib, st, header, path, token).0;
      VerifyStep(cfg, lib, st1, header, path, token2) == (st1, Error(INVALID_CHALLENGE))
  {
    var st1 := VerifyStep(cfg, lib, st, header, path, token).0;
    UnknownChallengeRejected(cfg, lib, st1, header, path, token2);
  }

  /** An accepted header carries a valid signature by the resolved key's primary key. */
  lemma AcceptedIsSigned(cfg: Config, lib: Library, st: Store, header: string, path: string, token: string)
    requires IsSuccessful(VerifyStep(cfg, lib, st, header, path, token).1)
    ensures
      var s := ReadSigned(lib, header);
      && s.Signed? && ResolveKey(cfg, lib, s.keyId).Found?
      && var key := ResolveKey(cfg, lib, s.keyId).key;
         && lib.verify(s.msg, key).Ok?
         && exists i :: 0 <= i < |lib.verify(s.msg, key).value.signatures| &&
              Pgp.SignedBy(lib.verify(s.msg, key).value.signatures[i], ToUpper(key.primaryKeyId))
  {
  }

  // ---------------------------------------------------------------- authenticate

  /** The branch `authenticate` takes, in the order its conditions are tried. */
  datatype Route = VerifyRoute | NoHeader | ClaimRoute | AlreadyAuthenticated | ChallengeRoute | Unsupported

  function RouteOf(req: Request): (r: Route)
    ensures r == VerifyRoute <==> req.httpMethod == "POST" && Truthy(req.authorization)
    ensures r == NoHeader <==> req.httpMethod == "POST" && !Truthy(req.authorization)
    ensures r == ClaimRoute <==> req.httpMethod == "GET" && Truthy(TokenOf(req))
    ensures r == AlreadyAuthenticated <==>
      req.httpMethod != "POST" && !(req.httpMethod == "GET" && Truthy(TokenOf(req))) && req.authenticated
    ensures r == ChallengeRoute <==> req.httpMethod == "GET" && !Truthy(TokenOf(req)) && !req.authenticated
    ensures r == Unsupported <==> req.httpMethod != "POST" && req.httpMethod != "GET" && !req.authenticated
  {
    if req.httpMethod == "POST" && Truthy(req.authorization) then VerifyRoute
    else if req.httpMethod == "POST" then NoHeader
    else if req.httpMethod == "GET" && Truthy(TokenOf(req)) then ClaimRoute
    else if req.authenticated then AlreadyAuthenticated
    else if req.httpMethod == "GET" then ChallengeRoute
    else Unsupported
  }

  /** `authenticate(req)`: one request against the two stores. */
  function AuthenticateStep(cfg: Config, lib: Library, st: Store, req: Request, draws: seq<string>, token: string): (r: (Store, Verdict))
    requires RouteOf(req) == ChallengeRoute ==> HasFresh(draws, st.challenges)
    ensures r.1.Challenge? <==> RouteOf(req) == ChallengeRoute
    ensures r.1.Success? ==> RouteOf(req) == ClaimRoute || RouteOf(req) == AlreadyAuthenticated
    ensures IsSuccessful(r.1) ==> RouteOf(req) == VerifyRoute
    ensures RouteOf(req) == VerifyRoute ==>
      r == VerifyStep(cfg, lib, st, req.authorization.value, req.path, token)
    ensures RouteOf(req) == NoHeader ==> r == (st, Fail(400))
    ensures RouteOf(req) == ClaimRoute ==> r == Claim(st, req)
    ensures RouteOf(req) == AlreadyAuthenticated ==> r == (st, Success(req.user))
    ensures RouteOf(req) == ChallengeRoute ==>
      r == (IssueChallenge(st, draws).0, Challenge(ChallengeHeader(IssueChallenge(st, draws).1)))
    ensures RouteOf(req) == Unsupported ==> r == (st, Error(UNSUPPORTED + req.httpMethod))
  {
    match RouteOf(req)
    case VerifyRoute => VerifyStep(cfg, lib, st, req.authorization.value, req.path, token)
    case NoHeader => (st, Fail(400))
    case ClaimRoute => Claim(st, req)
    case AlreadyAuthenticated => (st, Success(req.user))
    case ChallengeRoute =>
      var (st1, c) := IssueChallenge(st, draws);
      (st1, Challenge(ChallengeHeader(c)))
    case Unsupported => (st, Error(UNSUPPORTED + req.httpMethod))
  }

  /**
   * Only a challenge request adds a challenge, only a verification spends
   * one, and only a verification or a claim touches the tokens.
   */
  lemma AuthenticateFrame(cfg: Config, lib: Library, st: Store, req: Request, draws: seq<string>, token: string)
    requires RouteOf(req) == ChallengeRoute ==> HasFresh(draws, st.challenges)
    ensures
      var r := AuthenticateStep(cfg, lib, st, req, draws, token);
      && (RouteOf(req) != ChallengeRoute ==> r.0.challenges <= st.challenges)
      && (RouteOf(req) != VerifyRoute ==> st.challenges <= r.0.challenges)
      && (RouteOf(req) != VerifyRoute && RouteOf(req) != ClaimRoute ==> r.0.tokens == st.tokens)
  {
  }

  /** A challenge request issues a fresh challenge and answers with it. */
  lemma ChallengeRequestIssues(cfg: Config, lib: Library, st: Store, req: Request, draws: seq<string>, token: string)
    requires RouteOf(req) == ChallengeRoute && HasFresh(draws, st.challenges)
    ensures
      var r := AuthenticateStep(cfg, lib, st, req, draws, token);
      var c := FirstFresh(draws, st.challenges);
      && c !in st.challenges
      && r == (st.(challenges := st.challenges + {c}), Challenge(ChallengeHeader(c)))
  {
  }

  /**
   * The flow the strategy exists for: a client asks for a challenge, signs
   * it, and posts the signed header. The header is accepted and spends the
   * challenge; the user goes to `getUser` or straight to a one-time URL; and
   * the same header is refused if it is posted again.
   */
  lemma ChallengeThenVerify(cfg: Config, lib: Library, st: Store, get: Request, post: Request, draws: seq<string>,
                            token: string, msg: Message, keyId: string, key: PublicKey, v: Pgp.Verified)
    requires RouteOf(get) == ChallengeRoute && HasFresh(draws, st.challenges)
    requires post.httpMethod == "POST" && Truthy(post.authorization)
    requires ReadSigned(lib, post.authorization.value) == Signed(msg, keyId)
    requires ResolveKey(cfg, lib, keyId) == Found(key)
    requires Pgp.Verify(lib, msg, key) == Ok(v)
    requires v.data == FirstFresh(draws, st.challenges)
    ensures
      var st1 := AuthenticateStep(cfg, lib, st, get, draws, token).0;
      var (st2, verdict) := AuthenticateStep(cfg, lib, st1, post, draws, token);
      && st2.challenges == st.challenges
      && (cfg.hasGetUser ==> verdict == AwaitUser(v.user) && st2.tokens == st.tokens)
      && (!cfg.hasGetUser ==> verdict == Redirect(post.path + "?token=" + token) && st2.tokens == st.tokens[token := Some(v.user)])
      && AuthenticateStep(cfg, lib, st2, post, draws, token) == (st2, Error(INVALID_CHALLENGE))
  {
    var c := FirstFresh(draws, st.challenges);
    var st1 := AuthenticateStep(cfg, lib, st, get, draws, token).0;
    assert st1 == st.(challenges := st.challenges + {c});
    assert CheckSignature(cfg, lib, post.authorization.value) == Passed(v);
    assert st1.challenges - {c} == st.challenges;
    var st2 := AuthenticateStep(cfg, lib, st1, post, draws, token).0;
    UnknownChallengeRejected(cfg, lib, st2, post.authorization.value, post.path, token);
  }

  // ---------------------------------------------------------------- the strategy object

  class HPGAStrategy {
    const config: Config
    var challenges: set<string>
    var tokens: map<string, Option<Pgp.User>>

    function State(): Store
      reads this
    {
      Store(challenges, tokens)
    }

    /** Both stores start empty. */
    constructor(config: Config)
      ensures this.config == config
      ensures challenges == {} && tokens == map[]
    {
      this.config := config;
      challenges := {};
      tokens := map[];
    }

    /** `generateChallenge`, drawing from `draws` in order. */
    method GenerateChallenge(draws: seq<string>) returns (c: string)
      requires HasFresh(draws, challenges)
      modifies this
      ensures c !in old(challenges)
      ensures challenges == old(challenges) + {c} && tokens == old(tokens)
      ensures (State(), c) == IssueChallenge(old(State()), draws)
    {
      var i := 0;
      c := draws[0];
      while c in challenges
        invariant 0 <= i < |draws| && c == draws[i]
        invariant forall j :: 0 <= j < i ==> draws[j] in challenges
        invariant exists j :: i <= j < |draws| && draws[j] !in challenges
        decreases |draws| - i
      {
        i := i + 1;
        c := draws[i];
      }
      FirstFreshAt(draws, challenges, i);
      challenges := challenges + {c};
    }

    method RedirectToOneTimeURL(path: string, token: string, user: Option<Pgp.User>) returns (v: Verdict)
      requires IsHexOfBytes(token, TOKEN_BYTES)
      modifies this
      ensures tokens == old(tokens)[token := user] && challenges == old(challenges)
      ensures v == Redirect(path + "?token=" + token)
      ensures (State(), v) == IssueToken(old(State()), path, token, user)
    {
      tokens := tokens[token := user];
      v := Redirect(path + "?token=" + token);
    }

    method HandleVerification(lib: Library, header: string, path: string, token: string) returns (v: Verdict)
      requires IsHexOfBytes(token, TOKEN_BYTES)
      modifies this
      ensures (State(), v) == VerifyStep(config, lib, old(State()), header, path, token)
    {
      match CheckSignature(config, lib, header) {
        case Stopped(stop) =>
          v := stop;
        case Passed(verified) =>
          if verified.data !in challenges {
            v := Error(INVALID_CHALLENGE);
          } else {
            challenges := challenges - {verified.data};
            if config.hasGetUser {
              v := AwaitUser(verified.user);
            } else {
              v := RedirectToOneTimeURL(path, token, Some(verified.user));
            }
          }
      }
    }

    /** The callback `getUser` is given, called with its answer. */
    method ResumeWithUser(path: string, token: string, err: Option<string>, user: Option<Pgp.User>) returns (v: Verdict)
      requires IsHexOfBytes(token, TOKEN_BYTES)
      modifies this
      ensures (State(), v) == ResumeStep(old(State()), path, token, err, user)
    {
      if Truthy(err) {
        v := Error(err.value);
      } else {
        v := RedirectToOneTimeURL(path, token, user);
      }
    }

    method HandleTokenClaim(req: Request) returns (v: Verdict)
      modifies this
      ensures (State(), v) == Claim(old(State()), req)
    {
      var token := TokenOf(req);
      if token.None? {
        v := Fail(400);
      } else if token.value in tokens && tokens[token.value].Some? {
        var user := tokens[token.value];
        tokens := tokens - {token.value};
        v := Success(user);
      } else {
        v := Fail(404);
      }
    }

    method Authenticate(lib: Library, req: Request, draws: seq<string>, token: string) returns (v: Verdict)
      requires IsHexOfBytes(token, TOKEN_BYTES)
      requires RouteOf(req) == ChallengeRoute ==> HasFresh(draws, challenges)
      modifies this
      ensures (State(), v) == AuthenticateStep(config, lib, old(State()), req, draws, token)
    {
      if req.httpMethod == "POST" && Truthy(req.authorization) {
        v := HandleVerification(lib, req.authorization.value, req.path, token);
      } else if req.httpMethod == "POST" {
        v := Fail(400);
      } else if req.httpMethod == "GET" && Truthy(TokenOf(req)) {
        v := HandleTokenClaim(req);
      } else if req.authenticated {
        v := Success(req.user);
      } else if req.httpMethod == "GET" {
        var c := GenerateChallenge(draws);
        v := Challenge(ChallengeHeader(c));
      } else {
        v := Error(UNSUPPORTED + req.httpMethod);
      }
    }
  }
}
