# HPGA — HTTP PGP Authentication, modelled in Dafny

HPGA logs a client in with a detached proof of key ownership. The server
hands out a random challenge, or nonce. The client signs it with its PGP
key and sends the signed, armored message back in an `Authorization: PGP …`
header. The server reads the signing key id and fetches that key, from an
application cache or a key server. It checks that a valid signature by the
key's primary key is present, and that the signed text is a challenge it
issued. Then it logs in the user named by the key's first user id.

The repository holds two implementations of this flow, and both are modelled:

* **the passport strategy** (`passport-hpga/lib/strategy.js` with its helper
  `passport-hpga/lib/pgp.js`): challenges are spent on use. A successful
  verification does not log the client in directly. It parks the user under a
  one-time token and redirects to `<path>?token=<token>`; claiming that URL
  spends the token and succeeds with the user;
* **the prototype server** (`server/session.js` with `server/pgp.js`): nonces
  go out in `WWW-Authenticate` headers and are never spent. A login creates a
  session under a random cookie and parks the cookie under a random cookie id
  for `applyCookie`; `ensureLoggedIn` admits requests whose cookie names a
  session.

The example application's callbacks (`node-example/hpga.js`) are modelled
too: find-or-create users by email, a public-key cache, and user
(de)serialisation.

## Modules

| file | module | contents |
|---|---|---|
| `js.dfy` | `Js` | the JavaScript semantics the code relies on: `null`/`undefined` as `Option`, thrown errors as `Result`, the truthiness rule of the or-operator, ASCII `toUpperCase`, `trim`, string-pattern `replace`, the line terminators regex `.` refuses, and reads of `{}` dictionaries (`Get`, with the members inherited from `Object.prototype`) |
| `openpgp.dfy` | `OpenPgp` | the OpenPGP library and the key server, as a `Library` value of functions: message parsing, signing key ids, `openpgp.verify`, HKP lookup and key parsing |
| `armor.dfy` | `Armor` | the `PGP_RE` tokeniser and line rebuilding of `readArmored` |
| `pgp.dfy` | `Pgp` | `parseUserId`, `getSigningKeyId`, signature selection, `verify`, `findKey` of `passport-hpga/lib/pgp.js` |
| `server_pgp.dfy` | `ServerPgp` | `verify` of `server/pgp.js`, with its (always empty) key cache |
| `auth_header.dfy` | `AuthHeader` | `AUTH_HDR_RE`, shared by the strategy and the server |
| `strategy.dfy` | `Strategy` | one pure step function per strategy method over the two stores, and the class `HPGAStrategy` whose methods are proved to perform those steps |
| `session.dfy` | `Session` | `parseAuthHeader`, the login, cookie, logout and gate handlers as step functions, and the class `SessionServer` holding the three module-level dictionaries |
| `example_app.dfy` | `ExampleApp` | the example's `getUser`, key cache and (de)serialisation, and the class `App` holding its `users` and `keyCache` |

Randomness, the network and the OpenPGP library are parameters. A method
receives the random draws (challenge candidates, nonces, tokens, cookies,
ids) and a `Library`. Hex strings that come from `crypto.randomBytes(n)` are
required to be `2n` lower-case hex digits (`Js.IsHexOfBytes`).

Where the design text and the code disagree, the model follows the code. The
three source defects listed under "## Findings" are the exception: each is
modelled as written by its own member, and the rest of the model, including
the classes, uses the corrected behaviour.

* Challenges, one-time tokens, nonces and sessions never expire; there is no
  clock anywhere in the code.
* `server/session.js` never deletes a nonce after use, so a signed nonce can
  log in again and again. This is modelled as written, and proved as
  `Session.NonceReplayAccepted`. A nonce-spending variant is not modelled.
* The strategy checks a challenge and deletes it in one synchronous callback
  (passport-hpga/lib/strategy.js:112-115), so no other request runs in
  between; the model performs both in one step (`Strategy.VerifyStep`). The
  server only checks its nonces and never removes them.

## Model

| member | source | states |
|---|---|---|
| `Armor.ArmorLenIsArmorLine` | passport-hpga/lib/pgp.js:5 | a positive length matched by the armor-line alternative (`Armor.ArmorLen`) covers such a line: five dashes, `BEGIN PGP ` or `END PGP `, upper-case letters, five dashes |
| `Armor.UpperRunOf` | passport-hpga/lib/pgp.js:5 | `[A-Z]*` takes a run of upper-case letters whole when the next character is not one |
| `Armor.ArmorLineMatchedWhole` | passport-hpga/lib/pgp.js:5 | conversely, an armor line at the start of a text is matched whole, by the armor alternative, and so by the pattern |
| `Armor.ArmorLineTokenFirst` | passport-hpga/lib/pgp.js:98 | a text that starts with an armor line yields that line as its first match, followed by the matches of the rest |
| `Armor.UpperRun` | passport-hpga/lib/pgp.js:5 | the greedy `[A-Z]*` run: every character in it is upper case and the next one is not |
| `Armor.Base64Run` | passport-hpga/lib/pgp.js:5 | the greedy `[a-zA-Z0-9+/=]{1,64}` run: at most 64 characters, all base64, stopping at the cap or at the first other character |
| `Armor.MatchIsToken` | passport-hpga/lib/pgp.js:5 | whatever the pattern matches at a position is an armor line or a base64 run |
| `Armor.Tokens` | passport-hpga/lib/pgp.js:98 | the global `match` yields no more matches than the text has characters (what each match is, `Armor.TokensAreTokens` states) |
| `Armor.TokensAreTokens` | passport-hpga/lib/pgp.js:98 | every match that the global `match` returns (`Armor.Tokens`) is an armor line or a base64 run |
| `Armor.TokenHasNoNewline` | passport-hpga/lib/pgp.js:5 | no match of the pattern contains a newline |
| `Armor.TokensSplitAtSeparator` | passport-hpga/lib/pgp.js:98 | a character that neither alternative can contain splits the matches: those of `x + [c] + y` are those of `x` followed by those of `y` |
| `Armor.LinesOfJoin` | passport-hpga/lib/pgp.js:100 | splitting on newlines undoes `join('\n')` of newline-free pieces |
| `Armor.JoinWithBlankSecondLine` | passport-hpga/lib/pgp.js:99-100 | appending `\n` to the first piece and then joining is joining with an empty line inserted after the first piece |
| `Armor.ReadArmoredText` | passport-hpga/lib/pgp.js:93-101 | a TypeError exactly when the pattern has no match; otherwise the parser receives text whose lines are the first match, an empty line, and the remaining matches in order |
| `Pgp.UserIdPieces` | passport-hpga/lib/pgp.js:4 | a user id ending in `>` splits at its first `<` into name, optional space, email and `>` |
| `Pgp.ParseUserId` | passport-hpga/lib/pgp.js:19-30 | null exactly when the text has a line terminator, has no `<`, or does not end in `>`; otherwise the user id is `name <email>` or `name<email>` (with no trailing space on the name), and the name holds no `<`. `server/pgp.js:11-22` is the same function |
| `Pgp.ParseUserIdRoundTrip` | passport-hpga/lib/pgp.js:19-30 | formatting a name and an email as `name <email>`, or as `name<email>` when the name does not end in a space, parses back to the same name and email |
| `Pgp.GetSigningKeyId` | passport-hpga/lib/pgp.js:38-50 | the no-signatures error exactly when there is no signer; otherwise the first signer's id upper-cased: same length, each lower-case letter replaced by its upper-case letter, every other character kept |
| `Pgp.FindSignature` | passport-hpga/lib/pgp.js:71-73 | a signature is found exactly when some signature is valid and its upper-cased key id is the wanted id, and the one found is such a signature from the list |
| `Pgp.Verify` | passport-hpga/lib/pgp.js:61-84 | succeeds exactly when the library verifies the message, some valid signature is by the key's primary key id, and the key's first user id parses; a library error is passed on; without the signature it is `Invalid signature`; on success the user carries the parsed name and email, the key's packets and the upper-cased primary key id, and the data is the signed data |
| `Pgp.FindKey` | passport-hpga/lib/pgp.js:110-113 | a key-server rejection is passed on as a throw; a key is found exactly when the server answers and its answer holds a key, and that key is the one found |
| `ServerPgp.UpperNotInherited` | server/pgp.js:35 | an upper-cased key id is never a name inherited by `{}`, so `pkCache[publicKeyId]` reads only own entries |
| `ServerPgp.KeyText` | server/pgp.js:33-39 | a cached key text for the upper-cased signer id is used when present; otherwise the key server is asked |
| `ServerPgp.AlwaysKeyServer` | server/pgp.js:9 | with the cache as the module builds it, and nothing ever added to it, every key comes from the key server |
| `ServerPgp.Verify` | server/pgp.js:24-55 | each outcome in the order the code meets it: a message parsing error and the no-signer error are passed on; then a rejected key lookup, a key text with no key (TypeError), a library rejection, no valid signature by the first signer (`Invalid signature`) and a key with no user id (TypeError); otherwise success with the signed data and the parse of the key's first user id, which may be null |
| `ServerPgp.InvalidSignatureIff` | server/pgp.js:46-52 | once message and key are in hand, `verify` fails with `Invalid signature` exactly when no valid signature carries the first signer's upper-cased id |
| `AuthHeader.SplitAuthHeader` | passport-hpga/lib/strategy.js:6 | no match exactly when the header has no space or the text after its first space holds a line terminator; otherwise the header is the space-free scheme, one space and the one-line rest. `server/session.js:26` is the same pattern |
| `AuthHeader.SplitRoundTrip` | passport-hpga/lib/strategy.js:81 | a space-free scheme, a space and a one-line rest split back into that scheme and rest |
| `Strategy.FirstFresh` | passport-hpga/lib/strategy.js:40-42 | the challenge the do-while stops at: a draw that is not outstanding, with every earlier draw outstanding |
| `Strategy.FirstFreshAt` | passport-hpga/lib/strategy.js:40-42 | the first draw that is not outstanding is the one `FirstFresh` picks |
| `Strategy.IssueChallenge` | passport-hpga/lib/strategy.js:37-50 | the issued challenge is one of the draws and was not outstanding before; it is added to the outstanding challenges and the tokens are untouched |
| `Strategy.HPGAStrategy.GenerateChallenge` | passport-hpga/lib/strategy.js:37-50 | the loop draws until a challenge is fresh, records it, and leaves the object in the state `IssueChallenge` describes |
| `Strategy.IssueToken` | passport-hpga/lib/strategy.js:64-68 | the user is stored under the token, challenges are untouched, and the verdict is a redirect to `<path>?token=<token>` |
| `Strategy.TokenOf` | passport-hpga/lib/strategy.js:151 | a truthy `params.token` is the token; otherwise `query.token`, even an empty one; no token exactly when `params.token` is not truthy and `query.token` is absent |
| `Strategy.HPGAStrategy.RedirectToOneTimeURL` | passport-hpga/lib/strategy.js:64-68 | stores the user under a 24-byte hex token and redirects, as `IssueToken` says |
| `Strategy.Claim` | passport-hpga/lib/strategy.js:150-165 | 400 exactly when `params.token` is not truthy and `query.token` is absent (an empty `?token=` is looked up and gets 404); success exactly when the token names a stored, non-null user, who is returned while the token is removed; otherwise 404; a failed claim leaves both stores as they were |
| `Strategy.HPGAStrategy.HandleTokenClaim` | passport-hpga/lib/strategy.js:150-165 | the object performs `Claim` on its stores, reading the tokens by own entries: the corrected lookup of the first finding |
| `Strategy.ClaimOnce` | passport-hpga/lib/strategy.js:163 | a token is spent by its claim: claiming it again is a 404 and changes nothing |
| `Strategy.IssueThenClaim` | passport-hpga/lib/strategy.js:64-68 | issuing a fresh token and claiming it yields the user and restores the store as it was before the issue |
| `Strategy.ClaimAsWrittenAgrees` | passport-hpga/lib/strategy.js:157-159 | the object lookup as written gives the same outcome as `Claim` for every token that is not a name inherited from `Object.prototype` |
| `Strategy.InheritedTokenIsClaimed` | passport-hpga/lib/strategy.js:157-164 | with no tokens issued, `?token=constructor` passes the lookup as written, while `Claim` answers 404 |
| `Strategy.SchemeCaseInsensitive` | passport-hpga/lib/strategy.js:83 | the scheme passes the upper-cased comparison exactly when it is `PGP` in any mix of letter cases |
| `Strategy.ResolveKey` | passport-hpga/lib/strategy.js:98-108 | the application's `findKey` result is used when it finds a key, whether its key is missing or it throws; otherwise the key server's; a key is missing exactly when neither finds one and the server's answer holds no key |
| `Strategy.AppKeyWins` | passport-hpga/lib/strategy.js:98-102 | a key found by the application is the key used, whatever the key server would answer |
| `Strategy.ReadSigned` | passport-hpga/lib/strategy.js:81-94 | a header that does not split is an uncaught TypeError; a scheme other than PGP is a 400; with a PGP scheme, an armor-reading or message-parsing error is uncaught, no signer is the no-signatures error, and a parsed message with a signer is read, with the first signer's upper-cased id; nothing else is read |
| `Strategy.CheckSignature` | passport-hpga/lib/strategy.js:96-110 | what `ReadSigned` stops at is kept; for a read message, a throwing key server is uncaught, an unresolved key is the `Could not find public key for <id>` error, a `Pgp.Verify` error is the verdict, and an accepting `Pgp.Verify` with the resolved key passes with its user and data; a pass happens only that way |
| `Strategy.VerifyStep` | passport-hpga/lib/strategy.js:78-137 | a stopped signature check is the verdict and changes nothing; signed data that is not an outstanding challenge is `Message does not contain valid challenge` and changes nothing; signed data that is outstanding is removed from the challenges and the user goes to `getUser` (`AwaitUser`) when there is one, else to a one-time URL as `IssueToken` says; only those two outcomes change the stores |
| `Strategy.HPGAStrategy.HandleVerification` | passport-hpga/lib/strategy.js:78-137 | the object performs `VerifyStep` on its stores |
| `Strategy.ResumeStep` | passport-hpga/lib/strategy.js:126-131 | a truthy error from `getUser` is the verdict and changes nothing; otherwise the application's user gets a one-time URL as `IssueToken` says |
| `Strategy.HPGAStrategy.ResumeWithUser` | passport-hpga/lib/strategy.js:126-131 | the object performs `ResumeStep` on its stores |
| `Strategy.BadSchemeFails` | passport-hpga/lib/strategy.js:83-85 | a split header whose scheme is not PGP in any case is a 400 and changes nothing |
| `Strategy.MissingKeyIsError` | passport-hpga/lib/strategy.js:104-107 | when neither the application nor the key server has the key, the request errs with `Could not find public key for <id>` and changes nothing |
| `Strategy.UnknownChallengeRejected` | passport-hpga/lib/strategy.js:112-113 | correctly signed data that is not an outstanding challenge is refused with `Message does not contain valid challenge`, and nothing changes |
| `Strategy.ReplayRejected` | passport-hpga/lib/strategy.js:112-116 | once a header has been accepted, presenting the same header again is refused |
| `Strategy.AcceptedIsSigned` | passport-hpga/lib/strategy.js:110-117 | an accepted header carries a valid signature by the resolved key's primary key id |
| `Strategy.ChallengeThenVerify` | passport-hpga/lib/strategy.js:37-137 | the flow end to end: a challenge request, then a POST whose header is signed over that challenge by the resolved key, is accepted, spends the challenge (the challenges are as before the two requests), hands the user to `getUser` or a one-time URL, and the same header posted again is refused |
| `Strategy.RouteOf` | passport-hpga/lib/strategy.js:180-198 | each branch of `authenticate` is taken exactly under its condition: POST with or without a truthy authorization, GET with a truthy token, an authenticated request, a GET challenge request, or an unsupported method |
| `Strategy.AuthenticateStep` | passport-hpga/lib/strategy.js:180-198 | the branches in source order: a POST with a truthy header is `VerifyStep` on it; a POST without one fails with 400; a GET with a truthy token is `Claim`; an authenticated request succeeds with `req.user`; a GET issues a fresh challenge and answers with its header; any other method errors with `Unsupported method ` plus the method. Hence only a challenge request gets a challenge, only a claim or an authenticated request succeeds, and only a verification reaches `getUser` or the redirect |
| `Strategy.HPGAStrategy.Authenticate` | passport-hpga/lib/strategy.js:180-198 | the object performs `AuthenticateStep` on its stores: the branch `RouteOf` picks, then that branch's step, as `AuthenticateStep` states per branch |
| `Strategy.AuthenticateFrame` | passport-hpga/lib/strategy.js:180-198 | only a challenge request adds a challenge, only a verification removes one, and only a verification or a claim changes the tokens |
| `Strategy.ChallengeRequestIssues` | passport-hpga/lib/strategy.js:193-194 | a GET without a token from an unauthenticated client adds a fresh challenge and answers `PGP challenge="<c>"` |
| `Strategy.HPGAStrategy.constructor` | passport-hpga/lib/strategy.js:21-29 | both stores start empty and the options are kept |
| `Session.NewSession` | server/session.js:99-100 | a session is `DEF_SESSION` with the user's name and email assigned over it; a null user leaves `DEF_SESSION` |
| `Session.IssueNonce` | server/session.js:20-24 | the nonce becomes an issued nonce, which is what `LoginNeedsNonce` requires of a login; sessions and unclaimed cookies are untouched; the header is `PGP realm="Testing PGP Auth", nonce=<nonce>` |
| `Session.SessionServer.GenerateWWWAuthenticateHeader` | server/session.js:20-24 | adds the nonce, leaves sessions and unclaimed cookies alone, and returns the header |
| `Session.DelimiterRun` | server/session.js:35 | the greedy `[ A-Z]*` run |
| `Session.DelimiterLen` | server/session.js:35 | a positive length covers a match of `-{5}[ A-Z]*-{5}` at the start of the string (the converse is `Session.DelimiterFirst`) |
| `Session.DelimitersAreDelimiters` | server/session.js:35 | every match that the global `match` returns (`Session.Delimiters`) is such a delimiter |
| `Session.Delimiters` | server/session.js:35 | the global `match` yields at most one delimiter per character |
| `Session.DelimiterFirst` | server/session.js:35 | conversely, a delimiter at the start of a text is matched whole and is the first match, followed by the matches of the rest |
| `Session.ParseAuthHeader` | server/session.js:28-45 | null exactly when the header does not match `AUTH_HDR_RE`; a TypeError exactly when the rest holds no delimiter; otherwise the type is the scheme and the data starts with the first delimiter, ends with the second one (or `undefined` when there is none) and holds no space in between |
| `Session.ParseAuthHeaderRoundTrip` | server/session.js:35-44 | an armored body between two delimiters, with its newlines squeezed into spaces, parses back to the same text with its newlines restored |
| `Session.SuccessReply` | server/session.js:105-108 | the success redirect when it is truthy, else `<pre>` around the success text or its default |
| `Session.LoginChecksSound` | server/session.js:76-92 | the `try` block passes exactly when the header parsed with scheme exactly `PGP`, the server's `verify` accepted its data, and the trimmed data is an issued nonce, and it passes with what `verify` returned; otherwise it fails with the parse error, a TypeError for an unparsed header, `No eggs for you` for another scheme, `verify`'s error, or `Invalid signature` for data that is not an issued nonce |
| `Session.LoginChecks` | server/session.js:76-92 | a passing `try` block always has an issued nonce as its trimmed data (the full case analysis is `Session.LoginChecksSound`) |
| `Session.LoginPost` | server/session.js:69-108 | no authorization header is `No eggs for you`; a failing `try` block passes its error on and changes nothing; a passing one stores the user's session under the cookie, parks the cookie under the id, sets the quoted cookie and `x-cookie-url` headers and answers as `SuccessReply` does; a success happens only that way; nonces are never removed |
| `Session.LoginOther` | server/session.js:111-120 | a live session's cookie, read by own entries (the corrected lookup of the second finding), gets the success answer with nothing touched; otherwise a new nonce is issued and the answer is a 401 with the `WWW-Authenticate` header |
| `Session.LoginStep` | server/session.js:68-121 | a method that upper-cases to `POST` runs `LoginPost`, any other runs `LoginOther`; hence the handler only ever adds nonces, and only a POST can create a session or park a cookie |
| `Session.SessionServer.Login` | server/session.js:62-122 | the object performs `LoginStep` on its dictionaries (`LoginPost` when the method upper-cases to `POST`, `LoginOther` otherwise, with the corrected session lookup), and the issued nonces only grow |
| `Session.WrongSchemeRefused` | server/session.js:79-81 | a parsed header with any scheme other than exactly `PGP` is refused and changes nothing |
| `Session.LowerCaseSchemeRefused` | server/session.js:79 | a well-formed header with the scheme `pgp` is refused with `No eggs for you` and changes nothing, while the strategy accepts any letter case (`Strategy.SchemeCaseInsensitive`) |
| `Session.LoginNeedsNonce` | server/session.js:85-89 | a successful login had data the server verified, and the trimmed data is an issued nonce |
| `Session.NonceReplayAccepted` | server/session.js:87-89 | after a successful login the same header logs in again: the nonce is not spent |
| `Session.NonceThenLogin` | server/session.js:68-121 | the flow end to end: a client without a session is sent a nonce; a header of scheme `PGP` whose data `verify` accepts, with that nonce as its trimmed text, then logs in, storing the user's session and parking the cookie |
| `Session.LoginThenEnsureLoggedIn` | server/session.js:129-131 | after a login, the new cookie passes the gate with a session that holds the user's name and email |
| `Session.LoginThenApplyCookie` | server/session.js:47-55 | after a login, the cookie id hands out the cookie once; a second claim sets the text `undefined` |
| `Session.ApplyCookieStep` | server/session.js:47-55 | sets the cookie parked under the id, or `undefined` when there is none, forgets the id and redirects |
| `Session.SessionServer.ApplyCookie` | server/session.js:49-53 | the object performs `ApplyCookieStep` and changes only the unclaimed cookies |
| `Session.Logout` | server/session.js:57-60 | answers with the header that sets the session cookie to `null` with a past expiry, and passes on to the next handler; it reads and changes no store, so the session stays on the server |
| `Session.EnsureLoggedIn` | server/session.js:124-142 | admits exactly the live sessions, with the session as the user; a refused request that carried a cookie gets it cleared first; the refusal's headers are exactly that clearing header (if any) followed by the realm challenge when no redirect is configured; then a redirect if configured, else a 401 with the fail text |
| `Session.IsLiveAsWrittenAgrees` | server/session.js:129 | the check as written agrees with `IsLive` for every cookie that is not a name inherited from `Object.prototype` |
| `Session.InheritedCookieAdmittedAsWritten` | server/session.js:129 | with no sessions, the cookie `toString` passes the check as written, while `EnsureLoggedIn` refuses it |
| `Session.SessionServer.constructor` | server/session.js:15-18 | the three dictionaries start empty |
| `ExampleApp.FindOrCreate` | node-example/hpga.js:18-25 | a known email gives the stored user and changes nothing; an unknown one stores a copy of the key's user with the new id; users stay stored under their own emails |
| `ExampleApp.IdStable` | node-example/hpga.js:18-25 | a returning user keeps the id of the first login, whatever id is drawn later |
| `ExampleApp.CacheKeyAsWritten` | node-example/hpga.js:28 | as written, the key is stored under the name `undefined` |
| `ExampleApp.AsWrittenCacheMisses` | node-example/hpga.js:28 | as written, caching a key never adds an upper-cased key id to the cache, so later lookups by key id miss as the first one did |
| `ExampleApp.CacheKey` | node-example/hpga.js:28 | the key is cached under the user's key id, and every other entry is kept |
| `ExampleApp.CacheHitAfterLogin` | node-example/hpga.js:15 | with the corrected cache, the key of a verified login is found under the signing key id the strategy looks up next time |
| `ExampleApp.DeserializeUser` | node-example/hpga.js:34 | the stored user whose email is the id, if any |
| `ExampleApp.SerializeUser` | node-example/hpga.js:33 | a user is serialised as its email, the key `FindOrCreate` stores it under |
| `ExampleApp.SerializeRoundTrip` | node-example/hpga.js:33-34 | the user `getUser` hands over comes back when its serialised email is deserialised |
| `ExampleApp.GetUserLeadsToRedirect` | node-example/hpga.js:29 | `getUser` never reports an error, so the strategy redirects to a one-time URL |
| `ExampleApp.App.GetUser` | node-example/hpga.js:17-30 | reports no error, finds or creates the user as `FindOrCreate` says, caches the key under its key id as `CacheKey` says (the corrected line 28 of the third finding), and keeps every user stored under its own email |
| `ExampleApp.App.constructor` | node-example/hpga.js:8-9 | both dictionaries start empty |

## Left out

- Cryptography: message, key and signature parsing and checking from the `openpgp` package is a parameter (`OpenPgp.Library`), as are the HKP key server and the network. The model states what the HPGA code does with their answers.
- Randomness: `crypto.randomBytes` draws are parameters. Tokens, cookies, cookie ids and user ids are required to be lower-case hex of the right length. Challenges and nonces, base64 of 64 bytes, are arbitrary strings.
- Collisions of random tokens, cookies and cookie ids with stored ones are not checked by the source; when one happens, the model overwrites the stored entry, as the source does.
- Express and passport plumbing (`this.fail`, `this.success`, `res.*`, `next`, the framework's call of `authenticate`) becomes the `Verdict` and `Reply` values.
- Promises and callbacks are sequential. The strategy's `getUser` callback is split into `AwaitUser` and `Strategy.HPGAStrategy.ResumeWithUser`. An exception thrown by `getUser` itself is not modelled.
- Concurrency and interleaving of requests are not modelled.
- `options.onChallenge` (passport-hpga/lib/strategy.js:46-48) is not modelled. It hands the new challenge to application code and does not affect the stores.
- Js.ToUpper: `toUpperCase` is modelled on ASCII letters only. JavaScript also maps a few other characters onto ASCII, such as the long s `ſ` onto `S`, so a method spelled `poſt` takes the POST branch of `server/session.js:69`, while the model takes the cookie branch.
- Reads of inherited `Object.prototype` names are modelled, as findings, only for the token store and the session check. Elsewhere, dictionary reads are own-entry reads: `unclaimedCookies[cid]` in `applyCookie`, `nonces[...]`, `users[...]` and `keyCache[...]` in the example, and `pkCache`. The last is always empty and is only read under upper-cased ids (`ServerPgp.UpperNotInherited`).
- Non-string request fields are not modelled, such as an array-valued `req.query.token`.
- The message-object path of `getSigningKeyId` and `readArmored` (passport-hpga/lib/pgp.js:39-41, 94-96) is not modelled. The strategy hands both functions the message object `readArmored` returned, and the model passes that parsed message directly.
- TypeError messages: `Js.TYPE_ERROR` is one abstract text for every TypeError the code can throw. The engine's own messages differ by case and reach the client through `next(e.message)` in `server/session.js:91`; they are not modelled.
- `next(e.error || e.message)` in `server/session.js:91` passes the error text. The case where both are falsy is not singled out.
- Key parsing that yields no key: `openpgp.verify` called with an undefined key (server/pgp.js:41-45) is modelled as failing with a TypeError. The library's exact message is not modelled.
- `failRedirect` and `failText` of `login` are read but never used by the source (server/session.js:63,65,73). The model keeps them in `LoginOptions` and likewise does not use them.
- The findKey closure of the example (node-example/hpga.js:15) parses the cached key with the `openpgp` package. Only the cache lookup is modelled (`ExampleApp.CacheHitAfterLogin`).
- `index.js` and `node-example/index.js` (package entry point and server start-up) are not part of this model.
- Expiry of challenges, tokens, nonces and sessions is not modelled, because the code has none.

## Findings

| source | as written | input that shows it | evidently intended | confidence | as-written member | corrected member |
|---|---|---|---|---|---|---|
| passport-hpga/lib/strategy.js:157-164 | `this._oneTimeTokens[token]` on a `{}` also finds the members every object inherits | `GET /login?token=constructor` with no token issued: the strategy calls `success(Object)` | only issued tokens are claimable; unknown ones get 404 | not executed | `Strategy.InheritedTokenIsClaimed` | `Strategy.Claim` |
| server/session.js:129 | `sessions[cookie] != null` on a `{}` is true for inherited member names; line 112 uses the same test | the cookie `pgp-auth-test-cookie=toString` with no session: the request is admitted with a function as `req.user` | only cookies of stored sessions are admitted | not executed | `Session.InheritedCookieAdmittedAsWritten` | `Session.EnsureLoggedIn` |
| node-example/hpga.js:28 | the key is cached under `keydata.publicKeyId`, a field `verify` never sets (it sets `keyId`) | any login: the key is stored under `undefined`, and the `findKey` lookup by key id on the next login misses | cache the key under `keydata.keyId` so the strategy's `findKey` finds it | not executed | `ExampleApp.AsWrittenCacheMisses` | `ExampleApp.CacheKey` |
