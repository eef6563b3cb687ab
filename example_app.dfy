/**
 * node-example/hpga.js: the example application's `getUser` callback, a
 * find-or-create of users by email that also caches each user's public key,
 * and the user (de)serialisation it registers with passport.
 */
module ExampleApp {
  import opened Js
  import opened OpenPgp
  import Pgp
  import Strategy

  /** `crypto.randomBytes(16)` for a new user's id. */
  const ID_BYTES: nat := 16

  /** Every user is stored under its own email. */
  predicate UsersValid(users: map<string, Pgp.User>) {
    forall e :: e in users ==> users[e].email == e
  }

  /**
   * Lines 18-25: a known email gives the stored user; an unknown one stores a
   * copy of the key's user data with a new id.
   */
  function FindOrCreate(users: map<string, Pgp.User>, keydata: Pgp.User, freshId: string): (r: (map<string, Pgp.User>, Pgp.User))
    ensures keydata.email in users ==> r == (users, users[keydata.email])
    ensures keydata.email !in users ==>
      && r.1 == keydata.(id := Some(freshId))
      && r.0 == users[keydata.email := r.1]
    ensures UsersValid(users) ==> UsersValid(r.0) && r.1.email == keydata.email
    ensures r.1 == r.0[keydata.email]
  {
    if keydata.email in users then (users, users[keydata.email])
    else
      var user := keydata.(id := Some(freshId));
      (users[keydata.email := user], user)
  }

  /** A returning user keeps the id of the first login, whatever new id is drawn. */
  lemma IdStable(users: map<string, Pgp.User>, first: Pgp.User, again: Pgp.User, id1: string, id2: string)
    requires first.email == again.email
    ensures
      var (users1, u1) := FindOrCreate(users, first, id1);
      FindOrCreate(users1, again, id2) == (users1, u1)
  {
  }

  /** Line 28 with the key id `verify` sets: the key is cached under that id. */
  function CacheKey(keyCache: map<string, seq<byte>>, keydata: Pgp.User): (c: map<string, seq<byte>>)
    ensures keydata.keyId in c && c[keydata.keyId] == keydata.publicKey
    ensures forall k :: k != keydata.keyId ==> (k in c <==> k in keyCache)
    ensures forall k :: k != keydata.keyId && k in keyCache ==> c[k] == keyCache[k]
  {
    keyCache[keydata.keyId := keydata.publicKey]
  }

  /**
   * Line 28 as written: `keydata.publicKeyId` is a field that
   * passport-hpga/lib/pgp.js never sets, so the key is always stored under
   * the property name `undefined`.
   */
  function CacheKeyAsWritten(keyCache: map<string, seq<byte>>, keydata: Pgp.User): (c: map<string, seq<byte>>)
    ensures "undefined" in c && c["undefined"] == keydata.publicKey
  {
    keyCache["undefined" := keydata.publicKey]
  }

  /**
   * The strategy looks keys up by an upper-case id. As written, caching a key
   * never makes such an id present: the application's `findKey` misses for
   * every login after the first just as for the first.
   */
  lemma AsWrittenCacheMisses(keyCache: map<string, seq<byte>>, keydata: Pgp.User, signer: string)
    ensures ToUpper(signer) in CacheKeyAsWritten(keyCache, keydata) <==> ToUpper(signer) in keyCache
  {
    var u := ToUpper(signer);
    if |u| == |"undefined"| {
      assert !IsLower(u[0]) && IsLower("undefined"[0]);
    }
  }

  /**
   * With the key cached under the id `verify` sets, the strategy's lookup by
   * the signing key id finds it whenever that id is the key's primary id.
   */
  lemma CacheHitAfterLogin(keyCache: map<string, seq<byte>>, lib: Library, msg: Message, key: PublicKey, signers: seq<string>)
    requires Pgp.Verify(lib, msg, key).Ok?
    requires signers != [] && ToUpper(signers[0]) == ToUpper(key.primaryKeyId)
    ensures
      var keydata := Pgp.Verify(lib, msg, key).value.user;
      var signingId := Pgp.GetSigningKeyId(signers).value;
      && signingId in CacheKey(keyCache, keydata)
      && CacheKey(keyCache, keydata)[signingId] == key.packets
  {
  }

  /** `serializeUser`: the email, the key the users are stored under. */
  function SerializeUser(u: Pgp.User): (id: string)
    ensures id == u.email
  {
    u.email
  }

  /** `deserializeUser`: the user stored under the id, if any. */
  function DeserializeUser(users: map<string, Pgp.User>, id: string): (r: Option<Pgp.User>)
    ensures r.Some? <==> id in users
    ensures r.Some? ==> r.value == users[id]
  {
    if id in users then Some(users[id]) else None
  }

  /** The user `getUser` hands over comes back from its serialised form. */
  lemma SerializeRoundTrip(users: map<string, Pgp.User>, keydata: Pgp.User, freshId: string)
    requires UsersValid(users)
    ensures
      var (users1, u) := FindOrCreate(users, keydata, freshId);
      DeserializeUser(users1, SerializeUser(u)) == Some(u)
  {
  }

  /** The application's `getUser` always answers `cb(null, user)`: the strategy goes on to a one-time URL. */
  lemma GetUserLeadsToRedirect(st: Strategy.Store, path: string, token: string, user: Pgp.User)
    ensures Strategy.ResumeStep(st, path, token, None, Some(user)).1 == Strategy.Redirect(path + "?token=" + token)
  {
  }

  /** The module-level `users` and `keyCache` objects. */
  class App {
    var users: map<string, Pgp.User>
    var keyCache: map<string, seq<byte>>

    predicate Valid()
      reads this
    {
      UsersValid(users)
    }

    constructor()
      ensures Valid() && users == map[] && keyCache == map[]
    {
      users := map[];
      keyCache := map[];
    }

    /** The `getUser` callback; it reports no error and always a user. */
    method GetUser(keydata: Pgp.User, freshId: string) returns (err: Option<string>, user: Pgp.User)
      requires Valid() && IsHexOfBytes(freshId, ID_BYTES)
      modifies this
      ensures Valid()
      ensures err == None
      ensures (users, user) == FindOrCreate(old(users), keydata, freshId)
      ensures keyCache == CacheKey(old(keyCache), keydata)
    {
      if keydata.email in users {
        user := users[keydata.email];
      } else {
        user := keydata.(id := Some(freshId));
        users := users[keydata.email := user];
      }
      keyCache := keyCache[keydata.keyId := keydata.publicKey];
      err := None;
    }
  }
}
