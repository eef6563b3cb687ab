/**
 * server/pgp.js: the prototype server's own `verify`, which reads the message,
 * takes the first signer's key id, fetches the key text (from `pkCache` when
 * it has an entry, from the key server otherwise), and selects the signature
 * the same way as passport-hpga/lib/pgp.js. Its `parseUserId` is the same
 * function as `Pgp.ParseUserId`; the user it returns may be null.
 */
module ServerPgp {
  import opened Js
  import opened OpenPgp
  import Pgp

  /** `pkCache`: declared empty and never written. */
  const PK_CACHE: map<string, string> := map[]

  /** What the server's `verify` resolves to: a user that may be null, and the signed data. */
  datatype Verified = Verified(user: Option<Pgp.UserId>, data: string)

  /** An upper-cased text never names a member of `Object.prototype`. */
  lemma UpperNotInherited(s: string)
    ensures ToUpper(s) !in INHERITED_NAMES
  {
    var u := ToUpper(s);
    if |u| > 2 {
      assert !IsLower(u[1]) && !IsLower(u[2]);
    }
  }

  /**
   * The armored key text for a signer: the cache entry under the upper-cased
   * id when there is one, else the key server's answer for the id as it is.
   * The cache is read with own-property semantics, which `UpperNotInherited`
   * justifies.
   */
  function KeyText(lib: Library, pkCache: map<string, string>, signer: string): (r: Result<string>)
    ensures ToUpper(signer) in pkCache ==> r == Ok(pkCache[ToUpper(signer)])
    ensures ToUpper(signer) !in pkCache ==> r == lib.hkpLookup(signer)
  {
    UpperNotInherited(signer);
    var id := ToUpper(signer);
    if id in pkCache then Ok(pkCache[id]) else lib.hkpLookup(signer)
  }

  /** With the cache as the module declares it, the key server is always asked. */
  lemma AlwaysKeyServer(lib: Library, signer: string)
    ensures KeyText(lib, PK_CACHE, signer) == lib.hkpLookup(signer)
  {
  }

  /**
   * `verify(string)`. Failures are the reason of the error thrown: the
   * no-signer error, a rejected key lookup, `Invalid signature`, or a
   * TypeError when the key text holds no key or the key has no user id.
   */
  function Verify(lib: Library, pkCache: map<string, string>, armored: string): (r: Result<Verified>)
    ensures lib.readMessage(armored).Err? ==> r == Err(lib.readMessage(armored).error)
    ensures lib.readMessage(armored).Ok? && lib.signingKeyIds(lib.readMessage(armored).value) == []
            ==> r == Err(Pgp.NO_SIGNATURES)
    ensures r.Ok? ==>
      && lib.readMessage(armored).Ok?
      && var msg := lib.readMessage(armored).value;
         var signers := lib.signingKeyIds(msg);
         && signers != []
         && KeyText(lib, pkCache, signers[0]).Ok?
         && lib.readKey(KeyText(lib, pkCache, signers[0]).value).Some?
         && var key := lib.readKey(KeyText(lib, pkCache, signers[0]).value).value;
            && lib.verify(msg, key).Ok?
            && (exists i :: 0 <= i < |lib.verify(msg, key).value.signatures| &&
                  Pgp.SignedBy(lib.verify(msg, key).value.signatures[i], ToUpper(signers[0])))
            && |key.userIds| > 0
            && r.value.user == Pgp.ParseUserId(key.userIds[0])
            && r.value.data == lib.verify(msg, key).value.data
    ensures lib.readMessage(armored).Ok? && lib.signingKeyIds(lib.readMessage(armored).value) != [] ==>
      var msg := lib.readMessage(armored).value;
      var signer := lib.signingKeyIds(msg)[0];
      var text := KeyText(lib, pkCache, signer);
      && (text.Err? ==> r == Err(text.error))
      && (text.Ok? && lib.readKey(text.value).None? ==> r == Err(TYPE_ERROR))
      && (text.Ok? && lib.readKey(text.value).Some? ==>
            var key := lib.readKey(text.value).value;
            && (lib.verify(msg, key).Err? ==> r == Err(lib.verify(msg, key).error))
            && (lib.verify(msg, key).Ok? ==>
                  var sigs := lib.verify(msg, key).value.signatures;
                  && ((forall i :: 0 <= i < |sigs| ==> !Pgp.SignedBy(sigs[i], ToUpper(signer))) ==> r == Err(Pgp.INVALID_SIGNATURE))
                  && ((exists i :: 0 <= i < |sigs| && Pgp.SignedBy(sigs[i], ToUpper(signer))) ==>
                        && (|key.userIds| == 0 ==> r == Err(TYPE_ERROR))
                        && (|key.userIds| > 0 ==> r == Ok(Verified(Pgp.ParseUserId(key.userIds[0]), lib.verify(msg, key).value.data))))))
  {
    match lib.readMessage(armored)
    case Err(e) => Err(e)
    case Ok(msg) =>
      var signers := lib.signingKeyIds(msg);
      if |signers| <= 0 then Err(Pgp.NO_SIGNATURES)
      else
        var keyId := ToUpper(signers[0]);
        match KeyText(lib, pkCache, signers[0])
        case Err(e) => Err(e)
        case Ok(text) =>
          match lib.readKey(text)
          case None => Err(TYPE_ERROR)
          case Some(key) =>
            match lib.verify(msg, key)
            case Err(e) => Err(e)
            case Ok(v) =>
              if Pgp.FindSignature(v.signatures, keyId).None? then Err(Pgp.INVALID_SIGNATURE)
              else if |key.userIds| == 0 then Err(TYPE_ERROR)
              else Ok(Verified(Pgp.ParseUserId(key.userIds[0]), v.data))
  }

  /**
   * The signature rule: once the message is read and the key found and the
   * library has answered, `verify` fails with `Invalid signature` exactly
   * when no valid signature carries the first signer's id.
   */
  lemma InvalidSignatureIff(lib: Library, pkCache: map<string, string>, armored: string, msg: Message, key: PublicKey)
    requires lib.readMessage(armored) == Ok(msg)
    requires lib.signingKeyIds(msg) != []
    requires KeyText(lib, pkCache, lib.signingKeyIds(msg)[0]).Ok?
    requires lib.readKey(KeyText(lib, pkCache, lib.signingKeyIds(msg)[0]).value) == Some(key)
    requires lib.verify(msg, key).Ok?
    ensures Verify(lib, pkCache, armored) == Err(Pgp.INVALID_SIGNATURE) <==>
      forall i :: 0 <= i < |lib.verify(msg, key).value.signatures| ==>
        !Pgp.SignedBy(lib.verify(msg, key).value.signatures[i], ToUpper(lib.signingKeyIds(msg)[0]))
  {
    var sigs := lib.verify(msg, key).value.signatures;
    var keyId := ToUpper(lib.signingKeyIds(msg)[0]);
    if Pgp.FindSignature(sigs, keyId).Some? {
      assert Verify(lib, pkCache, armored).Ok? || Verify(lib, pkCache, armored) == Err(TYPE_ERROR);
    }
  }
}
