/**
 * passport-hpga/lib/pgp.js: user-id parsing, the first-signer rule, the
 * signature selection of `verify` and the user record it builds, and the key
 * server lookup `findKey`. The text normalisation of `readArmored` is in
 * module Armor.
 */
module Pgp {
  import opened Js
  import opened OpenPgp

  const NO_SIGNATURES: string := "No signatures applied to message"
  const INVALID_SIGNATURE: string := "Invalid signature"

  /** `{ name, email }` as `parseUserId` returns it. */
  datatype UserId = UserId(name: string, email: string)

  /**
   * The user record `verify` builds: the parsed user id, the key's serialised
   * packets and its upper-case key id. An application's `getUser` may attach
   * an `id` of its own (node-example/hpga.js); `verify` leaves it unset.
   */
  datatype User = User(name: string, email: string, publicKey: seq<byte>, keyId: string, id: Option<string>)

  // ---------------------------------------------------------------- parseUserId

  /** The pieces around the first `<` of a string that matches the pattern. */
  lemma UserIdPieces(s: string, p: nat)
    requires NoLineTerminator(s) && |s| > 0 && s[|s| - 1] == '>'
    requires p < |s| && s[p] == '<' && '<' !in s[..p]
    ensures p < |s| - 1
    ensures NoLineTerminator(s[p + 1..|s| - 1]) && NoLineTerminator(s[..p])
    ensures p > 0 ==> '<' !in s[..p - 1] && NoLineTerminator(s[..p - 1])
    ensures p > 0 && s[p - 1] == ' ' ==> s == s[..p - 1] + " <" + s[p + 1..|s| - 1] + ">"
    ensures s == s[..p] + "<" + s[p + 1..|s| - 1] + ">"
  {
    assert s == s[..p] + [s[p]] + s[p + 1..|s| - 1] + [s[|s| - 1]];
    if p > 0 {
      assert s[..p - 1] == s[..p][..p - 1];
      assert s[..p] == s[..p - 1] + [s[p - 1]];
    }
  }

  /**
   * `userId.match(/^(.*?) ?<(.*?)>$/)`. The lazy first group stops at the
   * first `<`, taking the optional space before it out of the name; the second
   * group runs up to the final `>`; `.` matches no line terminator.
   */
  function ParseUserId(s: string): (r: Option<UserId>)
    ensures r.Some? <==> NoLineTerminator(s) && '<' in s && |s| > 0 && s[|s| - 1] == '>'
    ensures r.Some? ==>
      var n, e := r.value.name, r.value.email;
      && '<' !in n && NoLineTerminator(n) && NoLineTerminator(e)
      && (|| s == n + " <" + e + ">"
          || (s == n + "<" + e + ">" && (n == [] || n[|n| - 1] != ' ')))
  {
    if !NoLineTerminator(s) || |s| == 0 || s[|s| - 1] != '>' then None
    else match IndexOf(s, '<')
      case None => None
      case Some(p) =>
        UserIdPieces(s, p);
        var email := s[p + 1..|s| - 1];
        if p > 0 && s[p - 1] == ' ' then Some(UserId(s[..p - 1], email))
        else Some(UserId(s[..p], email))
  }

  /** The first `<` of a formatted user id is the one after the name and separator. */
  lemma UserIdFirstAngle(name: string, email: string, sep: string)
    requires sep == " " || sep == ""
    requires '<' !in name
    ensures IndexOf(name + sep + "<" + email + ">", '<') == Some(|name| + |sep|)
  {
    assert name + sep + "<" + email + ">" == (name + sep) + ("<" + email + ">");
    IndexOfAppend(name + sep, "<" + email + ">", '<', 0);
  }

  /** A formatted user id has a line terminator only where its name or email has one. */
  lemma UserIdOneLine(name: string, email: string, sep: string)
    requires sep == " " || sep == ""
    requires NoLineTerminator(name) && NoLineTerminator(email)
    ensures NoLineTerminator(name + sep + "<" + email + ">")
  {
    var s := name + sep + "<" + email + ">";
    var p := |name| + |sep|;
    forall i | 0 <= i < |s| ensures !IsLineTerminator(s[i]) {
      if i < |name| {
        assert s[i] == name[i];
      } else if p < i < |s| - 1 {
        assert s[i] == email[i - p - 1];
      }
    }
  }

  /** The name and the email sit where they were put. */
  lemma UserIdSlices(name: string, email: string, sep: string)
    requires sep == " " || sep == ""
    ensures
      var s := name + sep + "<" + email + ">";
      var p := |name| + |sep|;
      && s[|s| - 1] == '>' && s[p] == '<'
      && s[p + 1..|s| - 1] == email
      && s[..|name|] == name
      && (sep == " " ==> s[p - 1] == ' ')
      && (sep == "" && p > 0 ==> s[p - 1] == name[|name| - 1])
  {
  }

  /**
   * Formatting a user id and parsing it back gives the same name and email:
   * with a space before `<` always, without one when the name does not itself
   * end in a space.
   */
  lemma ParseUserIdRoundTrip(name: string, email: string, sep: string)
    requires sep == " " || (sep == "" && (name == [] || name[|name| - 1] != ' '))
    requires '<' !in name && NoLineTerminator(name) && NoLineTerminator(email)
    ensures ParseUserId(name + sep + "<" + email + ">") == Some(UserId(name, email))
  {
    var s := name + sep + "<" + email + ">";
    var p := |name| + |sep|;
    UserIdFirstAngle(name, email, sep);
    UserIdOneLine(name, email, sep);
    UserIdSlices(name, email, sep);
    if sep == " " {
      assert s[..p - 1] == name;
    } else {
      assert s[..p] == name;
    }
  }

  // ---------------------------------------------------------------- getSigningKeyId

  /** `getSigningKeyId`: the first signer's key id in upper case, or the no-signature error. */
  function GetSigningKeyId(signers: seq<string>): (r: Result<string>)
    ensures r.Err? <==> signers == []
    ensures r.Err? ==> r.error == NO_SIGNATURES
    ensures r.Ok? ==>
      && |r.value| == |signers[0]|
      && (forall i :: 0 <= i < |r.value| ==> !IsLower(r.value[i]))
      && (forall i :: 0 <= i < |r.value| ==> !IsLower(signers[0][i]) ==> r.value[i] == signers[0][i])
      && (forall i :: 0 <= i < |r.value| ==> IsLower(signers[0][i]) ==> r.value[i] == (signers[0][i] as int - 32) as char)
  {
    if |signers| <= 0 then Err(NO_SIGNATURES) else Ok(ToUpper(signers[0]))
  }

  // ---------------------------------------------------------------- signature selection

  /** The predicate handed to `signatures.find`. */
  predicate SignedBy(sig: Signature, keyId: string) {
    sig.valid && ToUpper(sig.keyId) == keyId
  }

  /** `signatures.find(...)`: the first valid signature whose upper-cased key id is `keyId`. */
  function FindSignature(sigs: seq<Signature>, keyId: string): (r: Option<Signature>)
    ensures r.Some? <==> exists i :: 0 <= i < |sigs| && SignedBy(sigs[i], keyId)
    ensures r.Some? ==> r.value in sigs && SignedBy(r.value, keyId)
  {
    if sigs == [] then None
    else if SignedBy(sigs[0], keyId) then Some(sigs[0])
    else
      assert forall i :: 1 <= i < |sigs| ==> sigs[i] == sigs[1..][i - 1];
      FindSignature(sigs[1..], keyId)
  }

  // ---------------------------------------------------------------- verify

  /** What `verify` resolves to. */
  datatype Verified = Verified(user: User, data: string)

  /**
   * `verify(msg, publicKey)`: the signature must be valid and made by the
   * key's primary key; the user record comes from the key's first user id. A
   * user id that does not parse, or a key without user ids, throws a TypeError.
   */
  function Verify(lib: Library, msg: Message, key: PublicKey): (r: Result<Verified>)
    ensures
      var keyId := ToUpper(key.primaryKeyId);
      r.Ok? <==>
        && lib.verify(msg, key).Ok?
        && (exists i :: 0 <= i < |lib.verify(msg, key).value.signatures| &&
                        SignedBy(lib.verify(msg, key).value.signatures[i], keyId))
        && |key.userIds| > 0 && ParseUserId(key.userIds[0]).Some?
    ensures lib.verify(msg, key).Err? ==> r == Err(lib.verify(msg, key).error)
    ensures lib.verify(msg, key).Ok? &&
            FindSignature(lib.verify(msg, key).value.signatures, ToUpper(key.primaryKeyId)).None?
            ==> r == Err(INVALID_SIGNATURE)
    ensures r.Ok? ==>
      && r.value.data == lib.verify(msg, key).value.data
      && r.value.user.keyId == ToUpper(key.primaryKeyId)
      && r.value.user.publicKey == key.packets
      && r.value.user.id.None?
      && Some(UserId(r.value.user.name, r.value.user.email)) == ParseUserId(key.userIds[0])
  {
    var keyId := ToUpper(key.primaryKeyId);
    match lib.verify(msg, key)
    case Err(e) => Err(e)
    case Ok(v) =>
      if FindSignature(v.signatures, keyId).None? then Err(INVALID_SIGNATURE)
      else if |key.userIds| == 0 then Err(TYPE_ERROR)
      else match ParseUserId(key.userIds[0])
        case None => Err(TYPE_ERROR)
        case Some(u) => Ok(Verified(User(u.name, u.email, key.packets, keyId, None), v.data))
  }

  // ---------------------------------------------------------------- findKey

  /** `findKey(keyId)`: ask the key server, then read the first key of its answer. */
  function FindKey(lib: Library, keyId: string): (r: KeyLookup)
    ensures lib.hkpLookup(keyId).Err? <==> r.Threw?
    ensures r.Found? <==> lib.hkpLookup(keyId).Ok? && lib.readKey(lib.hkpLookup(keyId).value).Some?
    ensures r.Found? ==> Some(r.key) == lib.readKey(lib.hkpLookup(keyId).value)
  {
    match lib.hkpLookup(keyId)
    case Err(e) => Threw(e)
    case Ok(text) =>
      match lib.readKey(text)
      case None => NotFound
      case Some(k) => Found(k)
  }
}
