/**
 * The boundary to the OpenPGP library and the HKP key server. Their behaviour
 * is not modelled: a `Library` value is any choice of answers they may give,
 * and the model's operations take one as a parameter.
 */
module OpenPgp {
  import opened Js

  type byte = b: int | 0 <= b < 256

  /** A parsed message; the model keeps only the armored text it was read from. */
  datatype Message = Message(armored: string)

  /**
   * A public key: the hex id of its primary key (`primaryKey.keyid.toHex()`),
   * its user ids ("Name <email>") and its serialised packets
   * (`toPacketlist().write()`).
   */
  datatype PublicKey = PublicKey(primaryKeyId: string, userIds: seq<string>, packets: seq<byte>)

  /** One signature verdict of `openpgp.verify`: validity and the signer's hex key id. */
  datatype Signature = Signature(valid: bool, keyId: string)

  /** What `openpgp.verify` resolves to: the signed data and one verdict per signature. */
  datatype Verification = Verification(data: string, signatures: seq<Signature>)

  /** The answer of a key lookup: a key, nothing (null / undefined), or a thrown error. */
  datatype KeyLookup = Found(key: PublicKey) | NotFound | Threw(reason: string)

  datatype Library = Library(
    /** `openpgp.message.readArmored(text)`; `Err` when it throws. */
    readMessage: string -> Result<Message>,
    /** `msg.getSigningKeyIds()`, each id as `toHex()` gives it. */
    signingKeyIds: Message -> seq<string>,
    /** `openpgp.verify({ message, publicKeys: [key] })`; `Err` when it rejects. */
    verify: (Message, PublicKey) -> Result<Verification>,
    /** `hkp.lookup({ keyId })`: the armored key text, or the rejection's reason. */
    hkpLookup: string -> Result<string>,
    /** `openpgp.key.readArmored(text).keys[0]`; `None` when there is no first key. */
    readKey: string -> Option<PublicKey>
  )
}
