/**
 * The encrypted-payload format shared by the gateway routes: a 12-byte nonce, the ciphertext and the
 * 16-byte authentication tag, concatenated and written in Base64. The JSON step is a pair of parameters:
 * `stringify` yields the UTF-8 bytes of `JSON.stringify(payload)`, and `parse` yields the value of
 * `JSON.parse` on the UTF-8 text of some bytes, or the message it throws.
 */
module PayloadCipher {
  import opened Wrappers
  import opened Bytes
  import opened Text
  import Base64
  import Aead

  const IvLength := 12
  const TagLength := 16
  const EncryptionFailed := "Encryption failed: "
  const DecryptionFailed := "Decryption failed: "
  /** What Node throws when `Buffer.from` is handed `undefined`, here the missing secret key. */
  const KeyMissingMessage := "The first argument must be of type string or an instance of Buffer, ArrayBuffer, or Array or an Array-like Object. Received undefined"
  const KeyLengthMessage := "Invalid key length"
  const IvMessage := "Invalid initialization vector"
  const AuthMessage := "Unsupported state or unable to authenticate data"

  /** `Buffer.from(secretKey, "hex")` checked the way `createCipheriv` checks an AES-256 key. */
  function KeyBytes(secretKey: Option<string>): (r: Result<seq<byte>, string>)
    ensures r.Ok? ==> |r.value| == Aead.KeyLength
    ensures secretKey.None? ==> r == Err(KeyMissingMessage)
  {
    match secretKey
    case None => Err(KeyMissingMessage)
    case Some(k) =>
      var key := HexDecode(k);
      if |key| == Aead.KeyLength then Ok(key) else Err(KeyLengthMessage)
  }

  /** A key written as 64 hex digits, as the deployment documents it, is accepted. */
  lemma HexKeyAccepted(k: string)
    requires |k| == 64
    requires forall i :: 0 <= i < |k| ==> IsHexDigit(k[i])
    ensures KeyBytes(Some(k)).Ok?
  {
    HexDecodeLength(k);
  }

  /** A non-hex character among the first 64 leaves too few key bytes, and the key is refused. */
  lemma NonHexKeyRefused(k: string, i: nat)
    requires 64 <= |k|
    requires i < 64 && !IsHexDigit(k[i])
    ensures KeyBytes(Some(k)) == Err(KeyLengthMessage)
  {
    HexDecodeStopsEarly(k, 32);
  }

  /** `Buffer.concat([iv, encrypted, tag])`. */
  function Frame(iv: seq<byte>, ct: seq<byte>, tag: seq<byte>): (buf: seq<byte>)
    ensures |buf| == |iv| + |ct| + |tag|
  {
    iv + ct + tag
  }

  datatype Parts = Parts(iv: seq<byte>, ct: seq<byte>, tag: seq<byte>)

  /** The three slices `decryptPayload` takes of the decoded buffer: the first 12 bytes, the middle, the last 16. */
  function SplitFrame(buf: seq<byte>): (p: Parts)
    ensures |p.iv| == if |buf| < IvLength then |buf| else IvLength
    ensures |buf| >= IvLength + TagLength ==> |p.tag| == TagLength && |p.ct| == |buf| - IvLength - TagLength
  {
    Parts(Slice(buf, 0, IvLength), Slice(buf, IvLength, |buf| - TagLength), Slice(buf, |buf| - TagLength, |buf|))
  }

  /** Slicing undoes the concatenation for a 12-byte nonce and a 16-byte tag, whatever the ciphertext. */
  lemma SplitFrameOfFrame(iv: seq<byte>, ct: seq<byte>, tag: seq<byte>)
    requires |iv| == IvLength && |tag| == TagLength
    ensures SplitFrame(Frame(iv, ct, tag)) == Parts(iv, ct, tag)
  {
    var buf := Frame(iv, ct, tag);
    assert buf[0..IvLength] == iv;
    assert buf[IvLength..|buf| - TagLength] == ct;
    assert buf[|buf| - TagLength..|buf|] == tag;
  }

  /** Concatenation undoes the slicing for any buffer of at least 28 bytes. */
  lemma FrameOfSplitFrame(buf: seq<byte>)
    requires |buf| >= IvLength + TagLength
    ensures var p := SplitFrame(buf); Frame(p.iv, p.ct, p.tag) == buf
  {
    var p := SplitFrame(buf);
    assert p.iv == buf[..IvLength];
    assert p.ct == buf[IvLength..|buf| - TagLength];
    assert p.tag == buf[|buf| - TagLength..];
    assert buf == buf[..IvLength] + buf[IvLength..|buf| - TagLength] + buf[|buf| - TagLength..];
  }

  /** The tag lengths `decipher.setAuthTag` accepts for GCM. */
  predicate ValidTagLength(n: nat) {
    n == 4 || n == 8 || 12 <= n <= 16
  }

  /**
   * `encryptPayload(payload, secretKey)` with the fresh random nonce passed in as `iv`: the Base64 text
   * of nonce, ciphertext and tag, or the cipher's error behind "Encryption failed: ".
   */
  function EncryptPayload<T>(payload: T, secretKey: Option<string>, iv: seq<byte>, stringify: T -> seq<byte>)
    : (r: Result<string, string>)
    requires |iv| == IvLength
    ensures r.Ok? <==> KeyBytes(secretKey).Ok?
    ensures r.Err? ==> StartsWith(r.error, EncryptionFailed)
    ensures r.Ok? ==> |r.value| == 4 * ((|stringify(payload)| + IvLength + TagLength + 2) / 3)
  {
    match KeyBytes(secretKey)
    case Err(msg) => Err(EncryptionFailed + msg)
    case Ok(key) =>
      var ct := Aead.Seal(key, iv, stringify(payload));
      Ok(Base64.Encode(Frame(iv, ct, Aead.Tag(key, iv, ct))))
  }

  /** The bytes of an encrypted payload, before the JSON step. */
  function DecryptBytes(encoded: string, secretKey: Option<string>): (r: Result<seq<byte>, string>)
    ensures r.Ok? ==>
      KeyBytes(secretKey).Ok? && Base64.Decode(encoded).Some? &&
      var p := SplitFrame(Base64.Decode(encoded).value);
      |p.iv| == IvLength && |p.tag| == TagLength && p.tag == Aead.Tag(KeyBytes(secretKey).value, p.iv, p.ct)
      && |r.value| == |p.ct|
  {
    match KeyBytes(secretKey)
    case Err(msg) => Err(msg)
    case Ok(key) =>
      match Base64.Decode(encoded)
      case None => Err(AuthMessage)
      case Some(buf) =>
        var p := SplitFrame(buf);
        if |p.iv| != IvLength then Err(IvMessage)
        else if !ValidTagLength(|p.tag|) then Err("Invalid authentication tag length: " + NatToString(|p.tag|))
        else
          match Aead.Open(key, p.iv, p.ct, p.tag)
          case None => Err(AuthMessage)
          case Some(pt) => Ok(pt)
  }

  /**
   * `decryptPayload(encrypted, secretKey)`: the parsed payload, or the first failure behind
   * "Decryption failed: ". A blob shorter than 28 bytes either fails or carries no plaintext at all.
   */
  function DecryptPayload<T>(encoded: string, secretKey: Option<string>, parse: seq<byte> -> Result<T, string>)
    : (r: Result<T, string>)
    ensures r.Err? ==> StartsWith(r.error, DecryptionFailed)
    ensures r.Ok? ==> DecryptBytes(encoded, secretKey).Ok? && parse(DecryptBytes(encoded, secretKey).value) == r
    ensures secretKey.None? ==> r == Err(DecryptionFailed + KeyMissingMessage)
  {
    match DecryptBytes(encoded, secretKey)
    case Err(msg) => Err(DecryptionFailed + msg)
    case Ok(pt) =>
      match parse(pt)
      case Err(msg) => Err(DecryptionFailed + msg)
      case Ok(v) => Ok(v)
  }

  /** A blob that decodes to fewer than 28 bytes yields no plaintext: decryption fails or parses empty bytes. */
  lemma ShortBlobHasNoPlaintext(encoded: string, secretKey: Option<string>)
    requires Base64.Decode(encoded).Some? && |Base64.Decode(encoded).value| < IvLength + TagLength
    ensures DecryptBytes(encoded, secretKey).Err? || DecryptBytes(encoded, secretKey).value == []
  {
    var buf := Base64.Decode(encoded).value;
    var p := SplitFrame(buf);
    if |buf| == 15 {
      assert |p.tag| == 1;
    } else {
      assert p.ct == [];
    }
  }

  /** Decrypting what was encrypted under the same key gives the payload back, whatever the nonce. */
  lemma RoundTrip<T>(payload: T, secretKey: Option<string>, iv: seq<byte>,
                     stringify: T -> seq<byte>, parse: seq<byte> -> Result<T, string>)
    requires |iv| == IvLength
    requires KeyBytes(secretKey).Ok?
    requires parse(stringify(payload)) == Ok(payload)
    ensures EncryptPayload(payload, secretKey, iv, stringify).Ok?
    ensures DecryptPayload(EncryptPayload(payload, secretKey, iv, stringify).value, secretKey, parse) == Ok(payload)
  {
    var key := KeyBytes(secretKey).value;
    var ct := Aead.Seal(key, iv, stringify(payload));
    var tag := Aead.Tag(key, iv, ct);
    var buf := Frame(iv, ct, tag);
    Base64.DecodeEncode(buf);
    SplitFrameOfFrame(iv, ct, tag);
    Aead.OpenSeal(key, iv, stringify(payload));
  }

  /** A payload encrypted under one key and opened under a key that is missing or malformed is refused. */
  lemma WrongKeyFormRefused<T>(encoded: string, secretKey: Option<string>, parse: seq<byte> -> Result<T, string>)
    requires KeyBytes(secretKey).Err?
    ensures DecryptPayload(encoded, secretKey, parse) == Err(DecryptionFailed + KeyBytes(secretKey).error)
  {
  }
}
