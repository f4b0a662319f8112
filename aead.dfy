/**
 * A stand-in for AES-256-GCM (NIST SP 800-38D). The core treats the cipher as a black box with a
 * 32-byte key, a nonce, a ciphertext as long as the plaintext and a 16-byte authentication tag; what it
 * relies on are two properties: opening what was sealed with the same key and nonce gives the plaintext
 * back, and opening fails whenever the tag is not the one the key, nonce and ciphertext determine.
 * This module gives the box concrete contents so that both properties are proved rather than assumed;
 * it is not AES and makes no claim of secrecy.
 */
module Aead {
  import opened Wrappers
  import opened Bytes

  const KeyLength := 32
  const TagLength := 16

  function KeystreamByte(key: seq<byte>, iv: seq<byte>, i: nat): byte
    requires |key| == KeyLength && |iv| > 0
  {
    (key[i % KeyLength] + iv[i % |iv|] + i) % 256
  }

  /** The ciphertext part of GCM's authenticated encryption. */
  function Seal(key: seq<byte>, iv: seq<byte>, plaintext: seq<byte>): (ct: seq<byte>)
    requires |key| == KeyLength && |iv| > 0
    ensures |ct| == |plaintext|
  {
    seq(|plaintext|, i requires 0 <= i < |plaintext| => (plaintext[i] + KeystreamByte(key, iv, i)) % 256)
  }

  function Unseal(key: seq<byte>, iv: seq<byte>, ct: seq<byte>): (pt: seq<byte>)
    requires |key| == KeyLength && |iv| > 0
    ensures |pt| == |ct|
  {
    seq(|ct|, i requires 0 <= i < |ct| => (ct[i] - KeystreamByte(key, iv, i)) % 256)
  }

  function Checksum(ct: seq<byte>): byte {
    if ct == [] then 0 else (ct[0] + 31 * Checksum(ct[1..])) % 256
  }

  /** `cipher.getAuthTag()`: the 16-byte tag over the key, the nonce and the ciphertext. */
  function Tag(key: seq<byte>, iv: seq<byte>, ct: seq<byte>): (tag: seq<byte>)
    requires |key| == KeyLength && |iv| > 0
    ensures |tag| == TagLength
  {
    var sum := Checksum(ct);
    seq(TagLength, j requires 0 <= j < TagLength =>
      (key[j] + key[j + TagLength] + sum + (if j < |iv| then iv[j] else |ct| % 256)) % 256)
  }

  /** `decipher.setAuthTag(tag)`, `update` and `final`: the plaintext, or `None` when the tag does not verify. */
  function Open(key: seq<byte>, iv: seq<byte>, ct: seq<byte>, tag: seq<byte>): (r: Option<seq<byte>>)
    requires |key| == KeyLength && |iv| > 0
    ensures r.Some? <==> tag == Tag(key, iv, ct)
    ensures r.Some? ==> |r.value| == |ct|
  {
    if tag == Tag(key, iv, ct) then Some(Unseal(key, iv, ct)) else None
  }

  /** Opening a sealed plaintext with its own tag under the same key and nonce gives it back. */
  lemma OpenSeal(key: seq<byte>, iv: seq<byte>, plaintext: seq<byte>)
    requires |key| == KeyLength && |iv| > 0
    ensures Open(key, iv, Seal(key, iv, plaintext), Tag(key, iv, Seal(key, iv, plaintext))) == Some(plaintext)
  {
    var ct := Seal(key, iv, plaintext);
    var pt := Unseal(key, iv, ct);
    forall i | 0 <= i < |plaintext|
      ensures pt[i] == plaintext[i]
    {
      var x: int := plaintext[i];
      var k: int := KeystreamByte(key, iv, i);
      if x + k < 256 {
        assert ct[i] == x + k;
      } else {
        assert ct[i] == x + k - 256;
        assert pt[i] == (x - 256) % 256;
      }
    }
    assert pt == plaintext;
  }
}
