/**
 * The cryptographic primitives of the `cryptography` library, as uninterpreted
 * partial functions, and PKCS #7 padding for a 128-bit block (section 6.3 of
 * RFC 5652), which the library's padder and unpadder implement.
 */
module Ciphers {
  import opened Common

  /**
   * RSA under the project's private key (and its public half), and AES under a
   * caller-supplied key. Each decryption may raise; its message is kept.
   */
  datatype Crypto = Crypto(
    /** RSAES-OAEP with SHA-256 and MGF1-SHA-256 (section 7.1.2 of RFC 8017). */
    oaepDecrypt: Bytes -> Outcome<Bytes>,
    /** RSAES-PKCS1-v1_5 decryption (section 7.2.2 of RFC 8017). */
    pkcs1Decrypt: Bytes -> Outcome<Bytes>,
    /** RSAES-OAEP encryption under the public key (section 7.1.1 of RFC 8017). */
    oaepEncrypt: Bytes -> Outcome<Bytes>,
    /** `private_key.key_size`, in bits. */
    keySizeBits: nat,
    /** AES-GCM decryption of (key, nonce, ciphertext, tag), NIST SP 800-38D. */
    gcmDecrypt: (Bytes, Bytes, Bytes, Bytes) -> Outcome<Bytes>,
    /** AES-CBC decryption of (key, iv, ciphertext) with no unpadding, NIST SP 800-38A section 6.2. */
    cbcDecrypt: (Bytes, Bytes, Bytes) -> Outcome<Bytes>,
    /** AES-CBC encryption of (key, iv, padded plaintext). */
    cbcEncrypt: (Bytes, Bytes, Bytes) -> Outcome<Bytes>)

  const BlockBytes := 16

  /** `padding.PKCS7(128).padder()`: append n copies of the byte n, 1 <= n <= 16. */
  function Pkcs7Pad(data: Bytes): (r: Bytes)
    ensures |r| % BlockBytes == 0
    ensures |data| < |r| <= |data| + BlockBytes
    ensures r[..|data|] == data
    ensures |r| == BlockBytes * (|data| / BlockBytes + 1)
  {
    var n := BlockBytes - |data| % BlockBytes;
    data + seq(n, _ => n as bv8)
  }

  /** The padding the library's unpadder accepts. */
  predicate WellPadded(padded: Bytes) {
    |padded| > 0 && |padded| % BlockBytes == 0
    && 1 <= padded[|padded| - 1] as int <= BlockBytes
    && forall k :: |padded| - padded[|padded| - 1] as int <= k < |padded| ==> padded[k] == padded[|padded| - 1]
  }

  /** `padding.PKCS7(128).unpadder()`: validates the padding before removing it. */
  function Pkcs7Unpad(padded: Bytes): (r: Outcome<Bytes>)
    ensures r.Ok? <==> WellPadded(padded)
    ensures r.Ok? ==> r.value == padded[..|padded| - padded[|padded| - 1] as int]
  {
    if WellPadded(padded) then Ok(padded[..|padded| - padded[|padded| - 1] as int])
    else Err("Invalid padding bytes.")
  }

  /** Unpadding undoes padding, for every input. */
  lemma PadUnpad(data: Bytes)
    ensures Pkcs7Unpad(Pkcs7Pad(data)) == Ok(data)
  {
    var padded := Pkcs7Pad(data);
    var n := BlockBytes - |data| % BlockBytes;
    assert padded[|padded| - 1] as int == n;
    assert WellPadded(padded);
  }
}
