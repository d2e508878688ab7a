/**
 * The Nigori payload envelope of the Brave Sync v2 client
 * (chromium_sync/crypto.py): IV(16) ++ AES-128-CTR ciphertext ++ HMAC-SHA256(32),
 * and the two key derivations that split 128 bytes of KDF output into keys.
 *
 * AES-128-CTR (NIST SP 800-38A section 6.5), HMAC (RFC 2104), scrypt
 * (RFC 7914) and PBKDF2 (RFC 8018 section 5.2) are uninterpreted: CTR is XOR
 * with a keystream fixed by (key, iv), and each primitive is known only by its
 * output length.
 */
module NigoriCrypto {
  import opened Util
  import opened Primitives

  const ScryptN: nat := 8192
  const ScryptR: nat := 8
  const ScryptP: nat := 11
  const ScryptKeyLength: nat := 128

  const IvLength: nat := 16
  const MacLength: nat := 32
  /** IV + empty ciphertext + MAC. */
  const MinEncryptedLength: nat := 48

  const Pbkdf2Iterations: nat := 1003

  const TooShort := "Encrypted data too short"
  const HmacFailed := "HMAC verification failed"

  datatype Ciphers = Ciphers(
    keystream: (Bytes, Bytes, nat) -> Bytes,           // AES-128-CTR keystream for (key, iv), n bytes
    hmacSha256: (Bytes, Bytes) -> Bytes,               // HMAC-SHA256(key, data)
    scrypt: (Bytes, Bytes, nat, nat, nat, nat) -> Bytes, // scrypt(password, salt, n, r, p, length)
    pbkdf2HmacSha1: (Bytes, Bytes, nat, nat) -> Bytes  // PBKDF2-HMAC-SHA1(password, salt, iterations, dklen)
  )

  /** Output lengths of the primitives. */
  ghost predicate CiphersSound(c: Ciphers) {
    (forall k, iv, n :: |c.keystream(k, iv, n)| == n)
    && (forall k, d :: |c.hmacSha256(k, d)| == MacLength)
    && (forall pw, salt, n, r, p, len :: |c.scrypt(pw, salt, n, r, p, len)| == len)
    && (forall pw, salt, it, len :: |c.pbkdf2HmacSha1(pw, salt, it, len)| == len)
  }

  /** HMAC under `key` separates different messages (collision resistance, used only as a premise). */
  ghost predicate HmacInjective(c: Ciphers, key: Bytes) {
    forall a, b :: c.hmacSha256(key, a) == c.hmacSha256(key, b) ==> a == b
  }

  datatype NigoriKeys = NigoriKeys(userKey: Bytes, encryptionKey: Bytes, macKey: Bytes)

  function Xor(a: Bytes, b: Bytes): (r: Bytes)
    requires |a| == |b|
    ensures |r| == |a|
  {
    seq(|a|, i requires 0 <= i < |a| => a[i] ^ b[i])
  }

  /** AES-CTR encryption and decryption are the same operation. */
  function Ctr(c: Ciphers, key: Bytes, iv: Bytes, data: Bytes): (r: Bytes)
    requires CiphersSound(c)
    ensures |r| == |data|
  {
    Xor(data, c.keystream(key, iv, |data|))
  }

  lemma CtrInvolution(c: Ciphers, key: Bytes, iv: Bytes, data: Bytes)
    requires CiphersSound(c)
    ensures Ctr(c, key, iv, Ctr(c, key, iv, data)) == data
  {
    var ks := c.keystream(key, iv, |data|);
    var once := Ctr(c, key, iv, data);
    assert c.keystream(key, iv, |once|) == ks;
    forall i | 0 <= i < |data| ensures Ctr(c, key, iv, once)[i] == data[i] {
      assert once[i] == data[i] ^ ks[i];
    }
  }

  /** `NigoriKeys.encrypt` with the random IV as an input. */
  function Encrypt(c: Ciphers, keys: NigoriKeys, iv: Bytes, plaintext: Bytes): (blob: Bytes)
    requires CiphersSound(c) && |iv| == IvLength
    ensures |blob| == IvLength + |plaintext| + MacLength
    ensures blob[..IvLength] == iv
    ensures blob[IvLength..|blob| - MacLength] == Ctr(c, keys.encryptionKey, iv, plaintext)
    ensures blob[|blob| - MacLength..] == c.hmacSha256(keys.macKey, blob[..|blob| - MacLength])
  {
    var ciphertext := Ctr(c, keys.encryptionKey, iv, plaintext);
    var mac := c.hmacSha256(keys.macKey, iv + ciphertext);
    assert (iv + ciphertext + mac)[..|iv + ciphertext|] == iv + ciphertext;
    iv + ciphertext + mac
  }

  /** `NigoriKeys.decrypt`: length check, then MAC check, and only then CTR decryption. */
  function Decrypt(c: Ciphers, keys: NigoriKeys, blob: Bytes): (r: Result<Bytes>)
    requires CiphersSound(c)
    ensures |blob| < MinEncryptedLength <==> r == Err(TooShort)
    ensures |blob| >= MinEncryptedLength
            && blob[|blob| - MacLength..] != c.hmacSha256(keys.macKey, blob[..|blob| - MacLength])
            <==> r == Err(HmacFailed)
    ensures r.Ok? ==> r.value == Ctr(c, keys.encryptionKey, blob[..IvLength], blob[IvLength..|blob| - MacLength])
  {
    if |blob| < MinEncryptedLength then Err(TooShort)
    else
      var iv := blob[..IvLength];
      var mac := blob[|blob| - MacLength..];
      var ciphertext := blob[IvLength..|blob| - MacLength];
      assert iv + ciphertext == blob[..|blob| - MacLength];
      if mac != c.hmacSha256(keys.macKey, iv + ciphertext) then Err(HmacFailed)
      else Ok(Ctr(c, keys.encryptionKey, iv, ciphertext))
  }

  /** Decrypting what `Encrypt` produced under the same keys gives the plaintext back, for every plaintext. */
  lemma RoundTrip(c: Ciphers, keys: NigoriKeys, iv: Bytes, plaintext: Bytes)
    requires CiphersSound(c) && |iv| == IvLength
    ensures Decrypt(c, keys, Encrypt(c, keys, iv, plaintext)) == Ok(plaintext)
  {
    var blob := Encrypt(c, keys, iv, plaintext);
    CtrInvolution(c, keys.encryptionKey, iv, plaintext);
  }

  /** Changing one ciphertext byte of a valid blob makes decryption fail, given HMAC injectivity. */
  lemma TamperedCiphertextRejected(c: Ciphers, keys: NigoriKeys, iv: Bytes, plaintext: Bytes, k: nat, b: bv8)
    requires CiphersSound(c) && |iv| == IvLength && HmacInjective(c, keys.macKey)
    requires k < |plaintext|
    requires Encrypt(c, keys, iv, plaintext)[IvLength + k] != b
    ensures Decrypt(c, keys, Encrypt(c, keys, iv, plaintext)[IvLength + k := b]) == Err(HmacFailed)
  {
    var blob := Encrypt(c, keys, iv, plaintext);
    var bad := blob[IvLength + k := b];
    var n := |blob| - MacLength;
    assert bad[n..] == blob[n..];
    assert bad[..n][IvLength + k] != blob[..n][IvLength + k];
    assert c.hmacSha256(keys.macKey, bad[..n]) != c.hmacSha256(keys.macKey, blob[..n]);
  }

  /** Split 128 bytes of KDF output into the user, encryption and MAC keys. */
  function SplitDerived(derived: Bytes): (keys: NigoriKeys)
    requires |derived| == ScryptKeyLength
    ensures |keys.userKey| == 16 && |keys.encryptionKey| == 16 && |keys.macKey| == 32
    ensures keys.userKey + keys.encryptionKey + keys.macKey == derived[..64]
  {
    assert derived[..16] + derived[16..32] + derived[32..64] == derived[..64];
    NigoriKeys(derived[..16], derived[16..32], derived[32..64])
  }

  /** scrypt(N=8192, r=8, p=11, 128 bytes) over the UTF-8 passphrase and the server's salt. */
  function DeriveKeysScrypt(c: Ciphers, codec: Codec, passphrase: string, salt: Bytes): (keys: NigoriKeys)
    requires CiphersSound(c)
    ensures |keys.userKey| == 16 && |keys.encryptionKey| == 16 && |keys.macKey| == 32
    ensures keys.userKey + keys.encryptionKey + keys.macKey
            == c.scrypt(codec.utf8(passphrase), salt, 8192, 8, 11, 128)[..64]
  {
    SplitDerived(c.scrypt(codec.utf8(passphrase), salt, ScryptN, ScryptR, ScryptP, ScryptKeyLength))
  }

  function Pbkdf2Salt(): (salt: Bytes)
    ensures |salt| == 8
  {
    Ascii("saltsalt")
  }

  /** Legacy derivation: PBKDF2-HMAC-SHA1 with the constant salt "saltsalt" and 1003 iterations. */
  function DeriveKeysPbkdf2(c: Ciphers, codec: Codec, passphrase: string): (keys: NigoriKeys)
    requires CiphersSound(c)
    ensures |keys.userKey| == 16 && |keys.encryptionKey| == 16 && |keys.macKey| == 32
    ensures keys.userKey + keys.encryptionKey + keys.macKey
            == c.pbkdf2HmacSha1(codec.utf8(passphrase), Ascii("saltsalt"), 1003, 128)[..64]
  {
    SplitDerived(c.pbkdf2HmacSha1(codec.utf8(passphrase), Pbkdf2Salt(), Pbkdf2Iterations, ScryptKeyLength))
  }

  function NigoriKeyLiteral(): (r: Bytes)
    ensures |r| == 10
  {
    Ascii("nigori-key")
  }

  /** `NigoriKeys.key_name`: base64 of the encryption of "nigori-key" under a fresh IV. */
  function KeyName(c: Ciphers, codec: Codec, keys: NigoriKeys, iv: Bytes): string
    requires CiphersSound(c) && |iv| == IvLength
  {
    codec.b64encode(Encrypt(c, keys, iv, NigoriKeyLiteral()))
  }

  /** `decrypt_encrypted_data`: base64-decode the blob, then decrypt. */
  function DecryptEncryptedData(c: Ciphers, codec: Codec, blob: string, keys: NigoriKeys): (r: Result<Bytes>)
    requires CiphersSound(c)
    ensures codec.b64decode(blob).None? ==> r.Err?
    ensures codec.b64decode(blob).Some? ==> r == Decrypt(c, keys, codec.b64decode(blob).value)
  {
    match codec.b64decode(blob)
    case None => Err("Invalid base64-encoded string")
    case Some(encrypted) => Decrypt(c, keys, encrypted)
  }

  /** A key name decodes and decrypts back to "nigori-key". */
  lemma KeyNameDecrypts(c: Ciphers, codec: Codec, keys: NigoriKeys, iv: Bytes)
    requires CiphersSound(c) && CodecSound(codec) && |iv| == IvLength
    ensures DecryptEncryptedData(c, codec, KeyName(c, codec, keys, iv), keys) == Ok(Ascii("nigori-key"))
  {
    RoundTrip(c, keys, iv, NigoriKeyLiteral());
  }
}
