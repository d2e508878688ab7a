/**
 * Credentials of the Brave Sync v2 client (chromium_sync/auth.py): a BIP-0039
 * phrase decodes to entropy, HKDF-SHA512 (RFC 5869) turns it into an Ed25519
 * (RFC 8032) private key, and the bearer token is
 * base64(hex(ts) | hex(signature) | hex(public key)).
 *
 * BIP-0039 checking and entropy extraction, HKDF, Ed25519 and base64 are
 * uninterpreted fields; their soundness predicates give only output lengths.
 */
module SyncAuth {
  import opened Util
  import opened Primitives

  datatype Mnemonic = Mnemonic(
    check: string -> bool,        // mnemonic checksum test over the English word list
    toEntropy: string -> Bytes    // entropy bytes of a checked phrase
  )

  /** BIP-0039: 12 words carry 16 bytes of entropy and 24 words carry 32. */
  ghost predicate MnemonicSound(m: Mnemonic) {
    forall phrase :: m.check(phrase) && (|Words(phrase)| == 12 || |Words(phrase)| == 24)
      ==> |m.toEntropy(phrase)| == |Words(phrase)| / 3 * 4
  }

  datatype Signer = Signer(
    hkdfSha512: (Bytes, Option<Bytes>, Bytes, nat) -> Bytes, // HKDF(ikm, salt, info, length)
    publicKeyOf: Bytes -> Bytes,                              // Ed25519 raw public key of a private key
    sign: (Bytes, Bytes) -> Bytes                             // Ed25519 signature(private key, message)
  )

  ghost predicate SignerSound(s: Signer) {
    (forall ikm, salt, info, len :: |s.hkdfSha512(ikm, salt, info, len)| == len)
    && (forall k :: |s.publicKeyOf(k)| == 32)
    && (forall k, msg :: |s.sign(k, msg)| == 64)
  }

  datatype Credentials = Credentials(seed: Bytes, privateKey: Bytes, publicKey: Bytes)

  /** Length of the word that starts `s`. */
  function WordLength(s: string): (n: nat)
    requires |s| > 0 && !IsSpace(s[0])
    ensures 1 <= n <= |s|
    ensures forall i :: 0 <= i < n ==> !IsSpace(s[i])
    ensures n < |s| ==> IsSpace(s[n])
  {
    if |s| == 1 || IsSpace(s[1]) then 1 else 1 + WordLength(s[1..])
  }

  /** `s.split()`: the maximal runs of non-whitespace characters, in order. */
  function Words(s: string): (r: seq<string>)
    ensures forall k :: 0 <= k < |r| ==> |r[k]| > 0 && forall i :: 0 <= i < |r[k]| ==> !IsSpace(r[k][i])
  {
    if |s| == 0 then []
    else if IsSpace(s[0]) then Words(s[1..])
    else
      var n := WordLength(s);
      [s[..n]] + Words(s[n..])
  }

  /**
   * The phrase as a reader sees its words: leading and trailing white space
   * dropped and every run of it between two words turned into one space.
   * `state` is 0 before the first word, 1 inside a word, and 2 after a word
   * once white space has followed it.
   */
  function Squeeze(s: string, state: nat): string
    decreases |s|
  {
    if |s| == 0 then ""
    else if IsSpace(s[0]) then Squeeze(s[1..], if state == 0 then 0 else 2)
    else (if state == 2 then " " else "") + [s[0]] + Squeeze(s[1..], 1)
  }

  /** How many words begin in `s`: characters that are not white space and follow white space or the start. */
  function RunStarts(s: string, afterSpace: bool): nat
    decreases |s|
  {
    if |s| == 0 then 0
    else (if !IsSpace(s[0]) && afterSpace then 1 else 0) + RunStarts(s[1..], IsSpace(s[0]))
  }

  /** Inside a word, its characters are copied as they are. */
  lemma {:induction false} SqueezeWord(s: string, k: nat)
    requires k <= |s| && forall i :: 0 <= i < k ==> !IsSpace(s[i])
    ensures Squeeze(s, 1) == s[..k] + Squeeze(s[k..], 1)
    ensures RunStarts(s, false) == RunStarts(s[k..], false)
    decreases k
  {
    if k > 0 {
      SqueezeWord(s[1..], k - 1);
      assert s[1..][k - 1..] == s[k..];
      assert s[..k] == [s[0]] + s[1..][..k - 1];
    }
  }

  /** The words of a phrase that starts with a word: that word, then the words after it. */
  lemma WordsHead(s: string)
    requires |s| > 0 && !IsSpace(s[0])
    ensures var n := WordLength(s);
            Words(s) == [s[..n]] + Words(s[n..])
            && (n < |s| ==> IsSpace(s[n]) && s[n..][1..] == s[n + 1..] && Words(s[n..]) == Words(s[n + 1..]))
  {
  }

  /**
   * `split()` yields the maximal runs of non-white-space characters in
   * order: joined by single spaces they give the squeezed phrase, which
   * fixes them, each word being non-empty and free of white space.
   */
  lemma {:induction false} WordsAreRuns(s: string, state: nat)
    requires state == 0 || state == 2
    ensures Squeeze(s, state) == Squeezed(Words(s), state)
    decreases |s|
  {
    if |s| > 0 {
      if IsSpace(s[0]) {
        WordsAreRuns(s[1..], state);
        assert Squeeze(s, state) == Squeeze(s[1..], state);
      } else {
        var n := WordLength(s);
        if n < |s| {
          WordsAreRuns(s[n + 1..], 2);
        }
        WordThenRest(s, state);
      }
    }
  }

  /** The squeezed text of a list of words, with a space in front after an earlier word. */
  function Squeezed(words: seq<string>, state: nat): string {
    if words == [] then "" else Lead(state) + Join(words, " ")
  }

  /** The space put before a word: one after an earlier word, none before the first. */
  function Lead(state: nat): string {
    if state == 2 then " " else ""
  }

  /** Squeezing a phrase that starts with a word copies that word and goes on inside it. */
  lemma {:induction false} SqueezeHead(s: string, state: nat, k: nat)
    requires 1 <= k <= |s| && forall i :: 0 <= i < k ==> !IsSpace(s[i])
    ensures Squeeze(s, state) == Lead(state) + s[..k] + Squeeze(s[k..], 1)
  {
    var t := s[1..];
    var lead, c := Lead(state), [s[0]];
    var x, y := t[..k - 1], Squeeze(t[k - 1..], 1);
    assert Squeeze(s, state) == lead + c + Squeeze(t, 1);
    SqueezeWord(t, k - 1);
    assert t[k - 1..] == s[k..];
    assert c + x == s[..k];
    Regroup(lead, c, x, y);
  }

  /** The step of `WordsAreRuns` for a phrase that starts with a word. */
  lemma WordThenRest(s: string, state: nat)
    requires |s| > 0 && !IsSpace(s[0]) && (state == 0 || state == 2)
    requires WordLength(s) < |s| ==> Squeeze(s[WordLength(s) + 1..], 2) == Squeezed(Words(s[WordLength(s) + 1..]), 2)
    ensures Squeeze(s, state) == Squeezed(Words(s), state)
  {
    var n := WordLength(s);
    var w := s[..n];
    var rest := Words(s[n..]);
    var tail := Squeeze(s[n..], 1);
    WordsHead(s);
    SqueezeHead(s, state, n);
    JoinCons(w, rest, " ");
    assert Squeeze(s, state) == Lead(state) + w + tail;
    assert Squeezed(Words(s), state) == Lead(state) + Join([w] + rest, " ");
    if n < |s| {
      assert tail == Squeeze(s[n + 1..], 2);
      assert rest == Words(s[n + 1..]);
      if rest == [] {
        assert tail == "";
        assert Lead(state) + w + "" == Lead(state) + w;
      } else {
        var j := Join(rest, " ");
        assert tail == " " + j;
        Regroup(Lead(state), w, " ", j);
      }
    } else {
      assert s[n..] == [];
      assert rest == [] && tail == "";
      assert Lead(state) + w + "" == Lead(state) + w;
    }
  }

  lemma Regroup(a: string, b: string, c: string, d: string)
    ensures a + b + (c + d) == a + (b + c + d)
  {
  }

  lemma JoinCons(w: string, rest: seq<string>, sep: string)
    ensures Join([w] + rest, sep) == if rest == [] then w else w + sep + Join(rest, sep)
  {
    assert ([w] + rest)[1..] == rest;
  }

  /** There is one word per position where a run of non-white-space characters begins. */
  lemma {:induction false} WordsCount(s: string)
    ensures |Words(s)| == RunStarts(s, true)
    decreases |s|
  {
    if |s| > 0 {
      if IsSpace(s[0]) {
        WordsCount(s[1..]);
      } else {
        var n := WordLength(s);
        WordsHead(s);
        SqueezeWord(s[1..], n - 1);
        assert s[1..][n - 1..] == s[n..];
        if n < |s| {
          WordsCount(s[n + 1..]);
        }
      }
    }
  }

  /** `decode_seed_phrase`: the word count is checked before the checksum. */
  function DecodeSeedPhrase(m: Mnemonic, phrase: string): (r: Result<Bytes>)
    ensures var n := |Words(phrase)|;
            n != 12 && n != 24 ==> r == Err("Expected 12 or 24 words, got " + Decimal(n))
    ensures var n := |Words(phrase)|;
            (n == 12 || n == 24) && !m.check(phrase) ==> r == Err("Invalid mnemonic phrase")
    ensures r.Ok? <==> (|Words(phrase)| == 12 || |Words(phrase)| == 24) && m.check(phrase)
    ensures r.Ok? && MnemonicSound(m) ==> |r.value| == (if |Words(phrase)| == 12 then 16 else 32)
  {
    var words := Words(phrase);
    if |words| != 12 && |words| != 24 then Err("Expected 12 or 24 words, got " + Decimal(|words|))
    else if !m.check(phrase) then Err("Invalid mnemonic phrase")
    else Ok(m.toEntropy(phrase))
  }

  function UserSecretInfo(): (r: Bytes)
    ensures |r| == 11
  {
    Ascii("user-secret")
  }

  /** `derive_keypair`: HKDF-SHA512 with no salt and info "user-secret" gives a 32-byte private key. */
  function DeriveKeypair(s: Signer, seed: Bytes): (pair: (Bytes, Bytes))
    requires SignerSound(s)
    ensures pair.0 == s.hkdfSha512(seed, None, Ascii("user-secret"), 32)
    ensures |pair.0| == 32 && |pair.1| == 32
    ensures pair.1 == s.publicKeyOf(pair.0)
  {
    var privateKey := s.hkdfSha512(seed, None, UserSecretInfo(), 32);
    (privateKey, s.publicKeyOf(privateKey))
  }

  /** `create_credentials`: a decoding error is passed through unchanged. */
  function CreateCredentials(m: Mnemonic, s: Signer, phrase: string): (r: Result<Credentials>)
    requires SignerSound(s)
    ensures DecodeSeedPhrase(m, phrase).Err? ==> r == Err(DecodeSeedPhrase(m, phrase).message)
    ensures r.Ok? ==> r.value.seed == DecodeSeedPhrase(m, phrase).value
                      && (r.value.privateKey, r.value.publicKey) == DeriveKeypair(s, r.value.seed)
  {
    match DecodeSeedPhrase(m, phrase)
    case Err(msg) => Err(msg)
    case Ok(seed) =>
      var pair := DeriveKeypair(s, seed);
      Ok(Credentials(seed, pair.0, pair.1))
  }

  // ---- hexadecimal text ----

  /** A digit value below 16 as its lower-case hexadecimal digit. */
  function HexDigit(d: nat): (c: char)
    requires d < 16
    ensures IsHex(c) && Util.HexValue(c) == d
  {
    HexDigitValues();
    HexDigits[d]
  }

  /** `format(n, "x")`: lower-case hexadecimal with no prefix and no padding. */
  function Hex(n: nat): (r: string)
    ensures |r| >= 1
    ensures forall i :: 0 <= i < |r| ==> IsHex(r[i])
  {
    if n < 16 then [HexDigit(n)] else Hex(n / 16) + [HexDigit(n % 16)]
  }

  /** The number a hexadecimal numeral denotes, most significant digit first. */
  function HexNumber(s: string): nat
    requires forall i :: 0 <= i < |s| ==> IsHex(s[i])
  {
    if |s| == 0 then 0 else HexNumber(s[..|s| - 1]) * 16 + Util.HexValue(s[|s| - 1])
  }

  /** Reading the hex text back gives the number: the rendering loses nothing. */
  lemma {:induction false} HexRoundTrip(n: nat)
    ensures HexNumber(Hex(n)) == n
  {
    if n >= 16 {
      HexRoundTrip(n / 16);
      var s := Hex(n);
      assert s[..|s| - 1] == Hex(n / 16);
    }
  }

  /** No zero padding: the first digit is '0' only for zero itself. */
  lemma {:induction false} HexNoLeadingZero(n: nat)
    ensures Hex(n)[0] == '0' <==> n == 0
  {
    if n >= 16 {
      HexNoLeadingZero(n / 16);
    }
  }

  /** The text the bearer token encodes. */
  function TokenText(s: Signer, codec: Codec, creds: Credentials, ts: nat): string {
    var tsHex := Hex(ts);
    tsHex + "|" + Util.Hex(s.sign(creds.privateKey, codec.utf8(tsHex))) + "|" + Util.Hex(creds.publicKey)
  }

  /** `SyncCredentials.generate_token`: an absent timestamp is taken from the clock. */
  function GenerateToken(s: Signer, codec: Codec, creds: Credentials, timestampMs: Option<nat>, nowMs: nat): string {
    var ts := if timestampMs.Some? then timestampMs.value else nowMs;
    codec.b64encode(codec.utf8(TokenText(s, codec, creds, ts)))
  }

  lemma HexHasNoBar(s: string)
    requires forall i :: 0 <= i < |s| ==> IsHex(s[i])
    ensures '|' !in s
  {
  }

  /**
   * The decoded token splits on '|' into exactly three parts: the timestamp
   * in hex, the 128-character signature and the 64-character public key.
   */
  lemma TokenParts(s: Signer, codec: Codec, creds: Credentials, timestampMs: Option<nat>, nowMs: nat)
    requires SignerSound(s) && CodecSound(codec) && |creds.publicKey| == 32
    ensures var ts := if timestampMs.Some? then timestampMs.value else nowMs;
            var text := TokenText(s, codec, creds, ts);
            var parts := Split(text, '|');
            codec.b64decode(GenerateToken(s, codec, creds, timestampMs, nowMs)) == Some(codec.utf8(text))
            && |parts| == 3 && parts[0] == Hex(ts) && |parts[1]| == 128 && |parts[2]| == 64
            && parts[2] == Util.Hex(creds.publicKey)
  {
    var ts := if timestampMs.Some? then timestampMs.value else nowMs;
    var tsHex := Hex(ts);
    var sigHex := Util.Hex(s.sign(creds.privateKey, codec.utf8(tsHex)));
    var pubHex := Util.Hex(creds.publicKey);
    HexIsHex(s.sign(creds.privateKey, codec.utf8(tsHex)));
    HexIsHex(creds.publicKey);
    HexHasNoBar(tsHex);
    HexHasNoBar(sigHex);
    HexHasNoBar(pubHex);
    SplitNoSeparator(pubHex, '|');
    SplitCons(sigHex, '|', pubHex);
    SplitCons(tsHex, '|', sigHex + "|" + pubHex);
    assert tsHex + "|" + sigHex + "|" + pubHex == tsHex + ['|'] + (sigHex + ['|'] + pubHex);
  }
}
