/**
  The PKCE helpers of fitbit/oauth.go: the code verifier of section 4.1 of
  RFC 7636 and its S256 code challenge (section 4.2).

  The operating system's random source is an input: `entropy` holds the bytes
  it is able to deliver, and a read of more bytes than that fails, as Go's
  `crypto/rand.Read` returns an error instead of a short read. SHA-256 is a
  parameter too, any function that maps bytes to a 32-byte digest.
 */
module Pkce {
  import opened Wrappers
  import opened Utf8
  import opened Base64

  /** The shortest and the longest verifier that section 4.1 of RFC 7636 allows. */
  const MinVerifierLength := 43
  const MaxVerifierLength := 128

  /** The 32 bytes of a SHA-256 digest. */
  type Digest = s: seq<byte> | |s| == 32 witness seq(32, _ => 0)

  datatype VerifierError =
    | InvalidLength    // "length must be between 43 and 128"
    | EntropyFailure   // the error of `rand.Read`

  /** How many random bytes `GenerateCodeVerifier` draws for a verifier of `length` characters. */
  function VerifierByteCount(length: int): int {
    (length * 3) / 4
  }

  /**
    `unreserved` of section 4.1 of RFC 7636, the characters a code verifier
    may be made of: ALPHA / DIGIT / "-" / "." / "_" / "~".
   */
  predicate Unreserved(c: char) {
    ('A' <= c <= 'Z') || ('a' <= c <= 'z') || ('0' <= c <= '9') ||
    c == '-' || c == '.' || c == '_' || c == '~'
  }

  /**
    GenerateCodeVerifier: reject a length outside [43, 128] before drawing any
    randomness, draw floor(3 * length / 4) bytes, encode them with unpadded
    base64url and cut the text to `length` characters if it is longer.
   */
  function GenerateCodeVerifier(length: int, entropy: seq<byte>): (r: Result<string, VerifierError>)
    ensures (length < MinVerifierLength || length > MaxVerifierLength) <==> r == Failure(InvalidLength)
    ensures r == Failure(EntropyFailure) <==>
      MinVerifierLength <= length <= MaxVerifierLength && |entropy| < VerifierByteCount(length)
    ensures r.Success? ==> |r.value| <= length && forall i :: 0 <= i < |r.value| ==> Unreserved(r.value[i])
  {
    if length < MinVerifierLength || length > MaxVerifierLength then
      Failure(InvalidLength)
    else
      var numBytes := VerifierByteCount(length);
      if |entropy| < numBytes then
        Failure(EntropyFailure)
      else
        var verifier := RawUrlEncode(entropy[..numBytes]);
        Success(if |verifier| > length then verifier[..length] else verifier)
  }

  /** The characters of the base64url alphabet are all unreserved in the sense of RFC 7636. */
  lemma UrlSymbolsAreUnreserved(s: string)
    requires forall i :: 0 <= i < |s| ==> InAlphabet(UrlSafe, s[i])
    ensures forall i :: 0 <= i < |s| ==> Unreserved(s[i])
  {
  }

  /**
    The verifier is exactly the encoding of the first floor(3L/4) bytes of
    entropy: the branch that cuts it to `length` characters is never taken.
   */
  lemma {:induction false} VerifierIsEncodedEntropy(length: int, entropy: seq<byte>)
    requires MinVerifierLength <= length <= MaxVerifierLength
    requires |entropy| >= VerifierByteCount(length)
    ensures GenerateCodeVerifier(length, entropy) == Success(RawUrlEncode(entropy[..VerifierByteCount(length)]))
  {
    var n := VerifierByteCount(length);
    VerifierLengthArithmetic(length);
    assert |RawUrlEncode(entropy[..n])| == 4 * (n / 3) + [0, 2, 3][n % 3];
  }

  /** The length of the encoding of floor(3L/4) bytes, by the remainder of L modulo 4. */
  lemma VerifierLengthArithmetic(length: int)
    requires length >= 0
    ensures var n := VerifierByteCount(length);
      4 * (n / 3) + [0, 2, 3][n % 3] == if length % 4 == 1 then length - 1 else length
  {
    var q, r := length / 4, length % 4;
    assert length == 4 * q + r;
    assert length * 3 == 12 * q + 3 * r;
    var n := VerifierByteCount(length);
    assert n == 3 * q + (3 * r) / 4;
  }

  /**
    The verifier has `length` characters unless `length` is one more than a
    multiple of four; then it has one character fewer. In particular the
    43-character verifier the setup flow asks for, and the longest one, have
    exactly the requested length.
   */
  lemma VerifierLength(length: int, entropy: seq<byte>)
    requires MinVerifierLength <= length <= MaxVerifierLength
    requires |entropy| >= VerifierByteCount(length)
    ensures GenerateCodeVerifier(length, entropy).Success?
    ensures |GenerateCodeVerifier(length, entropy).value| == if length % 4 == 1 then length - 1 else length
    ensures length == 43 || length == 128 ==> |GenerateCodeVerifier(length, entropy).value| == length
  {
    VerifierIsEncodedEntropy(length, entropy);
    VerifierLengthArithmetic(length);
  }

  /** Lengths 42 and 129 are refused, 43 and 128 give verifiers of that many characters. */
  lemma VerifierBounds(entropy: seq<byte>)
    requires |entropy| >= 96
    ensures GenerateCodeVerifier(42, entropy) == Failure(InvalidLength)
    ensures GenerateCodeVerifier(129, entropy) == Failure(InvalidLength)
    ensures |GenerateCodeVerifier(43, entropy).value| == 43
    ensures |GenerateCodeVerifier(128, entropy).value| == 128
  {
    VerifierLength(43, entropy);
    VerifierLength(128, entropy);
  }

  /**
    GenerateCodeChallenge: the S256 method of section 4.2 of RFC 7636,
    BASE64URL-ENCODE(SHA256(ASCII(code_verifier))) without padding. Go hashes
    the UTF-8 bytes of the string, which are the ASCII bytes for a verifier.
   */
  function GenerateCodeChallenge(verifier: string, sha256: seq<byte> -> Digest): (challenge: string)
    ensures |challenge| == 43
    ensures forall i :: 0 <= i < |challenge| ==> InAlphabet(UrlSafe, challenge[i])
    ensures Decode(UrlSafe, false, challenge) == Some(sha256(Utf8.Encode(verifier)))
  {
    var digest := sha256(Utf8.Encode(verifier));
    RoundTrip(UrlSafe, false, digest);
    RawUrlEncode(digest)
  }

  /** The challenge is the one text that decodes to the digest of the verifier. */
  lemma ChallengeIsTheEncoding(verifier: string, sha256: seq<byte> -> Digest, s: string)
    ensures Decode(UrlSafe, false, s) == Some(sha256(Utf8.Encode(verifier)))
        <==> s == GenerateCodeChallenge(verifier, sha256)
  {
    DecodeIsInverse(UrlSafe, false, s, sha256(Utf8.Encode(verifier)));
  }

  /** Equal challenges come from equal digests: the encoding step adds no collisions. */
  lemma ChallengeDeterminesDigest(v1: string, v2: string, sha256: seq<byte> -> Digest)
    requires GenerateCodeChallenge(v1, sha256) == GenerateCodeChallenge(v2, sha256)
    ensures sha256(Utf8.Encode(v1)) == sha256(Utf8.Encode(v2))
  {
  }
}
