/**
  Base 64 encoding as defined by RFC 4648. Go's `encoding/base64` offers it
  in the variants this system uses: `StdEncoding` (the alphabet of section 4,
  padded with `=`) for the HTTP Basic credentials, and `RawURLEncoding` (the
  URL and filename safe alphabet of section 5, padding omitted as section 3.2
  allows) for the PKCE verifier and challenge.

  Three input bytes become four symbols of six bits each; a final group of one
  or two bytes becomes two or three symbols, followed by `==` or `=` when the
  encoding pads.
 */
module Base64 {
  import opened Wrappers
  import opened Utf8

  /** The alphabet of section 4 or that of section 5 of RFC 4648. */
  datatype Alphabet = Standard | UrlSafe

  /** The symbol for the six-bit value `k` (Table 1 and Table 2 of RFC 4648). */
  function Symbol(alpha: Alphabet, k: int): (c: char)
    requires 0 <= k < 64
    ensures InAlphabet(alpha, c)
  {
    if k < 26 then ('A' as int + k) as char
    else if k < 52 then ('a' as int + (k - 26)) as char
    else if k < 62 then ('0' as int + (k - 52)) as char
    else if k == 62 then (if alpha == UrlSafe then '-' else '+')
    else (if alpha == UrlSafe then '_' else '/')
  }

  /** `c` is one of the 64 symbols of the alphabet. */
  predicate InAlphabet(alpha: Alphabet, c: char) {
    ('A' <= c <= 'Z') || ('a' <= c <= 'z') || ('0' <= c <= '9') ||
    (alpha == UrlSafe && (c == '-' || c == '_')) ||
    (alpha == Standard && (c == '+' || c == '/'))
  }

  /** The six-bit value of a symbol, the inverse of `Symbol`. */
  function Value(alpha: Alphabet, c: char): (k: int)
    requires InAlphabet(alpha, c)
    ensures 0 <= k < 64 && Symbol(alpha, k) == c
  {
    if 'A' <= c <= 'Z' then c as int - 'A' as int
    else if 'a' <= c <= 'z' then c as int - 'a' as int + 26
    else if '0' <= c <= '9' then c as int - '0' as int + 52
    else if c == '-' || c == '+' then 62
    else 63
  }

  /** The number of characters that `n` input bytes become. */
  function EncodedLength(n: nat, pad: bool): nat {
    if pad then 4 * ((n + 2) / 3)
    else 4 * (n / 3) + (if n % 3 == 0 then 0 else if n % 3 == 1 then 2 else 3)
  }

  /** Four symbols for three bytes: the 24 bits are cut into four 6-bit values. */
  function EncodeGroup(alpha: Alphabet, b0: byte, b1: byte, b2: byte): (g: string)
    ensures |g| == 4 && forall i :: 0 <= i < 4 ==> InAlphabet(alpha, g[i])
  {
    [Symbol(alpha, b0 as int / 4),
     Symbol(alpha, (b0 as int % 4) * 16 + b1 as int / 16),
     Symbol(alpha, (b1 as int % 16) * 4 + b2 as int / 64),
     Symbol(alpha, b2 as int % 64)]
  }

  /** `c` may appear in an encoding: a symbol, or `=` when the encoding pads. */
  predicate EncodedChar(alpha: Alphabet, pad: bool, c: char) {
    InAlphabet(alpha, c) || (pad && c == '=')
  }

  /**
    The final group of fewer than three bytes: two or three symbols, the
    missing bits taken as zero, then `==` or `=` when the encoding pads.
   */
  function EncodeTail(alpha: Alphabet, pad: bool, data: seq<byte>): (t: string)
    requires |data| < 3
    ensures |t| == EncodedLength(|data|, pad)
    ensures forall i :: 0 <= i < |t| ==> EncodedChar(alpha, pad, t[i])
  {
    if |data| == 2 then
      [Symbol(alpha, data[0] as int / 4),
       Symbol(alpha, (data[0] as int % 4) * 16 + data[1] as int / 16),
       Symbol(alpha, (data[1] as int % 16) * 4)]
      + (if pad then "=" else "")
    else if |data| == 1 then
      [Symbol(alpha, data[0] as int / 4), Symbol(alpha, (data[0] as int % 4) * 16)]
      + (if pad then "==" else "")
    else
      ""
  }

  /** A whole group adds four characters. */
  lemma EncodedLengthStep(n: nat, pad: bool)
    requires n >= 3
    ensures EncodedLength(n, pad) == 4 + EncodedLength(n - 3, pad)
  {
    assert n / 3 == (n - 3) / 3 + 1 && n % 3 == (n - 3) % 3;
    assert (n + 2) / 3 == (n - 3 + 2) / 3 + 1;
  }

  lemma EncodedCharsAppend(alpha: Alphabet, pad: bool, a: string, b: string)
    requires forall i :: 0 <= i < |a| ==> EncodedChar(alpha, pad, a[i])
    requires forall i :: 0 <= i < |b| ==> EncodedChar(alpha, pad, b[i])
    ensures forall i :: 0 <= i < |a + b| ==> EncodedChar(alpha, pad, (a + b)[i])
  {
    forall i | 0 <= i < |a + b|
      ensures EncodedChar(alpha, pad, (a + b)[i])
    {
      if i >= |a| {
        assert (a + b)[i] == b[i - |a|];
      }
    }
  }

  /** The encoding of `data`; `pad` selects whether a short final group is padded with `=`. */
  function Encode(alpha: Alphabet, pad: bool, data: seq<byte>): (s: string)
    ensures |s| == EncodedLength(|data|, pad)
    ensures forall i :: 0 <= i < |s| ==> EncodedChar(alpha, pad, s[i])
    decreases |data|
  {
    if |data| >= 3 then
      var g, rest := EncodeGroup(alpha, data[0], data[1], data[2]), Encode(alpha, pad, data[3..]);
      EncodedCharsAppend(alpha, pad, g, rest);
      EncodedLengthStep(|data|, pad);
      g + rest
    else
      EncodeTail(alpha, pad, data)
  }

  /** Go's `base64.RawURLEncoding.EncodeToString`. */
  function RawUrlEncode(data: seq<byte>): (s: string)
    ensures |s| == 4 * (|data| / 3) + [0, 2, 3][|data| % 3]
    ensures forall i :: 0 <= i < |s| ==> InAlphabet(UrlSafe, s[i])
  {
    Encode(UrlSafe, false, data)
  }

  /** Go's `base64.StdEncoding.EncodeToString`. */
  function StdEncode(data: seq<byte>): (s: string)
    ensures |s| == 4 * ((|data| + 2) / 3) && |s| % 4 == 0
    ensures forall i :: 0 <= i < |s| ==> InAlphabet(Standard, s[i]) || s[i] == '='
  {
    Encode(Standard, true, data)
  }

  /** Three bytes from four symbols; the inverse of `EncodeGroup`. */
  function DecodeGroup(alpha: Alphabet, q: string): (bs: seq<byte>)
    requires |q| == 4 && forall i :: 0 <= i < 4 ==> InAlphabet(alpha, q[i])
    ensures |bs| == 3
  {
    var k0, k1, k2, k3 := Value(alpha, q[0]), Value(alpha, q[1]), Value(alpha, q[2]), Value(alpha, q[3]);
    [(k0 * 4 + k1 / 16) as byte, ((k1 % 16) * 16 + k2 / 4) as byte, ((k2 % 4) * 64 + k3) as byte]
  }

  /** All characters of `s` are symbols of the alphabet. */
  predicate AllSymbols(alpha: Alphabet, s: string) {
    forall i :: 0 <= i < |s| ==> InAlphabet(alpha, s[i])
  }

  /**
    Decoding, the inverse of `Encode` (`DecodeIsInverse`): groups of four
    symbols, then a final group of two or three symbols, padded to four with
    `=` when `pad` holds. Anything else is rejected with `None`, including a
    final group whose unused bits are not zero, as section 3.5 of RFC 4648
    allows a decoder to do; so every text has at most one decoding and every
    byte sequence at most one text.
   */
  function Decode(alpha: Alphabet, pad: bool, s: string): (r: Option<seq<byte>>)
    decreases |s|
  {
    if s == [] then Some([])
    else if |s| >= 4 && AllSymbols(alpha, s[..4]) && (|s| > 4 || !pad || s[3] != '=') then
      match Decode(alpha, pad, s[4..])
      case None => None
      case Some(rest) => Some(DecodeGroup(alpha, s[..4]) + rest)
    else if pad && |s| == 4 && s[2..] == "==" then DecodeTail(alpha, s[..2])
    else if pad && |s| == 4 && s[3] == '=' then DecodeTail(alpha, s[..3])
    else if !pad && |s| < 4 then DecodeTail(alpha, s)
    else None
  }

  /**
    One or two bytes from a final group of two or three symbols; the low four
    or two bits of the last symbol are padding and must be zero.
   */
  function DecodeTail(alpha: Alphabet, t: string): Option<seq<byte>> {
    if |t| == 2 && AllSymbols(alpha, t) && Value(alpha, t[1]) % 16 == 0 then
      var k0, k1 := Value(alpha, t[0]), Value(alpha, t[1]);
      Some([(k0 * 4 + k1 / 16) as byte])
    else if |t| == 3 && AllSymbols(alpha, t) && Value(alpha, t[2]) % 4 == 0 then
      var k0, k1, k2 := Value(alpha, t[0]), Value(alpha, t[1]), Value(alpha, t[2]);
      Some([(k0 * 4 + k1 / 16) as byte, ((k1 % 16) * 16 + k2 / 4) as byte])
    else None
  }

  lemma ValueOfSymbol(alpha: Alphabet, k: int)
    requires 0 <= k < 64
    ensures Value(alpha, Symbol(alpha, k)) == k
  {
  }

  /** The bytes of a group, from the symbol values `EncodeGroup` computes. */
  lemma GroupArithmetic(x0: int, x1: int, x2: int)
    requires 0 <= x0 < 256 && 0 <= x1 < 256 && 0 <= x2 < 256
    ensures var k0, k1, k2, k3 := x0 / 4, (x0 % 4) * 16 + x1 / 16, (x1 % 16) * 4 + x2 / 64, x2 % 64;
      k0 * 4 + k1 / 16 == x0 && (k1 % 16) * 16 + k2 / 4 == x1 && (k2 % 4) * 64 + k3 == x2
  {
    var k1, k2 := (x0 % 4) * 16 + x1 / 16, (x1 % 16) * 4 + x2 / 64;
    assert k1 / 16 == x0 % 4 && k1 % 16 == x1 / 16;
    assert k2 / 4 == x1 % 16 && k2 % 4 == x2 / 64;
  }

  lemma GroupRoundTrip(alpha: Alphabet, b0: byte, b1: byte, b2: byte)
    ensures AllSymbols(alpha, EncodeGroup(alpha, b0, b1, b2))
    ensures DecodeGroup(alpha, EncodeGroup(alpha, b0, b1, b2)) == [b0, b1, b2]
  {
    var x0, x1, x2 := b0 as int, b1 as int, b2 as int;
    var k0, k1, k2, k3 := x0 / 4, (x0 % 4) * 16 + x1 / 16, (x1 % 16) * 4 + x2 / 64, x2 % 64;
    ValueOfSymbol(alpha, k0);
    ValueOfSymbol(alpha, k1);
    ValueOfSymbol(alpha, k2);
    ValueOfSymbol(alpha, k3);
    GroupArithmetic(x0, x1, x2);
  }

  lemma TailRoundTrip(alpha: Alphabet, data: seq<byte>)
    requires 1 <= |data| <= 2
    ensures AllSymbols(alpha, Encode(alpha, false, data))
    ensures DecodeTail(alpha, Encode(alpha, false, data)) == Some(data)
  {
    if |data| == 2 {
      TwoByteTail(alpha, data[0], data[1]);
      assert data == [data[0], data[1]];
    } else {
      OneByteTail(alpha, data[0]);
      assert data == [data[0]];
    }
  }

  lemma TwoByteTail(alpha: Alphabet, b0: byte, b1: byte)
    ensures AllSymbols(alpha, Encode(alpha, false, [b0, b1]))
    ensures DecodeTail(alpha, Encode(alpha, false, [b0, b1])) == Some([b0, b1])
  {
    var t := Encode(alpha, false, [b0, b1]);
    var x0, x1 := b0 as int, b1 as int;
    var k0, k1, k2 := x0 / 4, (x0 % 4) * 16 + x1 / 16, (x1 % 16) * 4;
    assert t == [Symbol(alpha, k0), Symbol(alpha, k1), Symbol(alpha, k2)];
    ValueOfSymbol(alpha, k0);
    ValueOfSymbol(alpha, k1);
    ValueOfSymbol(alpha, k2);
    GroupArithmetic(x0, x1, 0);
  }

  lemma OneByteTail(alpha: Alphabet, b0: byte)
    ensures AllSymbols(alpha, Encode(alpha, false, [b0]))
    ensures DecodeTail(alpha, Encode(alpha, false, [b0])) == Some([b0])
  {
    var t := Encode(alpha, false, [b0]);
    var x0 := b0 as int;
    var k0, k1 := x0 / 4, (x0 % 4) * 16;
    assert t == [Symbol(alpha, k0), Symbol(alpha, k1)];
    ValueOfSymbol(alpha, k0);
    ValueOfSymbol(alpha, k1);
  }

  /** Decoding a whole group followed by more symbols. */
  lemma GroupStep(alpha: Alphabet, pad: bool, data: seq<byte>)
    requires |data| >= 3
    ensures var s := Encode(alpha, pad, data);
      Decode(alpha, pad, s) ==
        match Decode(alpha, pad, Encode(alpha, pad, data[3..]))
        case None => None
        case Some(rest) => Some([data[0], data[1], data[2]] + rest)
  {
    var s := Encode(alpha, pad, data);
    var g := EncodeGroup(alpha, data[0], data[1], data[2]);
    GroupRoundTrip(alpha, data[0], data[1], data[2]);
    assert s[..4] == g && s[4..] == Encode(alpha, pad, data[3..]);
    assert |s| > 4 || !pad || s[3] != '=' by {
      if |s| == 4 { assert s[3] == g[3]; }
    }
  }

  /** Decoding the final, padded, group. */
  lemma PaddedTail(alpha: Alphabet, data: seq<byte>)
    requires 1 <= |data| <= 2
    ensures Decode(alpha, true, Encode(alpha, true, data)) == Some(data)
  {
    var s := Encode(alpha, true, data);
    var t := Encode(alpha, false, data);
    TailRoundTrip(alpha, data);
    if |data| == 1 {
      assert s == t + "==";
      assert s[..2] == t && s[2..] == "==";
    } else {
      assert s == t + "=";
      assert s[..3] == t && s[3] == '=';
      assert s[2..] != "==" by { assert s[2] == t[2]; }
    }
    assert !AllSymbols(alpha, s[..4]) by { assert s[..4][3] == '='; }
  }

  lemma SplitGroup<T>(s: seq<T>)
    requires |s| >= 3
    ensures s == [s[0], s[1], s[2]] + s[3..]
  {
  }

  /** Decoding an encoding gives back the bytes: the encoding loses nothing. */
  lemma {:induction false} RoundTrip(alpha: Alphabet, pad: bool, data: seq<byte>)
    ensures Decode(alpha, pad, Encode(alpha, pad, data)) == Some(data)
    decreases |data|
  {
    if |data| >= 3 {
      GroupStep(alpha, pad, data);
      RoundTrip(alpha, pad, data[3..]);
      SplitGroup(data);
    } else if |data| > 0 {
      if pad {
        PaddedTail(alpha, data);
      } else {
        TailRoundTrip(alpha, data);
      }
    }
  }

  /** The symbol values of a group, from the bytes `DecodeGroup` computes. */
  lemma SymbolArithmetic(k0: int, k1: int, k2: int, k3: int)
    requires 0 <= k0 < 64 && 0 <= k1 < 64 && 0 <= k2 < 64 && 0 <= k3 < 64
    ensures var x0, x1, x2 := k0 * 4 + k1 / 16, (k1 % 16) * 16 + k2 / 4, (k2 % 4) * 64 + k3;
      0 <= x0 < 256 && 0 <= x1 < 256 && 0 <= x2 < 256 &&
      x0 / 4 == k0 && (x0 % 4) * 16 + x1 / 16 == k1 && (x1 % 16) * 4 + x2 / 64 == k2 && x2 % 64 == k3
  {
    var x0, x1, x2 := k0 * 4 + k1 / 16, (k1 % 16) * 16 + k2 / 4, (k2 % 4) * 64 + k3;
    assert x0 / 4 == k0 && x0 % 4 == k1 / 16;
    assert x1 / 16 == k1 % 16 && x1 % 16 == k2 / 4;
    assert x2 / 64 == k2 % 4 && x2 % 64 == k3;
  }

  /** Encoding the bytes of a decoded group gives the group back. */
  lemma GroupOfDecode(alpha: Alphabet, q: string)
    requires |q| == 4 && AllSymbols(alpha, q)
    ensures var bs := DecodeGroup(alpha, q); EncodeGroup(alpha, bs[0], bs[1], bs[2]) == q
  {
    var k0, k1, k2, k3 := Value(alpha, q[0]), Value(alpha, q[1]), Value(alpha, q[2]), Value(alpha, q[3]);
    var x0, x1, x2 := k0 * 4 + k1 / 16, (k1 % 16) * 16 + k2 / 4, (k2 % 4) * 64 + k3;
    SymbolArithmetic(k0, k1, k2, k3);
    var bs := DecodeGroup(alpha, q);
    assert bs[0] as int == x0 && bs[1] as int == x1 && bs[2] as int == x2;
    GroupSymbols(alpha, bs[0], bs[1], bs[2], k0, k1, k2, k3);
    assert q == [q[0], q[1], q[2], q[3]];
  }

  lemma GroupSymbols(alpha: Alphabet, b0: byte, b1: byte, b2: byte, k0: int, k1: int, k2: int, k3: int)
    requires b0 as int / 4 == k0 && (b0 as int % 4) * 16 + b1 as int / 16 == k1
    requires (b1 as int % 16) * 4 + b2 as int / 64 == k2 && b2 as int % 64 == k3
    ensures 0 <= k0 < 64 && 0 <= k1 < 64 && 0 <= k2 < 64 && 0 <= k3 < 64
    ensures EncodeGroup(alpha, b0, b1, b2) == [Symbol(alpha, k0), Symbol(alpha, k1), Symbol(alpha, k2), Symbol(alpha, k3)]
  {
  }

  /** Encoding the bytes of a decoded final group gives the group back. */
  lemma TailOfDecode(alpha: Alphabet, t: string, b: seq<byte>)
    requires DecodeTail(alpha, t) == Some(b)
    ensures Encode(alpha, false, b) == t
  {
    if |t| == 2 {
      TwoSymbolTail(alpha, t);
    } else {
      ThreeSymbolTail(alpha, t);
    }
  }

  lemma TwoSymbolTail(alpha: Alphabet, t: string)
    requires |t| == 2 && AllSymbols(alpha, t) && Value(alpha, t[1]) % 16 == 0
    ensures DecodeTail(alpha, t).Some? && Encode(alpha, false, DecodeTail(alpha, t).value) == t
  {
    var k0, k1 := Value(alpha, t[0]), Value(alpha, t[1]);
    var x0 := k0 * 4 + k1 / 16;
    SymbolArithmetic(k0, k1, 0, 0);
    var b := [x0 as byte];
    assert DecodeTail(alpha, t) == Some(b);
    assert Encode(alpha, false, b) == [Symbol(alpha, x0 / 4), Symbol(alpha, (x0 % 4) * 16)];
  }

  lemma ThreeSymbolTail(alpha: Alphabet, t: string)
    requires |t| == 3 && AllSymbols(alpha, t) && Value(alpha, t[2]) % 4 == 0
    ensures DecodeTail(alpha, t).Some? && Encode(alpha, false, DecodeTail(alpha, t).value) == t
  {
    var k0, k1, k2 := Value(alpha, t[0]), Value(alpha, t[1]), Value(alpha, t[2]);
    var x0, x1 := k0 * 4 + k1 / 16, (k1 % 16) * 16 + k2 / 4;
    SymbolArithmetic(k0, k1, k2, 0);
    var b := [x0 as byte, x1 as byte];
    assert DecodeTail(alpha, t) == Some(b);
    assert Encode(alpha, false, b) ==
      [Symbol(alpha, x0 / 4), Symbol(alpha, (x0 % 4) * 16 + x1 / 16), Symbol(alpha, (x1 % 16) * 4)];
  }

  /** Encoding a decoded group followed by more bytes. */
  lemma GroupOfDecodeStep(alpha: Alphabet, pad: bool, q: string, rest: seq<byte>)
    requires |q| == 4 && AllSymbols(alpha, q)
    ensures Encode(alpha, pad, DecodeGroup(alpha, q) + rest) == q + Encode(alpha, pad, rest)
  {
    var g := DecodeGroup(alpha, q);
    var b := g + rest;
    GroupOfDecode(alpha, q);
    assert b[3..] == rest && b[0] == g[0] && b[1] == g[1] && b[2] == g[2];
  }

  /** A padded final group of two or three symbols encodes back to itself. */
  lemma PaddedTailOfDecode(alpha: Alphabet, s: string, n: nat, b: seq<byte>)
    requires |s| == 4 && 2 <= n <= 3 && DecodeTail(alpha, s[..n]) == Some(b)
    requires forall i :: n <= i < 4 ==> s[i] == '='
    ensures Encode(alpha, true, b) == s
  {
    TailOfDecode(alpha, s[..n], b);
    if n == 2 {
      assert Encode(alpha, true, b) == s[..2] + "==";
    } else {
      assert Encode(alpha, true, b) == s[..3] + "=";
    }
  }

  /** A text that decodes is the encoding of what it decodes to: decoding accepts no variants. */
  lemma {:induction false} DecodeCanonical(alpha: Alphabet, pad: bool, s: string, b: seq<byte>)
    requires Decode(alpha, pad, s) == Some(b)
    ensures Encode(alpha, pad, b) == s
    decreases |s|
  {
    if s == [] {
    } else if |s| >= 4 && AllSymbols(alpha, s[..4]) && (|s| > 4 || !pad || s[3] != '=') {
      var rest := Decode(alpha, pad, s[4..]).value;
      DecodeCanonical(alpha, pad, s[4..], rest);
      GroupOfDecodeStep(alpha, pad, s[..4], rest);
      assert s == s[..4] + s[4..];
    } else if pad && |s| == 4 && s[2..] == "==" {
      PaddedTailOfDecode(alpha, s, 2, b);
    } else if pad && |s| == 4 && s[3] == '=' {
      PaddedTailOfDecode(alpha, s, 3, b);
    } else {
      TailOfDecode(alpha, s, b);
    }
  }

  /** `Decode` and `Encode` are inverse: a text decodes to `b` exactly when it is the encoding of `b`. */
  lemma DecodeIsInverse(alpha: Alphabet, pad: bool, s: string, b: seq<byte>)
    ensures Decode(alpha, pad, s) == Some(b) <==> Encode(alpha, pad, b) == s
  {
    if Decode(alpha, pad, s) == Some(b) {
      DecodeCanonical(alpha, pad, s, b);
    }
    if Encode(alpha, pad, b) == s {
      RoundTrip(alpha, pad, b);
    }
  }

  /** Two inputs with the same encoding are equal. */
  lemma EncodeInjective(alpha: Alphabet, pad: bool, a: seq<byte>, b: seq<byte>)
    requires Encode(alpha, pad, a) == Encode(alpha, pad, b)
    ensures a == b
  {
    RoundTrip(alpha, pad, a);
    RoundTrip(alpha, pad, b);
  }
}
