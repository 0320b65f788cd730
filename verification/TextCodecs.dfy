/** Hexadecimal (lower case on output, either case on input) and base64 with
    padding (section 4 of RFC 4648), as the metadata layer uses them. */
module TextCodecs {
  import opened Bytes

  // -- Hexadecimal --

  function HexDigit(n: nat): byte
    requires n < 16
  {
    if n < 10 then 0x30 + n else 0x61 + n - 10
  }

  function HexValue(c: byte): (n: Option<nat>)
    ensures n.Some? ==> n.value < 16
  {
    if 0x30 <= c <= 0x39 then Some(c - 0x30)
    else if 0x61 <= c <= 0x66 then Some(c - 0x61 + 10)
    else if 0x41 <= c <= 0x46 then Some(c - 0x41 + 10)
    else None
  }

  function HexEncode(b: bytes): (s: bytes)
    ensures |s| == 2 * |b|
  {
    if b == [] then [] else [HexDigit(b[0] / 16), HexDigit(b[0] % 16)] + HexEncode(b[1..])
  }

  function HexDecode(s: bytes): Option<bytes> {
    if |s| == 0 then Some([])
    else if |s| == 1 then None
    else
      match (HexValue(s[0]), HexValue(s[1]), HexDecode(s[2..]))
      case (Some(hi), Some(lo), Some(rest)) => Some([16 * hi + lo] + rest)
      case _ => None
  }

  lemma {:induction false} HexRoundTrip(b: bytes)
    ensures HexDecode(HexEncode(b)) == Some(b)
  {
    if b != [] {
      var s := HexEncode(b);
      assert s[2..] == HexEncode(b[1..]);
      HexRoundTrip(b[1..]);
      assert [b[0]] + b[1..] == b;
    }
  }

  // -- Base64 --

  const PAD: byte := 0x3D

  function Base64Char(n: nat): byte
    requires n < 64
  {
    if n < 26 then 0x41 + n
    else if n < 52 then 0x61 + n - 26
    else if n < 62 then 0x30 + n - 52
    else if n == 62 then 0x2B
    else 0x2F
  }

  function Base64Value(c: byte): (n: Option<nat>)
    ensures n.Some? ==> n.value < 64
  {
    if 0x41 <= c <= 0x5A then Some(c - 0x41)
    else if 0x61 <= c <= 0x7A then Some(c - 0x61 + 26)
    else if 0x30 <= c <= 0x39 then Some(c - 0x30 + 52)
    else if c == 0x2B then Some(62)
    else if c == 0x2F then Some(63)
    else None
  }

  /** Four characters for up to three bytes; absent bytes count as zero. */
  function Quad(x: byte, y: byte, z: byte): (q: seq<nat>)
    ensures |q| == 4 && forall i :: 0 <= i < 4 ==> q[i] < 64
  {
    [x / 4, x % 4 * 16 + y / 16, y % 16 * 4 + z / 64, z % 64]
  }

  function Triple(p: nat, q: nat, r: nat, s: nat): (t: bytes)
    requires p < 64 && q < 64 && r < 64 && s < 64
    ensures |t| == 3
  {
    [p * 4 + q / 16, q % 16 * 16 + r / 4, r % 4 * 64 + s]
  }

  function Base64Encode(b: bytes): bytes {
    if |b| == 0 then []
    else if |b| == 1 then
      var q := Quad(b[0], 0, 0);
      [Base64Char(q[0]), Base64Char(q[1]), PAD, PAD]
    else if |b| == 2 then
      var q := Quad(b[0], b[1], 0);
      [Base64Char(q[0]), Base64Char(q[1]), Base64Char(q[2]), PAD]
    else
      var q := Quad(b[0], b[1], b[2]);
      [Base64Char(q[0]), Base64Char(q[1]), Base64Char(q[2]), Base64Char(q[3])] + Base64Encode(b[3..])
  }

  /** Line breaks are skipped wherever they stand. */
  function StripLineBreaks(s: bytes): bytes {
    if s == [] then []
    else if s[0] == 0x0A || s[0] == 0x0D then StripLineBreaks(s[1..])
    else [s[0]] + StripLineBreaks(s[1..])
  }

  function DecodeQuads(s: bytes): Option<bytes> {
    if |s| == 0 then Some([])
    else if |s| < 4 then None
    else
      match (Base64Value(s[0]), Base64Value(s[1]))
      case (Some(p), Some(q)) =>
        if s[2] == PAD then
          if s[3] == PAD && |s| == 4 then Some(Triple(p, q, 0, 0)[..1]) else None
        else (
          match Base64Value(s[2])
          case None => None
          case Some(r) =>
            if s[3] == PAD then
              if |s| == 4 then Some(Triple(p, q, r, 0)[..2]) else None
            else (
              match (Base64Value(s[3]), DecodeQuads(s[4..]))
              case (Some(t), Some(rest)) => Some(Triple(p, q, r, t) + rest)
              case _ => None))
      case _ => None
  }

  function Base64Decode(s: bytes): Option<bytes> {
    DecodeQuads(StripLineBreaks(s))
  }

  lemma QuadTriple(x: byte, y: byte, z: byte)
    ensures var q := Quad(x, y, z); Triple(q[0], q[1], q[2], q[3]) == [x, y, z]
  {
  }

  predicate NoLineBreaks(s: bytes) {
    forall i :: 0 <= i < |s| ==> s[i] != 0x0A && s[i] != 0x0D
  }

  lemma {:induction false} StripNothing(s: bytes)
    requires NoLineBreaks(s)
    ensures StripLineBreaks(s) == s
  {
    if s != [] {
      assert s[0] != 0x0A;
      StripNothing(s[1..]);
      assert [s[0]] + s[1..] == s;
    }
  }

  predicate Readable(n: nat)
    requires n < 64
  {
    var c := Base64Char(n);
    Base64Value(c) == Some(n) && c != PAD && c != 0x0A && c != 0x0D
  }

  lemma QuadChars(x: byte, y: byte, z: byte)
    ensures var q := Quad(x, y, z);
            Readable(q[0]) && Readable(q[1]) && Readable(q[2]) && Readable(q[3]) &&
            Triple(q[0], q[1], q[2], q[3]) == [x, y, z]
  {
    QuadTriple(x, y, z);
  }

  lemma ShortQuads(x: byte, y: byte)
    ensures Quad(x, 0, 0)[2] == 0 && Quad(x, 0, 0)[3] == 0 && Quad(x, y, 0)[3] == 0
  {
  }

  lemma OneByteRoundTrip(x: byte)
    ensures NoLineBreaks(Base64Encode([x])) && DecodeQuads(Base64Encode([x])) == Some([x])
  {
    hide Quad, Triple, Base64Char, Base64Value;
    QuadChars(x, 0, 0);
    ShortQuads(x, 0);
    assert [x, 0, 0][..1] == [x];
  }

  lemma TwoBytesRoundTrip(x: byte, y: byte)
    ensures NoLineBreaks(Base64Encode([x, y])) && DecodeQuads(Base64Encode([x, y])) == Some([x, y])
  {
    hide Quad, Triple, Base64Char, Base64Value;
    QuadChars(x, y, 0);
    ShortQuads(x, y);
    assert [x, y, 0][..2] == [x, y];
  }

  lemma {:induction false} QuadsRoundTrip(b: bytes)
    ensures NoLineBreaks(Base64Encode(b))
    ensures DecodeQuads(Base64Encode(b)) == Some(b)
  {
    hide Quad, Triple, Base64Char, Base64Value;
    if |b| == 1 {
      OneByteRoundTrip(b[0]);
      assert b == [b[0]];
    } else if |b| == 2 {
      TwoBytesRoundTrip(b[0], b[1]);
      assert b == [b[0], b[1]];
    } else if |b| >= 3 {
      QuadChars(b[0], b[1], b[2]);
      QuadsRoundTrip(b[3..]);
      assert Base64Encode(b)[4..] == Base64Encode(b[3..]);
      assert [b[0], b[1], b[2]] + b[3..] == b;
    }
  }

  lemma Base64RoundTrip(b: bytes)
    ensures Base64Decode(Base64Encode(b)) == Some(b)
  {
    QuadsRoundTrip(b);
    StripNothing(Base64Encode(b));
  }

  // -- The alphabets --

  const LOWER_HEX := "0123456789abcdef"
  const UPPER_HEX := "0123456789ABCDEF"

  /** Is `c` the hexadecimal digit `n`, in either case? */
  predicate IsHexDigit(c: byte, n: nat)
    requires n < 16
  {
    c == LOWER_HEX[n] as int || c == UPPER_HEX[n] as int
  }

  lemma HexDigits(n: nat)
    requires n < 16
    ensures HexDigit(n) == LOWER_HEX[n] as int
    ensures forall c: byte :: HexValue(c) == Some(n) <==> IsHexDigit(c, n)
  {
  }

  /** Byte `i` is written as two small digits, the high half first. */
  lemma {:induction false} HexSpells(b: bytes, i: nat)
    requires i < |b|
    ensures HexEncode(b)[2 * i] == LOWER_HEX[b[i] / 16] as int
    ensures HexEncode(b)[2 * i + 1] == LOWER_HEX[b[i] % 16] as int
  {
    hide HexDigit;
    if i == 0 {
      HexDigits(b[0] / 16);
      HexDigits(b[0] % 16);
    } else {
      HexSpells(b[1..], i - 1);
    }
  }

  /** And exactly the strings of two digits a byte, in either case, are read back. */
  lemma {:induction false} HexDecodeIff(s: bytes, b: bytes)
    ensures HexDecode(s) == Some(b) <==>
            && |s| == 2 * |b|
            && forall i :: 0 <= i < |b| ==> HexPair(s, b, i)
    decreases |s|
  {
    hide HexValue;
    if |s| >= 2 && b != [] {
      var hi, lo := b[0] / 16, b[0] % 16;
      HexDigits(hi);
      HexDigits(lo);
      HexDecodeIff(s[2..], b[1..]);
      assert HexValue(s[0]) == Some(hi) <==> IsHexDigit(s[0], hi);
      assert HexValue(s[1]) == Some(lo) <==> IsHexDigit(s[1], lo);
      HexPairsShift(s, b);
      HexStep(s, b);
    }
  }

  predicate HexPair(s: bytes, b: bytes, i: nat)
    requires |s| == 2 * |b| && i < |b|
  {
    IsHexDigit(s[2 * i], b[i] / 16) && IsHexDigit(s[2 * i + 1], b[i] % 16)
  }

  lemma HexPairsShift(s: bytes, b: bytes)
    requires b != [] && |s| >= 2
    ensures |s| == 2 * |b|
            ==> ((forall i :: 0 <= i < |b| ==> HexPair(s, b, i)) <==>
                 HexPair(s, b, 0) && forall i :: 0 <= i < |b| - 1 ==> HexPair(s[2..], b[1..], i))
  {
    hide IsHexDigit;
    if |s| == 2 * |b| {
      forall i | 0 <= i < |b| - 1 ensures HexPair(s[2..], b[1..], i) <==> HexPair(s, b, i + 1) {
      }
      if HexPair(s, b, 0) && forall i :: 0 <= i < |b| - 1 ==> HexPair(s[2..], b[1..], i) {
        forall i | 0 <= i < |b| ensures HexPair(s, b, i) {
          if i > 0 {
            assert HexPair(s[2..], b[1..], i - 1);
          }
        }
      }
      if forall i :: 0 <= i < |b| ==> HexPair(s, b, i) {
        forall i | 0 <= i < |b| - 1 ensures HexPair(s[2..], b[1..], i) {
          assert HexPair(s, b, i + 1);
        }
      }
    }
  }

  lemma HexStep(s: bytes, b: bytes)
    requires |s| >= 2 && b != []
    ensures HexDecode(s) == Some(b) <==>
            HexValue(s[0]) == Some(b[0] / 16) && HexValue(s[1]) == Some(b[0] % 16) && HexDecode(s[2..]) == Some(b[1..])
  {
    hide HexValue;
    assert b == [b[0]] + b[1..];
    match (HexValue(s[0]), HexValue(s[1]), HexDecode(s[2..]))
    case (Some(hi), Some(lo), Some(rest)) =>
      assert [16 * hi + lo] + rest == b <==> 16 * hi + lo == b[0] && rest == b[1..];
    case _ =>
  }

  const BASE64_LETTERS := "ABCDEFGHIJKLMNOPQRSTUVWXYZ"
  const BASE64_SMALLS := "abcdefghijklmnopqrstuvwxyz"
  const BASE64_REST := "0123456789+/"

  lemma Base64Alphabet(n: nat)
    requires n < 64
    ensures n < 26 ==> Base64Char(n) == BASE64_LETTERS[n] as int
    ensures 26 <= n < 52 ==> Base64Char(n) == BASE64_SMALLS[n - 26] as int
    ensures 52 <= n ==> Base64Char(n) == BASE64_REST[n - 52] as int
  {
    if n < 26 {
      LetterAt(n);
    } else if n < 52 {
      SmallAt(n - 26);
    } else {
      RestAt(n - 52);
    }
  }

  lemma LetterAt(n: nat)
    requires n < 26
    ensures BASE64_LETTERS[n] as int == 0x41 + n
  {
  }

  lemma SmallAt(n: nat)
    requires n < 26
    ensures BASE64_SMALLS[n] as int == 0x61 + n
  {
  }

  lemma RestAt(n: nat)
    requires n < 12
    ensures BASE64_REST[n] as int == if n < 10 then 0x30 + n else if n == 10 then 0x2B else 0x2F
  {
  }

  /** Three bytes and their four characters are the same 24-bit number. */
  lemma QuadNumber(x: byte, y: byte, z: byte)
    ensures var q := Quad(x, y, z);
            q[0] * 262144 + q[1] * 4096 + q[2] * 64 + q[3] == x * 65536 + y * 256 + z
  {
  }

  /** A line break, wherever it stands, makes no difference to what is decoded. */
  lemma LineBreaksIgnored(a: bytes, b: bytes, c: byte)
    requires c == 0x0A || c == 0x0D
    ensures Base64Decode(a + [c] + b) == Base64Decode(a + b)
  {
    StripAppend(a + [c], b);
    StripAppend(a, [c]);
    StripAppend(a, b);
    assert [c][1..] == [];
    assert StripLineBreaks([c]) == StripLineBreaks([]) == [];
    assert StripLineBreaks(a) + [] == StripLineBreaks(a);
  }

  lemma {:induction false} StripAppend(a: bytes, b: bytes)
    ensures StripLineBreaks(a + b) == StripLineBreaks(a) + StripLineBreaks(b)
  {
    if a == [] {
      assert a + b == b;
    } else {
      assert (a + b)[1..] == a[1..] + b;
      StripAppend(a[1..], b);
    }
  }

  /** Padding is required, ends the input, and may follow bits that are not zero:
      "Zh==" is "f", and neither "Zg=", "Zg" nor "Zg==Zg==" is anything. */
  lemma PaddingRules()
    ensures DecodeQuads([0x5A, 0x68, 0x3D, 0x3D]) == Some([0x66])
    ensures DecodeQuads([0x5A, 0x67, 0x3D]) == None && DecodeQuads([0x5A, 0x67]) == None
    ensures DecodeQuads([0x5A, 0x67, 0x3D, 0x3D, 0x5A, 0x67, 0x3D, 0x3D]) == None
  {
    assert Base64Value(0x5A) == Some(25) && Base64Value(0x68) == Some(33) && Base64Value(0x67) == Some(32);
    assert Triple(25, 33, 0, 0)[..1] == [0x66];
  }

  /** Test vectors of section 10 of RFC 4648, for "f", "fo" and "foo". */
  lemma Base64Vectors()
    ensures Base64Encode([0x66]) == [0x5A, 0x67, 0x3D, 0x3D]
    ensures Base64Encode([0x66, 0x6F]) == [0x5A, 0x6D, 0x38, 0x3D]
    ensures Base64Encode([0x66, 0x6F, 0x6F]) == [0x5A, 0x6D, 0x39, 0x76]
  {
    assert [0x66, 0x6F, 0x6F][3..] == [];
    assert Base64Encode([0x66, 0x6F, 0x6F])
        == [Base64Char(25), Base64Char(38), Base64Char(61), Base64Char(47)] + Base64Encode([]);
  }
}
