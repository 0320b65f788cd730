/** PKCS#7 padding (section 6.3 of RFC 5652) with the block size 16. */
module Pkcs7 {
  import opened Bytes
  import opened Primitives

  function PadLen(n: nat): (k: nat)
    ensures 1 <= k <= BLOCK && (n + k) % BLOCK == 0
  {
    BLOCK - n % BLOCK
  }

  function Padding(n: nat): bytes
    requires n < 256
  {
    seq(n, _ => n)
  }

  function Pad(b: bytes): (r: bytes)
    ensures |r| % BLOCK == 0 && |r| >= BLOCK
  {
    b + Padding(PadLen(|b|))
  }

  /** pkcs7Pad: padding into a fresh buffer, one byte at a time. */
  method PadCopy(b: bytes) returns (out: bytes)
    ensures out == Pad(b)
  {
    var padLen := BLOCK - |b| % BLOCK;
    out := b;
    var i := 0;
    while i < padLen
      invariant 0 <= i <= padLen
      invariant out == b + seq(i, _ => padLen)
    {
      out := out + [padLen];
      i := i + 1;
    }
  }

  /** unpadPKCS7.  It accepts exactly the paddings, and undoes them. */
  method Unpad(buf: bytes) returns (r: Option<bytes>)
    ensures r == Unpadded(buf)
  {
    if |buf| == 0 || |buf| % BLOCK != 0 {
      return None;
    }
    var pad := buf[|buf| - 1];
    if pad < 1 || pad > BLOCK {
      return None;
    }
    var i := |buf| - pad;
    while i < |buf|
      invariant |buf| - pad <= i <= |buf|
      invariant forall j :: |buf| - pad <= j < i ==> buf[j] == pad
    {
      if buf[i] != pad {
        return None;
      }
      i := i + 1;
    }
    return Some(buf[..|buf| - pad]);
  }

  function Unpadded(buf: bytes): Option<bytes> {
    if |buf| == 0 || |buf| % BLOCK != 0 then None
    else
      var pad := buf[|buf| - 1];
      if 1 <= pad <= BLOCK && forall j :: |buf| - pad <= j < |buf| ==> buf[j] == pad
      then Some(buf[..|buf| - pad])
      else None
  }

  /** Padding and unpadding are inverse in both directions, so an accepted
      buffer is the padding of exactly one string. */
  lemma UnpadInvertsPad(x: bytes, y: bytes)
    ensures Unpadded(y) == Some(x) <==> y == Pad(x)
  {
    if y == Pad(x) {
      assert y[|y| - 1] == PadLen(|x|);
      assert y[..|x|] == x;
    }
    if Unpadded(y) == Some(x) {
      var pad := y[|y| - 1];
      assert |x| == |y| - pad && PadLen(|x|) == pad;
      assert y == x + y[|x|..];
      assert y[|x|..] == Padding(pad);
    }
  }

  lemma PadShift(a: bytes, t: bytes)
    requires |a| % BLOCK == 0
    ensures Pad(a + t) == a + Pad(t)
  {
    assert |a + t| % BLOCK == |t| % BLOCK;
  }

  /** Only the last blocks decide: whole blocks in front are carried through. */
  lemma UnpadSuffix(a: bytes, b: bytes)
    requires |a| % BLOCK == 0 && |b| >= BLOCK && |b| % BLOCK == 0
    ensures Unpadded(a + b) == match Unpadded(b) case None => None case Some(t) => Some(a + t)
  {
    match Unpadded(b)
    case Some(t) =>
      UnpadInvertsPad(t, b);
      PadShift(a, t);
      UnpadInvertsPad(a + t, a + b);
    case None =>
      match Unpadded(a + b)
      case None =>
      case Some(x) =>
        UnpadInvertsPad(x, a + b);
        NotPadded(a, b, x);
  }

  lemma NotPadded(a: bytes, b: bytes, x: bytes)
    requires |a| % BLOCK == 0 && |b| >= BLOCK && Unpadded(b) == None
    ensures a + b != Pad(x)
  {
    if a + b == Pad(x) {
      assert |x| >= |a|;
      var t := x[|a|..];
      assert x == (a + b)[..|x|];
      assert x[..|a|] == a;
      assert x == a + t;
      PadShift(a, t);
      assert b == (a + b)[|a|..];
      assert Pad(t) == (a + Pad(t))[|a|..];
      UnpadInvertsPad(t, b);
    }
  }

  /** What padding is, byte by byte: the data, and then one to sixteen bytes up to
      the next multiple of sixteen that all hold their number. */
  lemma PadBytes(b: bytes)
    ensures |Pad(b)| == 16 * (|b| / 16 + 1) && Pad(b)[..|b|] == b
    ensures forall i :: |b| <= i < |Pad(b)| ==> Pad(b)[i] == |Pad(b)| - |b|
  {
  }
}
