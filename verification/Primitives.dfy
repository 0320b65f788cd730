/** The library code the codec calls, as arbitrary functions with the few laws
    the codec relies on.  Every theorem holds for every such family. */
module Primitives {
  import opened Bytes

  const BLOCK := 16

  datatype PublicKey = PublicKey(id: nat)
  datatype PrivateKey = PrivateKey(id: nat)

  /** What the LZ4 frame reader makes of a whole input: decoded bytes or an error. */
  datatype LzResult = LzOk(out: bytes) | LzError

  datatype Family = Family(
    // AES block encryption and decryption: key, then block
    aesEncrypt: (bytes, bytes) -> bytes,
    aesDecrypt: (bytes, bytes) -> bytes,
    md5: bytes -> bytes,
    // RSA-OAEP with SHA-1: key, random seed, message
    oaepEncrypt: (PublicKey, bytes, bytes) -> Option<bytes>,
    oaepDecrypt: (PrivateKey, bytes) -> Option<bytes>,
    publicOf: PrivateKey -> PublicKey,
    // The LZ4 frame writer: what one more Write hands on after the given
    // earlier ones, and what Close hands on after all of them
    lzWrite: (seq<bytes>, bytes) -> seq<bytes>,
    lzClose: seq<bytes> -> seq<bytes>,
    // The LZ4 frame reader, by what it has taken from its input so far: its
    // output, whether an end of input right here is a success, and whether it
    // asks for no more
    lzOutput: bytes -> bytes,
    lzComplete: bytes -> bool,
    lzHalts: bytes -> bool)
  {
    /** Everything the LZ4 writer handed on during the given writes, before Close. */
    function LzBody(writes: seq<bytes>): seq<bytes> {
      if writes == [] then []
      else LzBody(writes[..|writes| - 1]) + lzWrite(writes[..|writes| - 1], writes[|writes| - 1])
    }

    function LzFrame(writes: seq<bytes>): bytes {
      Flatten(LzBody(writes) + lzClose(writes))
    }

    /** The reader's result on a whole input that it takes to the end. */
    function LzRead(x: bytes): LzResult {
      if lzComplete(x) then LzOk(lzOutput(x)) else LzError
    }

    /** Having taken `x`, does the reader refuse a write of `b`?  It does when it
        asks for no more before it has met all of the write. */
    predicate Refuses(x: bytes, b: bytes) {
      exists n :: |x| <= n <= |x| + |b| && (n < |x| + |b| || b == []) && lzHalts((x + b)[..n])
    }

    ghost predicate AesLaws() {
      && (forall k: bytes, b: bytes :: |k| == 32 && |b| == BLOCK ==> |aesEncrypt(k, b)| == BLOCK)
      && (forall k: bytes, b: bytes :: |k| == 32 && |b| == BLOCK ==> |aesDecrypt(k, b)| == BLOCK)
      && (forall k: bytes, b: bytes {:trigger aesDecrypt(k, aesEncrypt(k, b))} ::
            |k| == 32 && |b| == BLOCK ==> aesDecrypt(k, aesEncrypt(k, b)) == b)
    }

    ghost predicate OaepLaw() {
      forall d: PrivateKey, seed: bytes, m: bytes ::
        match oaepEncrypt(publicOf(d), seed, m)
        case None => true
        case Some(c) => |c| > 0 && oaepDecrypt(d, c) == Some(m)
    }

    /** The reader inverts the writer, and more input only adds to its output. */
    ghost predicate LzLaw() {
      && (forall writes: seq<bytes> {:trigger LzFrame(writes)} :: LzRead(LzFrame(writes)) == LzOk(Flatten(writes)))
      && (forall x: bytes, y: bytes {:trigger lzOutput(x + y)} :: lzOutput(x) <= lzOutput(x + y))
    }

    ghost predicate Lawful() {
      && AesLaws()
      && (forall b: bytes :: |md5(b)| == 16)
      && OaepLaw()
      && LzLaw()
    }

    /** The hypothesis that the LZ4 reader reads on: within an input that it can
        decode it asks for more.  At the end it may ask for more or not. */
    ghost predicate LzReadsOn() {
      forall x: bytes, n: nat :: n < |x| && lzComplete(x) ==> !lzHalts(x[..n])
    }

    /** The stronger hypothesis that it drains its input: it asks for more until
        it meets the end. */
    ghost predicate LzDrains() {
      forall x: bytes, n: nat :: n <= |x| && lzComplete(x) ==> !lzHalts(x[..n])
    }
  }

  type Suite = f: Family | f.Lawful() ghost witness (TrivialIsLawful(); Trivial())

  /** A degenerate family, which shows that the laws can be met together. */
  function Trivial(): Family {
    Family((k, b) => b, (k, b) => b, b => seq(16, _ => 0),
           (k, seed, m) => Some([0] + m), (k, c) => if c == [] then None else Some(c[1..]),
           (d: PrivateKey) => PublicKey(d.id),
           (writes, p) => [p], writes => [], b => b, b => true, b => false)
  }

  lemma TrivialIsLawful()
    ensures Trivial().Lawful() && Trivial().LzDrains()
  {
    forall writes: seq<bytes>
      ensures Trivial().LzRead(Trivial().LzFrame(writes)) == LzOk(Flatten(writes))
    {
      TrivialBody(writes);
      assert Trivial().LzBody(writes) + [] == writes;
    }
  }

  lemma {:induction false} TrivialBody(writes: seq<bytes>)
    ensures Trivial().LzBody(writes) == writes
  {
    if writes != [] {
      var front, last := writes[..|writes| - 1], writes[|writes| - 1];
      TrivialBody(front);
      assert Trivial().LzBody(writes) == front + [last];
      assert writes == front + [last];
    }
  }
}
