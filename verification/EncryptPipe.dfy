/** The streaming stages of the writer: the re-chunking sink, the block cipher
    stage with its residual buffer, and the LZ4 stage in front of it. */
module EncryptPipe {
  import opened Bytes
  import opened Primitives
  import opened Wire
  import opened Streams
  import opened Dicts
  import Cbc
  import Pkcs7

  // -- Ciphertext cut into data dicts --

  /** The size at which ciphertext is cut: a multiple of the cipher's block, and
      within the u16 limit of a blob. */
  const CHUNK := 32 * 1024

  function Chunks(ct: bytes): seq<bytes>
    decreases |ct|
  {
    if ct == [] then [] else if |ct| <= CHUNK then [ct] else [ct[..CHUNK]] + Chunks(ct[CHUNK..])
  }

  function DataSection(payloads: seq<bytes>): bytes {
    if payloads == [] then [] else Enc(DataValue(payloads[0])) + DataSection(payloads[1..])
  }

  lemma {:induction false} DataSectionAppend(a: seq<bytes>, b: seq<bytes>)
    ensures DataSection(a + b) == DataSection(a) + DataSection(b)
  {
    if a == [] {
      assert a + b == b;
    } else {
      assert (a + b)[1..] == a[1..] + b;
      DataSectionAppend(a[1..], b);
    }
  }

  lemma DataSectionSnoc(a: seq<bytes>, p: bytes)
    ensures DataSection(a + [p]) == DataSection(a) + Enc(DataValue(p))
  {
    DataSectionAppend(a, [p]);
    assert [p][1..] == [];
    assert DataSection([p]) == Enc(DataValue(p)) + DataSection([]);
  }

  /** Whole chunks in front are cut off as they stand. */
  lemma {:induction false} ChunksAppend(a: bytes, b: bytes)
    requires |a| % CHUNK == 0
    ensures Chunks(a + b) == Chunks(a) + Chunks(b)
    decreases |a|
  {
    if a == [] {
      assert a + b == b;
    } else if |a| == CHUNK {
      assert (a + b)[..CHUNK] == a && (a + b)[CHUNK..] == b;
      if b == [] {
        assert a + b == a;
      }
    } else {
      assert (a + b)[..CHUNK] == a[..CHUNK] && (a + b)[CHUNK..] == a[CHUNK..] + b;
      ChunksAppend(a[CHUNK..], b);
      assert Chunks(a) + Chunks(b) == [a[..CHUNK]] + (Chunks(a[CHUNK..]) + Chunks(b));
    }
  }

  /** The shape of the data section: every payload is non-empty and aligned, all
      but the last are exactly one chunk and the last is at most one, nothing
      is lost or reordered, and each dict costs 26 bytes beyond its payload. */
  lemma {:induction false} ChunksShape(ct: bytes)
    requires |ct| % BLOCK == 0
    ensures var ps := Chunks(ct);
            && Flatten(ps) == ct
            && |ps| == (|ct| + CHUNK - 1) / CHUNK
            && (forall i :: 0 <= i < |ps| ==> 0 < |ps[i]| <= CHUNK && |ps[i]| % BLOCK == 0)
            && (forall i :: 0 <= i < |ps| - 1 ==> |ps[i]| == CHUNK)
            && |DataSection(ps)| == |ct| + 26 * |ps|
    decreases |ct|
  {
    if ct == [] {
    } else if |ct| <= CHUNK {
      assert [ct][1..] == [];
      assert Flatten([ct]) == ct + Flatten([]);
      DataForm(ct);
      DataSectionSnoc([], ct);
      assert [] + [ct] == [ct];
    } else {
      ChunksShape(ct[CHUNK..]);
      DataForm(ct[..CHUNK]);
      var rest := Chunks(ct[CHUNK..]);
      assert ([ct[..CHUNK]] + rest)[1..] == rest;
      assert |rest| > 0;
    }
  }

  // -- pendingSink --

  class PendingSink {
    const out: Output
    var buf: bytes
    // what the output held before, and the chunks sent since
    ghost const base: bytes
    ghost var sent: bytes

    constructor (out: Output)
      ensures this.out == out && base == out.data
      ensures Valid() && Received() == []
    {
      this.out := out;
      buf, base, sent := [], out.data, [];
    }

    ghost predicate Valid()
      reads this, out
      ensures Valid() ==> Sane()
    {
      && |buf| < CHUNK
      && |sent| % CHUNK == 0
      && out.data == base + DataSection(Chunks(sent))
    }

    /** What is left of that once a write has been refused: all that was sent is
        out, with remains of failed attempts among it. */
    ghost predicate Sane()
      reads this, out
    {
      && |sent| % CHUNK == 0
      && |out.data| >= |base| + |DataSection(Chunks(sent))|
    }

    ghost function Received(): bytes
      reads this
    {
      sent + buf
    }

    /** Whatever happens, all that was received stays in the sink or is out. */
    method Write(p: bytes) returns (ok: bool)
      requires Sane()
      modifies this, out
      ensures Sane() && Received() == old(Received()) + p
      ensures ok ==> |buf| < CHUNK && (old(Valid()) ==> Valid())
      ensures out.SteadyFrom(old(out.calls)) ==> ok
      ensures |old(buf)| + |p| >= CHUNK && out.fails(old(out.calls)) ==> !ok && out.calls > old(out.calls)
      ensures out.calls >= old(out.calls)
    {
      hide Enc, DataValue;
      ghost var intact := Valid();
      assert intact ==> out.data == base + DataSection(Chunks(sent));
      buf := buf + p;
      assert sent + buf == old(Received()) + p;
      while |buf| >= CHUNK
        invariant Sane() && Received() == old(Received()) + p
        invariant intact ==> out.data == base + DataSection(Chunks(sent))
        invariant out.calls >= old(out.calls)
        invariant |old(buf)| + |p| >= CHUNK && out.fails(old(out.calls))
                  ==> |buf| >= CHUNK && out.calls == old(out.calls)
        decreases |buf|
      {
        var err := WriteDataDict(out, buf[..CHUNK]);
        if err.Some? {
          return false;
        }
        ghost var chunk := buf[..CHUNK];
        ChunksAppend(sent, chunk);
        assert Chunks(chunk) == [chunk];
        DataSectionSnoc(Chunks(sent), chunk);
        assert sent + buf == (sent + chunk) + buf[CHUNK..];
        sent := sent + chunk;
        buf := buf[CHUNK..];
      }
      ok := true;
    }

    method Flush() returns (ok: bool)
      requires Sane() && |buf| < CHUNK
      modifies this, out
      ensures ok ==> buf == [] && |out.data| >= |base| + |DataSection(Chunks(old(Received())))|
      ensures ok && old(Valid()) ==> out.data == base + DataSection(Chunks(old(Received())))
      ensures out.SteadyFrom(old(out.calls)) ==> ok
      ensures out.calls >= old(out.calls)
    {
      hide Enc, DataValue;
      ChunksAppend(sent, buf);
      if |buf| == 0 {
        assert sent + buf == sent;
        return true;
      }
      assert Chunks(buf) == [buf];
      DataSectionSnoc(Chunks(sent), buf);
      var err := WriteDataDict(out, buf);
      if err.Some? {
        return false;
      }
      buf := [];
      ok := true;
    }
  }

  // -- aesFeeder --

  class AesFeeder {
    const S: Suite
    const key: bytes
    // the chaining value the CBC encrypter keeps between calls
    var iv: bytes
    var buf: bytes
    const sink: PendingSink
    ghost const iv0: bytes
    ghost var consumed: bytes

    constructor (S: Suite, key: bytes, iv: bytes, sink: PendingSink)
      requires |key| == 32 && |iv| == BLOCK && sink.Valid() && sink.Received() == []
      ensures this.S == S && this.key == key && this.sink == sink && iv0 == iv
      ensures Valid() && consumed == []
    {
      this.S, this.key, this.sink := S, key, sink;
      this.iv, iv0 := iv, iv;
      buf, consumed := [], [];
    }

    /** Everything consumed so far that fills whole blocks. */
    ghost function Whole(): bytes
      reads this
      requires |buf| <= |consumed|
    {
      consumed[..|consumed| - |buf|]
    }

    /** Fewer than 16 bytes wait; all else has gone to the sink, enciphered as
        one CBC run. */
    ghost predicate Valid()
      reads this, sink, sink.out
      ensures Valid() ==> Sane()
    {
      Sane() && sink.Valid() && |buf| < BLOCK
    }

    /** What is left of that once the sink has failed. */
    ghost predicate Sane()
      reads this, sink, sink.out
    {
      && |key| == 32 && |iv0| == BLOCK
      && sink.Sane()
      && |buf| <= |consumed|
      && Cbc.Aligned(Whole())
      && consumed == Whole() + buf
      && sink.Received() == Cbc.Encrypt(S, key, iv0, Whole())
      && iv == Cbc.Chain(iv0, sink.Received())
    }

    /** CryptBlocks on a whole number of blocks. */
    method CryptBlocks(src: bytes) returns (dst: bytes)
      requires |key| == 32 && |iv| == BLOCK && Cbc.Aligned(src)
      modifies `iv
      ensures dst == Cbc.Encrypt(S, key, old(iv), src)
      ensures iv == Cbc.Chain(old(iv), dst)
    {
      dst := Cbc.Encrypt(S, key, iv, src);
      iv := Cbc.Chain(iv, dst);
    }

    /** After a failure the blocks that the sink has got are in the buffer still,
        and are enciphered once more. */
    method Write(p: bytes) returns (ok: bool)
      requires Sane()
      modifies this, sink, sink.out
      ensures Sane()
      ensures ok ==> consumed == old(consumed) + p && (old(Valid()) ==> Valid())
      ensures !ok ==> |consumed| >= |old(consumed)| + |p| + BLOCK
      ensures sink.out.SteadyFrom(old(sink.out.calls)) ==> ok
      ensures |p| >= CHUNK && sink.out.fails(old(sink.out.calls)) ==> !ok && sink.out.calls > old(sink.out.calls)
      ensures sink.out.calls >= old(sink.out.calls)
    {
      hide Family.Lawful, PendingSink.Valid, PendingSink.Sane, Cbc.Encrypt;
      ghost var whole := Whole();
      buf := buf + p;
      var full := |buf| / BLOCK * BLOCK;
      var front, back := buf[..full], buf[full..];
      Resplit(consumed, whole, p, front, back);
      consumed := consumed + p;
      if full == 0 {
        return true;
      }
      CbcStep(S, key, iv0, whole, front);
      var cipherBuf := CryptBlocks(front);
      ok := sink.Write(cipherBuf);
      if !ok {
        consumed := (whole + front) + buf;
        assert Whole() == whole + front;
        return;
      }
      buf := back;
    }

    method Finish() returns (ok: bool)
      requires Sane()
      modifies this, sink, sink.out
      ensures ok ==> sink.Sane() && |sink.buf| < CHUNK && (old(sink.Valid()) ==> sink.Valid()) && buf == []
                     && sink.Received() == Cbc.Encrypt(S, key, iv0, Pkcs7.Pad(consumed))
      ensures consumed == old(consumed)
      ensures sink.out.SteadyFrom(old(sink.out.calls)) ==> ok
      ensures sink.out.calls >= old(sink.out.calls)
    {
      hide PendingSink.Valid, PendingSink.Sane;
      ghost var residual := buf;
      var padLen := BLOCK - |buf| % BLOCK;
      var i := 0;
      while i < padLen
        invariant 0 <= i <= padLen
        invariant buf == residual + seq(i, _ => padLen)
        invariant iv == old(iv) && consumed == old(consumed)
        invariant sink.Sane() && (old(sink.Valid()) ==> sink.Valid())
        invariant sink.Received() == old(sink.Received()) && sink.out.calls == old(sink.out.calls)
      {
        buf := buf + [padLen];
        i := i + 1;
      }
      ghost var whole := old(Whole());
      assert buf == Pkcs7.Pad(residual);
      Pkcs7.PadShift(whole, residual);
      assert Pkcs7.Pad(consumed) == whole + buf;
      CbcStep(S, key, iv0, whole, buf);
      var cipherBuf := CryptBlocks(buf);
      ok := sink.Write(cipherBuf);
      if !ok {
        return;
      }
      buf := [];
    }
  }

  /** Cutting the waiting bytes again after `p` has arrived. */
  lemma Resplit(consumed: bytes, whole: bytes, p: bytes, front: bytes, back: bytes)
    requires whole <= consumed && consumed[|whole|..] + p == front + back
    ensures consumed + p == whole + front + back
    ensures (consumed + p)[..|consumed + p| - |back|] == whole + front
    ensures front == [] ==> whole + front == whole
  {
    assert consumed == whole + consumed[|whole|..];
    assert consumed + p == whole + (front + back);
  }

  /** One more CBC call continues the run, and so does its chaining value. */
  lemma CbcStep(S: Suite, key: bytes, iv0: bytes, whole: bytes, more: bytes)
    requires |key| == 32 && |iv0| == BLOCK && Cbc.Aligned(whole) && Cbc.Aligned(more)
    ensures Cbc.Aligned(whole + more)
    ensures var done := Cbc.Encrypt(S, key, iv0, whole);
            var next := Cbc.Encrypt(S, key, Cbc.Chain(iv0, done), more);
            && Cbc.Encrypt(S, key, iv0, whole + more) == done + next
            && Cbc.Chain(Cbc.Chain(iv0, done), next) == Cbc.Chain(iv0, done + next)
  {
    assert Cbc.Aligned(whole + more);
    Cbc.EncryptAppend(S, key, iv0, whole, more);
    var done := Cbc.Encrypt(S, key, iv0, whole);
    Cbc.ChainAppend(iv0, done, Cbc.Encrypt(S, key, Cbc.Chain(iv0, done), more));
  }

  // -- The LZ4 stage --

  class LzWriter {
    const S: Suite
    const dst: AesFeeder
    var writes: seq<bytes>

    constructor (S: Suite, dst: AesFeeder)
      requires dst.Valid() && dst.consumed == []
      ensures this.S == S && this.dst == dst && writes == [] && Valid()
    {
      this.S, this.dst, writes := S, dst, [];
    }

    ghost predicate Valid()
      reads this, dst, dst.sink, dst.sink.out
    {
      dst.Valid() && dst.consumed == Flatten(S.LzBody(writes))
    }

    method HandOn(pieces: seq<bytes>) returns (ok: bool)
      requires dst.Valid()
      modifies dst, dst.sink, dst.sink.out
      ensures ok ==> dst.Valid() && dst.consumed == old(dst.consumed) + Flatten(pieces)
      ensures dst.sink.out.Reliable() ==> ok
    {
      hide Family.Lawful, AesFeeder.Valid;
      var i := 0;
      assert pieces[..0] == [];
      while i < |pieces|
        invariant 0 <= i <= |pieces|
        invariant dst.Valid() && dst.consumed == old(dst.consumed) + Flatten(pieces[..i])
      {
        FlattenStep(pieces, i, old(dst.consumed));
        ok := dst.Write(pieces[i]);
        if !ok {
          return;
        }
        i := i + 1;
      }
      assert pieces[..i] == pieces;
      ok := true;
    }

    method Write(p: bytes) returns (ok: bool)
      requires Valid()
      modifies this, dst, dst.sink, dst.sink.out
      ensures ok ==> Valid() && writes == old(writes) + [p]
      ensures dst.sink.out.Reliable() ==> ok
    {
      hide Family.Lawful, AesFeeder.Valid, Flatten;
      ok := HandOn(S.lzWrite(writes, p));
      if !ok {
        return;
      }
      FlattenAppend(S.LzBody(writes), S.lzWrite(writes, p));
      assert (writes + [p])[..|writes|] == writes;
      writes := writes + [p];
    }

    method Close() returns (ok: bool)
      requires Valid()
      modifies dst, dst.sink, dst.sink.out
      ensures ok ==> dst.Valid() && dst.consumed == S.LzFrame(writes)
      ensures dst.sink.out.Reliable() ==> ok
    {
      FlattenAppend(S.LzBody(writes), S.lzClose(writes));
      ok := HandOn(S.lzClose(writes));
    }
  }
}
