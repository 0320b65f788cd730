/** An LZ4 stand-in whose reader stops at the end of its frame, and a plaintext
    that is written and then not read back. */
module FrameEnd {
  import opened Bytes
  import opened Primitives
  import opened Envelope
  import opened EncryptPipe
  import opened Meaning
  import opened Exits
  import opened RoundTrip
  import opened EndToEnd
  import W = Writer

  /** Frames that mark their end: a one in front of every byte, two zeros at the end. */
  function Mark(b: bytes): (r: bytes)
    ensures |r| == 2 * |b| + 2
  {
    if b == [] then [0, 0] else [1, b[0]] + Mark(b[1..])
  }

  function Unmark(x: bytes): bytes {
    if |x| < 2 || x[0] != 1 then [] else [x[1]] + Unmark(x[2..])
  }

  predicate IsFrame(x: bytes) {
    if |x| >= 2 && x[0] == 1 then IsFrame(x[2..]) else x == [0, 0]
  }

  /** Has the reader met the end mark, or something else that is not a frame? */
  predicate Halts(x: bytes) {
    |x| >= 2 && (x[0] != 1 || Halts(x[2..]))
  }

  function Marked(): Family {
    Trivial().(lzWrite := (writes, p) => [], lzClose := writes => [Mark(Flatten(writes))],
               lzOutput := x => Unmark(x), lzComplete := x => IsFrame(x), lzHalts := x => Halts(x))
  }

  lemma {:induction false} MarkRead(b: bytes)
    ensures IsFrame(Mark(b)) && Unmark(Mark(b)) == b && Halts(Mark(b))
  {
    if b != [] {
      MarkRead(b[1..]);
      assert Mark(b)[2..] == Mark(b[1..]);
    }
  }

  lemma {:induction false} UnmarkExtends(x: bytes, y: bytes)
    ensures Unmark(x) <= Unmark(x + y)
  {
    if |x| >= 2 && x[0] == 1 {
      UnmarkExtends(x[2..], y);
      assert (x + y)[2..] == x[2..] + y;
    }
  }

  /** Within a frame the reader goes on. */
  lemma {:induction false} FrameReadsOn(x: bytes, n: nat)
    requires n < |x| && IsFrame(x)
    ensures !Halts(x[..n])
  {
    if |x| >= 2 && x[0] == 1 && n >= 2 {
      FrameReadsOn(x[2..], n - 2);
      assert x[..n][2..] == x[2..][..n - 2];
    }
  }

  lemma {:induction false} MarkedBody(writes: seq<bytes>)
    ensures Marked().LzBody(writes) == []
  {
    if writes != [] {
      MarkedBody(writes[..|writes| - 1]);
    }
  }

  lemma MarkedFrame(writes: seq<bytes>)
    ensures Marked().LzFrame(writes) == Mark(Flatten(writes))
  {
    MarkedBody(writes);
    var frame := Mark(Flatten(writes));
    assert Marked().LzBody(writes) + Marked().lzClose(writes) == [frame];
    assert Flatten([frame]) == frame + Flatten([][..]);
  }

  /** It obeys all the laws, reads on within every frame, and stops at the end of
      each. */
  lemma MarkedIsLawful()
    ensures Marked().Lawful() && Marked().LzReadsOn()
    ensures forall writes: seq<bytes> :: Marked().lzHalts(Marked().LzFrame(writes))
  {
    TrivialIsLawful();
    forall writes: seq<bytes>
      ensures Marked().LzRead(Marked().LzFrame(writes)) == LzOk(Flatten(writes))
      ensures Marked().lzHalts(Marked().LzFrame(writes))
    {
      MarkedFrame(writes);
      MarkRead(Flatten(writes));
    }
    forall x: bytes, y: bytes ensures Marked().lzOutput(x) <= Marked().lzOutput(x + y) {
      UnmarkExtends(x, y);
    }
    forall x: bytes, n: nat | n < |x| && Marked().lzComplete(x) ensures !Marked().lzHalts(x[..n]) {
      FrameReadsOn(x, n);
    }
  }

  ghost function MarkedSuite(): (S: Suite)
    ensures S == Marked()
  {
    MarkedIsLawful();
    Marked()
  }

  /** One such plaintext: 16383 bytes make a frame of exactly one chunk.  The written
      stream has a plaintext, and Decrypt fails on it. */
  lemma ExactChunkFails(o: EncryptOptions, rand: bytes, opt: Options) returns (S: Suite, writes: seq<bytes>, s: bytes)
    requires o.CompressOn() && W.Startable(MarkedSuite(), o, rand) && Opens(MarkedSuite(), o, opt)
    ensures S == MarkedSuite() && |Flatten(writes)| == 16383 && |S.LzFrame(writes)| == CHUNK
    ensures W.Startable(S, o, rand) && s == W.StreamOf(S, o, rand, writes)
    ensures Plaintext(S, opt, s) == Some(Flatten(writes)) && !ReaderTakesAll(S, opt, s)
  {
    hide W.Startable, Opens, W.StreamOf, Plaintext, ReaderTakesAll, AllTaken, PieceCalls, Family.LzFrame;
    MarkedIsLawful();
    S := MarkedSuite();
    var plain: bytes := seq(16383, _ => 0);
    writes := [plain];
    assert Flatten(writes) == plain + Flatten([][..]);
    MarkedFrame(writes);
    s := WrittenStreamReadsBack(S, o, rand, writes, opt);
    WrittenTaken(S, o, rand, writes, opt);
    ReadBackIff(S, true, writes);
  }
}
