/** Encrypting and then decrypting, for every LZ4 reader: when the written stream
    is read back, and the one case in which it is not. */
module EndToEnd {
  import opened Bytes
  import opened TextCodecs
  import opened Primitives
  import opened Wire
  import opened Streams
  import opened Metadata
  import opened Envelope
  import opened Dicts
  import opened EncryptPipe
  import opened Meaning
  import opened Exits
  import opened RoundTrip
  import opened Truncation
  import D = Decrypt
  import W = Writer
  import Cbc
  import Pkcs7

  /** The writes that Decrypt makes of a payload that was written as `x`: one for
      each chunk, and a last one for what is left, which may be nothing. */
  function PieceCalls(x: bytes): seq<Call> {
    if |x| < CHUNK then [Tail(x)] else [Feed(x[..CHUNK])] + PieceCalls(x[CHUNK..])
  }

  lemma {:induction false} PieceShape(x: bytes)
    ensures TailBytes(PieceCalls(x)) == Some(x) && FeedsNonEmpty(PieceCalls(x))
    ensures LastWrite(PieceCalls(x)) == [] <==> |x| % CHUNK == 0
  {
    if |x| >= CHUNK {
      PieceShape(x[CHUNK..]);
      assert x == x[..CHUNK] + x[CHUNK..];
      assert PieceCalls(x)[1..] == PieceCalls(x[CHUNK..]);
    }
  }

  // -- The calls that a written stream leads to --

  /** The first `j` chunks of a ciphertext, where more follow. */
  lemma HeldInFront(S: Suite, k: CipherKey, x: bytes, j: nat)
    requires k.Valid() && 0 < j < |Chunks(W.Ciphertext(S, k, x))|
    ensures var ps := Chunks(W.Ciphertext(S, k, x))[..j];
            && j * CHUNK <= |x| && Payloads(ps)
            && HeldBack(S, k, ps) == x[(j - 1) * CHUNK..][..CHUNK]
  {
    hide Family.Lawful, Chunks, W.Ciphertext, Cbc.Decrypt;
    var ct := W.Ciphertext(S, k, x);
    var ps := Chunks(ct)[..j];
    ChunksShape(ct);
    FrontChunks(ct, j);
    FrontDecrypted(S, k, x, j * CHUNK);
    PlainIs(S, k, ps);
    assert |ps[j - 1]| == CHUNK;
  }

  lemma PadTail(x: bytes, n: nat)
    requires n % BLOCK == 0 && n <= |x|
    ensures Pkcs7.Unpadded(Pkcs7.Pad(x)[n..]) == Some(x[n..])
    ensures |Pkcs7.Pad(x)[n..]| > |x[n..]|
  {
    assert x == x[..n] + x[n..];
    Pkcs7.PadShift(x[..n], x[n..]);
    assert Pkcs7.Pad(x)[n..] == Pkcs7.Pad(x[n..]);
    Pkcs7.UnpadInvertsPad(x[n..], Pkcs7.Pad(x[n..]));
  }

  lemma ChunkIsBlocks(j: nat)
    ensures (j * CHUNK) % BLOCK == 0
  {
  }

  lemma LastChunkAt(ct: bytes)
    requires |ct| % BLOCK == 0 && ct != []
    ensures var ps := Chunks(ct);
            ps != [] && |ct| - |ps[|ps| - 1]| == (|ps| - 1) * CHUNK && 0 < |ps[|ps| - 1]| <= CHUNK
  {
    hide Chunks;
    ChunksShape(ct);
    var ps := Chunks(ct);
    var front := ps[..|ps| - 1];
    FrontChunks(ct, |ps| - 1);
    FlattenSnoc(front, ps[|ps| - 1]);
    assert ps == front + [ps[|ps| - 1]];
  }

  /** All chunks: the padding is on the last. */
  lemma HeldAtEnd(S: Suite, k: CipherKey, x: bytes)
    requires k.Valid()
    ensures var ps := Chunks(W.Ciphertext(S, k, x));
            && ps != [] && Payloads(ps) && (|ps| - 1) * CHUNK <= |x|
            && |x[(|ps| - 1) * CHUNK..]| < CHUNK
            && Pkcs7.Unpadded(HeldBack(S, k, ps)) == Some(x[(|ps| - 1) * CHUNK..])
  {
    hide Family.Lawful, Chunks, Cbc.Decrypt, Cbc.Encrypt, Pkcs7.Unpadded, Pkcs7.Pad, Flatten;
    var ct := W.Ciphertext(S, k, x);
    var ps := Chunks(ct);
    LastChunkAt(ct);
    assert Payloads(ps) && Flatten(ps) == ct by { ChunksShape(ct); }
    hide Payloads;
    ChunkIsBlocks(|ps| - 1);
    var n := (|ps| - 1) * CHUNK;
    FrontDecrypted(S, k, x, n);
    PlainIs(S, k, ps);
    Cbc.DecryptEncrypt(S, k.key, k.iv, Pkcs7.Pad(x));
    PadTail(x, n);
    assert HeldBack(S, k, ps) == Pkcs7.Pad(x)[n..];
  }

  /** One more data dict, when some chunk is already held back. */
  lemma DictCalls(S: Suite, k: CipherKey, ps: seq<bytes>, tail: bytes, m: Meta, j: nat)
    requires k.Valid() && RoundTrip.Writable(ps) && Payloads(ps) && 0 < j < |ps|
    ensures Payloads(ps[..j]) && Payloads(ps[..j + 1])
    ensures Script(S, k, DataSection(ps[j..]) + tail, m, ps[..j])
         == [Feed(HeldBack(S, k, ps[..j]))] + Script(S, k, DataSection(ps[j + 1..]) + tail, m, ps[..j + 1])
  {
    hide Family.Lawful, Enc, DataValue, KindOf, HeldBack, Next, AbsorbAll;
    var t := DataSection(ps[j + 1..]) + tail;
    assert ps[j..][0] == ps[j] && ps[j..][1..] == ps[j + 1..];
    assert DataSection(ps[j..]) + tail == Enc(DataValue(ps[j])) + t;
    DataForm(ps[j]);
    NextWritten(DataValue(ps[j]), t);
    DataKind(ps[j]);
    assert ps[..j] + [ps[j]] == ps[..j + 1];
    assert IsPayload(ps[j]);
  }

  lemma {:induction false} SectionCalls(S: Suite, k: CipherKey, x: bytes, hex: bytes, m: Meta, j: nat)
    requires k.Valid() && |hex| <= 0xFFFF && 0 < j <= |Chunks(W.Ciphertext(S, k, x))|
    ensures var ps := Chunks(W.Ciphertext(S, k, x));
            && Payloads(ps[..j]) && (j - 1) * CHUNK <= |x|
            && Script(S, k, DataSection(ps[j..]) + Enc(FinalValue(hex)), m, ps[..j]) == PieceCalls(x[(j - 1) * CHUNK..])
    decreases |Chunks(W.Ciphertext(S, k, x))| - j
  {
    hide Family.Lawful, Chunks, W.Ciphertext, Enc, FinalValue, HeldBack, Pkcs7.Unpadded, Script, DataSection;
    var ps := Chunks(W.Ciphertext(S, k, x));
    ChunksShape(W.Ciphertext(S, k, x));
    if j == |ps| {
      HeldAtEnd(S, k, x);
      assert ps[..j] == ps && ps[j..] == [];
      assert DataSection([]) + Enc(FinalValue(hex)) == Enc(FinalValue(hex)) by { NoDicts(); }
      TrailerEnds(S, k, hex, m, ps);
    } else {
      HeldInFront(S, k, x, j);
      DictCalls(S, k, ps, Enc(FinalValue(hex)), m, j);
      SectionCalls(S, k, x, hex, m, j + 1);
      assert x[(j - 1) * CHUNK..][CHUNK..] == x[j * CHUNK..];
    }
  }

  lemma NoDicts()
    ensures DataSection([]) == []
  {
  }

  lemma TrailerEnds(S: Suite, k: CipherKey, hex: bytes, m: Meta, chunks: seq<bytes>)
    requires k.Valid() && Payloads(chunks) && |hex| <= 0xFFFF
    ensures Script(S, k, Enc(FinalValue(hex)), m, chunks) == EndCalls(S, k, chunks)
  {
    hide Family.Lawful, Enc, FinalValue, EndCalls, AbsorbAll;
    var v := FinalValue(hex);
    FinalForm(hex);
    NextWritten(v, []);
    assert Enc(v) + [] == Enc(v);
    FinalGathered(Gathered(m, Some(m), []), hex);
    assert Next([]) == Done;
  }

  lemma WholeSectionCalls(S: Suite, k: CipherKey, x: bytes, hex: bytes, m: Meta)
    requires k.Valid() && |hex| <= 0xFFFF
    ensures var rest := DataSection(Chunks(W.Ciphertext(S, k, x))) + Enc(FinalValue(hex));
            && HeadFrom(rest, m) == Some(Head(rest, m))
            && Script(S, k, rest, m, []) == PieceCalls(x)
  {
    hide Family.Lawful, Chunks, W.Ciphertext, Enc, DataValue, FinalValue, KindOf, HeldBack, Next, AbsorbAll;
    var ps := Chunks(W.Ciphertext(S, k, x));
    ChunksShape(W.Ciphertext(S, k, x));
    var t := DataSection(ps[1..]) + Enc(FinalValue(hex));
    assert DataSection(ps) + Enc(FinalValue(hex)) == Enc(DataValue(ps[0])) + t;
    DataForm(ps[0]);
    NextWritten(DataValue(ps[0]), t);
    DataKind(ps[0]);
    assert IsPayload(ps[0]);
    SectionCalls(S, k, x, hex, m, 1);
    assert [] + [ps[0]] == ps[..1] && x[0..] == x;
    assert [] + PieceCalls(x) == PieceCalls(x);
  }

  /** Decrypt of a written stream opens one pipe, and feeds it exactly the payload
      in these pieces. */
  lemma WrittenCalls(S: Suite, o: EncryptOptions, rand: bytes, writes: seq<bytes>, opt: Options) returns (op: Opening)
    requires W.Startable(S, o, rand) && Opens(S, o, opt)
    ensures Opened(S, opt, W.StreamOf(S, o, rand, writes)) == Some(op)
    ensures op.compress == o.CompressOn() && op.k.Valid()
    ensures CallsOf(S, op) == PieceCalls(W.Payload(S, o.CompressOn(), writes))
  {
    hide AfterMagic, Magic, Enc, Chunks, W.Startable, Family.Lawful, W.Payload, Prepare, Recover, Script, PieceCalls,
         KindOf, DataValue, FinalValue, LeadingValue, DataKey, W.Ciphertext, Opens, CheckModes, Next, W.StreamOf;
    StreamParts(S, o, rand, writes);
    var p := Prepare(S, o, rand).value;
    var k, m := DataKey(S, p.session), Recorded(p.leading);
    var x := W.Payload(S, o.CompressOn(), writes);
    var hex := HexEncode(S.md5(Flatten(writes)));
    W.DigestLength(S, Flatten(writes));
    var rest := DataSection(Chunks(W.Ciphertext(S, k, x))) + Enc(FinalValue(hex));
    MagicPassed(S, Enc(LeadingValue(p.leading)) + rest);
    LeadingRead(p.leading, rest);
    LeadingModes(S, o, rand);
    KeyAgreement(S, o, opt, rand);
    WholeSectionCalls(S, k, x, hex, m);
    op := Opening(k, o.CompressOn(), Head(rest, m));
  }

  /** Is a written stream read back? */
  predicate ReadBack(S: Suite, compress: bool, writes: seq<bytes>) {
    compress ==> AllTaken(S, [], PieceCalls(S.LzFrame(writes)))
  }

  /** With a reader that reads on within its frame, a written stream is read back
      unless it is compressed, its frame fills whole chunks, so that the last data
      dict is pure padding, and the reader stops at the end of the frame. */
  lemma ReadBackIff(S: Suite, compress: bool, writes: seq<bytes>)
    requires S.LzReadsOn()
    ensures ReadBack(S, compress, writes)
       <==> !(compress && |S.LzFrame(writes)| % CHUNK == 0 && S.lzHalts(S.LzFrame(writes)))
  {
    hide Family.LzFrame, AllTaken, PieceCalls, Family.LzReadsOn;
    var frame := S.LzFrame(writes);
    PieceShape(frame);
    FrameDecodes(S, writes);
    hide Family.Lawful;
    assert [] + frame == frame;
    AllTakenIff(S, [], PieceCalls(frame));
  }

  lemma FrameDecodes(S: Suite, writes: seq<bytes>)
    ensures S.LzRead(S.LzFrame(writes)) == LzOk(Flatten(writes))
  {
    hide Family.LzFrame;
    assert S.LzLaw();
  }

  /** And a draining reader reads back all of them. */
  lemma DrainingReadsBack(S: Suite, compress: bool, writes: seq<bytes>)
    requires S.LzDrains()
    ensures ReadBack(S, compress, writes)
  {
    hide Family.LzFrame, AllTaken, PieceCalls, Family.LzDrains;
    var frame := S.LzFrame(writes);
    PieceShape(frame);
    FrameDecodes(S, writes);
    hide Family.Lawful;
    assert [] + frame == frame;
    DrainingTakes(S, [], PieceCalls(frame));
  }

  lemma WrittenTaken(S: Suite, o: EncryptOptions, rand: bytes, writes: seq<bytes>, opt: Options)
    requires W.Startable(S, o, rand) && Opens(S, o, opt)
    ensures ReaderTakesAll(S, opt, W.StreamOf(S, o, rand, writes)) <==> ReadBack(S, o.CompressOn(), writes)
  {
    hide Family.Lawful, W.StreamOf, W.Startable, Opens, AllTaken, Opened, PieceCalls;
    var op := WrittenCalls(S, o, rand, writes, opt);
  }

  /** Both programs one after the other: encrypt the slices, then decrypt what came
      out.  It comes back exactly, unless the LZ4 reader does not take it all. */
  method EncryptThenDecrypt(S: Suite, slices: seq<bytes>, o: EncryptOptions, rand: bytes, opt: Options)
    returns (encrypted: Option<Error>, decrypted: Option<Error>, plain: bytes)
    requires Opens(S, o, opt)
    ensures encrypted == None <==> o.Acceptable() && W.Startable(S, o, rand)
    ensures encrypted == None ==> (decrypted == None <==> ReadBack(S, o.CompressOn(), slices))
    ensures encrypted == None && decrypted == None ==> plain == Flatten(slices)
    ensures encrypted == None && S.LzReadsOn()
            ==> (decrypted == None <==>
                 !(o.CompressOn() && |S.LzFrame(slices)| % CHUNK == 0 && S.lzHalts(S.LzFrame(slices))))
    ensures encrypted == None && (o.CompressOn() ==> S.LzDrains()) ==> decrypted == None
  {
    hide *;
    var file := new Output((i: nat) => false);
    AlwaysReliable(file);
    encrypted := W.Encrypt(S, slices, file, o, rand);
    decrypted, plain := None, [];
    if encrypted.Some? {
      return;
    }
    var out := new Output((i: nat) => false);
    AlwaysReliable(out);
    var source := new Source(file.data);
    var hook := new D.Observer();
    assert file.data == W.StreamOf(S, o, rand, slices) by {
      assert [] + W.StreamOf(S, o, rand, slices) == W.StreamOf(S, o, rand, slices);
    }
    ghost var s := WrittenStreamReadsBack(S, o, rand, slices, opt);
    WrittenTaken(S, o, rand, slices, opt);
    Conditions(S, o, slices);
    ghost var worker;
    decrypted, worker := D.Decrypt(S, source, out, opt, hook);
    plain := out.data;
  }

  lemma Conditions(S: Suite, o: EncryptOptions, slices: seq<bytes>)
    ensures S.LzReadsOn()
            ==> (ReadBack(S, o.CompressOn(), slices) <==>
                 !(o.CompressOn() && |S.LzFrame(slices)| % CHUNK == 0 && S.lzHalts(S.LzFrame(slices))))
    ensures (o.CompressOn() ==> S.LzDrains()) ==> ReadBack(S, o.CompressOn(), slices)
  {
    hide Family.Lawful, Family.LzFrame, AllTaken, PieceCalls, Family.LzReadsOn, Family.LzDrains;
    if S.LzReadsOn() {
      ReadBackIff(S, o.CompressOn(), slices);
    }
    if S.LzDrains() {
      DrainingReadsBack(S, o.CompressOn(), slices);
    }
  }
}
