/** The two sides together: what the reader makes of a written stream. */
module RoundTrip {
  import opened Bytes
  import opened TextCodecs
  import opened Primitives
  import opened Wire
  import opened Streams
  import opened Metadata
  import opened Envelope
  import opened Dicts
  import opened EncryptPipe
  import opened Meaning
  import opened Exits
  import opened Decrypt
  import W = Writer
  import Cbc
  import Pkcs7
  import N = Names

  // -- Reading one written dict --

  lemma NextWritten(v: Value, t: bytes)
    requires Encodable(v)
    ensures Next(Enc(v) + t) == Object(v, t)
  {
    Wire.RoundTrip(v, t);
  }

  lemma LeadingKind(h: Leading)
    requires h.NonNegative()
    ensures KindOf(LeadingValue(h)) == MetaDict(LeadingMembers(h))
  {
    assert LeadingMembers(h)[0] == StrMember(N.TYPE, N.METADATA);
  }

  lemma DataKind(b: bytes)
    ensures KindOf(DataValue(b)) == DataDict(Some(b))
  {
    N.FieldNames();
    var ms := DataValue(b).members;
    assert ms[0] == StrMember(N.TYPE, N.DATA);
    assert ms[1..][0] == Pair(Str(N.DATA), Blob(b));
    assert N.TYPE[0] != N.DATA[0];
    assert Find(ms, N.DATA) == Find(ms[1..], N.DATA) == Some(Blob(b));
  }

  lemma DataGathered(g: Gathered, b: bytes)
    requires IsPayload(b) && (g.head == None ==> CheckModes(g.meta) == None)
    ensures Gather(g, DataValue(b))
         == Ok(Gathered(g.meta, if g.head == None then Some(g.meta) else g.head, g.payloads + [b]))
  {
    hide KindOf, DataValue, CheckModes;
    DataKind(b);
  }

  lemma FinalGathered(g: Gathered, hex: bytes)
    ensures Gather(g, FinalValue(hex)) == Ok(g.(meta := g.meta.(plaintextMD5 := hex)))
  {
    N.FieldNames();
    var ms := FinalValue(hex).members;
    assert ms[0] == StrMember(N.TYPE, N.METADATA);
    assert ms == [ms[0]] + [StrMember(N.FILE_MD5, hex)];
    AbsorbOne(g.meta, ms[0]);
    Then(g.meta, [ms[0]], g.meta, StrMember(N.FILE_MD5, hex), g.meta.(plaintextMD5 := hex));
  }

  ghost predicate Writable(ps: seq<bytes>) {
    forall i :: 0 <= i < |ps| ==> IsPayload(ps[i]) && |ps[i]| <= 0xFFFF
  }

  lemma {:induction false} SectionCollected(ps: seq<bytes>, tail: bytes, g: Gathered)
    requires g.head.Some? && Writable(ps)
    ensures Collect(DataSection(ps) + tail, g) == Collect(tail, g.(payloads := g.payloads + ps))
    decreases ps
  {
    hide KindOf, Enc, DataValue, Gather, Next;
    if ps == [] {
      assert DataSection(ps) + tail == tail;
      assert g.payloads + ps == g.payloads;
    } else {
      var v, rest := DataValue(ps[0]), DataSection(ps[1..]) + tail;
      assert DataSection(ps) + tail == Enc(v) + rest;
      DataForm(ps[0]);
      NextWritten(v, rest);
      DataGathered(g, ps[0]);
      var g' := g.(payloads := g.payloads + [ps[0]]);
      SectionCollected(ps[1..], tail, g');
      assert g.payloads + [ps[0]] + ps[1..] == g.payloads + ps;
    }
  }

  /** The first data dict fixes the head; after that the section is as above. */
  lemma FirstSection(ps: seq<bytes>, tail: bytes, m: Meta)
    requires ps != [] && CheckModes(m) == None && Writable(ps)
    ensures Collect(DataSection(ps) + tail, Gathered(m, None, [])) == Collect(tail, Gathered(m, Some(m), ps))
    ensures InspectFrom(DataSection(ps) + tail, m) == Ok(m)
  {
    hide Enc, DataValue, CheckModes, KindOf;
    var v, rest := DataValue(ps[0]), DataSection(ps[1..]) + tail;
    assert DataSection(ps) + tail == Enc(v) + rest;
    DataForm(ps[0]);
    NextWritten(v, rest);
    DataKind(ps[0]);
    DataGathered(Gathered(m, None, []), ps[0]);
    var g := Gathered(m, Some(m), [ps[0]]);
    SectionCollected(ps[1..], tail, g);
    assert [ps[0]] + ps[1..] == ps;
    assert IsPayload(ps[0]);
    assert [] + [ps[0]] == [ps[0]];
    assert Gather(Gathered(m, None, []), v) == Ok(g);
  }

  lemma TrailerCollected(g: Gathered, hex: bytes)
    requires |hex| <= 0xFFFF
    ensures Collect(Enc(FinalValue(hex)), g) == Ok(g.(meta := g.meta.(plaintextMD5 := hex)))
  {
    hide KindOf, Enc, FinalValue, Gather;
    FinalForm(hex);
    var v := FinalValue(hex);
    NextWritten(v, []);
    assert Enc(v) + [] == Enc(v);
    FinalGathered(g, hex);
    assert Collect([], g.(meta := g.meta.(plaintextMD5 := hex))) == Ok(g.(meta := g.meta.(plaintextMD5 := hex)));
  }

  lemma MagicPassed(S: Suite, t: bytes)
    ensures AfterMagic(S, Magic(S) + t) == Ok(t)
  {
    var hex := HexEncode(S.md5(N.FILE_MAGIC));
    assert |hex| == 32;
    assert Magic(S) + t == N.FILE_MAGIC + (hex + t);
    TakePrefix(N.FILE_MAGIC, hex + t);
    TakePrefix(hex, t);
  }

  // -- Decoding the ciphertext --

  lemma PayloadDecoded(S: Suite, k: CipherKey, compress: bool, writes: seq<bytes>)
    requires k.Valid()
    ensures Decoded(S, k, compress, W.Ciphertext(S, k, W.Payload(S, compress, writes))) == Some(Flatten(writes))
  {
    var x := W.Payload(S, compress, writes);
    Cbc.DecryptEncrypt(S, k.key, k.iv, Pkcs7.Pad(x));
    Pkcs7.UnpadInvertsPad(x, Pkcs7.Pad(x));
    assert S.LzLaw();
  }

  // -- The whole stream --

  /** The parts of a written stream, in order. */
  lemma StreamParts(S: Suite, o: EncryptOptions, rand: bytes, writes: seq<bytes>)
    requires W.Startable(S, o, rand)
    ensures var p := Prepare(S, o, rand).value;
            var k := DataKey(S, p.session);
            var ps := Chunks(W.Ciphertext(S, k, W.Payload(S, o.CompressOn(), writes)));
            && Prepare(S, o, rand).Ok? && Fits(p.leading)
            && W.StreamOf(S, o, rand, writes)
               == Magic(S) + (Enc(LeadingValue(p.leading)) + (DataSection(ps) + W.Trailer(S, Flatten(writes))))
  {
    hide Prepare, Fits, Magic, Enc, DataSection, Chunks, W.Trailer, W.Ciphertext, W.Payload, Family.Lawful;
    var p := Prepare(S, o, rand).value;
    var ps := Chunks(W.Ciphertext(S, DataKey(S, p.session), W.Payload(S, o.CompressOn(), writes)));
    Wire.Regroup(Magic(S), Enc(LeadingValue(p.leading)), DataSection(ps), W.Trailer(S, Flatten(writes)));
  }

  /** The grammar and the size of a completed run: magic, one leading dict, one
      or more data dicts whose payloads are whole chunks up to the last, and one
      trailing dict; n bytes entering the cipher make 16 * (n / 16 + 1) bytes of
      payload and 26 more for every dict. */
  lemma StreamGrammar(S: Suite, o: EncryptOptions, rand: bytes, writes: seq<bytes>) returns (ps: seq<bytes>)
    requires W.Startable(S, o, rand)
    ensures Prepare(S, o, rand).Ok? && Fits(Prepare(S, o, rand).value.leading)
    ensures W.StreamOf(S, o, rand, writes)
         == Magic(S) + (Enc(LeadingValue(Prepare(S, o, rand).value.leading))
                        + (DataSection(ps) + Enc(FinalValue(HexEncode(S.md5(Flatten(writes)))))))
    ensures ps != []
    ensures forall i :: 0 <= i < |ps| ==> 0 < |ps[i]| <= CHUNK && |ps[i]| % BLOCK == 0
    ensures forall i :: 0 <= i < |ps| - 1 ==> |ps[i]| == CHUNK
    ensures var n := |W.Payload(S, o.CompressOn(), writes)|;
            |Flatten(ps)| == 16 * (n / 16 + 1) && |DataSection(ps)| == |Flatten(ps)| + 26 * |ps|
  {
    hide Prepare, Fits, Magic, Enc, DataSection, Chunks, W.Payload, W.StreamOf, W.Startable, Family.Lawful;
    StreamParts(S, o, rand, writes);
    var k := DataKey(S, Prepare(S, o, rand).value.session);
    var ct := W.Ciphertext(S, k, W.Payload(S, o.CompressOn(), writes));
    ps := Chunks(ct);
    ChunksShape(ct);
  }

  lemma HeaderCollected(h: Leading, t: bytes)
    requires Fits(h)
    ensures Collect(Enc(LeadingValue(h)) + t, START) == Collect(t, Gathered(Recorded(h), None, []))
    ensures InspectFrom(Enc(LeadingValue(h)) + t, DEFAULTS) == InspectFrom(t, Recorded(h))
  {
    hide KindOf, Enc, AbsorbAll, LeadingMembers;
    NextWritten(LeadingValue(h), t);
    LeadingKind(h);
    LeadingRoundTrip(h);
  }

  /** What the reader gathers from a written stream. */
  lemma StreamCollected(S: Suite, o: EncryptOptions, rand: bytes, writes: seq<bytes>)
    requires W.Startable(S, o, rand)
    ensures var p := Prepare(S, o, rand).value;
            var m := Recorded(p.leading);
            var ps := Chunks(W.Ciphertext(S, DataKey(S, p.session), W.Payload(S, o.CompressOn(), writes)));
            var body := AfterMagic(S, W.StreamOf(S, o, rand, writes));
            && Prepare(S, o, rand).Ok?
            && body.Ok?
            && Collect(body.value, START)
               == Ok(Gathered(m.(plaintextMD5 := HexEncode(S.md5(Flatten(writes)))), Some(m), ps))
            && InspectFrom(body.value, DEFAULTS) == Ok(m)
            && Flatten(ps) == W.Ciphertext(S, DataKey(S, p.session), W.Payload(S, o.CompressOn(), writes))
  {
    hide AfterMagic, Collect, InspectFrom, Magic, Enc, DataSection, Chunks, Fits, W.StreamOf, W.Startable,
         Family.Lawful;
    hide W.Payload, Prepare;
    StreamParts(S, o, rand, writes);
    var p := Prepare(S, o, rand).value;
    var m := Recorded(p.leading);
    var ct := W.Ciphertext(S, DataKey(S, p.session), W.Payload(S, o.CompressOn(), writes));
    var ps := Chunks(ct);
    var hex := HexEncode(S.md5(Flatten(writes)));
    W.DigestLength(S, Flatten(writes));
    ChunksShape(ct);
    var tail := W.Trailer(S, Flatten(writes));
    MagicPassed(S, Enc(LeadingValue(p.leading)) + (DataSection(ps) + tail));
    HeaderCollected(p.leading, DataSection(ps) + tail);
    LeadingModes(S, o, rand);
    FirstSection(ps, tail, m);
    TrailerCollected(Gathered(m, Some(m), ps), hex);
  }

  lemma LeadingModes(S: Suite, o: EncryptOptions, rand: bytes)
    requires Prepare(S, o, rand).Ok?
    ensures var h := Prepare(S, o, rand).value.leading;
            CheckModes(Recorded(h)) == None && (h.compress == 1 <==> o.CompressOn())
  {
    hide Family.Lawful, WrapWithPassword, WrapWithKey, DrawDigest, DrawSalt, OnWire;
  }

  /** The end-to-end law: whatever was written, in whatever slices, with any
      version and either credential, the written stream has exactly the
      concatenation of the slices as its plaintext. */
  lemma WrittenStreamReadsBack(S: Suite, o: EncryptOptions, rand: bytes, writes: seq<bytes>, opt: Options)
    returns (s: bytes)
    requires W.Startable(S, o, rand) && Opens(S, o, opt)
    ensures s == W.StreamOf(S, o, rand, writes)
    ensures Plaintext(S, opt, s) == Some(Flatten(writes))
  {
    hide AfterMagic, Collect, W.StreamOf, W.Startable, Family.Lawful, Recover, Prepare, Chunks, Decoded, W.Payload,
         W.Ciphertext, Opens;
    StreamCollected(S, o, rand, writes);
    KeyAgreement(S, o, opt, rand);
    LeadingModes(S, o, rand);
    PayloadDecoded(S, DataKey(S, Prepare(S, o, rand).value.session), o.CompressOn(), writes);
    s := W.StreamOf(S, o, rand, writes);
    SameRecovery(S, opt, s);
  }

  lemma SameRecovery(S: Suite, opt: Options, s: bytes)
    requires AfterMagic(S, s).Ok? && Collect(AfterMagic(S, s).value, START).Ok?
    ensures var g := Collect(AfterMagic(S, s).value, START).value;
            Cbc.Aligned(Flatten(g.payloads)) && Plaintext(S, opt, s) == Finished(S, opt, g)
  {
    hide AfterMagic, Collect, Finished, Family.Lawful;
    CollectKeeps(AfterMagic(S, s).value, START);
    PayloadsAligned(Collect(AfterMagic(S, s).value, START).value.payloads);
  }

  /** Inspect needs no credential and reports exactly the written record. */
  lemma WrittenStreamInspects(S: Suite, o: EncryptOptions, rand: bytes, writes: seq<bytes>) returns (p: Prepared)
    requires W.Startable(S, o, rand)
    ensures Prepare(S, o, rand) == Ok(p)
    ensures Inspected(S, W.StreamOf(S, o, rand, writes)) == Ok(Recorded(p.leading))
  {
    hide AfterMagic, Collect, InspectFrom, W.StreamOf, W.Startable, Family.Lawful, Prepare, Chunks, W.Payload,
         W.Ciphertext;
    StreamCollected(S, o, rand, writes);
    p := Prepare(S, o, rand).value;
  }

  /** What Inspect reports of a written stream: what the options ask for, and the
      salt, the wrapped keys and the hashes as they were prepared. */
  lemma InspectedOptions(S: Suite, o: EncryptOptions, rand: bytes, writes: seq<bytes>) returns (m: Meta, h: Leading)
    requires W.Startable(S, o, rand)
    ensures Prepare(S, o, rand).Ok? && h == Prepare(S, o, rand).value.leading
    ensures Inspected(S, W.StreamOf(S, o, rand, writes)) == Ok(m)
    ensures m.major == (if o.majorOpt == 0 then 3 else o.majorOpt)
    ensures m.minor == (if o.majorOpt == 0 && o.minorOpt == 0 then 1 else o.minorOpt)
    ensures m.compress == (if o.compressOpt == Some(false) then 0 else 1) && m.encrypt == 1
    ensures m.filename == o.filename && N.Spells(m.digest, "md5") && m.plaintextMD5 == []
    ensures m.salt == h.salt && m.key1Hash == h.key1Hash && m.sessionKeyHash == h.sessKeyHash
    ensures m.encKey1 == (if h.encKey1 == [] then None else Some(h.encKey1))
    ensures m.encKey2 == (if h.encKey2 == [] then None else Some(h.encKey2))
    ensures o.password != [] ==> m.encKey1.Some?
    ensures o.password == [] ==> m.encKey1 == None && m.key1Hash == []
    ensures o.publicKey == None ==> m.encKey2 == None
  {
    hide W.StreamOf, W.Startable, Family.Lawful, Prepare, Inspected, WrapWithPassword;
    var p := WrittenStreamInspects(S, o, rand, writes);
    PreparedFields(S, o, rand);
    PreparedKeys(S, o, rand);
    N.SpelledOut();
    h := p.leading;
    m := Recorded(h);
  }

  lemma PreparedKeys(S: Suite, o: EncryptOptions, rand: bytes)
    requires Prepare(S, o, rand).Ok?
    ensures var h := Prepare(S, o, rand).value.leading;
            && (o.password != [] <==> h.encKey1 != [])
            && (o.password == [] ==> h.key1Hash == [])
            && (o.publicKey == None ==> h.encKey2 == [])
  {
    hide Family.Lawful, DrawDigest, DrawSalt;
  }

  // -- A stream that leaves its worker behind --

  lemma StringKind(x: bytes)
    ensures KindOf(Str(x)) == Mistake(NotADict)
  {
  }

  /** Whatever is written in compressed mode: its header, one data dict and then
      a string instead of the trailer make Decrypt return past an open pipe. */
  lemma StringAfterPayload(S: Suite, o: EncryptOptions, rand: bytes, opt: Options, ct: bytes, x: bytes)
    returns (s: bytes, p: Prepared)
    requires W.Startable(S, o, rand) && Opens(S, o, opt) && o.CompressOn()
    requires IsPayload(ct) && |ct| <= 0xFFFF && |x| <= 0xFFFF
    ensures Prepare(S, o, rand) == Ok(p)
    ensures s == Magic(S) + (Enc(LeadingValue(p.leading)) + (Enc(DataValue(ct)) + Enc(Str(x))))
    ensures Fate(S, opt, s) == Stranded
    ensures Plaintext(S, opt, s) == None
    ensures Script(S, DataKey(S, p.session), Enc(DataValue(ct)) + Enc(Str(x)), Recorded(p.leading), [])
         == [Walk(NotADict)]
  {
    hide AfterMagic, Magic, Enc, Family.Lawful, Recover, KindOf, LeadingValue, DataValue, Next, Prepare, DataKey, Opens;
    p := Prepare(S, o, rand).value;
    var m, k := Recorded(p.leading), DataKey(S, p.session);
    var tail := Enc(DataValue(ct)) + Enc(Str(x));
    s := Magic(S) + (Enc(LeadingValue(p.leading)) + tail);
    MagicPassed(S, Enc(LeadingValue(p.leading)) + tail);
    KeyAgreement(S, o, opt, rand);
    LeadingModes(S, o, rand);
    LeadingRead(p.leading, tail);
    DataForm(ct);
    NextWritten(DataValue(ct), Enc(Str(x)));
    DataKind(ct);
    NextWritten(Str(x), []);
    assert Enc(Str(x)) + [] == Enc(Str(x));
    StringKind(x);
    ScriptOfOne(S, k, tail, m, ct, x);
    assert HeadFrom(tail, m) == Some(Head(tail, m));
    assert HeadOf(S, s) == Some(Head(tail, m));
    assert Opened(S, opt, s) == Some(Opening(k, true, Head(tail, m)));
    StringRejects(S, opt, s, m, ct, x, p.leading);
  }

  /** What the printed leading dict is to every reader. */
  lemma LeadingRead(h: Leading, t: bytes)
    requires Fits(h)
    ensures Next(Enc(LeadingValue(h)) + t) == Object(LeadingValue(h), t)
    ensures KindOf(LeadingValue(h)) == MetaDict(LeadingMembers(h))
    ensures AbsorbAll(DEFAULTS, LeadingMembers(h)) == Ok(Recorded(h))
  {
    NextWritten(LeadingValue(h), t);
    LeadingKind(h);
    LeadingRoundTrip(h);
  }

  lemma ScriptOfOne(S: Suite, k: CipherKey, tail: bytes, m: Meta, ct: bytes, x: bytes)
    requires k.Valid() && IsPayload(ct)
    requires Next(tail) == Object(DataValue(ct), Enc(Str(x))) && KindOf(DataValue(ct)) == DataDict(Some(ct))
    requires Next(Enc(Str(x))) == Object(Str(x), []) && KindOf(Str(x)) == Mistake(NotADict)
    ensures Script(S, k, tail, m, []) == [Walk(NotADict)]
    ensures Walks(S, [], Script(S, k, tail, m, []))
  {
    hide Family.Lawful, KindOf, Next, Enc, DataValue, HeldBack;
    assert [] + [ct] == [ct];
    assert Script(S, k, Enc(Str(x)), m, [ct]) == [Walk(NotADict)];
    assert [] + [Walk(NotADict)] == [Walk(NotADict)];
  }

  lemma StringRejects(S: Suite, opt: Options, s: bytes, m: Meta, ct: bytes, x: bytes, h: Leading)
    requires Fits(h) && IsPayload(ct) && m == Recorded(h)
    requires AfterMagic(S, s) == Ok(Enc(LeadingValue(h)) + (Enc(DataValue(ct)) + Enc(Str(x))))
    requires Next(Enc(DataValue(ct)) + Enc(Str(x))) == Object(DataValue(ct), Enc(Str(x)))
    requires KindOf(DataValue(ct)) == DataDict(Some(ct))
    requires Next(Enc(Str(x))) == Object(Str(x), []) && KindOf(Str(x)) == Mistake(NotADict)
    ensures Plaintext(S, opt, s) == None
  {
    hide AfterMagic, Family.Lawful, KindOf, Next, Enc, DataValue, LeadingValue, AbsorbAll, CheckModes;
    HeaderCollected(h, Enc(DataValue(ct)) + Enc(Str(x)));
  }

  /** Without compression the file depends only on the plaintext, not on how it
      was cut into writes. */
  method EncryptTwoSplits(S: Suite, a: seq<bytes>, b: seq<bytes>, o: EncryptOptions, rand: bytes)
    returns (fileA: bytes, fileB: bytes, errA: Option<Error>, errB: Option<Error>)
    requires Flatten(a) == Flatten(b) && !o.CompressOn()
    ensures errA == None <==> errB == None
    ensures errA == None ==> fileA == fileB
  {
    hide *;
    var outA := new Output((i: nat) => false);
    var outB := new Output((i: nat) => false);
    AlwaysReliable(outA);
    errA := W.Encrypt(S, a, outA, o, rand);
    AlwaysReliable(outB);
    errB := W.Encrypt(S, b, outB, o, rand);
    fileA, fileB := outA.data, outB.data;
    if errA == None {
      SplitsAgree(S, o, rand, a, b);
    }
  }

  lemma SplitsAgree(S: Suite, o: EncryptOptions, rand: bytes, a: seq<bytes>, b: seq<bytes>)
    requires W.Startable(S, o, rand) && Flatten(a) == Flatten(b) && !o.CompressOn()
    ensures W.StreamOf(S, o, rand, a) == W.StreamOf(S, o, rand, b)
  {
  }

  lemma AlwaysReliable(out: Output)
    requires forall i: nat :: !out.fails(i)
    ensures out.Reliable()
  {
  }
}
