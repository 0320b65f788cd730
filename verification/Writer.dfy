/** The streaming Writer: a stateful object whose finished output is one
    function of its options, its randomness and what was written. */
module Writer {
  import opened Bytes
  import opened TextCodecs
  import opened Primitives
  import opened Wire
  import opened Streams
  import opened Encoder
  import opened Metadata
  import opened Envelope
  import opened Dicts
  import opened EncryptPipe
  import Cbc
  import Pkcs7

  // -- The stream a run produces --

  /** The bytes that reach the cipher. */
  function Payload(S: Suite, compress: bool, writes: seq<bytes>): bytes {
    if compress then S.LzFrame(writes) else Flatten(writes)
  }

  function Ciphertext(S: Suite, k: CipherKey, payload: bytes): (r: bytes)
    requires k.Valid()
    ensures |r| % BLOCK == 0 && |r| >= BLOCK
  {
    Cbc.Encrypt(S, k.key, k.iv, Pkcs7.Pad(payload))
  }

  function Trailer(S: Suite, plain: bytes): bytes {
    Enc(FinalValue(HexEncode(S.md5(plain))))
  }

  /** What start fixes for the rest of a run: the header and the cipher. */
  datatype Plan = Plan(header: bytes, cipher: CipherKey)

  /** The plan of a run, unless the header cannot be prepared or printed. */
  function PlanOf(S: Suite, o: EncryptOptions, rand: bytes): (r: Option<Plan>)
    ensures r.Some? ==> r.value.cipher.Valid()
  {
    match Prepare(S, o, rand)
    case Err(_) => None
    case Ok(p) =>
      if Fits(p.leading) then Some(Plan(Magic(S) + Enc(LeadingValue(p.leading)), DataKey(S, p.session))) else None
  }

  predicate Startable(S: Suite, o: EncryptOptions, rand: bytes) {
    PlanOf(S, o, rand).Some?
  }

  function StreamFrom(S: Suite, plan: Plan, compress: bool, writes: seq<bytes>): bytes
    requires plan.cipher.Valid()
  {
    plan.header
    + DataSection(Chunks(Ciphertext(S, plan.cipher, Payload(S, compress, writes))))
    + Trailer(S, Flatten(writes))
  }

  /** The finished stream.  Without compression it depends on the writes only
      through their concatenation. */
  function StreamOf(S: Suite, o: EncryptOptions, rand: bytes, writes: seq<bytes>): bytes
    requires Startable(S, o, rand)
  {
    StreamFrom(S, PlanOf(S, o, rand).value, o.CompressOn(), writes)
  }

  /** The stages of one pipeline, wired to each other. */
  method MakeStages(S: Suite, out: Output, k: CipherKey, compress: bool)
    returns (sink: PendingSink, aes: AesFeeder, lzW: LzWriter?)
    requires k.Valid()
    ensures fresh(sink) && fresh(aes) && (lzW != null ==> fresh(lzW))
    ensures sink.out == out && sink.base == out.data
    ensures aes.S == S && aes.sink == sink && CipherKey(aes.key, aes.iv0) == k && aes.Valid() && aes.consumed == []
    ensures compress <==> lzW != null
    ensures lzW != null ==> lzW.S == S && lzW.dst == aes && lzW.Valid() && lzW.writes == []
  {
    hide Family.Lawful, PendingSink.Valid, AesFeeder.Valid, LzWriter.Valid;
    sink := new PendingSink(out);
    aes := new AesFeeder(S, k.key, k.iv, sink);
    lzW := null;
    if compress {
      lzW := new LzWriter(S, aes);
    }
  }

  lemma DigestLength(S: Suite, b: bytes)
    ensures |HexEncode(S.md5(b))| == 32
  {
    assert |S.md5(b)| == 16;
  }

  // -- The object --

  class Writer {
    const S: Suite
    const out: Output
    const opts: EncryptOptions
    const md5: Hasher
    var rand: bytes
    var lzW: LzWriter?
    var aes: AesFeeder?
    var sink: PendingSink?
    var started: bool
    var closed: bool
    var failed: Option<Error>

    ghost const rand0: bytes
    ghost const plan: Option<Plan>
    ghost const base: bytes
    ghost var writes: seq<bytes>
    // has the output refused part of a slice?
    ghost var damaged: bool

    constructor (S: Suite, out: Output, opts: EncryptOptions, rand: bytes)
      ensures this.S == S && this.out == out && this.opts == opts && rand0 == rand && base == out.data
      ensures plan == PlanOf(S, opts, rand)
      ensures writes == [] && !started && !closed && failed == None && !damaged && fresh(Parts()) && Valid()
    {
      this.S, this.out, this.opts, this.rand, rand0 := S, out, opts, rand, rand;
      md5 := new Hasher();
      base, writes, plan, damaged := out.data, [], PlanOf(S, opts, rand), false;
      lzW, aes, sink, started, closed, failed := null, null, null, false, false, None;
    }

    /** The stages made by start. */
    ghost function Stages(): set<object>
      reads `lzW, `aes, `sink
    {
      (if lzW == null then {} else {lzW}) + (if aes == null then {} else {aes}) + (if sink == null then {} else {sink})
    }

    /** Everything that belongs to this writer and that nobody else holds. */
    ghost function Parts(): set<object>
      reads `lzW, `aes, `sink
    {
      Stages() + {md5}
    }

    ghost predicate Running()
      reads this
    {
      started && !closed && failed == None
    }

    ghost predicate Wired()
      reads `lzW, `aes, `sink
    {
      && aes != null && sink != null
      && aes.S == S && aes.sink == sink && sink.out == out
      && (opts.CompressOn() <==> lzW != null)
      && (lzW != null ==> lzW.S == S && lzW.dst == aes)
    }

    ghost predicate Valid()
      reads this, Parts(), out
    {
      && (!started ==> rand == rand0 && writes == [] && lzW == null && aes == null && sink == null)
      && (!started && failed == None ==> out.data == base && md5.seen == [])
      && plan == PlanOf(S, opts, rand0)
      && (started ==> plan.Some? || failed.Some?)
      && (damaged ==> started && !out.Reliable())
      && (Running() ==> if damaged then Limping() else Flowing())
    }

    /** After a refused slice, without compression: the stages go on, with more in
        them than was written. */
    ghost predicate Limping()
      reads this, Parts(), out
    {
      && Wired()
      && plan.Some?
      && sink.base == base + plan.value.header
      && CipherKey(aes.key, aes.iv0) == plan.value.cipher
      && md5.seen == Flatten(writes)
      && lzW == null
      && aes.Sane() && |aes.consumed| >= |Flatten(writes)| + BLOCK
    }

    /** The pipeline carries exactly what was written so far. */
    ghost predicate Flowing()
      reads this, Parts(), out
    {
      && Wired()
      && plan.Some?
      && sink.base == base + plan.value.header
      && CipherKey(aes.key, aes.iv0) == plan.value.cipher
      && md5.seen == Flatten(writes)
      && Fed(writes)
    }

    /** The stages have taken in exactly these slices. */
    ghost predicate Fed(slices: seq<bytes>)
      requires Wired()
      reads `lzW, `aes, `sink, Stages(), out
    {
      && aes.Valid()
      && (lzW != null ==> lzW.Valid() && lzW.writes == slices)
      && (lzW == null ==> aes.consumed == Flatten(slices))
    }

    method ReadRandom(n: nat) returns (r: Result<bytes>)
      modifies `rand
      ensures match Draw(old(rand), n)
              case Ok(d) => r == Ok(d.0) && rand == d.1
              case Err(e) => r == Err(e) && rand == old(rand)
    {
      if n > |rand| {
        return Err(RandomShort);
      }
      r := Ok(rand[..n]);
      rand := rand[n..];
    }

    method RandomDigest(secret: bytes) returns (r: Result<bytes>)
      modifies `rand
      ensures match DrawDigest(S, secret, old(rand))
              case Ok(d) => r == Ok(d.0) && rand == d.1
              case Err(e) => r == Err(e)
    {
      var raw :- ReadRandom(5);
      r := Ok(SaltedDigest(S, HexEncode(raw), secret));
    }

    /** The header's contents, drawing randomness in the order of the code. */
    method PrepareHeader() returns (r: Result<Prepared>)
      modifies `rand
      ensures r == Prepare(S, opts, old(rand))
    {
      var major := opts.Major();
      var session :- ReadRandom(32);
      var onWire := if major >= 3 then HexEncode(session) else session;
      var salt: bytes := [];
      if major >= 3 {
        var raw :- ReadRandom(8);
        salt := Alnum(raw);
      }
      var encKey1, encKey2, key1Hash: bytes := [], [], [];
      if |opts.password| > 0 {
        var k := DeriveKey(S, opts.password, salt, if |salt| > 0 then 1000 else 1);
        var padded := Pkcs7.PadCopy(onWire);
        encKey1 := Cbc.Encrypt(S, k.key, k.iv, padded);
      }
      if opts.publicKey.Some? {
        var seed :- ReadRandom(20);
        var ct := S.oaepEncrypt(opts.publicKey.value, seed, onWire);
        if ct == None {
          return Err(OaepRefused);
        }
        encKey2 := ct.value;
      }
      if |opts.password| > 0 {
        key1Hash :- RandomDigest(opts.password);
      }
      var sessKeyHash :- RandomDigest(onWire);
      r := Ok(Prepared(
                Leading(major, opts.Minor(), salt, encKey1, encKey2, key1Hash, sessKeyHash,
                        if opts.CompressOn() then 1 else 0, 1, opts.filename),
                session, rand));
    }

    /** Everything of start that precedes the wiring of the pipeline. */
    method EmitHeader() returns (r: Result<CipherKey>)
      requires plan == PlanOf(S, opts, rand)
      modifies `rand, out
      ensures r.Ok? ==> plan.Some? && r.value == plan.value.cipher && out.data == old(out.data) + plan.value.header
      ensures out.Reliable() ==> (r.Ok? <==> plan.Some?)
    {
      hide Family.Lawful, Prepare, Fits, LeadingValue, LeadingOps, Run, AllPieces, Enc, Magic, Kdf.Material;
      var p :- PrepareHeader();
      var e := WriteMagic(S, out);
      if e.Some? {
        return Err(Encoding(e.value));
      }
      e := WriteLeadingMetadata(out, p.leading);
      if e.Some? {
        return Err(Encoding(e.value));
      }
      var k := DeriveKey(S, p.session, [], 1);
      r := Ok(k);
    }

    method WireUp(k: CipherKey)
      requires started && plan.Some? && k == plan.value.cipher && k.Valid()
      requires lzW == null && aes == null && sink == null && writes == [] && md5.seen == []
      requires out.data == base + plan.value.header
      modifies `lzW, `aes, `sink
      ensures Flowing() && fresh(Stages())
    {
      hide Family.Lawful, PlanOf, PendingSink.Valid, AesFeeder.Valid, LzWriter.Valid, Startable;
      sink, aes, lzW := MakeStages(S, out, k, opts.CompressOn());
    }

    method Start() returns (err: Option<Error>)
      requires Valid() && !started && !closed && failed == None
      modifies this, out
      ensures started && closed == old(closed) && failed == old(failed) && writes == old(writes)
      ensures damaged == old(damaged)
      ensures err == None ==> Valid() && fresh(Stages())
      ensures out.Reliable() ==> (err == None <==> plan.Some?)
    {
      hide Family.Lawful, PlanOf, Flowing, Startable;
      started := true;
      var r := EmitHeader();
      if r.Err? {
        return Some(r.error);
      }
      WireUp(r.value);
      err := None;
    }

    /** Write.  A writer that is closed or failed to start says so and stays as
        it is; otherwise the slice is added to the run.  If the output refuses part
        of it, the run is damaged, and the writer does not take note of that. */
    method Write(p: bytes) returns (err: Option<Error>)
      requires Valid()
      modifies this, Parts(), out
      ensures closed == old(closed)
      ensures old(closed) ==> err == Some(ClosedWriter) && out.data == old(out.data)
      ensures old(closed) || old(failed).Some?
              ==> Valid() && writes == old(writes) && failed == old(failed) && started == old(started)
      ensures !old(closed) && old(failed).Some? ==> err == old(failed) && out.data == old(out.data)
      ensures err == None
              ==> Valid() && Running() && writes == old(writes) + [p] && fresh(Parts() - old(Parts()))
                  && damaged == old(damaged)
      ensures failed.Some? ==> Valid() && err.Some?
      ensures err.Some? && Running()
              ==> damaged && writes == old(writes) + [p] && fresh(Parts() - old(Parts()))
                  && (!opts.CompressOn() ==> Valid())
      ensures old(Running()) ==> Running() && Parts() == old(Parts())
      ensures old(Running()) && !opts.CompressOn() && |p| >= CHUNK && out.fails(old(out.calls))
              ==> err.Some? && out.calls > old(out.calls)
      ensures out.Reliable() && !old(closed) && old(failed) == None ==> (err == None <==> Startable(S, opts, rand0))
    {
      hide Family.Lawful, PlanOf, Flowing;
      if closed {
        return Some(ClosedWriter);
      }
      if failed.Some? {
        return failed;
      }
      if !started {
        err := Start();
        if err.Some? {
          failed := err;
          return;
        }
      }
      err := Push(p);
    }

    /** The slice on its way into the first stage. */
    method Forward(p: bytes, ghost slices: seq<bytes>) returns (ok: bool)
      requires Wired() && (if lzW == null then aes.Sane() else Fed(slices))
      modifies Stages(), out
      ensures ok && old(Fed(slices)) ==> Fed(slices + [p])
      ensures lzW == null
              ==> aes.Sane() && if ok then aes.consumed == old(aes.consumed) + p
                                else |aes.consumed| >= |old(aes.consumed)| + |p| + BLOCK
      ensures out.Reliable() ==> ok
      ensures lzW == null && |p| >= CHUNK && out.fails(old(out.calls)) ==> !ok && out.calls > old(out.calls)
    {
      hide Family.Lawful, PlanOf, Flatten, AesFeeder.Valid, AesFeeder.Sane, Startable, Family.LzBody;
      FlattenSnoc(slices, p);
      if lzW != null {
        ok := lzW.Write(p);
      } else {
        ok := aes.Write(p);
      }
    }

    method Push(p: bytes) returns (err: Option<Error>)
      requires Running() && if damaged then Limping() && !out.Reliable() else Flowing()
      requires damaged ==> !opts.CompressOn()
      modifies `writes, `damaged, Parts(), out
      ensures writes == old(writes) + [p]
      ensures err == None ==> damaged == old(damaged) && if damaged then Limping() else Flowing()
      ensures err.Some? ==> damaged && !out.Reliable() && (!opts.CompressOn() ==> Limping())
      ensures !opts.CompressOn() && |p| >= CHUNK && out.fails(old(out.calls))
              ==> err.Some? && out.calls > old(out.calls)
    {
      hide Family.Lawful, PlanOf, Flatten, Startable, AesFeeder.Sane, AesFeeder.Valid;
      FlattenSnoc(writes, p);
      md5.Write(p);
      var ok := Forward(p, writes);
      writes := writes + [p];
      damaged := damaged || !ok;
      err := if ok then None else Some(SinkRefused);
    }

    /** Close.  The first one completes the stream; later ones only repeat its
        result. */
    method Close() returns (err: Option<Error>)
      requires Valid()
      modifies this, Parts(), out
      ensures closed && Valid()
      ensures old(closed) ==> err == old(failed) && out.data == old(out.data)
      ensures !old(closed) && old(failed).Some? ==> err == old(failed) && out.data == old(out.data)
      ensures err == failed
      ensures !old(closed) && err == None
              ==> Startable(S, opts, rand0)
                  && (!damaged ==> out.data == base + StreamOf(S, opts, rand0, writes))
                  && (damaged ==> |out.data| > |base + StreamOf(S, opts, rand0, writes)|)
      ensures writes == old(writes) && damaged == old(damaged)
      ensures old(Running()) && !opts.CompressOn() && out.SteadyFrom(old(out.calls)) ==> err == None
      ensures out.Reliable() && !old(closed) && old(failed) == None ==> (err == None <==> Startable(S, opts, rand0))
    {
      hide Family.Lawful, PlanOf, StreamFrom, Flowing;
      if closed {
        return failed;
      }
      if failed.Some? {
        closed := true;
        return failed;
      }
      if !started {
        err := Start();
        if err.Some? {
          closed := true;
          failed := err;
          return;
        }
      }
      err := Complete();
      closed := true;
      failed := err;
    }

    /** The rest of Close.  In a damaged run what has been sent twice is in the
        stream, which is too long for it. */
    method Complete() returns (err: Option<Error>)
      requires plan == PlanOf(S, opts, rand0)
      requires Running() && if damaged then Limping() else Flowing()
      modifies Stages(), out
      ensures err == None
              ==> Startable(S, opts, rand0)
                  && (!damaged ==> out.data == base + StreamOf(S, opts, rand0, writes))
                  && (damaged ==> |out.data| > |base + StreamOf(S, opts, rand0, writes)|)
      ensures !opts.CompressOn() && out.SteadyFrom(old(out.calls)) ==> err == None
      ensures out.Reliable() ==> err == None
    {
      hide Family.Lawful, PlanOf, Flatten, FinalValue, Pkcs7.Pad, Family.LzFrame, PendingSink.Valid, PendingSink.Sane,
           AesFeeder.Sane, LzWriter.Valid, Enc, HexEncode, Chunks, DataSection, Cbc.Encrypt, Cbc.Chain,
           Startable;
      if lzW != null {
        var ok := lzW.Close();
        if !ok {
          return Some(SinkRefused);
        }
      }
      ghost var sent, k := aes.consumed, plan.value.cipher;
      assert !damaged ==> sent == Payload(S, opts.CompressOn(), writes);
      var ok := aes.Finish();
      if !ok {
        return Some(SinkRefused);
      }
      assert sink.Received() == Ciphertext(S, k, sent);
      ok := sink.Flush();
      if !ok {
        return Some(SinkRefused);
      }
      DigestLength(S, md5.seen);
      var sum := md5.Sum(S);
      var e := WriteFinalMetadata(out, HexEncode(sum));
      if e.Some? {
        return Some(Encoding(e.value));
      }
      err := None;
      StreamJoined(S, opts, rand0, plan.value, writes, base);
      if damaged {
        LongerSection(S, k, sent, Flatten(writes));
      }
    }
  }

  lemma StreamJoined(S: Suite, o: EncryptOptions, rand: bytes, plan: Plan, writes: seq<bytes>, base: bytes)
    requires PlanOf(S, o, rand) == Some(plan)
    ensures Startable(S, o, rand)
    ensures var section := DataSection(Chunks(Ciphertext(S, plan.cipher, Payload(S, o.CompressOn(), writes))));
            (base + plan.header) + section + Trailer(S, Flatten(writes)) == base + StreamOf(S, o, rand, writes)
  {
    hide PlanOf, Ciphertext, Payload, Trailer, Chunks, DataSection, Family.Lawful;
    var section := DataSection(Chunks(Ciphertext(S, plan.cipher, Payload(S, o.CompressOn(), writes))));
    var t := Trailer(S, Flatten(writes));
    assert (base + plan.header) + section + t == base + (plan.header + section + t);
  }

  lemma LongerSection(S: Suite, k: CipherKey, x: bytes, y: bytes)
    requires k.Valid() && |x| >= |y| + BLOCK
    ensures |DataSection(Chunks(Ciphertext(S, k, x)))| > |DataSection(Chunks(Ciphertext(S, k, y)))|
  {
    hide Family.Lawful, DataSection, Chunks, Cbc.Encrypt;
    ChunksShape(Ciphertext(S, k, x));
    ChunksShape(Ciphertext(S, k, y));
    assert |Ciphertext(S, k, x)| == |Pkcs7.Pad(x)| > |Pkcs7.Pad(y)| == |Ciphertext(S, k, y)|;
  }

  /** An output that refuses one call in the middle: Write reports it, Close returns
      no error, and the stream is not the one that was to be written. */
  method CloseAfterRefusal(w: Writer, p: bytes) returns (written: Option<Error>, closed: Option<Error>)
    requires w.Valid() && w.Running() && !w.opts.CompressOn() && |p| >= CHUNK
    requires w.out.fails(w.out.calls) && w.out.SteadyFrom(w.out.calls + 1)
    modifies w, w.Parts(), w.out
    ensures written.Some? && closed == None
    ensures Startable(w.S, w.opts, w.rand0) && w.out.data != w.base + StreamOf(w.S, w.opts, w.rand0, w.writes)
  {
    hide Family.Lawful, PlanOf, StreamOf, Startable, Writer.Valid;
    written := w.Write(p);
    closed := w.Close();
  }

  /** NewWriter. */
  method NewWriter(S: Suite, out: Output, opts: EncryptOptions, rand: bytes) returns (w: Writer?, err: Option<Error>)
    ensures err == None <==>
            && (opts.password != [] || opts.publicKey.Some?)
            && (opts.majorOpt == 0 || opts.majorOpt == 1 || opts.majorOpt == 3)
    ensures opts.password == [] && opts.publicKey == None ==> err == Some(NoCredential)
    ensures err.Some? && (opts.password != [] || opts.publicKey.Some?) ==> err == Some(BadMajor)
    ensures err == None <==> opts.Acceptable()
    ensures err == None <==> w != null
    ensures w != null ==> fresh(w) && w.Valid() && w.S == S && w.out == out && w.opts == opts && w.rand0 == rand
                          && w.base == out.data && w.writes == [] && !w.damaged && fresh(w.Parts()) && !w.closed
                          && w.failed == None
  {
    if |opts.password| == 0 && opts.publicKey == None {
      return null, Some(NoCredential);
    }
    if opts.Major() != 1 && opts.Major() != 3 {
      return null, Some(BadMajor);
    }
    w := new Writer(S, out, opts, rand);
    err := None;
  }

  /** Encrypt: copy slices into a fresh Writer and close it.  `out` ends up with
      the whole stream, and over an output that takes everything the only ways
      to fail are unacceptable options and a header that cannot be started. */
  method Encrypt(S: Suite, slices: seq<bytes>, out: Output, opts: EncryptOptions, rand: bytes)
    returns (err: Option<Error>)
    modifies out
    ensures err == None ==> Startable(S, opts, rand) && out.data == old(out.data) + StreamOf(S, opts, rand, slices)
    ensures err == None ==> opts.Acceptable()
    ensures out.Reliable() ==> (err == None <==> opts.Acceptable() && Startable(S, opts, rand))
  {
    hide Family.Lawful, PlanOf, StreamOf, Startable, Writer.Valid, EncryptOptions.Acceptable, EncryptOptions.Major;
    var w;
    w, err := NewWriter(S, out, opts, rand);
    if err.Some? {
      return;
    }
    err := Copy(w, slices);
    if err.Some? {
      return;
    }
    err := w.Close();
  }

  /** io.Copy of the slices into a new writer; it stops at the first error. */
  method Copy(w: Writer, slices: seq<bytes>) returns (err: Option<Error>)
    requires w.Valid() && !w.closed && w.failed == None && !w.damaged && w.writes == []
    modifies w, w.Parts(), w.out
    ensures err == None
            ==> w.Valid() && !w.closed && w.failed == None && !w.damaged && w.writes == slices
                && fresh(w.Parts() - old(w.Parts()))
    ensures w.out.Reliable() && Startable(w.S, w.opts, w.rand0) ==> err == None
    ensures w.out.Reliable() && err.Some? ==> !Startable(w.S, w.opts, w.rand0)
  {
    hide Family.Lawful, PlanOf, StreamOf, Startable, Writer.Valid;
    err := None;
    var i := 0;
    while i < |slices|
      invariant 0 <= i <= |slices|
      invariant w.Valid() && !w.closed && w.failed == None && !w.damaged && fresh(w.Parts() - old(w.Parts()))
      invariant w.writes == slices[..i]
    {
      err := w.Write(slices[i]);
      if err.Some? {
        return;
      }
      assert slices[..i + 1] == slices[..i] + [slices[i]];
      i := i + 1;
    }
    assert slices[..i] == slices;
    err := None;
  }
}
