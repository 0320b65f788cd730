/** The streaming code: Inspect, the payload pipe with its one chunk of
    lookahead, and the main loop. */
module Decrypt {
  import opened Bytes
  import opened TextCodecs
  import opened Primitives
  import opened Wire
  import opened Streams
  import opened WireReader
  import opened Metadata
  import opened Envelope
  import opened Meaning
  import opened Exits
  import Cbc
  import Pkcs7
  import N = Names

  method ConsumeMagic(S: Suite, r: Source) returns (err: Option<Error>)
    modifies r
    ensures match AfterMagic(S, old(r.rest))
            case Ok(body) => err == None && r.rest == body
            case Err(e) => err == Some(e)
  {
    var head, e := r.ReadFull(|N.FILE_MAGIC|);
    if e.Some? {
      return Some(MagicUnread(e.value));
    }
    if head != N.FILE_MAGIC {
      return Some(BadMagic);
    }
    var tail;
    tail, e := r.ReadFull(32);
    if e.Some? {
      return Some(MagicUnread(e.value));
    }
    if HexEncode(S.md5(N.FILE_MAGIC)) != tail {
      return Some(BadMagicChecksum);
    }
    err := None;
  }

  method Inspect(S: Suite, r: Source) returns (res: Result<Meta>)
    modifies r
    ensures res == Inspected(S, old(r.rest))
  {
    hide KindOf, AbsorbAll, Family.Lawful;
    var err := ConsumeMagic(S, r);
    if err.Some? {
      return Err(err.value);
    }
    var sr := new StreamReader(r);
    var meta := new Record();
    while true
      invariant fresh(meta)
      invariant Inspected(S, old(r.rest)) == InspectFrom(r.rest, meta.View())
      decreases |r.rest|
    {
      var obj, e := sr.Next();
      if e.Some? {
        return Err(Stream(e.value));
      }
      if obj == None {
        return Ok(meta.View());
      }
      match KindOf(obj.value) {
        case Mistake(why) =>
          return Err(why);
        case DataDict(_) =>
          return Ok(meta.View());
        case MetaDict(ms) =>
          err := meta.AbsorbMembers(ms);
          if err.Some? {
            return Err(err.value);
          }
      }
    }
  }

  // -- The payload pipe --

  class DecryptPipe {
    const S: Suite
    const k: CipherKey
    const compressed: bool
    const out: Output
    const md5: Hasher
    // the chaining value the CBC decrypter keeps between calls
    var iv: bytes
    // the last chunk's plaintext, held back until it is known not to be the tail
    var pending: Option<bytes>
    // the LZ4 worker, when there is one: what it has taken, and whether the
    // output has refused it a write
    var taken: bytes
    var dead: bool
    // how often doneCh has been received from
    var received: nat
    ghost const base: bytes
    ghost var chunks: seq<bytes>

    constructor (S: Suite, session: bytes, out: Output, md5: Hasher, compressed: bool)
      requires md5.seen == []
      ensures this.S == S && k == DataKey(S, session) && this.compressed == compressed
      ensures this.out == out && this.md5 == md5 && base == out.data && chunks == []
      ensures Valid() && Released() == []
    {
      hide Family.Lawful;
      var k := DeriveKey(S, session, [], 1);
      this.S, this.k, this.compressed, this.out, this.md5 := S, k, compressed, out, md5;
      iv, pending, taken, dead, received := k.iv, None, [], false, 0;
      base, chunks := out.data, [];
    }

    ghost function Plain(): bytes
      requires k.Valid() && Payloads(chunks)
      reads this
    {
      PlainOf(S, k, chunks)
    }

    /** What has left the pipe for the worker or the sink. */
    ghost function Released(): bytes
      reads this, md5
    {
      if compressed then taken else md5.seen
    }

    /** Output and hash hold the same, which on the compressed path is some of
        what the LZ4 reader makes of what the worker has taken. */
    ghost predicate Sunk()
      reads this, out, md5
    {
      && out.data == base + md5.seen
      && (compressed ==> md5.seen <= S.lzOutput(taken))
      && (dead ==> !out.Reliable())
    }

    /** And nothing has left the pipe but plaintext of the chunks. */
    ghost predicate Sound()
      reads this, out, md5
    {
      Sunk() && k.Valid() && Payloads(chunks) && Released() <= Plain()
    }

    /** Everything but the last chunk's plaintext has left the pipe, and that is
        pending. */
    ghost predicate Valid()
      reads this, out, md5
    {
      && Sunk()
      && !dead
      && k.Valid()
      && Payloads(chunks)
      && Cbc.Aligned(Flatten(chunks))
      && iv == Cbc.Chain(k.iv, Flatten(chunks))
      && (pending == None <==> chunks == [])
      && (pending == None ==> Released() == [])
      && (pending.Some? ==> IsPayload(pending.value) && |pending.value| == |chunks[|chunks| - 1]|
                            && Plain() == Released() + pending.value)
      && received == 0
    }

    /** The pending plaintext is what the script of calls holds back. */
    lemma PendingIsHeldBack()
      requires Valid() && chunks != []
      ensures pending == Some(HeldBack(S, k, chunks))
    {
      hide Family.Lawful, Cbc.Decrypt;
      LastFits(chunks);
      assert Plain()[|Released()|..] == pending.value;
    }

    lemma ValidIsSound()
      requires Valid()
      ensures Sound()
    {
      hide Family.Lawful, PlainOf;
      if chunks == [] {
        NothingHeld(S, k);
      }
    }

    /** The worker at work between two steps of Decrypt: it writes some of the
        output that it has, or all of it, in any pieces, until a write is refused. */
    method WorkerRuns(all: bool)
      requires compressed && Sunk()
      modifies out, md5, `dead
      ensures Sunk() && (old(dead) ==> dead)
      ensures all && !dead ==> md5.seen == S.lzOutput(taken)
    {
      hide Family.Lawful, Output.Reliable;
      while !dead && |md5.seen| < |S.lzOutput(taken)|
        invariant Sunk() && (old(dead) ==> dead)
        decreases |S.lzOutput(taken)| - |md5.seen|, if dead then 0 else 1
      {
        var left := |S.lzOutput(taken)| - |md5.seen|;
        var n: nat :| n <= left;
        if n == 0 {
          if !all {
            return;
          }
          n := left;
        }
        Emit(n);
      }
    }

    /** One write of the worker to output and hash. */
    method Emit(n: nat)
      requires compressed && Sunk() && !dead && |md5.seen| + n <= |S.lzOutput(taken)|
      modifies out, md5, `dead
      ensures Sunk() && |md5.seen| == |old(md5.seen)| + (if dead then 0 else n)
    {
      hide Family.Lawful;
      var piece := S.lzOutput(taken)[|md5.seen|..|md5.seen| + n];
      assert md5.seen + piece == S.lzOutput(taken)[..|md5.seen| + n];
      assert (base + md5.seen) + piece == base + (md5.seen + piece);
      var ok := out.Write(piece);
      if ok {
        md5.Write(piece);
      } else {
        dead := true;
      }
    }

    /** One write to the sink in use.  The worker takes a write bit by bit, and may
        write output meanwhile. */
    method WriteSink(b: bytes) returns (ok: bool)
      requires Sunk()
      modifies out, md5, `taken, `dead
      ensures Sunk() && old(Released()) <= Released() <= old(Released()) + b
      ensures ok ==> Released() == old(Released()) + b && (compressed ==> !dead && !S.Refuses(old(taken), b))
      ensures out.Reliable() && !old(dead) ==> (ok <==> compressed ==> !S.Refuses(old(taken), b))
      ensures !compressed ==> dead == old(dead)
    {
      hide Family.Lawful, Family.Refuses;
      if !compressed {
        ok := out.Write(b);
        if ok {
          md5.Write(b);
        }
        return;
      }
      WorkerRuns(false);
      if dead {
        return false;
      }
      var whole := !S.Refuses(taken, b);
      var n: nat :| n <= |b|;
      assert b == b[..n] + b[n..];
      MoreOutput(S, taken, b[..n]);
      taken := taken + b[..n];
      WorkerRuns(false);
      if dead || !whole {
        return false;
      }
      MoreOutput(S, taken, b[n..]);
      assert old(taken) + b == taken + b[n..];
      taken := taken + b[n..];
      ok := true;
    }

    method Feed(ct: bytes) returns (err: Option<Error>)
      requires Valid()
      modifies this, out, md5
      ensures !IsPayload(ct) ==> err == Some(DataUnaligned)
      ensures err == None ==> Valid() && chunks == old(chunks) + [ct] && Released() == old(Plain())
      ensures err.Some? ==> Sound() && chunks == old(chunks)
      ensures IsPayload(ct) && err == None && compressed && old(pending).Some?
              ==> !S.Refuses(old(Released()), old(pending).value)
      ensures IsPayload(ct) && out.Reliable()
              ==> (err.Some? <==> compressed && old(pending).Some? && S.Refuses(old(Released()), old(pending).value))
      ensures IsPayload(ct) && err.Some? ==> err == Some(SinkRefused)
      ensures received == old(received)
    {
      hide Family.Lawful, Cbc.Decrypt, Cbc.Chain, Family.Refuses;
      ValidIsSound();
      if |ct| == 0 || |ct| % BLOCK != 0 {
        return Some(DataUnaligned);
      }
      var plain := Cbc.Decrypt(S, k.key, iv, ct);
      Cbc.DecryptAppend(S, k.key, k.iv, Flatten(chunks), ct);
      Cbc.ChainAppend(k.iv, Flatten(chunks), ct);
      FlattenSnoc(chunks, ct);
      iv := Cbc.Chain(iv, ct);
      ghost var before := Plain();
      if pending.Some? {
        var ok := WriteSink(pending.value);
        if !ok {
          return Some(SinkRefused);
        }
      } else {
        NothingHeld(S, k);
      }
      pending := Some(plain);
      chunks := chunks + [ct];
      assert Released() == before;
      err := None;
    }

    /** abort: with a worker, it closes the pipe and receives the report. */
    method Abort()
      requires Sound()
      modifies out, md5, `dead, `received
      ensures Sound()
      ensures received == old(received) + (if compressed then 1 else 0)
    {
      hide Family.Lawful, PlainOf;
      if compressed {
        WorkerRuns(false);
        received := received + 1;
      }
    }

    /** Receiving the report of a worker whose input has ended: it has written all
        that it could, unless its input was incomplete. */
    method AwaitWorker() returns (err: Option<Error>)
      requires compressed && Sunk()
      modifies out, md5, `dead, `received
      ensures received == old(received) + 1 && Sunk()
      ensures err == None ==> S.LzRead(taken) == LzOk(md5.seen)
      ensures out.Reliable() ==> err == if S.LzRead(taken).LzOk? then None else Some(LzFailed)
    {
      hide Family.Lawful;
      WorkerRuns(S.lzComplete(taken));
      received := received + 1;
      err := if dead then Some(SinkRefused) else if !S.lzComplete(taken) then Some(LzFailed) else None;
    }

    /** finish.  With a worker, every way out of it receives the report once;
        without one, success drains the channel that was filled beforehand. */
    method Finish() returns (err: Option<Error>)
      requires Valid() && chunks != []
      modifies this, out, md5
      ensures Sound() && chunks == old(chunks)
      ensures err == None
              ==> var d := Decoded(S, k, compressed, old(Flatten(chunks)));
                  d.Some? && out.data == base + d.value && md5.seen == d.value
      ensures err == None && compressed ==> AllTaken(S, old(Released()), EndCalls(S, k, old(chunks)))
      ensures out.Reliable()
              ==> (err == None <==>
                   && Decoded(S, k, compressed, old(Flatten(chunks))).Some?
                   && (compressed ==> AllTaken(S, old(Released()), EndCalls(S, k, old(chunks)))))
      ensures out.Reliable() ==> err == CallsError(S, compressed, old(Released()), EndCalls(S, k, old(chunks)))
      ensures received == if compressed || err == None then 1 else 0
    {
      hide Family.Lawful, Cbc.Decrypt, Pkcs7.Unpadded, Family.Refuses, HeldBack;
      ValidIsSound();
      PendingIsHeldBack();
      PlainIs(S, k, chunks);
      TailDecides(Plain(), Released(), pending.value);
      var tail := Pkcs7.Unpad(pending.value);
      if tail == None {
        Abort();
        return Some(FinalPadding);
      }
      UnpaddedIsPrefix(pending.value);
      ghost var x := Released() + tail.value;
      assert x <= Plain();
      var ok := WriteSink(tail.value);
      if !ok {
        if compressed {
          WorkerRuns(false);
          received := received + 1;
        }
        return Some(SinkRefused);
      }
      if compressed {
        err := AwaitWorker();
        return;
      }
      received := received + 1;
      err := None;
    }
  }

  lemma MoreOutput(S: Suite, x: bytes, y: bytes)
    ensures S.lzOutput(x) <= S.lzOutput(x + y)
  {
  }

  lemma UnpaddedIsPrefix(buf: bytes)
    ensures match Pkcs7.Unpadded(buf) case None => true case Some(x) => x <= buf
  {
  }

  /** Unpadding the held-back chunk is unpadding the whole plaintext. */
  lemma TailDecides(plain: bytes, released: bytes, pending: bytes)
    requires plain == released + pending && |plain| % BLOCK == 0 && IsPayload(pending)
    ensures Pkcs7.Unpadded(plain)
         == match Pkcs7.Unpadded(pending) case None => None case Some(x) => Some(released + x)
  {
    assert |released| % BLOCK == 0;
    Pkcs7.UnpadSuffix(released, pending);
  }

  // -- Decrypt --

  /** What the metadata hook was given, and how much had been written by then. */
  datatype Snapshot = Snapshot(meta: Meta, written: nat)

  class Observer {
    var seen: seq<Snapshot>

    constructor ()
      ensures seen == []
    {
      seen := [];
    }

    method OnMetadata(s: Snapshot)
      modifies this
      ensures seen == old(seen) + [s]
    {
      seen := seen + [s];
    }
  }

  /** Everything that happens at the first data dict before its payload is
      looked at: the mode check, the hook, the key and the pipe. */
  method OpenPipe(S: Suite, opt: Options, m: Meta, out: Output, md5: Hasher, hook: Observer)
    returns (pipe: DecryptPipe?, err: Option<Error>)
    requires md5.seen == []
    modifies hook
    ensures hook.seen == old(hook.seen) + (if CheckModes(m).Some? then [] else [Snapshot(m, |out.data|)])
    ensures pipe == null <==> CheckModes(m).Some? || Recover(S, opt, m).Err?
    ensures pipe == null <==> err.Some?
    ensures CheckModes(m).Some? ==> err == CheckModes(m)
    ensures CheckModes(m) == None && Recover(S, opt, m).Err? ==> err == Some(Recover(S, opt, m).error)
    ensures pipe != null
            ==> fresh(pipe) && pipe.S == S && pipe.k == DataKey(S, Recover(S, opt, m).value)
                && pipe.compressed == (m.compress == 1)
                && pipe.out == out && pipe.md5 == md5 && pipe.base == out.data && pipe.chunks == [] && pipe.Valid()
                && pipe.Released() == []
  {
    hide Family.Lawful, Recover, DataKey, DecryptPipe.Valid;
    pipe := null;
    err := CheckModes(m);
    if err.Some? {
      return;
    }
    hook.OnMetadata(Snapshot(m, |out.data|));
    var session := RecoverSessionKey(S, opt, m);
    if session.Err? {
      return null, Some(session.error);
    }
    pipe := new DecryptPipe(S, session.value, out, md5, m.compress == 1);
  }

  // -- The state of the main loop --

  /** The pipe as it stands after everything in `g` has been read. */
  ghost predicate Carries(pipe: DecryptPipe, opt: Options, g: Gathered)
    reads pipe, pipe.out, pipe.md5
  {
    && pipe.Valid()
    && pipe.chunks == g.payloads
    && g.head.Some?
    && Recover(pipe.S, opt, g.head.value).Ok?
    && pipe.k == DataKey(pipe.S, Recover(pipe.S, opt, g.head.value).value)
    && pipe.compressed == (g.head.value.compress == 1)
  }

  /** The stream opens a pipe with this key, and has the same payloads to come as
      the rest of it has after those in `g`. */
  ghost predicate SamePipe(S: Suite, opt: Options, input: bytes, rest: bytes, g: Gathered,
                           k: CipherKey, compressed: bool)
    requires Payloads(g.payloads)
  {
    match Opened(S, opt, input)
    case None => false
    case Some(o) =>
      && o.k == k && o.compress == compressed
      && PayloadsRead(o.head.rest, o.head.meta, []) == PayloadsRead(rest, g.meta, g.payloads)
  }

  /** The pipe is the one that the stream opens, and what is still to come decides
      what becomes of its writes, given what has left it so far. */
  ghost predicate OnCourse(S: Suite, opt: Options, input: bytes, rest: bytes, g: Gathered, pipe: DecryptPipe)
    requires Payloads(g.payloads)
    reads pipe, pipe.md5
  {
    && SamePipe(S, opt, input, rest, g, pipe.k, pipe.compressed)
    && var all := CallsOf(S, Opened(S, opt, input).value);
       var ahead := Script(S, pipe.k, rest, g.meta, g.payloads);
       && CallsError(S, pipe.compressed, [], all) == CallsError(S, pipe.compressed, pipe.Released(), ahead)
       && (pipe.compressed ==>
             && Walks(S, [], all) == Walks(S, pipe.Released(), ahead)
             && AllTaken(S, [], all) == AllTaken(S, pipe.Released(), ahead))
  }

  /** What is still to come decides the plaintext, given what was gathered; before
      the first data dict nothing has been written. */
  ghost predicate LoopState(S: Suite, opt: Options, input: bytes, rest: bytes, g: Gathered,
                            pipe: DecryptPipe?, out: Output, md5: Hasher, base: bytes)
    reads out, md5, pipe, (if pipe == null then {} else {pipe.out, pipe.md5})
  {
    && Payloads(g.payloads)
    && Plaintext(S, opt, input) == PlaintextFrom(S, opt, rest, g)
    && (pipe == null ==>
          && g.head == None && g.payloads == [] && out.data == base && md5.seen == []
          && HeadOf(S, input) == HeadFrom(rest, g.meta)
          && (HeadFrom(rest, g.meta) == None ==> ErrorOf(S, opt, input) == HeadError(rest, g.meta)))
    && (pipe != null ==>
          && g.payloads != [] && pipe.S == S && pipe.out == out && pipe.md5 == md5 && pipe.base == base
          && Carries(pipe, opt, g)
          && OnCourse(S, opt, input, rest, g, pipe))
  }

  /** The calls of the hook for the whole stream: one, if a data dict is reached
      whose metadata have supported modes, with nothing of the payload written. */
  function HookCalls(S: Suite, input: bytes, base: bytes): seq<Snapshot> {
    match Hooked(S, input) case None => [] case Some(m) => [Snapshot(m, |base|)]
  }

  /** What the worker has come to by the time Decrypt returns: it has been
      joined once its report was received. */
  ghost function FateNow(pipe: DecryptPipe?): WorkerFate
    reads pipe
  {
    if pipe == null || !pipe.compressed then NoWorker else if pipe.received == 0 then Stranded else Joined
  }

  /** The worker's fate is as the bytes decide; an output that refuses can only
      lead to a worker being joined after all. */
  ghost predicate Fated(S: Suite, opt: Options, input: bytes, out: Output, worker: WorkerFate) {
    && (out.Reliable() ==> worker == Fate(S, opt, input))
    && (worker == Stranded ==> Fate(S, opt, input) == Stranded)
  }

  /** The stream does not pass: it has no plaintext or the LZ4 reader does not take
      all that it would be given. */
  ghost predicate Fails(S: Suite, opt: Options, input: bytes) {
    !(Plaintext(S, opt, input).Some? && ReaderTakesAll(S, opt, input))
  }

  /** What an error leaves behind in the output. */
  ghost predicate Cut(S: Suite, opt: Options, input: bytes, out: Output, base: bytes)
    reads out
  {
    base <= out.data && out.data[|base|..] <= MayBeWritten(S, opt, input)
  }

  lemma SoundIsCut(S: Suite, opt: Options, input: bytes, rest: bytes, g: Gathered, pipe: DecryptPipe)
    requires Payloads(g.payloads) && pipe.S == S && pipe.Sound() && pipe.chunks == g.payloads
    requires SamePipe(S, opt, input, rest, g, pipe.k, pipe.compressed)
    ensures Cut(S, opt, input, pipe.out, pipe.base)
  {
    hide Family.Lawful, Opened, PlainOf;
    var all := PayloadsRead(rest, g.meta, g.payloads);
    PlainPrefix(S, pipe.k, g.payloads, all);
    var plain := PlainOf(S, pipe.k, all);
    assert pipe.out.data[|pipe.base|..] == pipe.md5.seen;
    if pipe.compressed {
      assert pipe.taken <= pipe.Plain() <= plain;
      assert plain == pipe.taken + plain[|pipe.taken|..];
      MoreOutput(S, pipe.taken, plain[|pipe.taken|..]);
    }
  }

  lemma NothingIsCut(S: Suite, opt: Options, input: bytes, out: Output)
    ensures Cut(S, opt, input, out, out.data)
  {
    assert out.data[|out.data|..] == [];
  }

  /** The payload of one data dict, once the pipe is open. */
  method FeedPayload(S: Suite, pipe: DecryptPipe, payload: Option<bytes>, opt: Options,
                     ghost g: Gathered, ghost input: bytes, ghost s: bytes, ghost v: Value, ghost t: bytes)
    returns (err: Option<Error>)
    requires Payloads(g.payloads) && pipe.S == S && Carries(pipe, opt, g) && OnCourse(S, opt, input, s, g, pipe)
    requires Next(s) == Object(v, t) && KindOf(v) == DataDict(payload)
    modifies pipe, pipe.out, pipe.md5
    ensures payload == None || !IsPayload(payload.value) ==> err.Some?
    ensures Opened(S, opt, input).Some? && Opened(S, opt, input).value.compress == pipe.compressed
    ensures err.Some? && pipe.out.Reliable()
            ==> CallsError(S, pipe.compressed, [], CallsOf(S, Opened(S, opt, input).value)) == err
    ensures err == None
            ==> var g' := g.(payloads := g.payloads + [payload.value]);
                Payloads(g'.payloads) && Carries(pipe, opt, g') && OnCourse(S, opt, input, t, g', pipe)
    ensures err.Some? ==> Cut(S, opt, input, pipe.out, pipe.base) && Fated(S, opt, input, pipe.out, FateNow(pipe))
    ensures payload.Some? && IsPayload(payload.value) && err.Some? && pipe.out.Reliable()
            ==> !ReaderTakesAll(S, opt, input)
  {
    hide Family.Lawful, Recover, DataKey, Cbc.Decrypt, HeldBack, PlainOf, KindOf, Opened, DecryptPipe.Sunk;
    ghost var fed, chunks := pipe.Released(), pipe.chunks;
    pipe.ValidIsSound();
    if payload == None {
      pipe.Abort();
      SoundIsCut(S, opt, input, s, g, pipe);
      return Some(NoPayload);
    }
    if chunks != [] {
      pipe.PendingIsHeldBack();
      LetGoParts(S, pipe.k, chunks);
    } else {
      NothingHeld(S, pipe.k);
    }
    err := pipe.Feed(payload.value);
    if IsPayload(payload.value) {
      ScriptFeeds(S, pipe.k, s, g.meta, chunks, fed, v, t, payload.value);
    }
    if err.Some? {
      pipe.Abort();
      SoundIsCut(S, opt, input, s, g, pipe);
    }
  }

  /** What Decrypt leaves behind when it returns an error. */
  ghost predicate LeftBehind(S: Suite, opt: Options, input: bytes, out: Output, base: bytes, pipe: DecryptPipe?,
                             err: Option<Error>)
    reads out, pipe
  {
    && (out.Reliable() ==> err == ErrorOf(S, opt, input))
    && Cut(S, opt, input, out, base)
    && Fated(S, opt, input, out, FateNow(pipe))
    && (out.Reliable() ==> Fails(S, opt, input))
  }

  /** The hook's log at the head of the loop. */
  predicate HookState(S: Suite, input: bytes, open: bool, base: bytes, seen0: seq<Snapshot>, seen: seq<Snapshot>) {
    if open then seen == seen0 + HookCalls(S, input, base) && Hooked(S, input).Some? else seen == seen0
  }

  /** An object in front of the first data dict that ends the run, or a data dict
      whose modes or key are not good. */
  lemma NothingOpens(S: Suite, opt: Options, input: bytes, rest: bytes, g: Gathered, out: Output, md5: Hasher,
                     base: bytes, v: Value, t: bytes, err: Error)
    requires LoopState(S, opt, input, rest, g, null, out, md5, base) && Next(rest) == Object(v, t)
    requires if !KindOf(v).DataDict? then Gather(g, v) == Err(err)
             else if CheckModes(g.meta).Some? then CheckModes(g.meta) == Some(err)
             else Recover(S, opt, g.meta) == Err(err)
    requires if KindOf(v).DataDict? then CheckModes(g.meta).Some? || Recover(S, opt, g.meta).Err? else Gather(g, v).Err?
    ensures LeftBehind(S, opt, input, out, base, null, Some(err))
    ensures KindOf(v).DataDict? ==> Hooked(S, input) == if CheckModes(g.meta).Some? then None else Some(g.meta)
    ensures !KindOf(v).DataDict? ==> Hooked(S, input) == None
  {
    hide Family.Lawful, Recover, CheckModes, KindOf, AfterMagic, AbsorbAll, Finished, HeadOf, Plaintext;
    if KindOf(v).DataDict? {
      ErrorUnopened(S, opt, input);
    }
    hide ErrorOf;
    NothingIsCut(S, opt, input, out);
    if Gather(g, v).Ok? {
      UnrecoveredRejects(S, opt, t, Gather(g, v).value);
    }
  }

  /** A bad object after the first data dict: Decrypt returns past the pipe. */
  lemma WalksPast(S: Suite, opt: Options, input: bytes, rest: bytes, g: Gathered, pipe: DecryptPipe, out: Output,
                  md5: Hasher, base: bytes, v: Value, t: bytes)
    requires LoopState(S, opt, input, rest, g, pipe, out, md5, base)
    requires Next(rest) == Object(v, t) && Gather(g, v).Err? && !KindOf(v).DataDict?
    ensures LeftBehind(S, opt, input, out, base, pipe, Some(Gather(g, v).error))
  {
    hide Family.Lawful, Recover, CheckModes, KindOf, AbsorbAll, Plaintext, Opened, HeldBack, DecryptPipe.Sunk, PlainOf;
    ErrorOnceOpen(S, opt, input);
    hide ErrorOf;
    pipe.ValidIsSound();
    SoundIsCut(S, opt, input, rest, g, pipe);
  }

  /** The state after a metadata dict. */
  lemma MetaKeeps(S: Suite, opt: Options, input: bytes, rest: bytes, g: Gathered, pipe: DecryptPipe?, out: Output,
                  md5: Hasher, base: bytes, v: Value, t: bytes, m: Meta)
    requires LoopState(S, opt, input, rest, g, pipe, out, md5, base)
    requires Next(rest) == Object(v, t) && KindOf(v).MetaDict? && AbsorbAll(g.meta, KindOf(v).members) == Ok(m)
    ensures LoopState(S, opt, input, t, g.(meta := m), pipe, out, md5, base)
  {
    hide Family.Lawful, Recover, CheckModes, KindOf, AbsorbAll, Plaintext, Opened, HeldBack, Finished,
         DecryptPipe.Valid, HeadOf;
  }

  /** The state right after the pipe was opened. */
  lemma OpensOnCourse(S: Suite, opt: Options, input: bytes, rest: bytes, g: Gathered, pipe: DecryptPipe,
                      v: Value, t: bytes)
    requires Next(rest) == Object(v, t) && KindOf(v).DataDict? && HeadOf(S, input) == HeadFrom(rest, g.meta)
    requires CheckModes(g.meta) == None && Recover(S, opt, g.meta).Ok? && g.payloads == []
    requires pipe.k == DataKey(S, Recover(S, opt, g.meta).value) && pipe.compressed == (g.meta.compress == 1)
    requires pipe.Released() == []
    ensures OnCourse(S, opt, input, rest, g.(head := Some(g.meta)), pipe)
    ensures Hooked(S, input) == Some(g.meta)
  {
    hide Family.Lawful, Recover, CheckModes, KindOf, HeadOf, Script, PayloadsRead, Walks, AllTaken, DataKey;
  }

  /** What a data dict does to the plaintext still to be decided. */
  lemma DataGathers(S: Suite, opt: Options, input: bytes, rest: bytes, g: Gathered, g': Gathered, v: Value, t: bytes,
                    payload: Option<bytes>)
    requires Payloads(g.payloads) && Plaintext(S, opt, input) == PlaintextFrom(S, opt, rest, g)
    requires Next(rest) == Object(v, t) && KindOf(v) == DataDict(payload)
    requires g.head == None ==> CheckModes(g.meta) == None
    requires g' == g.(head := if g.head == None then Some(g.meta) else g.head)
    ensures payload == None || !IsPayload(payload.value) ==> Plaintext(S, opt, input) == None
    ensures payload.Some? && IsPayload(payload.value)
            ==> var g'' := g'.(payloads := g.payloads + [payload.value]);
                Payloads(g''.payloads) && Plaintext(S, opt, input) == PlaintextFrom(S, opt, t, g'')
  {
    hide Family.Lawful, Recover, CheckModes, KindOf, Plaintext, Finished;
  }

  /** The body of the main loop on one object. */
  method TakeObject(S: Suite, v: Value, opt: Options, meta: Record, pipe0: DecryptPipe?,
                    out: Output, md5: Hasher, hook: Observer,
                    ghost input: bytes, ghost rest: bytes, ghost t: bytes, ghost g: Gathered,
                    ghost base: bytes, ghost seen0: seq<Snapshot>)
    returns (pipe: DecryptPipe?, err: Option<Error>, ghost g': Gathered)
    requires Next(rest) == Object(v, t) && meta.View() == g.meta
    requires LoopState(S, opt, input, rest, g, pipe0, out, md5, base)
    requires HookState(S, input, pipe0 != null, base, seen0, hook.seen)
    modifies meta, pipe0, out, md5, hook
    ensures pipe == pipe0 || pipe == null || fresh(pipe)
    ensures err == None
            ==> meta.View() == g'.meta && LoopState(S, opt, input, t, g', pipe, out, md5, base)
                && HookState(S, input, pipe != null, base, seen0, hook.seen)
    ensures err.Some?
            ==> LeftBehind(S, opt, input, out, base, pipe, err) && hook.seen == seen0 + HookCalls(S, input, base)
  {
    hide ErrorOf, CallsError;
    hide Family.Lawful, Recover, DataKey, CheckModes, KindOf, AfterMagic, Finished, Plaintext, Opened, HeadOf,
         DecryptPipe.Valid, AbsorbAll, OnCourse, Hooked;
    pipe, g' := pipe0, g;
    match KindOf(v) {
      case Mistake(why) =>
        err := Some(why);
        if pipe == null {
          NothingOpens(S, opt, input, rest, g, out, md5, base, v, t, err.value);
        } else {
          WalksPast(S, opt, input, rest, g, pipe, out, md5, base, v, t);
        }
      case MetaDict(ms) =>
        err := meta.AbsorbMembers(ms);
        if err == None {
          g' := g.(meta := meta.View());
          MetaKeeps(S, opt, input, rest, g, pipe, out, md5, base, v, t, meta.View());
        } else if pipe == null {
          NothingOpens(S, opt, input, rest, g, out, md5, base, v, t, err.value);
        } else {
          WalksPast(S, opt, input, rest, g, pipe, out, md5, base, v, t);
        }
      case DataDict(payload) =>
        if pipe == null {
          pipe, err := OpenPipe(S, opt, meta.View(), out, md5, hook);
          if pipe == null {
            NothingOpens(S, opt, input, rest, g, out, md5, base, v, t, err.value);
            return;
          }
          OpensOnCourse(S, opt, input, rest, g, pipe, v, t);
          g' := g.(head := Some(meta.View()));
        }
        err := FeedPayload(S, pipe, payload, opt, g', input, rest, v, t);
        ErrorOnceOpen(S, opt, input);
        DataGathers(S, opt, input, rest, g, g', v, t, payload);
        if err == None {
          g' := g'.(payloads := g'.payloads + [payload.value]);
        }
    }
  }

  /** At the end of the stream the worker is to be joined, and finish's write
      decides whether all is taken. */
  lemma EndDecides(S: Suite, opt: Options, input: bytes, rest: bytes, g: Gathered, pipe: DecryptPipe)
    requires pipe.S == S && Payloads(g.payloads) && OnCourse(S, opt, input, rest, g, pipe) && Next(rest) == Done
    ensures SamePipe(S, opt, input, rest, g, pipe.k, pipe.compressed)
    ensures Fate(S, opt, input) == if pipe.compressed then Joined else NoWorker
    ensures ReaderTakesAll(S, opt, input)
       <==> (pipe.compressed ==> AllTaken(S, pipe.Released(), EndCalls(S, pipe.k, g.payloads)))
    ensures var e := CallsError(S, pipe.compressed, pipe.Released(), EndCalls(S, pipe.k, g.payloads));
            ErrorOf(S, opt, input)
            == if e.Some? then e else if Plaintext(S, opt, input) == None then Some(Md5Mismatch) else None
  {
    ErrorOnceOpen(S, opt, input);
    hide ErrorOf;
    hide Family.Lawful, Opened, HeldBack, Family.Refuses;
  }

  /** After the last object. */
  method Conclude(S: Suite, opt: Options, meta: Record, pipe: DecryptPipe?, out: Output, md5: Hasher,
                  ghost input: bytes, ghost rest: bytes, ghost g: Gathered, ghost base: bytes)
    returns (err: Option<Error>)
    requires Next(rest) == Done && meta.View() == g.meta
    requires LoopState(S, opt, input, rest, g, pipe, out, md5, base)
    modifies pipe, out, md5
    ensures err == None
            ==> Plaintext(S, opt, input).Some? && out.data == base + Plaintext(S, opt, input).value
                && ReaderTakesAll(S, opt, input) && pipe != null && Fated(S, opt, input, out, FateNow(pipe))
                && (out.Reliable() ==> ErrorOf(S, opt, input) == None)
    ensures err.Some? ==> LeftBehind(S, opt, input, out, base, pipe, err)
    ensures pipe == null ==> Hooked(S, input) == None
  {
    hide Family.Lawful, Recover, DataKey, CheckModes, KindOf, AfterMagic, Plaintext, DecryptPipe.Valid, Decoded, Opened,
         HeadOf, EndCalls, PlainOf, OnCourse, AllTaken, Fate, ReaderTakesAll, MayBeWritten, Script,
         SamePipe;
    if pipe == null {
      NothingIsCut(S, opt, input, out);
      NeverOpens(S, opt, input);
      return Some(NoData);
    }
    PayloadsAligned(g.payloads);
    EndDecides(S, opt, input, rest, g, pipe);
    err := pipe.Finish();
    SoundIsCut(S, opt, input, rest, g, pipe);
    if err.Some? {
      return;
    }
    if meta.plaintextMD5 != [] {
      var got := md5.Sum(S);
      if HexEncode(got) != meta.plaintextMD5 {
        return Some(Md5Mismatch);
      }
    }
    err := None;
  }

  lemma NeverOpens(S: Suite, opt: Options, input: bytes)
    requires HeadOf(S, input) == None
    ensures Opened(S, opt, input) == None && Hooked(S, input) == None
    ensures Fate(S, opt, input) == NoWorker && ReaderTakesAll(S, opt, input)
  {
    hide HeadOf, Family.Lawful;
  }

  lemma NoBody(S: Suite, opt: Options, input: bytes, out: Output)
    requires AfterMagic(S, input).Err?
    ensures Hooked(S, input) == None && LeftBehind(S, opt, input, out, out.data, null, Some(AfterMagic(S, input).error))
  {
    hide AfterMagic, Family.Lawful;
    NeverOpens(S, opt, input);
    NothingIsCut(S, opt, input, out);
  }

  lemma Begins(S: Suite, opt: Options, input: bytes, body: bytes, out: Output, md5: Hasher)
    requires AfterMagic(S, input) == Ok(body) && md5.seen == []
    ensures LoopState(S, opt, input, body, START, null, out, md5, out.data)
    ensures START.meta == DEFAULTS
  {
    hide AfterMagic, Family.Lawful, PlaintextFrom, HeadFrom;
  }

  /** A broken read, once the open pipe, if there is one, has been aborted. */
  method AbortBroken(S: Suite, opt: Options, pipe: DecryptPipe?, out: Output, md5: Hasher,
                     ghost input: bytes, ghost rest: bytes, ghost g: Gathered, ghost base: bytes)
    requires LoopState(S, opt, input, rest, g, pipe, out, md5, base) && Next(rest).Broken?
    modifies pipe, out, md5
    ensures LeftBehind(S, opt, input, out, base, pipe, Some(Stream(Next(rest).error)))
    ensures pipe == null ==> Hooked(S, input) == None
  {
    hide ErrorOf;
    hide Family.Lawful, Recover, DataKey, AfterMagic, Plaintext, DecryptPipe.Sunk, Opened, HeadOf, Finished, PlainOf;
    if pipe == null {
      NothingIsCut(S, opt, input, out);
      NeverOpens(S, opt, input);
      return;
    }
    ErrorOnceOpen(S, opt, input);
    pipe.ValidIsSound();
    pipe.Abort();
    SoundIsCut(S, opt, input, rest, g, pipe);
  }

  /** Decrypt succeeds exactly on the streams that have a plaintext and of which
      the LZ4 reader, if one is used, takes all that it is given, and then has
      written exactly that plaintext.  When it fails it has written a part of what
      the payloads up to the first flaw decrypt and decompress to.  The hook is
      called once or not at all, and the LZ4 worker is joined or left behind, as
      the bytes decide. */
  method Decrypt(S: Suite, r: Source, out: Output, opt: Options, hook: Observer)
    returns (err: Option<Error>, ghost worker: WorkerFate)
    modifies r, out, hook
    ensures err == None
            ==> var p := Plaintext(S, opt, old(r.rest));
                p.Some? && out.data == old(out.data) + p.value && ReaderTakesAll(S, opt, old(r.rest))
    ensures err.Some? ==> Cut(S, opt, old(r.rest), out, old(out.data))
    ensures out.Reliable() ==> err == ErrorOf(S, opt, old(r.rest))
    ensures out.Reliable()
            ==> (err == None <==> Plaintext(S, opt, old(r.rest)).Some? && ReaderTakesAll(S, opt, old(r.rest)))
    ensures hook.seen == old(hook.seen) + HookCalls(S, old(r.rest), old(out.data))
    ensures Fated(S, opt, old(r.rest), out, worker)
  {
    hide *;
    ghost var input, base, seen0 := r.rest, out.data, hook.seen;
    err := ConsumeMagic(S, r);
    if err.Some? {
      NoBody(S, opt, input, out);
      HookAtStart(S, input, base, seen0);
      HookAtEnd(S, input, false, base, seen0, seen0);
      worker := FateNow(null);
      Ends(S, opt, input, out, base, null, err);
      return;
    }
    var sr := new StreamReader(r);
    var meta := new Record();
    var md5 := new Hasher();
    var pipe: DecryptPipe? := null;
    Begins(S, opt, input, r.rest, out, md5);
    ghost var g := START;
    HookAtStart(S, input, base, seen0);
    while true
      invariant fresh(meta) && fresh(md5) && (pipe != null ==> fresh(pipe))
      invariant meta.View() == g.meta
      invariant LoopState(S, opt, input, r.rest, g, pipe, out, md5, base)
      invariant HookState(S, input, pipe != null, base, seen0, hook.seen)
      decreases |r.rest|
    {
      ghost var rest := r.rest;
      var obj, e := sr.Next();
      if e.Some? {
        AbortBroken(S, opt, pipe, out, md5, input, rest, g, base);
        worker := FateNow(pipe);
        HookAtEnd(S, input, pipe != null, base, seen0, hook.seen);
        Ends(S, opt, input, out, base, pipe, Some(Stream(e.value)));
        return Some(Stream(e.value)), worker;
      }
      if obj == None {
        err := Conclude(S, opt, meta, pipe, out, md5, input, rest, g, base);
        worker := FateNow(pipe);
        HookAtEnd(S, input, pipe != null, base, seen0, hook.seen);
        if err.Some? {
          Ends(S, opt, input, out, base, pipe, err);
        }
        return;
      }
      pipe, err, g := TakeObject(S, obj.value, opt, meta, pipe, out, md5, hook, input, rest, r.rest, g, base, seen0);
      if err.Some? {
        worker := FateNow(pipe);
        Ends(S, opt, input, out, base, pipe, err);
        return;
      }
    }
  }

  lemma HookAtStart(S: Suite, input: bytes, base: bytes, seen0: seq<Snapshot>)
    ensures HookState(S, input, false, base, seen0, seen0)
  {
  }

  lemma HookAtEnd(S: Suite, input: bytes, open: bool, base: bytes, seen0: seq<Snapshot>, seen: seq<Snapshot>)
    requires HookState(S, input, open, base, seen0, seen)
    requires !open ==> Hooked(S, input) == None
    ensures seen == seen0 + HookCalls(S, input, base)
  {
    hide Hooked, Family.Lawful;
  }

  lemma Ends(S: Suite, opt: Options, input: bytes, out: Output, base: bytes, pipe: DecryptPipe?, err: Option<Error>)
    requires LeftBehind(S, opt, input, out, base, pipe, err)
    ensures out.Reliable() ==> err == ErrorOf(S, opt, input)
    ensures Cut(S, opt, input, out, base) && Fated(S, opt, input, out, FateNow(pipe))
    ensures out.Reliable() ==> !(Plaintext(S, opt, input).Some? && ReaderTakesAll(S, opt, input))
  {
    hide Cut, Fated, FateNow, Plaintext, ReaderTakesAll, ErrorOf, Family.Lawful;
  }
}
