/** How Decrypt leaves the payload pipe, decided on the bytes of the stream: the
    calls it makes, in order, and what becomes of the LZ4 worker. */
module Exits {
  import opened Bytes
  import opened Primitives
  import opened Wire
  import opened Metadata
  import opened Envelope
  import opened Meaning
  import Cbc
  import Pkcs7

  /** What Decrypt does to an open pipe: it feeds a chunk's plaintext, finishes
      with the unpadded tail, aborts, or returns through neither. */
  datatype Call = Feed(b: bytes) | Tail(b: bytes) | Quit(why: Error) | Walk(why: Error)

  ghost function PlainOf(S: Suite, k: CipherKey, chunks: seq<bytes>): (p: bytes)
    requires k.Valid() && Payloads(chunks)
    ensures |p| == |Flatten(chunks)|
  {
    PayloadsAligned(chunks);
    Cbc.Decrypt(S, k.key, k.iv, Flatten(chunks))
  }

  lemma LastFits(chunks: seq<bytes>)
    requires chunks != []
    ensures |Flatten(chunks)| >= |chunks[|chunks| - 1]|
  {
    FlattenSnoc(chunks[..|chunks| - 1], chunks[|chunks| - 1]);
    assert chunks == chunks[..|chunks| - 1] + [chunks[|chunks| - 1]];
  }

  /** The plaintext of the last chunk, which is held back until more is known. */
  ghost function HeldBack(S: Suite, k: CipherKey, chunks: seq<bytes>): bytes
    requires k.Valid() && Payloads(chunks) && chunks != []
  {
    LastFits(chunks);
    var p := PlainOf(S, k, chunks);
    p[|p| - |chunks[|chunks| - 1]|..]
  }

  /** The calls at the end of the stream. */
  ghost function EndCalls(S: Suite, k: CipherKey, chunks: seq<bytes>): seq<Call>
    requires k.Valid() && Payloads(chunks)
  {
    if chunks == [] then []
    else match Pkcs7.Unpadded(HeldBack(S, k, chunks)) case None => [Quit(FinalPadding)] case Some(t) => [Tail(t)]
  }

  /** The calls that the rest of a stream leads to, once the pipe is open and has
      been given `chunks`. */
  ghost function Script(S: Suite, k: CipherKey, s: bytes, m: Meta, chunks: seq<bytes>): seq<Call>
    requires k.Valid() && Payloads(chunks)
    decreases |s|
  {
    match Next(s)
    case Done => EndCalls(S, k, chunks)
    case Broken(e) => [Quit(Stream(e))]
    case Object(v, t) =>
      match KindOf(v)
      case Mistake(e) => [Walk(e)]
      case MetaDict(ms) =>
        (match AbsorbAll(m, ms) case Err(e) => [Walk(e)] case Ok(m') => Script(S, k, t, m', chunks))
      case DataDict(p) =>
        if p == None then [Quit(NoPayload)]
        else if !IsPayload(p.value) then [Quit(DataUnaligned)]
        else (if chunks == [] then [] else [Feed(HeldBack(S, k, chunks))]) + Script(S, k, t, m, chunks + [p.value])
  }

  /** Everything that the calls feed, if they end in finish's last write. */
  function TailBytes(calls: seq<Call>): Option<bytes>
    decreases calls
  {
    if calls == [] then None
    else match calls[0]
         case Feed(b) => (match TailBytes(calls[1..]) case None => None case Some(t) => Some(b + t))
         case Tail(b) => Some(b)
         case _ => None
  }

  /** What has left the pipe once it has been given `chunks`. */
  ghost function LetGo(S: Suite, k: CipherKey, chunks: seq<bytes>): (r: bytes)
    requires k.Valid() && Payloads(chunks)
  {
    if chunks == [] then []
    else
      LastFits(chunks);
      PlainOf(S, k, chunks)[..|Flatten(chunks)| - |chunks[|chunks| - 1]|]
  }

  lemma LetGoParts(S: Suite, k: CipherKey, chunks: seq<bytes>)
    requires k.Valid() && Payloads(chunks) && chunks != []
    ensures LetGo(S, k, chunks) + HeldBack(S, k, chunks) == PlainOf(S, k, chunks)
    ensures IsPayload(HeldBack(S, k, chunks)) && |LetGo(S, k, chunks)| % BLOCK == 0
  {
    hide Family.Lawful, PlainOf;
    var last := chunks[|chunks| - 1];
    LastFits(chunks);
    PayloadsAligned(chunks);
    assert IsPayload(last);
    hide Payloads, Flatten;
    DifferenceAligned(|Flatten(chunks)|, |last|);
  }

  lemma DifferenceAligned(a: nat, b: nat)
    requires a % BLOCK == 0 && b % BLOCK == 0 && b <= a
    ensures (a - b) % BLOCK == 0
  {
  }

  lemma LetGoNext(S: Suite, k: CipherKey, chunks: seq<bytes>, ct: bytes)
    requires k.Valid() && Payloads(chunks) && IsPayload(ct)
    ensures Payloads(chunks + [ct])
    ensures LetGo(S, k, chunks + [ct]) == PlainOf(S, k, chunks)
  {
    hide Family.Lawful, Cbc.Decrypt;
    PayloadsAligned(chunks);
    FlattenSnoc(chunks, ct);
    Cbc.DecryptAppend(S, k.key, k.iv, Flatten(chunks), ct);
  }

  /** The calls that a stream leads to feed exactly the unpadded plaintext of all
      its payloads, and end in finish's write if and only if the whole can be
      collected and unpadded. */
  lemma {:induction false} ScriptSpells(S: Suite, k: CipherKey, s: bytes, m: Meta, h: Meta, chunks: seq<bytes>)
    requires k.Valid() && Payloads(chunks)
    ensures match Collect(s, Gathered(m, Some(h), chunks))
            case Err(_) => TailBytes(Script(S, k, s, m, chunks)) == None
            case Ok(g) =>
              && Payloads(g.payloads)
              && Pkcs7.Unpadded(PlainOf(S, k, g.payloads))
                 == match TailBytes(Script(S, k, s, m, chunks))
                    case None => None
                    case Some(t) => Some(LetGo(S, k, chunks) + t)
    decreases |s|
  {
    hide Family.Lawful, HeldBack, LetGo, PlainOf, AbsorbAll, CheckModes, Pkcs7.Unpadded;
    match Next(s)
    case Object(v, t) =>
      match KindOf(v) {
        case Mistake(_) =>
        case MetaDict(ms) =>
          match AbsorbAll(m, ms) {
            case Err(_) =>
            case Ok(m') => ScriptSpells(S, k, t, m', h, chunks);
          }
        case DataDict(p) =>
          if p.Some? && IsPayload(p.value) {
            LetGoNext(S, k, chunks, p.value);
            ScriptSpells(S, k, t, m, h, chunks + [p.value]);
            FeedSpells(S, k, chunks, Script(S, k, t, m, chunks + [p.value]));
          }
      }
    case Done => EndSpells(S, k, chunks);
    case _ =>
  }

  lemma FeedSpells(S: Suite, k: CipherKey, chunks: seq<bytes>, rest: seq<Call>)
    requires k.Valid() && Payloads(chunks)
    ensures var calls := (if chunks == [] then [] else [Feed(HeldBack(S, k, chunks))]) + rest;
            (TailBytes(rest) == None <==> TailBytes(calls) == None)
            && (TailBytes(rest).Some?
                ==> PlainOf(S, k, chunks) + TailBytes(rest).value == LetGo(S, k, chunks) + TailBytes(calls).value)
  {
    hide Family.Lawful, HeldBack, LetGo, PlainOf;
    if chunks == [] {
      assert [] + rest == rest;
      NothingHeld(S, k);
    } else {
      var b := HeldBack(S, k, chunks);
      LetGoParts(S, k, chunks);
      assert ([Feed(b)] + rest)[1..] == rest;
    }
  }

  lemma NothingHeld(S: Suite, k: CipherKey)
    requires k.Valid()
    ensures Payloads([]) && PlainOf(S, k, []) == [] == LetGo(S, k, [])
  {
  }

  lemma EndSpells(S: Suite, k: CipherKey, chunks: seq<bytes>)
    requires k.Valid() && Payloads(chunks)
    ensures chunks == [] ==> Pkcs7.Unpadded(PlainOf(S, k, chunks)) == None
    ensures chunks != []
            ==> Pkcs7.Unpadded(PlainOf(S, k, chunks))
                == match Pkcs7.Unpadded(HeldBack(S, k, chunks))
                   case None => None
                   case Some(t) => Some(LetGo(S, k, chunks) + t)
  {
    hide Family.Lawful, HeldBack, LetGo, PlainOf;
    if chunks == [] {
      NothingHeld(S, k);
    } else {
      LetGoParts(S, k, chunks);
      Pkcs7.UnpadSuffix(LetGo(S, k, chunks), HeldBack(S, k, chunks));
    }
  }

  /** Does Decrypt get to a Walk, given the LZ4 reader's refusals on the way? */
  predicate Walks(S: Suite, fed: bytes, calls: seq<Call>)
    decreases calls
  {
    if calls == [] then false
    else match calls[0]
         case Feed(b) => !S.Refuses(fed, b) && Walks(S, fed + b, calls[1..])
         case Walk(_) => true
         case _ => false
  }

  predicate NoneRefused(S: Suite, fed: bytes, calls: seq<Call>)
    decreases calls
  {
    calls == [] || !calls[0].Feed? ||
    (!S.Refuses(fed, calls[0].b) && NoneRefused(S, fed + calls[0].b, calls[1..]))
  }

  /** The bytes of the feeds that come first. */
  function Feeds(calls: seq<Call>): bytes
    decreases calls
  {
    if calls == [] || !calls[0].Feed? then [] else calls[0].b + Feeds(calls[1..])
  }

  /** A draining reader refuses nothing while it is being fed a part of something
      that it can decode. */
  lemma {:induction false} NoneRefusedWithin(S: Suite, fed: bytes, calls: seq<Call>, whole: bytes)
    requires S.LzDrains() && S.lzComplete(whole) && fed + Feeds(calls) <= whole
    ensures NoneRefused(S, fed, calls)
    decreases calls
  {
    hide Family.Lawful;
    if calls != [] && calls[0].Feed? {
      var b := calls[0].b;
      assert fed + Feeds(calls) == (fed + b) + Feeds(calls[1..]);
      assert fed + b <= whole;
      forall n | 0 <= n <= |fed + b| ensures !S.lzHalts((fed + b)[..n]) {
        assert whole[..n] == (fed + b)[..n];
      }
      NoneRefusedWithin(S, fed + b, calls[1..], whole);
    }
  }

  /** The first thing wrong with a stream after its first data dict. */
  datatype Flaw = Flawless | BrokenRead | BadPayload | BadObject

  function FirstFlaw(s: bytes, m: Meta): Flaw
    decreases |s|
  {
    match Next(s)
    case Done => Flawless
    case Broken(_) => BrokenRead
    case Object(v, t) =>
      match KindOf(v)
      case Mistake(_) => BadObject
      case MetaDict(ms) => (match AbsorbAll(m, ms) case Err(_) => BadObject case Ok(m') => FirstFlaw(t, m'))
      case DataDict(p) => if p == None || !IsPayload(p.value) then BadPayload else FirstFlaw(t, m)
  }

  /** Decrypt leaves an open pipe through neither finish nor abort if and only if
      the first flaw is a top-level value that is not a dict, has no string type
      or an unknown one, or a metadata dict with an undecodable key, and the
      reader has refused nothing up to there. */
  lemma {:induction false} WalksIff(S: Suite, k: CipherKey, s: bytes, m: Meta, chunks: seq<bytes>, fed: bytes)
    requires k.Valid() && Payloads(chunks)
    ensures var calls := Script(S, k, s, m, chunks);
            Walks(S, fed, calls) <==> FirstFlaw(s, m) == BadObject && NoneRefused(S, fed, calls)
    decreases |s|
  {
    hide Family.Lawful, HeldBack, AbsorbAll, Cbc.Decrypt;
    match Next(s)
    case Object(v, t) =>
      match KindOf(v) {
        case Mistake(_) =>
        case MetaDict(ms) =>
          match AbsorbAll(m, ms) {
            case Err(_) =>
            case Ok(m') => WalksIff(S, k, t, m', chunks, fed);
          }
        case DataDict(p) =>
          if p.Some? && IsPayload(p.value) {
            var rest := Script(S, k, t, m, chunks + [p.value]);
            if chunks == [] {
              assert [] + rest == rest;
              WalksIff(S, k, t, m, chunks + [p.value], fed);
            } else {
              var b := HeldBack(S, k, chunks);
              assert ([Feed(b)] + rest)[1..] == rest;
              WalksIff(S, k, t, m, chunks + [p.value], fed + b);
            }
          }
      }
    case _ =>
  }

  // -- What becomes of the writes --

  /** Is finish's last write reached, and does the LZ4 reader take every write up
      to it and it too? */
  predicate AllTaken(S: Suite, fed: bytes, calls: seq<Call>)
    decreases calls
  {
    if calls == [] then false
    else match calls[0]
         case Feed(b) => !S.Refuses(fed, b) && AllTaken(S, fed + b, calls[1..])
         case Tail(b) => !S.Refuses(fed, b)
         case _ => false
  }

  /** The write that finish ends with, if the calls get to it. */
  function LastWrite(calls: seq<Call>): bytes
    decreases calls
  {
    if calls == [] then []
    else match calls[0] case Feed(_) => LastWrite(calls[1..]) case Tail(b) => b case _ => []
  }

  predicate FeedsNonEmpty(calls: seq<Call>)
    decreases calls
  {
    calls == [] || !calls[0].Feed? || (calls[0].b != [] && FeedsNonEmpty(calls[1..]))
  }

  /** A reader that reads on within everything it can decode takes every write of
      such a whole, unless the last one is empty and comes after it has stopped
      at the end. */
  lemma {:induction false} AllTakenIff(S: Suite, fed: bytes, calls: seq<Call>)
    requires S.LzReadsOn() && FeedsNonEmpty(calls)
    requires TailBytes(calls).Some? && S.lzComplete(fed + TailBytes(calls).value)
    ensures AllTaken(S, fed, calls) <==> !(LastWrite(calls) == [] && S.lzHalts(fed + TailBytes(calls).value))
    decreases calls
  {
    hide Family.Lawful;
    var whole, b := fed + TailBytes(calls).value, calls[0].b;
    assert fed + b <= whole;
    forall n | 0 <= n <= |fed + b| && n < |whole| ensures !S.lzHalts((fed + b)[..n]) {
      assert whole[..n] == (fed + b)[..n];
    }
    if calls[0].Feed? {
      assert whole == (fed + b) + TailBytes(calls[1..]).value;
      AllTakenIff(S, fed + b, calls[1..]);
    } else {
      assert (fed + b)[..|whole|] == whole;
    }
  }

  /** A draining reader takes every write of a whole that it can decode. */
  lemma {:induction false} DrainingTakes(S: Suite, fed: bytes, calls: seq<Call>)
    requires S.LzDrains() && TailBytes(calls).Some? && S.lzComplete(fed + TailBytes(calls).value)
    ensures AllTaken(S, fed, calls)
    decreases calls
  {
    hide Family.Lawful;
    var whole, b := fed + TailBytes(calls).value, calls[0].b;
    assert fed + b <= whole;
    forall n | 0 <= n <= |fed + b| ensures !S.lzHalts((fed + b)[..n]) {
      assert whole[..n] == (fed + b)[..n];
    }
    if calls[0].Feed? {
      assert whole == (fed + b) + TailBytes(calls[1..]).value;
      DrainingTakes(S, fed + b, calls[1..]);
    }
  }

  lemma {:induction false} ScriptFeedsNonEmpty(S: Suite, k: CipherKey, s: bytes, m: Meta, chunks: seq<bytes>)
    requires k.Valid() && Payloads(chunks)
    ensures FeedsNonEmpty(Script(S, k, s, m, chunks))
    decreases |s|
  {
    hide Family.Lawful, HeldBack, AbsorbAll;
    match Next(s)
    case Object(v, t) =>
      match KindOf(v) {
        case MetaDict(ms) =>
          match AbsorbAll(m, ms) {
            case Err(_) =>
            case Ok(m') => ScriptFeedsNonEmpty(S, k, t, m', chunks);
          }
        case DataDict(p) =>
          if p.Some? && IsPayload(p.value) {
            var rest := Script(S, k, t, m, chunks + [p.value]);
            ScriptFeedsNonEmpty(S, k, t, m, chunks + [p.value]);
            if chunks == [] {
              assert [] + rest == rest;
            } else {
              LetGoParts(S, k, chunks);
              assert ([Feed(HeldBack(S, k, chunks))] + rest)[1..] == rest;
            }
          }
        case Mistake(_) =>
      }
    case _ =>
  }

  lemma PlainIs(S: Suite, k: CipherKey, chunks: seq<bytes>)
    requires k.Valid() && Payloads(chunks)
    ensures Cbc.Aligned(Flatten(chunks)) && PlainOf(S, k, chunks) == Cbc.Decrypt(S, k.key, k.iv, Flatten(chunks))
  {
    PayloadsAligned(chunks);
  }

  /** A good payload leads to a feed of what was held back, if anything was. */
  lemma ScriptFeeds(S: Suite, k: CipherKey, s: bytes, m: Meta, chunks: seq<bytes>, fed: bytes,
                    v: Value, t: bytes, ct: bytes)
    requires k.Valid() && Payloads(chunks)
    requires Next(s) == Object(v, t) && KindOf(v) == DataDict(Some(ct)) && IsPayload(ct)
    ensures Payloads(chunks + [ct])
    ensures var now, next := Script(S, k, s, m, chunks), Script(S, k, t, m, chunks + [ct]);
            if chunks == [] then now == next
            else var b := HeldBack(S, k, chunks);
                 && (S.Refuses(fed, b)
                     ==> !Walks(S, fed, now) && !AllTaken(S, fed, now)
                         && CallsError(S, true, fed, now) == Some(SinkRefused))
                 && (!S.Refuses(fed, b)
                     ==> && Walks(S, fed, now) == Walks(S, fed + b, next)
                         && AllTaken(S, fed, now) == AllTaken(S, fed + b, next)
                         && CallsError(S, true, fed, now) == CallsError(S, true, fed + b, next))
                 && CallsError(S, false, fed, now) == CallsError(S, false, fed + b, next)
  {
    hide Family.Lawful, HeldBack, KindOf, Next, Family.Refuses;
    var rest := Script(S, k, t, m, chunks + [ct]);
    if chunks == [] {
      assert [] + rest == rest;
    } else {
      assert ([Feed(HeldBack(S, k, chunks))] + rest)[1..] == rest;
    }
  }

  // -- The whole stream --

  /** The error with which the calls end, if they do, over an output that refuses
      nothing. */
  ghost function CallsError(S: Suite, compress: bool, fed: bytes, calls: seq<Call>): Option<Error>
    decreases calls
  {
    if calls == [] then None
    else match calls[0]
         case Feed(b) =>
           if compress && S.Refuses(fed, b) then Some(SinkRefused) else CallsError(S, compress, fed + b, calls[1..])
         case Tail(b) =>
           if !compress then None
           else if S.Refuses(fed, b) then Some(SinkRefused)
           else if S.LzRead(fed + b).LzOk? then None
           else Some(LzFailed)
         case Quit(why) => Some(why)
         case Walk(why) => Some(why)
  }

  /** The first data dict that is reached, with the metadata absorbed up to it. */
  datatype Head = Head(rest: bytes, meta: Meta)

  function HeadFrom(s: bytes, m: Meta): Option<Head>
    decreases |s|
  {
    match Next(s)
    case Object(v, t) =>
      (match KindOf(v)
       case Mistake(_) => None
       case MetaDict(ms) => (match AbsorbAll(m, ms) case Err(_) => None case Ok(m') => HeadFrom(t, m'))
       case DataDict(_) => Some(Head(s, m)))
    case _ => None
  }

  function HeadOf(S: Suite, s: bytes): Option<Head> {
    match AfterMagic(S, s) case Err(_) => None case Ok(body) => HeadFrom(body, DEFAULTS)
  }

  /** What goes wrong in front of it, if it is not reached. */
  function HeadError(s: bytes, m: Meta): Option<Error>
    decreases |s|
  {
    match Next(s)
    case Done => Some(NoData)
    case Broken(e) => Some(Stream(e))
    case Object(v, t) =>
      match KindOf(v)
      case Mistake(e) => Some(e)
      case MetaDict(ms) => (match AbsorbAll(m, ms) case Err(e) => Some(e) case Ok(m') => HeadError(t, m'))
      case DataDict(_) => None
  }

  /** The pipe that Decrypt opens at that dict, if modes and key are good. */
  datatype Opening = Opening(k: CipherKey, compress: bool, head: Head)

  ghost function Opened(S: Suite, opt: Options, s: bytes): (r: Option<Opening>)
    ensures r.Some? ==> r.value.k.Valid()
  {
    match HeadOf(S, s)
    case None => None
    case Some(h) =>
      if CheckModes(h.meta).Some? then None
      else match Recover(S, opt, h.meta)
           case Err(_) => None
           case Ok(session) => Some(Opening(DataKey(S, session), h.meta.compress == 1, h))
  }

  /** All that Decrypt does to this pipe. */
  ghost function CallsOf(S: Suite, o: Opening): seq<Call>
    requires o.k.Valid()
  {
    Script(S, o.k, o.head.rest, o.head.meta, [])
  }

  /** The metadata that the hook is called with, if it is called. */
  function Hooked(S: Suite, s: bytes): Option<Meta> {
    match HeadOf(S, s)
    case None => None
    case Some(h) => if CheckModes(h.meta).Some? then None else Some(h.meta)
  }

  /** The error that Decrypt returns over an output that refuses nothing: that of the
      magic, of what stands in front of the first data dict, of its modes or its
      key, the first one from there on, or at last that the MD5 differs. */
  ghost function ErrorOf(S: Suite, opt: Options, s: bytes): Option<Error> {
    match AfterMagic(S, s)
    case Err(e) => Some(e)
    case Ok(body) =>
      match HeadFrom(body, DEFAULTS)
      case None => HeadError(body, DEFAULTS)
      case Some(h) =>
        if CheckModes(h.meta).Some? then CheckModes(h.meta)
        else match Recover(S, opt, h.meta)
             case Err(e) => Some(e)
             case Ok(_) =>
               var o := Opened(S, opt, s).value;
               var e := CallsError(S, o.compress, [], CallsOf(S, o));
               if e.Some? then e else if Plaintext(S, opt, s) == None then Some(Md5Mismatch) else None
  }

  /** The error that stands behind the feeds, if it is one. */
  function LastError(calls: seq<Call>): Option<Error>
    decreases calls
  {
    if calls == [] then None
    else match calls[0]
         case Feed(_) => LastError(calls[1..])
         case Tail(_) => None
         case Quit(why) => Some(why)
         case Walk(why) => Some(why)
  }

  /** Calls that end in finish's write end in no error without an LZ4 reader, and
      with one because it refuses a write or the whole is incomplete; other calls
      end in the error that stands behind them, unless a feed is refused before. */
  lemma {:induction false} CallsErrorIs(S: Suite, fed: bytes, calls: seq<Call>)
    ensures TailBytes(calls).Some?
            ==> && CallsError(S, false, fed, calls) == None
                && CallsError(S, true, fed, calls)
                   == if !AllTaken(S, fed, calls) then Some(SinkRefused)
                      else if S.LzRead(fed + TailBytes(calls).value).LzOk? then None
                      else Some(LzFailed)
    ensures TailBytes(calls) == None
            ==> && CallsError(S, false, fed, calls) == LastError(calls)
                && CallsError(S, true, fed, calls)
                   == if NoneRefused(S, fed, calls) then LastError(calls) else Some(SinkRefused)
    decreases calls
  {
    hide Family.Lawful, Family.Refuses;
    if calls != [] && calls[0].Feed? {
      var b := calls[0].b;
      CallsErrorIs(S, fed + b, calls[1..]);
      if TailBytes(calls[1..]).Some? {
        assert fed + (b + TailBytes(calls[1..]).value) == (fed + b) + TailBytes(calls[1..]).value;
      }
    }
  }

  /** Where everything can be gathered but not unpadded, that is the last error. */
  lemma {:induction false} PaddingIsLast(S: Suite, k: CipherKey, s: bytes, m: Meta, h: Meta, chunks: seq<bytes>)
    requires k.Valid() && Payloads(chunks) && Collect(s, Gathered(m, Some(h), chunks)).Ok?
    requires Collect(s, Gathered(m, Some(h), chunks)).value.payloads != []
    requires TailBytes(Script(S, k, s, m, chunks)) == None
    ensures LastError(Script(S, k, s, m, chunks)) == Some(FinalPadding)
    decreases |s|
  {
    hide Family.Lawful, HeldBack, AbsorbAll, CheckModes, Pkcs7.Unpadded;
    match Next(s)
    case Object(v, t) =>
      match KindOf(v) {
        case MetaDict(ms) => PaddingIsLast(S, k, t, AbsorbAll(m, ms).value, h, chunks);
        case DataDict(p) =>
          var rest := Script(S, k, t, m, chunks + [p.value]);
          if chunks == [] {
            assert [] + rest == rest;
          } else {
            assert ([Feed(HeldBack(S, k, chunks))] + rest)[1..] == rest;
          }
          PaddingIsLast(S, k, t, m, h, chunks + [p.value]);
        case Mistake(_) =>
      }
    case _ =>
  }

  lemma ErrorOnceOpen(S: Suite, opt: Options, s: bytes)
    requires Opened(S, opt, s).Some?
    ensures var o := Opened(S, opt, s).value;
            var e := CallsError(S, o.compress, [], CallsOf(S, o));
            ErrorOf(S, opt, s)
            == if e.Some? then e else if Plaintext(S, opt, s) == None then Some(Md5Mismatch) else None
  {
    hide Family.Lawful, CallsError, Script, Plaintext, AfterMagic, HeadFrom, Recover, CheckModes, DataKey;
  }

  lemma ErrorUnopened(S: Suite, opt: Options, s: bytes)
    requires HeadOf(S, s).Some? && Opened(S, opt, s) == None
    ensures var m := HeadOf(S, s).value.meta;
            ErrorOf(S, opt, s) == if CheckModes(m).Some? then CheckModes(m) else Some(Recover(S, opt, m).error)
  {
    hide Family.Lawful, CallsError, Script, Plaintext, AfterMagic, HeadFrom, Recover, CheckModes, DataKey;
  }

  /** Never started, joined by receiving its one report, or left behind. */
  datatype WorkerFate = NoWorker | Joined | Stranded

  /** The fate of the LZ4 worker when Decrypt returns from the whole stream, if
      the output refuses nothing. */
  ghost function Fate(S: Suite, opt: Options, s: bytes): WorkerFate {
    match Opened(S, opt, s)
    case None => NoWorker
    case Some(o) => if !o.compress then NoWorker else if Walks(S, [], CallsOf(S, o)) then Stranded else Joined
  }

  /** Does the LZ4 reader, if there is one, take all that it is to be given? */
  ghost predicate ReaderTakesAll(S: Suite, opt: Options, s: bytes) {
    match Opened(S, opt, s)
    case None => true
    case Some(o) => o.compress ==> AllTaken(S, [], CallsOf(S, o))
  }

  /** On the bytes of the whole stream: a worker is left behind if and only if one
      is started, the first flaw from there on is a bad object, and the LZ4 reader
      has refused nothing up to that flaw. */
  lemma StrandedIff(S: Suite, opt: Options, s: bytes)
    ensures Fate(S, opt, s) == Stranded <==>
            var o := Opened(S, opt, s);
            && o.Some? && o.value.compress
            && FirstFlaw(o.value.head.rest, o.value.head.meta) == BadObject
            && NoneRefused(S, [], CallsOf(S, o.value))
  {
    hide Family.Lawful, Opened, Script, FirstFlaw, Walks, NoneRefused;
    match Opened(S, opt, s)
    case None =>
    case Some(o) => WalksIff(S, o.k, o.head.rest, o.head.meta, [], []);
  }

  /** The hook is given what Inspect returns. */
  lemma HookedIsInspected(S: Suite, s: bytes)
    ensures HeadOf(S, s).Some? ==> Inspected(S, s) == Ok(HeadOf(S, s).value.meta)
  {
    hide AfterMagic, Family.Lawful;
    if AfterMagic(S, s).Ok? {
      HeadIsWhereInspectStops(AfterMagic(S, s).value, DEFAULTS);
    }
  }

  lemma {:induction false} HeadIsWhereInspectStops(s: bytes, m: Meta)
    ensures HeadFrom(s, m).Some? ==> InspectFrom(s, m) == Ok(HeadFrom(s, m).value.meta)
    decreases |s|
  {
    hide AbsorbAll, KindOf;
    match Next(s)
    case Object(v, t) =>
      match KindOf(v) {
        case MetaDict(ms) =>
          match AbsorbAll(m, ms) {
            case Err(_) =>
            case Ok(m') => HeadIsWhereInspectStops(t, m');
          }
        case _ =>
      }
    case _ =>
  }

  /** What is collected is collected from the first data dict on. */
  lemma {:induction false} HeadCollects(s: bytes, m: Meta)
    ensures match HeadFrom(s, m)
            case None => Collect(s, Gathered(m, None, [])).Ok? ==> Collect(s, Gathered(m, None, [])).value.head == None
            case Some(h) =>
              Collect(s, Gathered(m, None, []))
              == if CheckModes(h.meta).Some? then Err(CheckModes(h.meta).value)
                 else Collect(h.rest, Gathered(h.meta, Some(h.meta), []))
    decreases |s|
  {
    hide AbsorbAll, KindOf, CheckModes;
    match Next(s)
    case Object(v, t) =>
      match KindOf(v) {
        case MetaDict(ms) =>
          match AbsorbAll(m, ms) {
            case Err(_) =>
            case Ok(m') => HeadCollects(t, m');
          }
        case _ =>
      }
    case _ =>
  }

  /** A stream with a plaintext opens a pipe, and its calls feed the whole
      decrypted payload. */
  lemma PlaintextOpens(S: Suite, opt: Options, s: bytes) returns (o: Opening, whole: bytes)
    requires Plaintext(S, opt, s).Some?
    ensures Opened(S, opt, s) == Some(o) && TailBytes(CallsOf(S, o)) == Some(whole)
    ensures if o.compress then S.LzRead(whole) == LzOk(Plaintext(S, opt, s).value)
            else Plaintext(S, opt, s) == Some(whole)
  {
    hide AfterMagic, Family.Lawful, Collect, HeadFrom, Recover, CheckModes, DataKey, Cbc.Decrypt, Pkcs7.Unpadded,
         Script, TailBytes, FinalCheck;
    var body := AfterMagic(S, s).value;
    HeadCollects(body, DEFAULTS);
    CollectKeeps(body, START);
    var g := Collect(body, START).value;
    PayloadsAligned(g.payloads);
    var h := HeadFrom(body, DEFAULTS).value;
    CollectKeeps(h.rest, Gathered(h.meta, Some(h.meta), []));
    o := Opened(S, opt, s).value;
    ScriptSpells(S, o.k, h.rest, h.meta, h.meta, []);
    PlainIs(S, o.k, g.payloads);
    whole := TailBytes(CallsOf(S, o)).value;
    assert LetGo(S, o.k, []) + whole == whole;
  }

  /** What a reader that reads on within everything it can decode does not take of
      a stream with a plaintext: only the empty write that finish makes when the
      last chunk is pure padding, and only if it stops at the end of the frame. */
  lemma TakesAllIff(S: Suite, opt: Options, s: bytes)
    requires S.LzReadsOn() && Plaintext(S, opt, s).Some?
    ensures Opened(S, opt, s).Some?
    ensures var o := Opened(S, opt, s).value;
            && TailBytes(CallsOf(S, o)).Some?
            && (ReaderTakesAll(S, opt, s) <==>
                !(o.compress && LastWrite(CallsOf(S, o)) == [] && S.lzHalts(TailBytes(CallsOf(S, o)).value)))
  {
    hide Family.Lawful, Opened, Script, TailBytes, LastWrite, FeedsNonEmpty, Plaintext, AllTaken;
    var o, whole := PlaintextOpens(S, opt, s);
    if o.compress {
      assert [] + whole == whole;
      ScriptFeedsNonEmpty(S, o.k, o.head.rest, o.head.meta, []);
      AllTakenIff(S, [], CallsOf(S, o));
    }
  }

  /** A draining reader takes all of every stream that has a plaintext. */
  lemma DrainingTakesAll(S: Suite, opt: Options, s: bytes)
    requires S.LzDrains() && Plaintext(S, opt, s).Some?
    ensures ReaderTakesAll(S, opt, s)
  {
    hide Family.Lawful, Opened, Script, TailBytes, Plaintext, AllTaken, Family.LzDrains;
    var o, whole := PlaintextOpens(S, opt, s);
    if o.compress {
      assert [] + whole == whole;
      DrainingTakes(S, [], CallsOf(S, o));
    }
  }

  // -- What may have been written by then --

  /** The payloads up to the first flaw. */
  ghost function PayloadsRead(s: bytes, m: Meta, chunks: seq<bytes>): (r: seq<bytes>)
    requires Payloads(chunks)
    ensures Payloads(r) && chunks <= r
    decreases |s|
  {
    match Next(s)
    case Object(v, t) =>
      (match KindOf(v)
       case Mistake(_) => chunks
       case MetaDict(ms) => (match AbsorbAll(m, ms) case Err(_) => chunks case Ok(m') => PayloadsRead(t, m', chunks))
       case DataDict(p) => if p == None || !IsPayload(p.value) then chunks else PayloadsRead(t, m, chunks + [p.value]))
    case _ => chunks
  }

  /** All that Decrypt can have written when it fails: what decrypting and, where
      it applies, decompressing makes of the payloads up to the first flaw. */
  ghost function MayBeWritten(S: Suite, opt: Options, s: bytes): bytes {
    match Opened(S, opt, s)
    case None => []
    case Some(o) =>
      var p := PlainOf(S, o.k, PayloadsRead(o.head.rest, o.head.meta, []));
      if o.compress then S.lzOutput(p) else p
  }

  lemma PlainPrefix(S: Suite, k: CipherKey, a: seq<bytes>, b: seq<bytes>)
    requires k.Valid() && Payloads(b) && a <= b
    ensures Payloads(a) && PlainOf(S, k, a) <= PlainOf(S, k, b)
  {
    hide Family.Lawful, Cbc.Decrypt;
    FlattenExtends(a, b);
    Cbc.DecryptAppend(S, k.key, k.iv, Flatten(a), Flatten(b[|a|..]));
  }
}
