/** What a stream means as a whole, independently of the streaming code. */
module Meaning {
  import opened Bytes
  import opened TextCodecs
  import opened Primitives
  import opened Wire
  import opened Metadata
  import opened Envelope
  import Cbc
  import Pkcs7
  import N = Names

  // -- Objects and what is gathered from them --

  /** What the magic and its checksum are followed by. */
  function AfterMagic(S: Suite, s: bytes): Result<bytes> {
    match Take(s, |N.FILE_MAGIC|)
    case Failed(e) => Err(MagicUnread(e))
    case Parsed(head, t) =>
      if head != N.FILE_MAGIC then Err(BadMagic)
      else
        match Take(t, 32)
        case Failed(e) => Err(MagicUnread(e))
        case Parsed(tail, u) =>
          if HexEncode(S.md5(N.FILE_MAGIC)) != tail then Err(BadMagicChecksum) else Ok(u)
  }

  /** A top-level object is a metadata dict, a data dict or a mistake. */
  datatype Kind = MetaDict(members: seq<Pair>) | DataDict(payload: Option<bytes>) | Mistake(e: Error)

  function KindOf(v: Value): Kind {
    if !v.Dict? then Mistake(NotADict)
    else
      match Lookup(v, N.TYPE)
      case Some(Str(t)) =>
        if t == N.METADATA then MetaDict(v.members)
        else if t == N.DATA then
          DataDict(match Lookup(v, N.DATA) case Some(Blob(b)) => Some(b) case _ => None)
        else Mistake(UnknownType)
      case _ => Mistake(NoType)
  }

  predicate IsPayload(b: bytes) {
    b != [] && |b| % BLOCK == 0
  }

  ghost predicate Payloads(chunks: seq<bytes>) {
    forall i :: 0 <= i < |chunks| ==> IsPayload(chunks[i])
  }

  /** All the metadata so far, the metadata as it stood at the first data dict,
      and the payloads of the data dicts. */
  datatype Gathered = Gathered(meta: Meta, head: Option<Meta>, payloads: seq<bytes>)

  const START := Gathered(DEFAULTS, None, [])

  function Gather(g: Gathered, v: Value): Result<Gathered> {
    match KindOf(v)
    case Mistake(e) => Err(e)
    case MetaDict(ms) =>
      var m :- AbsorbAll(g.meta, ms);
      Ok(g.(meta := m))
    case DataDict(payload) =>
      if g.head == None && CheckModes(g.meta).Some? then Err(CheckModes(g.meta).value)
      else
        match payload
        case None => Err(NoPayload)
        case Some(b) =>
          if !IsPayload(b) then Err(DataUnaligned)
          else Ok(Gathered(g.meta, if g.head == None then Some(g.meta) else g.head, g.payloads + [b]))
  }

  function Collect(s: bytes, g: Gathered): Result<Gathered>
    decreases |s|
  {
    match Next(s)
    case Done => Ok(g)
    case Broken(e) => Err(Stream(e))
    case Object(v, t) =>
      var g' :- Gather(g, v);
      Collect(t, g')
  }

  /** One-shot decoding of all payloads together. */
  function Decoded(S: Suite, k: CipherKey, compress: bool, ct: bytes): Option<bytes>
    requires k.Valid() && Cbc.Aligned(ct)
  {
    match Pkcs7.Unpadded(Cbc.Decrypt(S, k.key, k.iv, ct))
    case None => None
    case Some(x) =>
      if !compress then Some(x) else match S.LzRead(x) case LzOk(o) => Some(o) case LzError => None
  }

  function FinalCheck(S: Suite, m: Meta, out: bytes): bool {
    m.plaintextMD5 == [] || m.plaintextMD5 == HexEncode(S.md5(out))
  }

  function Finished(S: Suite, opt: Options, g: Gathered): Option<bytes>
    requires Cbc.Aligned(Flatten(g.payloads))
  {
    match g.head
    case None => None
    case Some(h) =>
      match Recover(S, opt, h)
      case Err(_) => None
      case Ok(session) =>
        match Decoded(S, DataKey(S, session), h.compress == 1, Flatten(g.payloads))
        case None => None
        case Some(out) => if FinalCheck(S, g.meta, out) then Some(out) else None
  }

  // -- Properties of collecting --

  lemma {:induction false} PayloadsAligned(chunks: seq<bytes>)
    requires Payloads(chunks)
    ensures Cbc.Aligned(Flatten(chunks))
    ensures chunks != [] ==> |Flatten(chunks)| >= BLOCK
  {
    if chunks != [] {
      PayloadsAligned(chunks[1..]);
      assert IsPayload(chunks[0]);
    }
  }

  /** Later objects never change what was fixed at the first data dict, and
      only add payloads. */
  lemma {:induction false} CollectKeeps(s: bytes, g: Gathered)
    requires Payloads(g.payloads)
    ensures match Collect(s, g)
            case Err(_) => true
            case Ok(r) =>
              && (g.head.Some? ==> r.head == g.head)
              && g.payloads <= r.payloads
              && Payloads(r.payloads)
    decreases |s|
  {
    hide CheckModes, AbsorbAll;
    match Next(s)
    case Object(v, t) =>
      match Gather(g, v) {
        case Ok(g') => CollectKeeps(t, g');
        case Err(_) =>
      }
    case _ =>
  }

  // -- The plaintext of a stream --

  ghost function PlaintextFrom(S: Suite, opt: Options, s: bytes, g: Gathered): Option<bytes>
    requires Payloads(g.payloads)
  {
    match Collect(s, g)
    case Err(_) => None
    case Ok(r) => CollectKeeps(s, g); PayloadsAligned(r.payloads); Finished(S, opt, r)
  }

  /** The plaintext of a stream, or None when the stream is not acceptable. */
  ghost function Plaintext(S: Suite, opt: Options, s: bytes): Option<bytes> {
    match AfterMagic(S, s)
    case Err(_) => None
    case Ok(body) => PlaintextFrom(S, opt, body, START)
  }

  lemma {:induction false} FlattenExtends(a: seq<bytes>, b: seq<bytes>)
    requires a <= b && Payloads(b)
    ensures Cbc.Aligned(Flatten(a)) && Cbc.Aligned(Flatten(b[|a|..])) && Cbc.Aligned(Flatten(b))
    ensures Flatten(b) == Flatten(a) + Flatten(b[|a|..])
    ensures |a| < |b| ==> |Flatten(b[|a|..])| >= BLOCK
  {
    PayloadsAligned(b);
    PayloadsAligned(a);
    PayloadsAligned(b[|a|..]);
    FlattenAppend(a, b[|a|..]);
    assert b == a + b[|a|..];
  }

  /** A stream whose key cannot be recovered has no plaintext. */
  lemma UnrecoveredRejects(S: Suite, opt: Options, s: bytes, g: Gathered)
    requires Payloads(g.payloads) && g.head.Some? && Recover(S, opt, g.head.value).Err?
    ensures PlaintextFrom(S, opt, s, g) == None
  {
    hide Family.Lawful, Recover;
    CollectKeeps(s, g);
  }

  /** If the LZ4 reader asks for no more within the plaintext of the first chunks
      although more chunks follow, a draining reader rejects the whole. */
  lemma StoppedRejects(S: Suite, opt: Options, s: bytes, g: Gathered, session: bytes, chunks: seq<bytes>)
    requires Payloads(g.payloads) && chunks < g.payloads && Cbc.Aligned(Flatten(chunks))
    requires g.head.Some? && g.head.value.compress == 1 && Recover(S, opt, g.head.value) == Ok(session)
    requires S.LzDrains()
    requires var k := DataKey(S, session);
             exists n :: 0 <= n <= |Flatten(chunks)| && S.lzHalts(Cbc.Decrypt(S, k.key, k.iv, Flatten(chunks))[..n])
    ensures PlaintextFrom(S, opt, s, g) == None
  {
    hide Family.Lawful, Recover, DataKey, Cbc.Decrypt, Pkcs7.Unpadded;
    CollectKeeps(s, g);
    match Collect(s, g)
    case Err(_) =>
    case Ok(r) =>
      var k := DataKey(S, session);
      FlattenExtends(chunks, r.payloads);
      var early, more := Flatten(chunks), Flatten(r.payloads[|chunks|..]);
      Cbc.DecryptAppend(S, k.key, k.iv, early, more);
      var plain := Cbc.Decrypt(S, k.key, k.iv, Flatten(r.payloads));
      var front := Cbc.Decrypt(S, k.key, k.iv, early);
      assert front <= plain && |plain| >= |front| + BLOCK;
      UnpadKeepsFront(plain, front);
      match Pkcs7.Unpadded(plain)
      case None =>
      case Some(x) =>
        var n :| 0 <= n <= |early| && S.lzHalts(front[..n]);
        assert x[..n] == front[..n];
  }

  lemma UnpadKeepsFront(plain: bytes, front: bytes)
    requires front <= plain && |plain| >= |front| + BLOCK
    ensures match Pkcs7.Unpadded(plain) case None => true case Some(x) => front <= x
  {
    match Pkcs7.Unpadded(plain)
    case None =>
    case Some(x) =>
      Pkcs7.UnpadInvertsPad(x, plain);
      assert plain[..|x|] == x;
      assert front == plain[..|front|] == x[..|front|];
  }

  // -- Inspect --

  function InspectFrom(s: bytes, m: Meta): Result<Meta>
    decreases |s|
  {
    match Next(s)
    case Done => Ok(m)
    case Broken(e) => Err(Stream(e))
    case Object(v, t) =>
      match KindOf(v)
      case Mistake(e) => Err(e)
      case DataDict(_) => Ok(m)
      case MetaDict(ms) =>
        var m' :- AbsorbAll(m, ms);
        InspectFrom(t, m')
  }

  function Inspected(S: Suite, s: bytes): Result<Meta> {
    var body :- AfterMagic(S, s);
    InspectFrom(body, DEFAULTS)
  }

  /** The metadata that govern the payload are those Inspect reports, and their
      modes are supported. */
  lemma {:induction false} HeadIsInspected(s: bytes, g: Gathered)
    requires g.head == None
    ensures match Collect(s, g)
            case Err(_) => true
            case Ok(r) =>
              r.head.Some? ==> InspectFrom(s, g.meta) == Ok(r.head.value) && CheckModes(r.head.value) == None
    ensures Collect(s, g).Ok? ==> InspectFrom(s, g.meta).Ok?
    decreases |s|
  {
    hide CheckModes, AbsorbAll, Payloads;
    match Next(s)
    case Object(v, t) =>
      match KindOf(v) {
        case MetaDict(ms) =>
          match AbsorbAll(g.meta, ms) {
            case Ok(m) => HeadIsInspected(t, g.(meta := m));
            case Err(_) =>
          }
        case DataDict(_) =>
          match Gather(g, v) {
            case Ok(g') => HeadStays(t, g');
            case Err(_) =>
          }
        case Mistake(_) =>
      }
    case _ =>
  }

  lemma {:induction false} HeadStays(s: bytes, g: Gathered)
    requires g.head.Some?
    ensures match Collect(s, g) case Err(_) => true case Ok(r) => r.head == g.head
    decreases |s|
  {
    hide CheckModes, AbsorbAll;
    match Next(s)
    case Object(v, t) =>
      match Gather(g, v) {
        case Ok(g') => HeadStays(t, g');
        case Err(_) =>
      }
    case _ =>
  }

  /** What acceptance means: Inspect succeeds with a supported mode, the key is
      recovered under the inspected metadata, the plaintext is the one-shot
      decoding of all payloads under that key, and the last digest recorded
      anywhere in the stream, if there is one, is that of the plaintext. */
  lemma AcceptedStream(S: Suite, opt: Options, s: bytes) returns (head: Meta, session: bytes, g: Gathered)
    requires Plaintext(S, opt, s).Some?
    ensures Inspected(S, s) == Ok(head) && head.encrypt == 1 && (head.compress == 0 || head.compress == 1)
    ensures Recover(S, opt, head) == Ok(session)
    ensures AfterMagic(S, s).Ok? && Collect(AfterMagic(S, s).value, START) == Ok(g) && Cbc.Aligned(Flatten(g.payloads))
    ensures Decoded(S, DataKey(S, session), head.compress == 1, Flatten(g.payloads)) == Plaintext(S, opt, s)
    ensures g.meta.plaintextMD5 == [] || g.meta.plaintextMD5 == HexEncode(S.md5(Plaintext(S, opt, s).value))
  {
    hide AfterMagic, Collect, Recover, Decoded, InspectFrom, DataKey, Family.Lawful;
    var body := AfterMagic(S, s).value;
    g := Collect(body, START).value;
    CollectKeeps(body, START);
    PayloadsAligned(g.payloads);
    HeadIsInspected(body, START);
    head := g.head.value;
    session := Recover(S, opt, head).value;
  }
}
