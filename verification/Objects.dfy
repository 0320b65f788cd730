/** A stream as the list of its top-level objects: a second description of what
    Decrypt and Inspect accept, which looks at the whole list at once. */
module Objects {
  import opened Bytes
  import opened TextCodecs
  import opened Primitives
  import opened Wire
  import opened Metadata
  import opened Envelope
  import opened Meaning
  import opened Exits
  import Cbc
  import Pkcs7
  import N = Names

  /** All objects up to the end of the stream or the first broken read. */
  datatype Read = Read(objects: seq<Value>, end: Option<WireError>)

  function AllObjects(s: bytes): Read
    decreases |s|
  {
    match Next(s)
    case Done => Read([], None)
    case Broken(e) => Read([], Some(e))
    case Object(v, t) => var r := AllObjects(t); Read([v] + r.objects, r.end)
  }

  /** A dict whose first "type" is the string `name`. */
  predicate Typed(v: Value, name: bytes) {
    v.Dict? && Lookup(v, N.TYPE) == Some(Str(name))
  }

  predicate IsMeta(v: Value) {
    Typed(v, N.METADATA)
  }

  predicate IsData(v: Value) {
    Typed(v, N.DATA)
  }

  /** A data dict whose first "data" is a blob of one or more whole blocks. */
  predicate IsGoodData(v: Value) {
    IsData(v) && match Lookup(v, N.DATA) case Some(Blob(b)) => b != [] && |b| % 16 == 0 case _ => false
  }

  predicate AllGood(os: seq<Value>) {
    forall i :: 0 <= i < |os| ==> IsMeta(os[i]) || IsGoodData(os[i])
  }

  /** The members of all metadata dicts in a row. */
  function MetaMembers(os: seq<Value>): seq<Pair> {
    if os == [] then []
    else (if IsMeta(os[0]) then os[0].members else []) + MetaMembers(os[1..])
  }

  /** The blobs of all data dicts. */
  function Blobs(os: seq<Value>): seq<bytes> {
    if os == [] then []
    else (if IsGoodData(os[0]) then [Lookup(os[0], N.DATA).value.data] else []) + Blobs(os[1..])
  }

  /** Where the first data dict stands. */
  function FirstData(os: seq<Value>): (i: nat)
    ensures i <= |os| && (i < |os| ==> IsData(os[i])) && forall j :: 0 <= j < i ==> !IsData(os[j])
  {
    if os == [] || IsData(os[0]) then 0 else FirstData(os[1..]) + 1
  }

  // -- One object --

  /** What kind of object stands first, and what it is refused as. */
  lemma KindIs(v: Value)
    ensures IsMeta(v) ==> KindOf(v) == MetaDict(v.members)
    ensures IsGoodData(v) ==> KindOf(v) == DataDict(Some(Lookup(v, N.DATA).value.data))
    ensures IsData(v) && !IsGoodData(v)
            ==> KindOf(v).DataDict? && (KindOf(v).payload.Some? ==> !IsPayload(KindOf(v).payload.value))
    ensures !v.Dict? ==> KindOf(v) == Mistake(NotADict)
    ensures v.Dict? && (Lookup(v, N.TYPE) == None || !Lookup(v, N.TYPE).value.Str?) ==> KindOf(v) == Mistake(NoType)
    ensures v.Dict? && !IsMeta(v) && !IsData(v) && Lookup(v, N.TYPE).Some? && Lookup(v, N.TYPE).value.Str?
            ==> KindOf(v) == Mistake(UnknownType)
  {
    N.FieldNames();
  }

  /** What is wrong with an object of neither type. */
  function WhyBad(v: Value): Error {
    if !v.Dict? then NotADict
    else if Lookup(v, N.TYPE).Some? && Lookup(v, N.TYPE).value.Str? then UnknownType
    else NoType
  }

  /** A first object that is no dict, has no string type, or a type other than the
      two: Inspect and the whole of Decrypt refuse the stream, and with that error. */
  lemma BadObjectRefused(S: Suite, opt: Options, s: bytes, v: Value, t: bytes, m: Meta, g: Gathered)
    requires Next(s) == Object(v, t) && !IsMeta(v) && !IsData(v) && Payloads(g.payloads)
    ensures var why := WhyBad(v);
            && InspectFrom(s, m) == Err(why) && HeadError(s, m) == Some(why)
            && Collect(s, g) == Err(why) && PlaintextFrom(S, opt, s, g) == None
  {
    hide KindOf, Next, Family.Lawful;
    KindIs(v);
  }

  /** What the object at hand makes Decrypt do with an open pipe: a bad object makes
      it return past the pipe, a data dict without a blob or without whole blocks
      makes it abort, each with its own error. */
  lemma BadObjectCalls(S: Suite, k: CipherKey, s: bytes, v: Value, t: bytes, m: Meta, chunks: seq<bytes>)
    requires Next(s) == Object(v, t) && k.Valid() && Payloads(chunks)
    ensures !IsMeta(v) && !IsData(v)
            ==> Script(S, k, s, m, chunks) == [Walk(WhyBad(v))]
    ensures IsData(v) && !(Lookup(v, N.DATA).Some? && Lookup(v, N.DATA).value.Blob?)
            ==> Script(S, k, s, m, chunks) == [Quit(NoPayload)]
    ensures IsData(v) && Lookup(v, N.DATA).Some? && Lookup(v, N.DATA).value.Blob? && !IsGoodData(v)
            ==> Script(S, k, s, m, chunks) == [Quit(DataUnaligned)]
  {
    hide Next, Family.Lawful, HeldBack;
    N.FieldNames();
  }

  // -- The whole list --

  lemma ListStep(v: Value, os: seq<Value>)
    ensures MetaMembers([v] + os) == (if IsMeta(v) then v.members else []) + MetaMembers(os)
    ensures Blobs([v] + os) == (if IsGoodData(v) then [Lookup(v, N.DATA).value.data] else []) + Blobs(os)
    ensures FirstData([v] + os) == if IsData(v) then 0 else FirstData(os) + 1
    ensures AllGood([v] + os) <==> (IsMeta(v) || IsGoodData(v)) && AllGood(os)
  {
    var all := [v] + os;
    assert all[1..] == os;
    if AllGood(all) {
      forall i | 0 <= i < |os| ensures IsMeta(os[i]) || IsGoodData(os[i]) {
        assert all[i + 1] == os[i];
      }
    }
  }

  /** Are these the metadata at the first data dict, if there is one, and do they
      have supported modes? */
  predicate HeadIs(m: Meta, os: seq<Value>, head: Option<Meta>) {
    var i := FirstData(os);
    if i == |os| then head == None
    else head.Some? && AbsorbAll(m, MetaMembers(os[..i])) == Ok(head.value) && CheckModes(head.value) == None
  }

  /** What a list of objects adds up to, after what is in `g`. */
  predicate Lists(s: bytes, g: Gathered, r: Gathered) {
    var os := AllObjects(s).objects;
    && AllObjects(s).end == None
    && AllGood(os)
    && AbsorbAll(g.meta, MetaMembers(os)) == Ok(r.meta)
    && r.payloads == g.payloads + Blobs(os)
    && (if g.head.Some? then r.head == g.head else HeadIs(g.meta, os, r.head))
  }

  lemma NoMembers(m: Meta)
    ensures AbsorbAll(m, []) == Ok(m)
  {
  }

  lemma HeadStep(m: Meta, v: Value, os: seq<Value>, head: Option<Meta>)
    ensures IsMeta(v) && !IsData(v)
            ==> (HeadIs(m, [v] + os, head) <==>
                 if FirstData(os) == |os| then head == None
                 else AbsorbAll(m, v.members).Ok? && HeadIs(AbsorbAll(m, v.members).value, os, head))
    ensures IsData(v) ==> (HeadIs(m, [v] + os, head) <==> head == Some(m) && CheckModes(m) == None)
  {
    hide CheckModes, AbsorbAll, MetaMembers;
    ListStep(v, os);
    var i := FirstData(os);
    if IsData(v) {
      assert ([v] + os)[..0] == [];
      NoMetas();
      NoMembers(m);
    } else if IsMeta(v) {
      ListStep(v, os[..i]);
      assert ([v] + os)[..i + 1] == [v] + os[..i];
      AbsorbAppend(m, v.members, MetaMembers(os[..i]));
    }
  }

  lemma NoMetas()
    ensures MetaMembers([]) == [] && Blobs([]) == [] && AllGood([]) && FirstData([]) == 0
  {
  }

  lemma MetaLists(s: bytes, g: Gathered, r: Gathered, v: Value, t: bytes)
    requires Next(s) == Object(v, t) && IsMeta(v) && !IsData(v)
    ensures Lists(s, g, r) <==>
            AbsorbAll(g.meta, v.members).Ok? && Lists(t, g.(meta := AbsorbAll(g.meta, v.members).value), r)
  {
    hide CheckModes, AbsorbAll, MetaMembers, AllGood, HeadIs, Blobs, FirstData, Next;
    var os := AllObjects(t).objects;
    ListStep(v, os);
    HeadStep(g.meta, v, os, r.head);
    HeadEmpty(os, r.head);
    AbsorbAppend(g.meta, v.members, MetaMembers(os));
    assert [] + Blobs(os) == Blobs(os);
  }

  lemma HeadEmpty(os: seq<Value>, head: Option<Meta>)
    ensures FirstData(os) == |os| ==> forall m :: HeadIs(m, os, head) <==> head == None
  {
  }

  lemma DataLists(s: bytes, g: Gathered, r: Gathered, v: Value, t: bytes, b: bytes)
    requires Next(s) == Object(v, t) && IsGoodData(v) && !IsMeta(v) && Lookup(v, N.DATA) == Some(Blob(b))
    ensures Lists(s, g, r) <==>
            && (g.head == None ==> CheckModes(g.meta) == None)
            && Lists(t, Gathered(g.meta, if g.head == None then Some(g.meta) else g.head, g.payloads + [b]), r)
  {
    hide CheckModes, AbsorbAll, MetaMembers, Typed, AllGood, HeadIs, Blobs, FirstData, Next;
    var os := AllObjects(t).objects;
    ListStep(v, os);
    HeadStep(g.meta, v, os, r.head);
    assert [] + MetaMembers(os) == MetaMembers(os);
    assert g.payloads + ([b] + Blobs(os)) == (g.payloads + [b]) + Blobs(os);
  }

  /** What is gathered object by object is what the list as a whole has. */
  lemma {:induction false} CollectIff(s: bytes, g: Gathered, r: Gathered)
    ensures Collect(s, g) == Ok(r) <==> Lists(s, g, r)
    decreases |s|
  {
    hide KindOf, CheckModes, AbsorbAll, Typed, Lists, IsGoodData;
    match Next(s)
    case Done =>
      EndLists(s, g, r);
    case Broken(_) =>
      EndLists(s, g, r);
    case Object(v, t) =>
      KindIs(v);
      TypesDiffer(v);
      if IsMeta(v) {
        MetaLists(s, g, r, v, t);
        if AbsorbAll(g.meta, v.members).Ok? {
          CollectIff(t, g.(meta := AbsorbAll(g.meta, v.members).value), r);
        }
      } else if IsGoodData(v) {
        var b := Lookup(v, N.DATA).value.data;
        DataLists(s, g, r, v, t, b);
        CollectIff(t, Gathered(g.meta, if g.head == None then Some(g.meta) else g.head, g.payloads + [b]), r);
      } else {
        BadLists(s, g, r, v, t);
      }
  }

  lemma TypesDiffer(v: Value)
    ensures !(IsMeta(v) && IsData(v)) && (IsGoodData(v) ==> IsData(v))
    ensures IsGoodData(v)
            ==> Lookup(v, N.DATA).Some? && Lookup(v, N.DATA).value.Blob? && IsPayload(Lookup(v, N.DATA).value.data)
  {
    N.FieldNames();
  }

  lemma EndLists(s: bytes, g: Gathered, r: Gathered)
    requires !Next(s).Object?
    ensures Lists(s, g, r) <==> Next(s) == Done && r == g
  {
    hide Next;
    NoMembers(g.meta);
    assert g.payloads + [] == g.payloads;
  }

  lemma BadLists(s: bytes, g: Gathered, r: Gathered, v: Value, t: bytes)
    requires Next(s) == Object(v, t) && !IsMeta(v) && !IsGoodData(v)
    ensures !Lists(s, g, r)
  {
    hide Next, Typed;
    ListStep(v, AllObjects(t).objects);
  }

  // -- What Decrypt accepts --

  /** The magic and its MD5 in hexadecimal stand in front of the objects, and
      nothing else is let past. */
  lemma AfterMagicIff(S: Suite, s: bytes, body: bytes)
    ensures AfterMagic(S, s) == Ok(body) <==> s == N.FILE_MAGIC + HexEncode(S.md5(N.FILE_MAGIC)) + body
  {
    var hex := HexEncode(S.md5(N.FILE_MAGIC));
    assert |S.md5(N.FILE_MAGIC)| == 16;
    hide Family.Lawful, HexEncode;
    if s == N.FILE_MAGIC + hex + body {
      assert s[..|N.FILE_MAGIC|] == N.FILE_MAGIC && s[|N.FILE_MAGIC|..] == hex + body;
      assert (hex + body)[..32] == hex && (hex + body)[32..] == body;
    }
    if AfterMagic(S, s) == Ok(body) {
      var t := s[|N.FILE_MAGIC|..];
      assert s == N.FILE_MAGIC + t && t == t[..32] + t[32..];
    }
  }

  /** The parts by which a stream is accepted. */
  datatype Parts = Parts(body: bytes, head: Meta, last: Meta, session: bytes, k: CipherKey, payload: bytes)

  /** A stream whose plaintext is `p`, described through its objects: the magic in
      front; metadata dicts and data dicts, each of which has one or more whole
      blocks, and nothing else; at the first data dict a supported mode and a key
      that can be recovered; the blobs together, deciphered under the key of that
      session, a padded payload that is `p` or an LZ4 frame of it; and the last
      recorded MD5, if there is one, that of `p`. */
  ghost predicate Accepts(S: Suite, opt: Options, s: bytes, p: bytes, q: Parts) {
    var os := AllObjects(q.body).objects;
    var i := FirstData(os);
    && s == N.FILE_MAGIC + HexEncode(S.md5(N.FILE_MAGIC)) + q.body
    && AllObjects(q.body).end == None && AllGood(os)
    && i < |os| && AbsorbAll(DEFAULTS, MetaMembers(os[..i])) == Ok(q.head)
    && q.head.encrypt == 1 && (q.head.compress == 0 || q.head.compress == 1)
    && Recover(S, opt, q.head) == Ok(q.session) && KeyOf(S, q.session, [], 1, q.k)
    && Cbc.Aligned(Flatten(Blobs(os)))
    && Cbc.Decrypt(S, q.k.key, q.k.iv, Flatten(Blobs(os))) == Pkcs7.Pad(q.payload)
    && (if q.head.compress == 1 then S.LzRead(q.payload) == LzOk(p) else q.payload == p)
    && AbsorbAll(DEFAULTS, MetaMembers(os)) == Ok(q.last)
    && (q.last.plaintextMD5 == [] || q.last.plaintextMD5 == HexEncode(S.md5(p)))
  }

  /** Decrypt's plaintext is exactly what this description accepts. */
  lemma PlaintextIff(S: Suite, opt: Options, s: bytes, p: bytes)
    ensures Plaintext(S, opt, s) == Some(p) <==> exists q :: Accepts(S, opt, s, p, q)
  {
    if Plaintext(S, opt, s) == Some(p) {
      var q := PartsOf(S, opt, s, p);
    }
    if exists q :: Accepts(S, opt, s, p, q) {
      var q :| Accepts(S, opt, s, p, q);
      AcceptedHas(S, opt, s, p, q);
    }
  }

  lemma DecodedIff(S: Suite, k: CipherKey, compress: bool, ct: bytes, x: bytes, p: bytes)
    requires k.Valid() && Cbc.Aligned(ct)
    ensures Cbc.Decrypt(S, k.key, k.iv, ct) == Pkcs7.Pad(x) && (if compress then S.LzRead(x) == LzOk(p) else x == p)
            ==> Decoded(S, k, compress, ct) == Some(p)
    ensures Decoded(S, k, compress, ct) == Some(p)
            ==> Pkcs7.Unpadded(Cbc.Decrypt(S, k.key, k.iv, ct)).Some?
                && var y := Pkcs7.Unpadded(Cbc.Decrypt(S, k.key, k.iv, ct)).value;
                   Cbc.Decrypt(S, k.key, k.iv, ct) == Pkcs7.Pad(y)
                   && (if compress then S.LzRead(y) == LzOk(p) else y == p)
  {
    hide Family.Lawful, Cbc.Decrypt, Pkcs7.Unpadded, Pkcs7.Pad;
    var plain := Cbc.Decrypt(S, k.key, k.iv, ct);
    Pkcs7.UnpadInvertsPad(x, plain);
    if Pkcs7.Unpadded(plain).Some? {
      Pkcs7.UnpadInvertsPad(Pkcs7.Unpadded(plain).value, plain);
    }
  }

  lemma AcceptedHas(S: Suite, opt: Options, s: bytes, p: bytes, q: Parts)
    requires Accepts(S, opt, s, p, q)
    ensures Plaintext(S, opt, s) == Some(p)
  {
    hide Family.Lawful, AfterMagic, Cbc.Decrypt, Pkcs7.Pad, Decoded, Recover, AbsorbAll, MetaMembers, Collect, AllGood,
         DataKey, HexEncode, KeyOf, AllObjects, FirstData, Blobs;
    AfterMagicIff(S, s, q.body);
    var os := AllObjects(q.body).objects;
    var r := Gathered(q.last, Some(q.head), Blobs(os));
    assert [] + Blobs(os) == Blobs(os);
    CollectIff(q.body, START, r);
    CollectKeeps(q.body, START);
    PayloadsAligned(r.payloads);
    KeysAre(S, q.session, [], q.k);
    DecodedIff(S, q.k, q.head.compress == 1, Flatten(Blobs(os)), q.payload, p);
  }

  lemma PartsOf(S: Suite, opt: Options, s: bytes, p: bytes) returns (q: Parts)
    requires Plaintext(S, opt, s) == Some(p)
    ensures Accepts(S, opt, s, p, q)
  {
    hide Family.Lawful, AfterMagic, Cbc.Decrypt, Pkcs7.Pad, Decoded, Recover, AbsorbAll, MetaMembers, Collect, AllGood,
         DataKey, HexEncode, KeyOf, AllObjects, Blobs, Pkcs7.Unpadded;
    var body := AfterMagic(S, s).value;
    AfterMagicIff(S, s, body);
    CollectKeeps(body, START);
    var r := Collect(body, START).value;
    CollectIff(body, START, r);
    PayloadsAligned(r.payloads);
    var os := AllObjects(body).objects;
    assert [] + Blobs(os) == Blobs(os);
    var session := Recover(S, opt, r.head.value).value;
    var k := DataKey(S, session);
    KeysAre(S, session, [], k);
    DecodedIff(S, k, r.head.value.compress == 1, Flatten(r.payloads), [], p);
    var payload := Pkcs7.Unpadded(Cbc.Decrypt(S, k.key, k.iv, Flatten(r.payloads))).value;
    q := Parts(body, r.head.value, r.meta, session, k, payload);
  }

  /** A recorded hash that does not match leaves no plaintext: that of the password,
      where a password is used, or that of the session key that it unwraps. */
  lemma MismatchRejects(S: Suite, opt: Options, s: bytes, h: Head)
    requires HeadOf(S, s) == Some(h)
    requires || (ByPassword(opt, h.meta) && !Matches(S, h.meta.key1Hash, opt.password.value))
             || (exists sk :: Unwrapped(S, opt, h.meta, sk) && !Matches(S, h.meta.sessionKeyHash, sk))
    ensures Plaintext(S, opt, s) == None
  {
    hide Family.Lawful, Plaintext, HeadOf, Recover, Unwrapped, CheckModes;
    RecoverRefuses(S, opt, h.meta);
    if Plaintext(S, opt, s).Some? {
      var o, whole := PlaintextOpens(S, opt, s);
    }
  }

  // -- What Inspect returns --

  /** Does Inspect get as far as object `i`: nothing but metadata dicts in front of
      it, and there a data dict or the end of the stream? */
  predicate StopsAt(s: bytes, i: nat) {
    var os := AllObjects(s).objects;
    && i <= |os|
    && (forall j :: 0 <= j < i ==> IsMeta(os[j]))
    && (if i < |os| then IsData(os[i]) else AllObjects(s).end == None)
  }

  predicate InspectsTo(s: bytes, m: Meta, r: Meta, i: nat) {
    StopsAt(s, i) && AbsorbAll(m, MetaMembers(AllObjects(s).objects[..i])) == Ok(r)
  }

  /** Inspect returns the metadata of all dicts in front of the first data dict,
      whatever comes after it. */
  lemma {:induction false} InspectIff(s: bytes, m: Meta, r: Meta)
    ensures InspectFrom(s, m) == Ok(r) <==> exists i: nat :: InspectsTo(s, m, r, i)
    decreases |s|
  {
    hide KindOf, AbsorbAll, InspectsTo;
    match Next(s)
    case Object(v, t) =>
      KindIs(v);
      TypesDiffer(v);
      if IsMeta(v) {
        if AbsorbAll(m, v.members).Ok? {
          InspectIff(t, AbsorbAll(m, v.members).value, r);
        }
        InspectStep(s, m, r, v, t);
      } else {
        InspectStops(s, m, r);
      }
    case _ => InspectStops(s, m, r);
  }

  lemma InspectStops(s: bytes, m: Meta, r: Meta)
    requires Next(s).Object? ==> !IsMeta(Next(s).v)
    ensures (exists i: nat :: InspectsTo(s, m, r, i))
       <==> r == m && (if Next(s).Object? then IsData(Next(s).v) else Next(s) == Done)
  {
    hide Next, AbsorbAll, Typed;
    NoMetas();
    NoMembers(m);
    assert AllObjects(s).objects[..0] == [];
    if Next(s).Object? {
      assert AllObjects(s).objects[0] == Next(s).v;
    }
    forall i: nat
      ensures StopsAt(s, i) <==> i == 0 && (if Next(s).Object? then IsData(Next(s).v) else Next(s) == Done)
    {
      assert i > 0 && StopsAt(s, i) ==> 0 < i <= |AllObjects(s).objects|;
    }
    assert InspectsTo(s, m, r, 0) <==> r == m && StopsAt(s, 0);
  }

  lemma StopsShift(s: bytes, v: Value, t: bytes, i: nat)
    requires Next(s) == Object(v, t) && IsMeta(v)
    ensures StopsAt(s, i + 1) <==> StopsAt(t, i)
  {
    hide Next, Typed;
    var os := AllObjects(t).objects;
    assert AllObjects(s).objects == [v] + os;
    if StopsAt(s, i + 1) {
      forall j | 0 <= j < i ensures IsMeta(os[j]) {
        assert IsMeta(([v] + os)[j + 1]);
      }
    }
  }

  lemma InspectStep(s: bytes, m: Meta, r: Meta, v: Value, t: bytes)
    requires Next(s) == Object(v, t) && IsMeta(v) && !IsData(v)
    ensures (exists i: nat :: InspectsTo(s, m, r, i))
       <==> AbsorbAll(m, v.members).Ok? && exists i: nat :: InspectsTo(t, AbsorbAll(m, v.members).value, r, i)
  {
    hide Next, AbsorbAll, MetaMembers, InspectsTo, AllObjects;
    var first := AbsorbAll(m, v.members);
    NotAtFirst(s, m, r, v, t);
    if exists i: nat :: InspectsTo(s, m, r, i) {
      var i: nat :| InspectsTo(s, m, r, i);
      assert i != 0;
      InspectShift(s, m, r, v, t, i - 1);
    }
    if first.Ok? && exists i: nat :: InspectsTo(t, first.value, r, i) {
      var i: nat :| InspectsTo(t, first.value, r, i);
      InspectShift(s, m, r, v, t, i);
    }
  }

  lemma NotAtFirst(s: bytes, m: Meta, r: Meta, v: Value, t: bytes)
    requires Next(s) == Object(v, t) && !IsData(v)
    ensures !InspectsTo(s, m, r, 0)
  {
    hide Next, AbsorbAll, MetaMembers, Typed;
  }

  lemma InspectShift(s: bytes, m: Meta, r: Meta, v: Value, t: bytes, i: nat)
    requires Next(s) == Object(v, t) && IsMeta(v) && !IsData(v)
    ensures InspectsTo(s, m, r, i + 1)
       <==> AbsorbAll(m, v.members).Ok? && InspectsTo(t, AbsorbAll(m, v.members).value, r, i)
  {
    hide Next, AbsorbAll, MetaMembers;
    StopsShift(s, v, t, i);
    var os := AllObjects(t).objects;
    if i <= |os| {
      ListStep(v, os[..i]);
      assert AllObjects(s).objects[..i + 1] == [v] + os[..i];
      AbsorbAppend(m, v.members, MetaMembers(os[..i]));
    }
  }

  /** The hook is called exactly when a data dict is reached behind metadata dicts
      alone, whose fields up to there ask for encryption and for LZ4 or nothing. */
  lemma {:induction false} HeadIff(s: bytes, m: Meta, r: Meta)
    ensures (HeadFrom(s, m).Some? && HeadFrom(s, m).value.meta == r) <==>
            exists i: nat :: InspectsTo(s, m, r, i) && i < |AllObjects(s).objects|
    decreases |s|
  {
    hide KindOf, AbsorbAll, InspectsTo;
    match Next(s)
    case Object(v, t) =>
      KindIs(v);
      TypesDiffer(v);
      if IsMeta(v) {
        if AbsorbAll(m, v.members).Ok? {
          HeadIff(t, AbsorbAll(m, v.members).value, r);
        }
        HeadShift(s, m, r, v, t);
      } else {
        HeadStops(s, m, r);
      }
    case _ => HeadStops(s, m, r);
  }

  lemma HeadStops(s: bytes, m: Meta, r: Meta)
    requires Next(s).Object? ==> !IsMeta(Next(s).v)
    ensures (exists i: nat :: InspectsTo(s, m, r, i) && i < |AllObjects(s).objects|)
       <==> r == m && Next(s).Object? && IsData(Next(s).v)
  {
    hide Next, AbsorbAll, Typed;
    NoMetas();
    NoMembers(m);
    assert AllObjects(s).objects[..0] == [];
    if Next(s).Object? {
      assert AllObjects(s).objects[0] == Next(s).v;
    }
    forall i: nat ensures StopsAt(s, i) && i < |AllObjects(s).objects| ==> i == 0 {
      assert i > 0 && StopsAt(s, i) ==> 0 < i <= |AllObjects(s).objects|;
    }
    assert InspectsTo(s, m, r, 0) <==> r == m && StopsAt(s, 0);
  }

  lemma HeadShift(s: bytes, m: Meta, r: Meta, v: Value, t: bytes)
    requires Next(s) == Object(v, t) && IsMeta(v) && !IsData(v)
    ensures (exists i: nat :: InspectsTo(s, m, r, i) && i < |AllObjects(s).objects|)
       <==> AbsorbAll(m, v.members).Ok?
            && exists i: nat :: InspectsTo(t, AbsorbAll(m, v.members).value, r, i) && i < |AllObjects(t).objects|
  {
    hide Next, AbsorbAll, MetaMembers, InspectsTo;
    var first := AbsorbAll(m, v.members);
    NotAtFirst(s, m, r, v, t);
    if exists i: nat :: InspectsTo(s, m, r, i) && i < |AllObjects(s).objects| {
      var i: nat :| InspectsTo(s, m, r, i) && i < |AllObjects(s).objects|;
      assert i != 0;
      InspectShift(s, m, r, v, t, i - 1);
    }
    if first.Ok? && exists i: nat :: InspectsTo(t, first.value, r, i) && i < |AllObjects(t).objects| {
      var i: nat :| InspectsTo(t, first.value, r, i) && i < |AllObjects(t).objects|;
      InspectShift(s, m, r, v, t, i);
    }
  }

  lemma HookedIff(S: Suite, s: bytes, body: bytes, r: Meta)
    requires AfterMagic(S, s) == Ok(body)
    ensures Hooked(S, s) == Some(r) <==>
            && r.encrypt == 1 && (r.compress == 0 || r.compress == 1)
            && exists i: nat :: InspectsTo(body, DEFAULTS, r, i) && i < |AllObjects(body).objects|
  {
    hide AfterMagic, Family.Lawful, InspectsTo, HeadFrom;
    HeadIff(body, DEFAULTS, r);
  }

  // -- Errors before the payload --

  predicate OnlyMetaDicts(r: Read) {
    r.end == None && forall i :: 0 <= i < |r.objects| ==> IsMeta(r.objects[i])
  }

  /** What a stream is refused as before any payload is looked at: as one without
      data, when it ends behind metadata dicts alone, for its modes, and for its key. */
  lemma EarlyErrors(S: Suite, opt: Options, s: bytes, body: bytes)
    requires AfterMagic(S, s) == Ok(body)
    ensures var r := AllObjects(body);
            OnlyMetaDicts(r) && AbsorbAll(DEFAULTS, MetaMembers(r.objects)).Ok?
            ==> ErrorOf(S, opt, s) == Some(NoData)
    ensures HeadOf(S, s).Some?
            ==> var m := HeadOf(S, s).value.meta;
                && (m.encrypt != 1 ==> ErrorOf(S, opt, s) == Some(EncryptMode))
                && (m.encrypt == 1 && m.compress != 0 && m.compress != 1 ==> ErrorOf(S, opt, s) == Some(CompressMode))
                && (m.encrypt == 1 && (m.compress == 0 || m.compress == 1) && Recover(S, opt, m).Err?
                    ==> ErrorOf(S, opt, s) == Some(Recover(S, opt, m).error))
  {
    hide Family.Lawful, AfterMagic, HeadFrom, HeadError, Recover, Script, CallsError, Plaintext, AbsorbAll, MetaMembers;
    var r := AllObjects(body);
    if OnlyMetaDicts(r) && AbsorbAll(DEFAULTS, MetaMembers(r.objects)).Ok? {
      OnlyMetas(body, DEFAULTS);
    }
  }

  lemma {:induction false} OnlyMetas(s: bytes, m: Meta)
    requires OnlyMetaDicts(AllObjects(s))
    requires AbsorbAll(m, MetaMembers(AllObjects(s).objects)).Ok?
    ensures HeadFrom(s, m) == None && HeadError(s, m) == Some(NoData)
    decreases |s|
  {
    hide KindOf, AbsorbAll, Typed;
    match Next(s)
    case Object(v, t) =>
      var os := AllObjects(t).objects;
      assert AllObjects(s).objects == [v] + os;
      assert IsMeta(([v] + os)[0]);
      KindIs(v);
      ListStep(v, os);
      AbsorbMore(m, v, os);
      forall i | 0 <= i < |os| ensures IsMeta(os[i]) {
        assert ([v] + os)[i + 1] == os[i];
      }
      OnlyMetas(t, AbsorbAll(m, v.members).value);
    case _ =>
  }

  lemma AbsorbMore(m: Meta, v: Value, os: seq<Value>)
    requires IsMeta(v) && AbsorbAll(m, v.members + MetaMembers(os)).Ok?
    ensures AbsorbAll(m, v.members).Ok?
    ensures AbsorbAll(AbsorbAll(m, v.members).value, MetaMembers(os)).Ok?
  {
    hide AbsorbAll;
    AbsorbAppend(m, v.members, MetaMembers(os));
  }

  /** What a stream is refused as once all of it has been gathered: for its padding,
      because the LZ4 reader does not take all of it or finds it incomplete, or for
      its MD5. */
  lemma LateErrors(S: Suite, opt: Options, s: bytes, o: Opening, r: Gathered)
    requires Opened(S, opt, s) == Some(o)
    requires Collect(o.head.rest, Gathered(o.head.meta, Some(o.head.meta), [])) == Ok(r) && r.payloads != []
    ensures Payloads(r.payloads)
    ensures var whole := Pkcs7.Unpadded(PlainOf(S, o.k, r.payloads));
            && (whole == None && (o.compress ==> NoneRefused(S, [], CallsOf(S, o)))
                ==> ErrorOf(S, opt, s) == Some(FinalPadding))
            && (whole.Some? && o.compress && !AllTaken(S, [], CallsOf(S, o))
                ==> ErrorOf(S, opt, s) == Some(SinkRefused))
            && (whole.Some? && o.compress && AllTaken(S, [], CallsOf(S, o)) && S.LzRead(whole.value) == LzError
                ==> ErrorOf(S, opt, s) == Some(LzFailed))
            && (whole.Some? && (o.compress ==> AllTaken(S, [], CallsOf(S, o)) && S.LzRead(whole.value).LzOk?)
                ==> ErrorOf(S, opt, s) == if Plaintext(S, opt, s) == None then Some(Md5Mismatch) else None)
  {
    hide Family.Lawful, Opened, Collect, Script, CallsError, TailBytes, AllTaken, NoneRefused, Plaintext, ErrorOf,
         Pkcs7.Unpadded, PlainOf, LastError;
    var calls := CallsOf(S, o);
    CollectKeeps(o.head.rest, Gathered(o.head.meta, Some(o.head.meta), []));
    ScriptSpells(S, o.k, o.head.rest, o.head.meta, o.head.meta, []);
    CallsErrorIs(S, [], calls);
    ErrorOnceOpen(S, opt, s);
    match TailBytes(calls)
    case Some(t) => assert LetGo(S, o.k, []) + t == t && [] + t == t;
    case None => PaddingIsLast(S, o.k, o.head.rest, o.head.meta, o.head.meta, []);
  }
}
