/** The three kinds of top-level dict the writer emits, as value trees and as
    the runs of the encoder that print them. */
module Dicts {
  import opened Bytes
  import opened TextCodecs
  import opened Primitives
  import opened Wire
  import opened Streams
  import opened Encoder
  import opened Metadata
  import N = Names

  function LeadingValue(h: Leading): Value
    requires h.NonNegative()
  {
    Dict(LeadingMembers(h))
  }

  function DataValue(payload: bytes): Value {
    Dict([StrMember(N.TYPE, N.DATA), Pair(Str(N.DATA), Blob(payload))])
  }

  function FinalValue(md5hex: bytes): Value {
    Dict([StrMember(N.TYPE, N.METADATA), StrMember(N.FILE_MD5, md5hex)])
  }

  predicate Fits(h: Leading) {
    h.NonNegative() && Encodable(LeadingValue(h))
  }

  // -- Operation lists --

  function OptionalOp(present: bytes, k: bytes, v: bytes): seq<Op> {
    if present == [] then [] else [StrPair(k, v)]
  }

  function VersionOps(h: Leading): seq<Op> {
    [Key(N.VERSION), DictStart, IntPair(N.MAJOR, h.major), IntPair(N.MINOR, h.minor), DictEnd]
  }

  function DigestOps(h: Leading): seq<Op> {
    OptionalOp(h.salt, N.SALT, h.salt) + [StrPair(N.DIGEST, N.MD5)]
  }

  function KeyOps(h: Leading): seq<Op> {
    OptionalOp(h.encKey1, N.ENC_KEY1, Base64Encode(h.encKey1))
    + OptionalOp(h.key1Hash, N.KEY1_HASH, h.key1Hash)
    + OptionalOp(h.encKey2, N.ENC_KEY2, Base64Encode(h.encKey2))
  }

  function ModeOps(h: Leading): seq<Op> {
    [StrPair(N.SESSION_KEY_HASH, h.sessKeyHash), IntPair(N.COMPRESS, h.compress), IntPair(N.ENCRYPT, h.encrypt)]
    + OptionalOp(h.filename, N.FILE_NAME, h.filename)
  }

  function RestOps(h: Leading): seq<Op> {
    DigestOps(h) + KeyOps(h) + ModeOps(h)
  }

  function LeadingOps(h: Leading): seq<Op> {
    [DictStart, StrPair(N.TYPE, N.METADATA)] + VersionOps(h) + RestOps(h) + [DictEnd]
  }

  function DataOps(payload: bytes): seq<Op> {
    [DictStart, StrPair(N.TYPE, N.DATA), Key(N.DATA), BytesValue(payload), DictEnd]
  }

  function FinalOps(md5hex: bytes): seq<Op> {
    [DictStart, StrPair(N.TYPE, N.METADATA), StrPair(N.FILE_MD5, md5hex), DictEnd]
  }

  /** The operation that prints one plain member. */
  ghost predicate Prints(op: Op, p: Pair) {
    match op
    case StrPair(k, v) => p == StrMember(k, v)
    case IntPair(k, n) => n >= 0 && p == IntMember(k, n)
    case _ => false
  }

  ghost predicate PrintsAll(ops: seq<Op>, ms: seq<Pair>) {
    |ops| == |ms| && forall i :: 0 <= i < |ops| ==> Prints(ops[i], ms[i])
  }

  lemma {:induction false} MinDigitsShort(n: nat, k: nat)
    requires n < Pow256(k) && k >= 1
    ensures |MinDigits(n)| <= k
    decreases k
  {
    if n >= 256 {
      MinDigitsShort(n / 256, k - 1);
    }
  }

  lemma Int64Short(n: int64)
    requires n >= 0
    ensures |MinDigits(n)| <= 8
  {
    assert n < Pow256(8) by {
      assert Pow256(8) == 0x1_0000_0000 * Pow256(4) && Pow256(4) == 0x1_0000_0000;
    }
    MinDigitsShort(n, 8);
  }

  lemma PrintsForm(op: Op, p: Pair)
    requires Prints(op, p)
    ensures op.Valid() <==> EncodablePair(p)
    ensures op.Valid() ==> op.Wire() == EncPair(p)
  {
    if op.IntPair? {
      Int64Short(op.n);
    }
  }

  lemma {:induction false} PrintsAllForm(ops: seq<Op>, ms: seq<Pair>)
    requires PrintsAll(ops, ms)
    ensures AllValid(ops) <==> EncodableMembers(ms)
    ensures AllValid(ops) ==> Spelled(ops) == EncMembers(ms)
    decreases ops
  {
    if ops != [] {
      PrintsForm(ops[0], ms[0]);
      PrintsAllForm(ops[1..], ms[1..]);
      assert forall i :: 1 <= i < |ops| ==> ops[i] == ops[1..][i - 1];
      assert forall i :: 0 <= i < |ops| - 1 ==> ops[1..][i] == ops[i + 1];
    }
  }

  lemma {:induction false} MembersAppend(a: seq<Pair>, b: seq<Pair>)
    ensures EncMembers(a + b) == EncMembers(a) + EncMembers(b)
    ensures EncodableMembers(a + b) <==> EncodableMembers(a) && EncodableMembers(b)
    decreases a
  {
    if a == [] {
      assert a + b == b;
    } else {
      assert (a + b)[1..] == a[1..] + b;
      MembersAppend(a[1..], b);
    }
  }

  lemma AllValidAppend(a: seq<Op>, b: seq<Op>)
    ensures AllValid(a + b) <==> AllValid(a) && AllValid(b)
  {
    if AllValid(a + b) {
      forall i | 0 <= i < |a| ensures a[i].Valid() { assert (a + b)[i].Valid(); }
      forall i | 0 <= i < |b| ensures b[i].Valid() { assert (a + b)[|a| + i].Valid(); }
    }
  }

  lemma Spelled1(op: Op)
    requires op.Valid()
    ensures AllValid([op]) && Spelled([op]) == op.Wire()
  {
    assert [op][1..] == [];
    assert Spelled([op]) == op.Wire() + Spelled([]);
  }

  lemma Members1(p: Pair)
    ensures EncMembers([p]) == EncPair(p) && (EncodableMembers([p]) <==> EncodablePair(p))
  {
    assert [p][1..] == [];
    assert EncMembers([p]) == EncPair(p) + EncMembers([]);
  }

  lemma Wrapped(ops: seq<Op>, ms: seq<Pair>)
    requires AllValid(ops) && Spelled(ops) == EncMembers(ms)
    ensures AllValid([DictStart] + ops + [DictEnd])
    ensures Spelled([DictStart] + ops + [DictEnd]) == Enc(Dict(ms))
  {
    Spelled1(DictStart);
    Spelled1(DictEnd);
    AllValidAppend([DictStart], ops);
    AllValidAppend([DictStart] + ops, [DictEnd]);
    SpelledAppend([DictStart], ops);
    SpelledAppend([DictStart] + ops, [DictEnd]);
  }

  lemma VersionForm(h: Leading)
    requires h.NonNegative()
    ensures AllValid(VersionOps(h)) && Spelled(VersionOps(h)) == EncPair(VersionMember(h))
    ensures EncodablePair(VersionMember(h))
  {
    var ms := [IntMember(N.MAJOR, h.major), IntMember(N.MINOR, h.minor)];
    var ops := [IntPair(N.MAJOR, h.major), IntPair(N.MINOR, h.minor)];
    PrintsAllForm(ops, ms);
    Wrapped(ops, ms);
    Spelled1(Key(N.VERSION));
    var wrapped := [DictStart] + ops + [DictEnd];
    assert VersionOps(h) == [Key(N.VERSION)] + wrapped;
    AllValidAppend([Key(N.VERSION)], wrapped);
    SpelledAppend([Key(N.VERSION)], wrapped);
  }

  lemma PrintsAppend(a: seq<Op>, x: seq<Pair>, b: seq<Op>, y: seq<Pair>)
    requires PrintsAll(a, x) && PrintsAll(b, y)
    ensures PrintsAll(a + b, x + y)
  {
    hide Prints;
  }

  lemma PrintsOptional(present: bytes, k: bytes, v: bytes)
    ensures PrintsAll(OptionalOp(present, k, v), Optional(present, k, v))
  {
  }

  lemma DigestForm(h: Leading)
    ensures PrintsAll(DigestOps(h), Optional(h.salt, N.SALT, h.salt) + [StrMember(N.DIGEST, N.MD5)])
  {
    hide OptionalOp, Optional;
    PrintsOptional(h.salt, N.SALT, h.salt);
    PrintsAppend(OptionalOp(h.salt, N.SALT, h.salt), Optional(h.salt, N.SALT, h.salt),
                 [StrPair(N.DIGEST, N.MD5)], [StrMember(N.DIGEST, N.MD5)]);
  }

  lemma KeyForm(h: Leading)
    ensures PrintsAll(KeyOps(h), KeyPart(h))
  {
    hide OptionalOp, Optional, Base64Encode, PrintsAll;
    var k1, k2 := Base64Encode(h.encKey1), Base64Encode(h.encKey2);
    PrintsOptional(h.encKey1, N.ENC_KEY1, k1);
    PrintsOptional(h.key1Hash, N.KEY1_HASH, h.key1Hash);
    PrintsOptional(h.encKey2, N.ENC_KEY2, k2);
    var a, x := OptionalOp(h.encKey1, N.ENC_KEY1, k1), Optional(h.encKey1, N.ENC_KEY1, k1);
    var b, y := OptionalOp(h.key1Hash, N.KEY1_HASH, h.key1Hash), Optional(h.key1Hash, N.KEY1_HASH, h.key1Hash);
    PrintsAppend(a, x, b, y);
    PrintsAppend(a + b, x + y, OptionalOp(h.encKey2, N.ENC_KEY2, k2), Optional(h.encKey2, N.ENC_KEY2, k2));
  }

  lemma ModeForm(h: Leading)
    requires h.NonNegative()
    ensures PrintsAll(ModeOps(h), ModePart(h))
  {
    hide OptionalOp, Optional;
    PrintsOptional(h.filename, N.FILE_NAME, h.filename);
    PrintsAppend([StrPair(N.SESSION_KEY_HASH, h.sessKeyHash), IntPair(N.COMPRESS, h.compress),
                  IntPair(N.ENCRYPT, h.encrypt)],
                 [StrMember(N.SESSION_KEY_HASH, h.sessKeyHash), IntMember(N.COMPRESS, h.compress),
                  IntMember(N.ENCRYPT, h.encrypt)],
                 OptionalOp(h.filename, N.FILE_NAME, h.filename), Optional(h.filename, N.FILE_NAME, h.filename));
  }

  lemma RestForm(h: Leading)
    requires h.NonNegative()
    ensures |LeadingMembers(h)| >= 2 && LeadingMembers(h)[..2] == [StrMember(N.TYPE, N.METADATA), VersionMember(h)]
    ensures PrintsAll(RestOps(h), LeadingMembers(h)[2..])
  {
    hide Optional, VersionMember, StrMember, KeyPart, ModePart, DigestOps, KeyOps, ModeOps, PrintsAll;
    var first := [StrMember(N.TYPE, N.METADATA), VersionMember(h)];
    var a := Optional(h.salt, N.SALT, h.salt) + [StrMember(N.DIGEST, N.MD5)];
    var rest := a + KeyPart(h) + ModePart(h);
    assert LeadingMembers(h) == first + rest;
    assert (first + rest)[2..] == rest && (first + rest)[..2] == first;
    DigestForm(h);
    KeyForm(h);
    ModeForm(h);
    PrintsAppend(DigestOps(h), a, KeyOps(h), KeyPart(h));
    PrintsAppend(DigestOps(h) + KeyOps(h), a + KeyPart(h), ModeOps(h), ModePart(h));
  }

  /** Printing the leading record is possible exactly when it fits the wire
      format, and prints the leading dict. */
  lemma LeadingForm(h: Leading)
    ensures AllValid(LeadingOps(h)) <==> Fits(h)
    ensures Fits(h) ==> Spelled(LeadingOps(h)) == Enc(LeadingValue(h))
  {
    hide VersionOps, RestOps, VersionMember, Enc, EncMembers, EncodableMembers, Spelled, LeadingMembers;
    var first := [StrPair(N.TYPE, N.METADATA)];
    var ops := first + VersionOps(h) + RestOps(h);
    assert LeadingOps(h) == [DictStart] + ops + [DictEnd];
    AllValidAppend([DictStart] + ops, [DictEnd]);
    AllValidAppend([DictStart], ops);
    AllValidAppend(first + VersionOps(h), RestOps(h));
    AllValidAppend(first, VersionOps(h));
    if h.NonNegative() {
      VersionForm(h);
      RestForm(h);
      var ms := LeadingMembers(h);
      assert ms == ms[..2] + ms[2..];
      var head := StrMember(N.TYPE, N.METADATA);
      PrintsAllForm(first, [head]);
      Members1(VersionMember(h));
      assert ms[..2] == [head] + [VersionMember(h)];
      MembersAppend([head], [VersionMember(h)]);
      MembersAppend(ms[..2], ms[2..]);
      PrintsAllForm(RestOps(h), ms[2..]);
      if AllValid(RestOps(h)) {
        SpelledAppend(first, VersionOps(h));
        SpelledAppend(first + VersionOps(h), RestOps(h));
        Wrapped(ops, ms);
      }
    } else {
      NegativeInvalid(h);
    }
  }

  lemma NegativeInvalid(h: Leading)
    requires !h.NonNegative()
    ensures !AllValid(VersionOps(h)) || !AllValid(RestOps(h))
  {
    var k := |DigestOps(h) + KeyOps(h)|;
    assert RestOps(h)[k + 1] == ModeOps(h)[1] == IntPair(N.COMPRESS, h.compress);
    assert RestOps(h)[k + 2] == ModeOps(h)[2] == IntPair(N.ENCRYPT, h.encrypt);
    assert VersionOps(h)[2] == IntPair(N.MAJOR, h.major);
    assert VersionOps(h)[3] == IntPair(N.MINOR, h.minor);
  }

  lemma DataForm(payload: bytes)
    ensures AllValid(DataOps(payload)) <==> |payload| <= 0xFFFF
    ensures Encodable(DataValue(payload)) <==> |payload| <= 0xFFFF
    ensures |payload| <= 0xFFFF ==> Spelled(DataOps(payload)) == Enc(DataValue(payload))
    ensures |Enc(DataValue(payload))| == |payload| + 26
  {
    var typ := StrMember(N.TYPE, N.DATA);
    var dat := Pair(Str(N.DATA), Blob(payload));
    var ms := [typ] + [dat];
    assert DataValue(payload) == Dict(ms);
    MembersAppend([typ], [dat]);
    Members1(typ);
    Members1(dat);
    var ops := [StrPair(N.TYPE, N.DATA), Key(N.DATA), BytesValue(payload)];
    assert DataOps(payload) == [DictStart] + ops + [DictEnd];
    assert DataOps(payload)[3] == BytesValue(payload);
    if |payload| <= 0xFFFF {
      var rest := [Key(N.DATA)] + [BytesValue(payload)];
      Spelled1(StrPair(N.TYPE, N.DATA));
      Spelled1(Key(N.DATA));
      Spelled1(BytesValue(payload));
      SpelledAppend([Key(N.DATA)], [BytesValue(payload)]);
      SpelledAppend([StrPair(N.TYPE, N.DATA)], rest);
      assert ops == [StrPair(N.TYPE, N.DATA)] + rest;
      Wrapped(ops, ms);
    }
  }

  lemma FinalForm(md5hex: bytes)
    requires |md5hex| <= 0xFFFF
    ensures Encodable(FinalValue(md5hex)) && AllValid(FinalOps(md5hex))
    ensures Spelled(FinalOps(md5hex)) == Enc(FinalValue(md5hex))
  {
    var ms := [StrMember(N.TYPE, N.METADATA), StrMember(N.FILE_MD5, md5hex)];
    var ops := [StrPair(N.TYPE, N.METADATA), StrPair(N.FILE_MD5, md5hex)];
    PrintsAllForm(ops, ms);
    assert AllValid(ops);
    Wrapped(ops, ms);
    assert FinalOps(md5hex) == [DictStart] + ops + [DictEnd];
  }

  // -- The emitting methods --

  ghost function OutState(out: Output, err: Option<EncError>): State
    reads out
  {
    State(out.data, out.calls, err)
  }

  method OptionalPair(e: WireEnc, present: bytes, k: bytes, v: bytes)
    requires e.Valid()
    modifies e, e.w
    ensures e.Valid() && e.ops == old(e.ops) + OptionalOp(present, k, v)
  {
    if |present| > 0 {
      e.StrPair(k, v);
    }
  }

  method WriteVersion(e: WireEnc, h: Leading)
    requires e.Valid()
    modifies e, e.w
    ensures e.Valid() && e.ops == old(e.ops) + VersionOps(h)
  {
    hide WireEnc.Valid, Base64Encode;
    e.Key(N.VERSION);
    e.DictStart();
    e.IntPair(N.MAJOR, h.major);
    e.IntPair(N.MINOR, h.minor);
    e.DictEnd();
  }

  lemma RegroupOps(a: seq<Op>, b: seq<Op>, c: seq<Op>, d: seq<Op>)
    ensures a + b + c + d == a + (b + c + d)
  {
  }

  method WriteKeys(e: WireEnc, h: Leading)
    requires e.Valid()
    modifies e, e.w
    ensures e.Valid() && e.ops == old(e.ops) + KeyOps(h)
  {
    hide WireEnc.Valid, Base64Encode;
    OptionalPair(e, h.encKey1, N.ENC_KEY1, Base64Encode(h.encKey1));
    OptionalPair(e, h.key1Hash, N.KEY1_HASH, h.key1Hash);
    OptionalPair(e, h.encKey2, N.ENC_KEY2, Base64Encode(h.encKey2));
    RegroupOps(old(e.ops),
            OptionalOp(h.encKey1, N.ENC_KEY1, Base64Encode(h.encKey1)),
            OptionalOp(h.key1Hash, N.KEY1_HASH, h.key1Hash),
            OptionalOp(h.encKey2, N.ENC_KEY2, Base64Encode(h.encKey2)));
  }

  method WriteModes(e: WireEnc, h: Leading)
    requires e.Valid()
    modifies e, e.w
    ensures e.Valid() && e.ops == old(e.ops) + ModeOps(h)
  {
    hide WireEnc.Valid, Base64Encode;
    e.StrPair(N.SESSION_KEY_HASH, h.sessKeyHash);
    e.IntPair(N.COMPRESS, h.compress);
    e.IntPair(N.ENCRYPT, h.encrypt);
    OptionalPair(e, h.filename, N.FILE_NAME, h.filename);
    assert ModeOps(h) == [StrPair(N.SESSION_KEY_HASH, h.sessKeyHash)]
           + [IntPair(N.COMPRESS, h.compress), IntPair(N.ENCRYPT, h.encrypt)]
           + OptionalOp(h.filename, N.FILE_NAME, h.filename);
    RegroupOps(old(e.ops), [StrPair(N.SESSION_KEY_HASH, h.sessKeyHash)],
            [IntPair(N.COMPRESS, h.compress), IntPair(N.ENCRYPT, h.encrypt)],
            OptionalOp(h.filename, N.FILE_NAME, h.filename));
  }

  /** One run of the encoder over the leading operations, so that a refused
      write leaves exactly what Sticky says. */
  method WriteLeadingMetadata(out: Output, h: Leading) returns (err: Option<EncError>)
    modifies out
    ensures OutState(out, err) == Run(out.fails, old(OutState(out, None)), AllPieces(LeadingOps(h)))
    ensures err == None ==> Fits(h) && out.data == old(out.data) + Enc(LeadingValue(h))
    ensures out.Reliable() && Fits(h) ==> err == None
  {
    hide Run, AllPieces, Enc, Fits, Spelled, VersionOps, KeyOps, ModeOps;
    var e := new WireEnc(out);
    e.DictStart();
    e.StrPair(N.TYPE, N.METADATA);
    WriteVersion(e, h);
    OptionalPair(e, h.salt, N.SALT, h.salt);
    e.StrPair(N.DIGEST, N.MD5);
    WriteKeys(e, h);
    WriteModes(e, h);
    e.DictEnd();
    assert e.ops == LeadingOps(h) by {
      assert e.ops == [DictStart, StrPair(N.TYPE, N.METADATA)] + VersionOps(h)
                      + DigestOps(h) + KeyOps(h) + ModeOps(h) + [DictEnd];
    }
    OpsEffect(out.fails, e.start, e.ops);
    LeadingForm(h);
    err := e.err;
  }

  method WriteDataDict(out: Output, payload: bytes) returns (err: Option<EncError>)
    modifies out
    ensures err == None ==> |payload| <= 0xFFFF && out.data == old(out.data) + Enc(DataValue(payload))
    ensures out.SteadyFrom(old(out.calls)) && |payload| <= 0xFFFF ==> err == None
    ensures old(out.data) <= out.data && old(out.calls) <= out.calls
    ensures out.fails(old(out.calls)) ==> err.Some? && out.data == old(out.data) && out.calls > old(out.calls)
  {
    var e := new WireEnc(out);
    e.DictStart();
    e.StrPair(N.TYPE, N.DATA);
    e.Key(N.DATA);
    e.BytesValue(payload);
    e.DictEnd();
    assert e.ops == DataOps(payload);
    OpsEffect(out.fails, e.start, e.ops);
    OpsUnderRefusal(out.fails, e.start, e.ops);
    DataForm(payload);
    err := e.err;
  }

  method WriteFinalMetadata(out: Output, md5hex: bytes) returns (err: Option<EncError>)
    requires |md5hex| <= 0xFFFF
    modifies out
    ensures err == None ==> out.data == old(out.data) + Enc(FinalValue(md5hex))
    ensures out.SteadyFrom(old(out.calls)) ==> err == None
  {
    var e := new WireEnc(out);
    e.DictStart();
    e.StrPair(N.TYPE, N.METADATA);
    e.StrPair(N.FILE_MD5, md5hex);
    e.DictEnd();
    assert e.ops == FinalOps(md5hex);
    OpsEffect(out.fails, e.start, e.ops);
    OpsUnderRefusal(out.fails, e.start, e.ops);
    FinalForm(md5hex);
    err := e.err;
  }

  function Magic(S: Suite): bytes {
    N.FILE_MAGIC + HexEncode(S.md5(N.FILE_MAGIC))
  }

  method WriteMagic(S: Suite, out: Output) returns (err: Option<EncError>)
    modifies out
    ensures err == None ==> out.data == old(out.data) + Magic(S)
    ensures out.Reliable() ==> err == None
  {
    hide Family.Lawful, HexEncode;
    var ok := out.Write(N.FILE_MAGIC);
    if !ok {
      return Some(WriteRefused);
    }
    ok := out.Write(HexEncode(S.md5(N.FILE_MAGIC)));
    err := if ok then None else Some(WriteRefused);
  }
}
