/** wireEnc: the sticky-error printer of the object stream. */
module Encoder {
  import opened Bytes
  import opened Wire
  import opened Streams

  type int64 = n: int | -0x8000_0000_0000_0000 <= n < 0x8000_0000_0000_0000

  datatype EncError = WriteRefused | BlobTooLong | NegativeInt

  /** One thing the encoder attempts: a write, or giving up on a value. */
  datatype Piece = Raw(b: bytes) | GiveUp(why: EncError)

  /** The encoder's operations. */
  datatype Op =
    | DictStart
    | DictEnd
    | Key(k: bytes)
    | StrPair(k: bytes, v: bytes)
    | IntPair(k: bytes, n: int64)
    | BytesValue(b: bytes)
  {
    predicate Valid() {
      match this
      case Key(k) => |k| <= 0xFFFF
      case StrPair(k, v) => |k| <= 0xFFFF && |v| <= 0xFFFF
      case IntPair(k, n) => |k| <= 0xFFFF && n >= 0
      case BytesValue(b) => |b| <= 0xFFFF
      case _ => true
    }

    /** The wire form of a valid operation. */
    function Wire(): bytes
      requires Valid()
    {
      match this
      case DictStart => [TAG_DICT]
      case DictEnd => [TAG_END]
      case Key(k) => Enc(Str(k))
      case StrPair(k, v) => EncPair(Pair(Str(k), Str(v)))
      case IntPair(k, n) => EncPair(Pair(Str(k), Int(n)))
      case BytesValue(b) => Enc(Blob(b))
    }

    /** What the operation attempts, call by call. */
    function Pieces(): seq<Piece> {
      match this
      case DictStart => [Raw([TAG_DICT])]
      case DictEnd => [Raw([TAG_END])]
      case Key(k) => StrPieces(k)
      case StrPair(k, v) => StrPieces(k) + StrPieces(v)
      case IntPair(k, n) => StrPieces(k) + [Raw([TAG_INT])] + IntPieces(n)
      case BytesValue(b) => [Raw([TAG_BYTES])] + BlobPieces(b)
    }
  }

  function BlobPieces(b: bytes): seq<Piece> {
    if |b| > 0xFFFF then [GiveUp(BlobTooLong)] else [Raw(U16(|b|)), Raw(b)]
  }

  function StrPieces(s: bytes): seq<Piece> {
    [Raw([TAG_STRING])] + BlobPieces(s)
  }

  function IntPieces(n: int64): seq<Piece> {
    if n < 0 then [GiveUp(NegativeInt)]
    else if n == 0 then [Raw([1, 0])]
    else [Raw([|MinDigits(n)| % 256]), Raw(MinDigits(n))]
  }

  function AllPieces(ops: seq<Op>): seq<Piece> {
    if ops == [] then [] else ops[0].Pieces() + AllPieces(ops[1..])
  }

  /** Everything the pieces would write if nothing went wrong. */
  function Full(ps: seq<Piece>): bytes {
    if ps == [] then [] else (match ps[0] case Raw(b) => b case GiveUp(_) => []) + Full(ps[1..])
  }

  // -- The encoder's state and its runs --

  datatype State = State(data: bytes, calls: nat, err: Option<EncError>)

  function Step(fails: nat -> bool, st: State, p: Piece): State {
    if st.err.Some? then st
    else match p
         case GiveUp(why) => st.(err := Some(why))
         case Raw(b) =>
           if fails(st.calls) then State(st.data, st.calls + 1, Some(WriteRefused))
           else State(st.data + b, st.calls + 1, None)
  }

  function Run(fails: nat -> bool, st: State, ps: seq<Piece>): State
    decreases ps
  {
    if ps == [] then st else Run(fails, Step(fails, st, ps[0]), ps[1..])
  }

  lemma {:induction false} RunAppend(fails: nat -> bool, st: State, a: seq<Piece>, b: seq<Piece>)
    ensures Run(fails, st, a + b) == Run(fails, Run(fails, st, a), b)
    decreases a
  {
    if a == [] {
      assert a + b == b;
    } else {
      assert (a + b)[1..] == a[1..] + b;
      RunAppend(fails, Step(fails, st, a[0]), a[1..], b);
    }
  }

  /** How many pieces go out before the first one that fails. */
  function Accepted(fails: nat -> bool, calls: nat, ps: seq<Piece>): (k: nat)
    ensures k <= |ps|
    decreases ps
  {
    if ps == [] || ps[0].GiveUp? || fails(calls) then 0 else 1 + Accepted(fails, calls + 1, ps[1..])
  }

  predicate Goes(fails: nat -> bool, calls: nat, ps: seq<Piece>, i: nat)
    requires i < |ps|
  {
    ps[i].Raw? && !fails(calls + i)
  }

  /** The sticky encoder, for any list of pieces and any pattern of refusals:
      the bytes out are the full encoding cut off at the first failure, the
      output is not called again after it, and there is no error exactly when
      every write was taken and no value was given up. */
  lemma {:induction false} Sticky(fails: nat -> bool, st: State, ps: seq<Piece>)
    requires st.err == None
    ensures var k := Accepted(fails, st.calls, ps);
            var r := Run(fails, st, ps);
            && r.data == st.data + Full(ps[..k])
            && r.calls == st.calls + k + (if k < |ps| && ps[k].Raw? then 1 else 0)
            && (r.err == None <==> k == |ps|)
            && (k < |ps| ==> !Goes(fails, st.calls, ps, k))
            && (forall i :: 0 <= i < k ==> Goes(fails, st.calls, ps, i))
    decreases ps
  {
    var k := Accepted(fails, st.calls, ps);
    if ps == [] {
      assert ps[..0] == [];
    } else if k == 0 {
      assert ps[..0] == [];
      Stuck(fails, Step(fails, st, ps[0]), ps[1..]);
    } else {
      var st' := Step(fails, st, ps[0]);
      Sticky(fails, st', ps[1..]);
      assert ps[..k][1..] == ps[1..][..k - 1];
      assert Full(ps[..k]) == ps[0].b + Full(ps[1..][..k - 1]);
      GoesShift(fails, st.calls, ps, st'.calls, ps[1..], k);
    }
  }

  lemma GoesShift(fails: nat -> bool, calls: nat, ps: seq<Piece>, next: nat, rest: seq<Piece>, k: nat)
    requires ps != [] && 1 <= k <= |ps| && Goes(fails, calls, ps, 0)
    requires next == calls + 1 && rest == ps[1..]
    requires forall i :: 0 <= i < k - 1 ==> Goes(fails, next, rest, i)
    requires k < |ps| ==> !Goes(fails, next, rest, k - 1)
    ensures forall i :: 0 <= i < k ==> Goes(fails, calls, ps, i)
    ensures k < |ps| ==> !Goes(fails, calls, ps, k)
  {
    forall i | 0 <= i < k ensures Goes(fails, calls, ps, i) {
      if i > 0 {
        assert Goes(fails, next, rest, i - 1);
      }
    }
  }

  /** So the bytes out are always a prefix of the full encoding. */
  lemma FullPrefix(ps: seq<Piece>, k: nat)
    requires k <= |ps|
    ensures Full(ps[..k]) <= Full(ps)
  {
    FullAppend(ps[..k], ps[k..]);
    assert ps[..k] + ps[k..] == ps;
  }

  lemma Run2(fails: nat -> bool, st: State, p: Piece, q: Piece)
    ensures Run(fails, st, [p, q]) == Step(fails, Step(fails, st, p), q)
  {
    assert [p, q][1..] == [q];
    assert [q][1..] == [];
    assert Run(fails, Step(fails, st, p), [q]) == Run(fails, Step(fails, Step(fails, st, p), q), []);
  }

  lemma {:induction false} Stuck(fails: nat -> bool, st: State, ps: seq<Piece>)
    requires st.err.Some?
    ensures Run(fails, st, ps) == st
  {
    if ps != [] {
      Stuck(fails, st, ps[1..]);
    }
  }

  lemma {:induction false} FullAppend(a: seq<Piece>, b: seq<Piece>)
    ensures Full(a + b) == Full(a) + Full(b)
  {
    if a == [] {
      assert a + b == b;
    } else {
      assert (a + b)[1..] == a[1..] + b;
      FullAppend(a[1..], b);
    }
  }

  predicate AllRaw(ps: seq<Piece>) {
    forall i :: 0 <= i < |ps| ==> ps[i].Raw?
  }

  lemma Full2(p: Piece, q: Piece)
    requires p.Raw? && q.Raw?
    ensures Full([p, q]) == p.b + q.b
  {
    assert [p, q][1..] == [q] && [q][1..] == [];
    assert Full([q]) == q.b + Full([]);
  }

  lemma BlobPiecesForm(b: bytes)
    ensures AllRaw(BlobPieces(b)) <==> |b| <= 0xFFFF
    ensures |b| <= 0xFFFF ==> Full(BlobPieces(b)) == EncBlob(b)
  {
    if |b| <= 0xFFFF {
      Full2(Raw(U16(|b|)), Raw(b));
    } else {
      assert BlobPieces(b)[0].GiveUp?;
    }
  }

  lemma TaggedForm(tag: byte, ps: seq<Piece>)
    ensures Full([Raw([tag])] + ps) == [tag] + Full(ps)
    ensures AllRaw([Raw([tag])] + ps) <==> AllRaw(ps)
  {
    var qs := [Raw([tag])] + ps;
    assert qs[1..] == ps;
    if AllRaw(qs) {
      forall i | 0 <= i < |ps| ensures ps[i].Raw? {
        assert qs[i + 1].Raw?;
      }
    }
  }

  lemma IntPiecesForm(n: int64)
    ensures AllRaw(IntPieces(n)) <==> n >= 0
    ensures n >= 0 ==> Full(IntPieces(n)) == EncInt(n)
  {
    if n > 0 {
      Full2(Raw([|MinDigits(n)| % 256]), Raw(MinDigits(n)));
    } else if n == 0 {
      assert [Raw([1, 0])][1..] == [];
      assert Full([Raw([1, 0])]) == [1, 0] == EncInt(0);
    } else {
      assert IntPieces(n)[0].GiveUp?;
    }
  }

  lemma AllRawAppend(a: seq<Piece>, b: seq<Piece>)
    ensures AllRaw(a + b) <==> AllRaw(a) && AllRaw(b)
  {
    if AllRaw(a + b) {
      forall i | 0 <= i < |a| ensures a[i].Raw? { assert (a + b)[i].Raw?; }
      forall i | 0 <= i < |b| ensures b[i].Raw? { assert (a + b)[|a| + i].Raw?; }
    }
  }

  lemma IntPairForm(k: bytes, n: int64)
    ensures AllRaw(IntPair(k, n).Pieces()) <==> IntPair(k, n).Valid()
    ensures IntPair(k, n).Valid() ==> Full(IntPair(k, n).Pieces()) == IntPair(k, n).Wire()
  {
    hide IntPieces, StrPieces;
    StrForm(k);
    IntPiecesForm(n);
    TaggedForm(TAG_INT, IntPieces(n));
    var tagged := [Raw([TAG_INT])] + IntPieces(n);
    assert IntPair(k, n).Pieces() == StrPieces(k) + tagged;
    AllRawAppend(StrPieces(k), tagged);
    FullAppend(StrPieces(k), tagged);
    assert n >= 0 ==> Full(tagged) == Enc(Int(n));
  }

  /** An operation gives nothing up exactly when it is valid, and then its
      pieces spell its wire form. */
  lemma OpForm(op: Op)
    ensures AllRaw(op.Pieces()) <==> op.Valid()
    ensures op.Valid() ==> Full(op.Pieces()) == op.Wire()
  {
    match op
    case DictStart => assert op.Pieces()[1..] == [];
    case DictEnd => assert op.Pieces()[1..] == [];
    case Key(k) => StrForm(k);
    case StrPair(k, v) =>
      StrForm(k);
      StrForm(v);
      AllRawAppend(StrPieces(k), StrPieces(v));
      FullAppend(StrPieces(k), StrPieces(v));
    case IntPair(k, n) => IntPairForm(k, n);
    case BytesValue(b) =>
      BlobPiecesForm(b);
      TaggedForm(TAG_BYTES, BlobPieces(b));
  }

  lemma StrForm(s: bytes)
    ensures AllRaw(StrPieces(s)) <==> |s| <= 0xFFFF
    ensures |s| <= 0xFFFF ==> Full(StrPieces(s)) == Enc(Str(s))
  {
    BlobPiecesForm(s);
    TaggedForm(TAG_STRING, BlobPieces(s));
  }

  lemma {:induction false} PiecesAppend(a: seq<Op>, b: seq<Op>)
    ensures AllPieces(a + b) == AllPieces(a) + AllPieces(b)
  {
    if a == [] {
      assert a + b == b;
    } else {
      assert (a + b)[1..] == a[1..] + b;
      PiecesAppend(a[1..], b);
    }
  }

  lemma PiecesSnoc(ops: seq<Op>, op: Op)
    ensures AllPieces(ops + [op]) == AllPieces(ops) + op.Pieces()
  {
    PiecesAppend(ops, [op]);
    assert [op][1..] == [];
    assert AllPieces([op]) == op.Pieces() + AllPieces([]);
  }

  ghost predicate AllValid(ops: seq<Op>) {
    forall i :: 0 <= i < |ops| ==> ops[i].Valid()
  }

  /** The wire form of valid operations in a row. */
  function Spelled(ops: seq<Op>): bytes
    requires AllValid(ops)
  {
    if ops == [] then [] else ops[0].Wire() + Spelled(ops[1..])
  }

  lemma {:induction false} SpelledAppend(a: seq<Op>, b: seq<Op>)
    requires AllValid(a) && AllValid(b)
    ensures Spelled(a + b) == Spelled(a) + Spelled(b)
  {
    if a == [] {
      assert a + b == b;
    } else {
      assert (a + b)[1..] == a[1..] + b;
      SpelledAppend(a[1..], b);
    }
  }

  lemma {:induction false} OpsForm(ops: seq<Op>)
    ensures AllRaw(AllPieces(ops)) <==> AllValid(ops)
    ensures AllValid(ops) ==> Full(AllPieces(ops)) == Spelled(ops)
  {
    if ops != [] {
      OpForm(ops[0]);
      OpsForm(ops[1..]);
      AllRawAppend(ops[0].Pieces(), AllPieces(ops[1..]));
      FullAppend(ops[0].Pieces(), AllPieces(ops[1..]));
      assert forall i :: 1 <= i < |ops| ==> ops[i] == ops[1..][i - 1];
      assert forall i :: 0 <= i < |ops| - 1 ==> ops[1..][i] == ops[i + 1];
    }
  }

  /** A run of operations from a clean state: when it ends without error, all
      of them were valid and exactly their wire form was written; over an output
      that refuses nothing, validity is also enough. */
  lemma OpsEffect(fails: nat -> bool, st: State, ops: seq<Op>)
    requires st.err == None
    ensures var r := Run(fails, st, AllPieces(ops));
            && (r.err == None ==> AllValid(ops) && r.data == st.data + Spelled(ops))
            && ((forall i: nat :: !fails(i)) && AllValid(ops) ==> r.err == None)
  {
    var ps := AllPieces(ops);
    Sticky(fails, st, ps);
    OpsForm(ops);
    var k := Accepted(fails, st.calls, ps);
    if k == |ps| {
      assert ps[..k] == ps;
      forall i | 0 <= i < |ps| ensures ps[i].Raw? {
        assert Goes(fails, st.calls, ps, i);
      }
    }
  }

  /** Under refusals: what was out stays, the run gets through if nothing is
      refused from its first call on, and a refusal of that call leaves nothing. */
  lemma OpsUnderRefusal(fails: nat -> bool, st: State, ops: seq<Op>)
    requires st.err == None
    ensures var r := Run(fails, st, AllPieces(ops));
            && st.data <= r.data && st.calls <= r.calls
            && ((forall i: nat :: i >= st.calls ==> !fails(i)) && AllValid(ops) ==> r.err == None)
            && (ops != [] && ops[0].DictStart? && fails(st.calls)
                ==> r.err.Some? && r.data == st.data && r.calls > st.calls)
  {
    var ps := AllPieces(ops);
    Sticky(fails, st, ps);
    OpsForm(ops);
    var k := Accepted(fails, st.calls, ps);
    if ops != [] && ops[0].DictStart? && fails(st.calls) {
      assert ps[0] == Raw([TAG_DICT]);
      assert !Goes(fails, st.calls, ps, 0);
      assert k == 0 && Full(ps[..0]) == [];
    }
  }

  // -- The big-endian integer body --

  /** `k` big-endian digits, as PutUint64 fills in for k = 8. */
  function FixedDigits(n: nat, k: nat): (ds: bytes)
    ensures |ds| == k
  {
    if k == 0 then [] else FixedDigits(n / 256, k - 1) + [n % 256]
  }

  function Pow256(k: nat): nat {
    if k == 0 then 1 else 256 * Pow256(k - 1)
  }

  lemma {:induction false} FixedValue(n: nat, k: nat)
    requires n < Pow256(k)
    ensures FromDigits(FixedDigits(n, k)) == n
  {
    if k > 0 {
      FixedValue(n / 256, k - 1);
      assert FixedDigits(n, k)[..k - 1] == FixedDigits(n / 256, k - 1);
    }
  }

  lemma {:induction false} DropZero(ds: bytes)
    requires ds != [] && ds[0] == 0
    ensures FromDigits(ds[1..]) == FromDigits(ds)
  {
    if |ds| > 1 {
      DropZero(ds[..|ds| - 1]);
      assert ds[1..][..|ds| - 2] == ds[..|ds| - 1][1..];
    } else {
      assert ds[1..] == [] && ds[..0] == [];
    }
  }

  // -- The encoder object --

  class WireEnc {
    const w: Output
    var err: Option<EncError>
    // the operations asked for so far, and the state before the first of them
    ghost var ops: seq<Op>
    ghost const start: State

    constructor (w: Output)
      ensures this.w == w && ops == [] && Valid()
      ensures start == State(w.data, w.calls, None) && St() == start
    {
      this.w := w;
      err := None;
      ops := [];
      start := State(w.data, w.calls, None);
    }

    ghost function St(): State
      reads this, w
    {
      State(w.data, w.calls, err)
    }

    ghost predicate Valid()
      reads this, w
    {
      start.err == None && St() == Run(w.fails, start, AllPieces(ops))
    }

    method WriteAll(b: bytes)
      modifies `err, w
      ensures St() == Step(w.fails, old(St()), Raw(b))
    {
      if err.Some? {
        return;
      }
      var ok := w.Write(b);
      err := if ok then None else Some(WriteRefused);
    }

    method WriteShortBlob(b: bytes)
      modifies `err, w
      ensures St() == Run(w.fails, old(St()), BlobPieces(b))
    {
      ghost var ps := BlobPieces(b);
      if |b| > 0xFFFF {
        assert ps[1..] == [];
        if err == None {
          err := Some(BlobTooLong);
        }
        return;
      }
      Run2(w.fails, St(), Raw(U16(|b|)), Raw(b));
      WriteAll(U16(|b|));
      WriteAll(b);
    }

    /** The shortest big-endian form, found by skipping zero bytes of eight. */
    method WriteIntBody(n: int64)
      modifies `err, w
      ensures St() == Run(w.fails, old(St()), IntPieces(n))
    {
      hide MinDigits, FromDigits, FixedDigits;
      ghost var ps := IntPieces(n);
      if n < 0 {
        assert ps[1..] == [];
        if err == None {
          err := Some(NegativeInt);
        }
        return;
      }
      if n == 0 {
        assert ps[1..] == [];
        WriteAll([1, 0]);
        return;
      }
      var b := FixedDigits(n, 8);
      assert n < Pow256(8) by {
        assert Pow256(8) == 0x1_0000_0000 * Pow256(4) && Pow256(4) == 0x1_0000_0000;
      }
      FixedValue(n, 8);
      var first := 0;
      while first < 7 && b[first] == 0
        invariant 0 <= first <= 7
        invariant FromDigits(b[first..]) == n
        invariant St() == old(St())
      {
        DropZero(b[first..]);
        assert b[first..][1..] == b[first + 1..];
        first := first + 1;
      }
      DigitsRoundTrip(n, b[first..]);
      assert ps == [Raw([8 - first]), Raw(b[first..])];
      Run2(w.fails, St(), Raw([8 - first]), Raw(b[first..]));
      WriteAll([8 - first]);
      WriteAll(b[first..]);
    }

    method WriteStr(s: bytes)
      modifies `err, w
      ensures St() == Run(w.fails, old(St()), StrPieces(s))
    {
      assert StrPieces(s)[1..] == BlobPieces(s);
      WriteAll([TAG_STRING]);
      WriteShortBlob(s);
    }

    /** Notes that `op` has been carried out on top of state `before`. */
    ghost method Note(op: Op, before: State)
      requires start.err == None && before == Run(w.fails, start, AllPieces(ops))
      requires St() == Run(w.fails, before, op.Pieces())
      modifies `ops
      ensures Valid() && ops == old(ops) + [op]
    {
      PiecesSnoc(ops, op);
      RunAppend(w.fails, start, AllPieces(ops), op.Pieces());
      ops := ops + [op];
    }

    method DictStart()
      requires Valid()
      modifies this, w
      ensures Valid() && ops == old(ops) + [Op.DictStart]
    {
      assert Op.DictStart.Pieces()[1..] == [];
      WriteAll([TAG_DICT]);
      Note(Op.DictStart, old(St()));
    }

    method DictEnd()
      requires Valid()
      modifies this, w
      ensures Valid() && ops == old(ops) + [Op.DictEnd]
    {
      assert Op.DictEnd.Pieces()[1..] == [];
      WriteAll([TAG_END]);
      Note(Op.DictEnd, old(St()));
    }

    method Key(k: bytes)
      requires Valid()
      modifies this, w
      ensures Valid() && ops == old(ops) + [Op.Key(k)]
    {
      WriteStr(k);
      Note(Op.Key(k), old(St()));
    }

    method StrPair(k: bytes, v: bytes)
      requires Valid()
      modifies this, w
      ensures Valid() && ops == old(ops) + [Op.StrPair(k, v)]
    {
      RunAppend(w.fails, St(), StrPieces(k), StrPieces(v));
      WriteStr(k);
      WriteStr(v);
      Note(Op.StrPair(k, v), old(St()));
    }

    method IntPair(k: bytes, n: int64)
      requires Valid()
      modifies this, w
      ensures Valid() && ops == old(ops) + [Op.IntPair(k, n)]
    {
      ghost var tagged := [Raw([TAG_INT])] + IntPieces(n);
      assert StrPieces(k) + [Raw([TAG_INT])] + IntPieces(n) == StrPieces(k) + tagged;
      RunAppend(w.fails, St(), StrPieces(k), tagged);
      assert tagged[1..] == IntPieces(n);
      WriteStr(k);
      WriteAll([TAG_INT]);
      WriteIntBody(n);
      Note(Op.IntPair(k, n), old(St()));
    }

    method BytesValue(b: bytes)
      requires Valid()
      modifies this, w
      ensures Valid() && ops == old(ops) + [Op.BytesValue(b)]
    {
      assert Op.BytesValue(b).Pieces()[1..] == BlobPieces(b);
      WriteAll([TAG_BYTES]);
      WriteShortBlob(b);
      Note(Op.BytesValue(b), old(St()));
    }
  }
}
