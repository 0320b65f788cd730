/** The object stream: what the encoder prints for a value tree, and the
    recursive reader that parses it back. */
module Wire {
  import opened Bytes

  const TAG_END: byte := 0x40
  const TAG_DICT: byte := 0x42
  const TAG_BYTES: byte := 0x11
  const TAG_STRING: byte := 0x10
  const TAG_INT: byte := 0x01

  datatype Value = Dict(members: seq<Pair>) | Blob(data: bytes) | Str(str: bytes) | Int(n: nat)
  datatype Pair = Pair(key: Value, value: Value)

  /** The first member whose key is the string `name`. */
  function Lookup(v: Value, name: bytes): Option<Value> {
    if v.Dict? then Find(v.members, name) else None
  }

  function Find(ms: seq<Pair>, name: bytes): Option<Value> {
    if ms == [] then None
    else if ms[0].key == Str(name) then Some(ms[0].value)
    else Find(ms[1..], name)
  }

  /** Lookup finds nothing exactly when no key matches, and otherwise the value
      of the first key that does. */
  lemma {:induction false} FindIsFirst(ms: seq<Pair>, name: bytes) returns (i: nat)
    ensures i <= |ms| && (forall j :: 0 <= j < i ==> ms[j].key != Str(name))
    ensures i < |ms| ==> ms[i].key == Str(name) && Find(ms, name) == Some(ms[i].value)
    ensures i == |ms| ==> Find(ms, name) == None
  {
    if ms == [] || ms[0].key == Str(name) {
      i := 0;
    } else {
      var k := FindIsFirst(ms[1..], name);
      i := k + 1;
      assert forall j :: 1 <= j < |ms| ==> ms[j] == ms[1..][j - 1];
    }
  }

  // -- Numbers --

  function U16(n: nat): (r: bytes)
    ensures |r| == 2
  {
    [n / 256 % 256, n % 256]
  }

  function U16Value(hi: nat, lo: nat): nat {
    256 * hi + lo
  }

  /** The big-endian value of a digit string; leading zeros are allowed. */
  function FromDigits(ds: bytes): nat {
    if ds == [] then 0 else 256 * FromDigits(ds[..|ds| - 1]) + ds[|ds| - 1]
  }

  /** The shortest non-empty big-endian digit string of a number. */
  function MinDigits(n: nat): (ds: bytes)
    ensures |ds| >= 1
  {
    if n < 256 then [n] else MinDigits(n / 256) + [n % 256]
  }

  predicate Minimal(ds: bytes) {
    |ds| == 1 || (|ds| > 1 && ds[0] != 0)
  }

  lemma {:induction false} LeadingDigit(ds: bytes)
    requires ds != [] && ds[0] != 0
    ensures FromDigits(ds) > 0
  {
    if |ds| > 1 {
      LeadingDigit(ds[..|ds| - 1]);
    }
  }

  /** Minimal digit strings are exactly the ones the encoder chooses. */
  lemma {:induction false} DigitsRoundTrip(n: nat, ds: bytes)
    ensures ds == MinDigits(n) <==> FromDigits(ds) == n && Minimal(ds)
    decreases n, |ds|
  {
    if |ds| == 1 {
      assert FromDigits(ds) == ds[0] by { assert ds[..0] == []; }
    } else if |ds| > 1 {
      var front, last := ds[..|ds| - 1], ds[|ds| - 1];
      assert ds == front + [last] && FromDigits(ds) == 256 * FromDigits(front) + last;
      SplitNumber(FromDigits(front), last, n);
      if n >= 256 {
        DigitsRoundTrip(n / 256, front);
        SnocEqual(front, last, MinDigits(n / 256), n % 256);
      } else if Minimal(ds) {
        LeadingDigit(front);
      }
    }
  }

  lemma SplitNumber(x: nat, last: byte, n: nat)
    ensures 256 * x + last == n <==> x == n / 256 && last == n % 256
  {
  }

  lemma SnocEqual(a: bytes, x: byte, b: bytes, y: byte)
    ensures a + [x] == b + [y] <==> a == b && x == y
  {
    if a + [x] == b + [y] {
      assert (a + [x])[..|a|] == a && (b + [y])[..|b|] == b;
      assert (a + [x])[|a|] == x && (b + [y])[|b|] == y;
    }
  }

  // -- The value of digits --

  /** What a digit string stands for, from its leading digit. */
  lemma {:induction false} LeadingDigitCounts(d: byte, ds: bytes)
    ensures FromDigits([d] + ds) == d * Power(|ds|) + FromDigits(ds)
  {
    var all := [d] + ds;
    if ds == [] {
      assert all[..0] == [];
      assert FromDigits(all) == 256 * FromDigits([]) + d;
    } else {
      var n := |ds| - 1;
      LeadingDigitCounts(d, ds[..n]);
      assert all[..|all| - 1] == [d] + ds[..n];
      assert 256 * (d * Power(n)) == d * Power(n + 1);
    }
  }

  function Power(n: nat): nat {
    if n == 0 then 1 else 256 * Power(n - 1)
  }

  // -- Printing --

  function EncBlob(b: bytes): bytes {
    U16(|b|) + b
  }

  function EncInt(n: nat): bytes {
    [|MinDigits(n)| % 256] + MinDigits(n)
  }

  function Enc(v: Value): (r: bytes)
    ensures |r| > 0
    decreases v
  {
    match v
    case Dict(ms) => [TAG_DICT] + EncMembers(ms) + [TAG_END]
    case Blob(b) => [TAG_BYTES] + EncBlob(b)
    case Str(s) => [TAG_STRING] + EncBlob(s)
    case Int(n) => [TAG_INT] + EncInt(n)
  }

  function EncMembers(ms: seq<Pair>): bytes
    decreases ms
  {
    if ms == [] then [] else EncPair(ms[0]) + EncMembers(ms[1..])
  }

  function EncPair(p: Pair): bytes
    decreases p
  {
    match p case Pair(k, v) => Enc(k) + Enc(v)
  }

  /** The values with a wire form: u16 blob lengths and one-byte integer lengths. */
  predicate Encodable(v: Value)
    decreases v
  {
    match v
    case Dict(ms) => EncodableMembers(ms)
    case Blob(b) => |b| <= 0xFFFF
    case Str(s) => |s| <= 0xFFFF
    case Int(n) => |MinDigits(n)| <= 255
  }

  predicate EncodableMembers(ms: seq<Pair>)
    decreases ms
  {
    ms == [] || (EncodablePair(ms[0]) && EncodableMembers(ms[1..]))
  }

  predicate EncodablePair(p: Pair)
    decreases p
  {
    match p case Pair(k, v) => Encodable(k) && Encodable(v)
  }

  // -- Parsing --

  /** io.ReadFull reports Eof when nothing at all was left and UnexpectedEof
      when the input ran out part-way. */
  datatype WireError = Eof | UnexpectedEof | KeyWithoutValue | UnknownTag(tag: byte)

  datatype Item = End | Node(v: Value)
  datatype Parse<+T> = Parsed(got: T, rest: bytes) | Failed(error: WireError)

  function Take(s: bytes, n: nat): Parse<bytes> {
    if n <= |s| then Parsed(s[..n], s[n..])
    else Failed(if s == [] then Eof else UnexpectedEof)
  }

  function ParseBlob(s: bytes): (r: Parse<bytes>)
    ensures r.Parsed? ==> |r.rest| < |s| && |r.got| <= 0xFFFF
  {
    match Take(s, 2)
    case Failed(e) => Failed(e)
    case Parsed(h, t) => Take(t, U16Value(h[0], h[1]))
  }

  function ParseInt(s: bytes): (r: Parse<bytes>)
    ensures r.Parsed? ==> |r.rest| < |s| && |r.got| <= 255
  {
    match Take(s, 1)
    case Failed(e) => Failed(e)
    case Parsed(h, t) => Take(t, h[0])
  }

  /** Every successful parse consumes at least one byte. */
  function ReadOne(s: bytes): (r: Parse<Item>)
    ensures r.Parsed? ==> |r.rest| < |s|
    decreases |s|, 0
  {
    if s == [] then Failed(Eof)
    else
      var t := s[1..];
      if s[0] == TAG_END then Parsed(End, t)
      else if s[0] == TAG_DICT then ReadMembers(t, [])
      else if s[0] == TAG_BYTES then
        match ParseBlob(t) case Failed(e) => Failed(e) case Parsed(b, u) => Parsed(Node(Blob(b)), u)
      else if s[0] == TAG_STRING then
        match ParseBlob(t) case Failed(e) => Failed(e) case Parsed(b, u) => Parsed(Node(Str(b)), u)
      else if s[0] == TAG_INT then
        match ParseInt(t) case Failed(e) => Failed(e) case Parsed(ds, u) => Parsed(Node(Int(FromDigits(ds))), u)
      else Failed(UnknownTag(s[0]))
  }

  /** The rest of a dict whose members so far are `ms`. */
  function ReadMembers(s: bytes, ms: seq<Pair>): (r: Parse<Item>)
    ensures r.Parsed? ==> |r.rest| < |s|
    decreases |s|, 1
  {
    match ReadOne(s)
    case Failed(e) => Failed(e)
    case Parsed(End, t) => Parsed(Node(Dict(ms)), t)
    case Parsed(Node(k), t) =>
      match ReadOne(t)
      case Failed(e) => Failed(e)
      case Parsed(End, u) => Failed(KeyWithoutValue)
      case Parsed(Node(v), u) => ReadMembers(u, ms + [Pair(k, v)])
  }

  /** One step at the top level.  Running out of input right where a field would
      start, at any depth, ends the stream just as a bare end tag does. */
  datatype NextResult = Object(v: Value, rest: bytes) | Done | Broken(error: WireError)

  function Next(s: bytes): (r: NextResult)
    ensures r.Object? ==> |r.rest| < |s|
  {
    match ReadOne(s)
    case Failed(e) => if e == Eof then Done else Broken(e)
    case Parsed(End, _) => Done
    case Parsed(Node(v), t) => Object(v, t)
  }

  // -- Round trip --

  lemma TakePrefix(a: bytes, b: bytes)
    ensures Take(a + b, |a|) == Parsed(a, b)
  {
    assert (a + b)[..|a|] == a && (a + b)[|a|..] == b;
  }

  lemma BlobRoundTrip(b: bytes, suffix: bytes)
    requires |b| <= 0xFFFF
    ensures ParseBlob(EncBlob(b) + suffix) == Parsed(b, suffix)
  {
    assert EncBlob(b) + suffix == U16(|b|) + (b + suffix);
    TakePrefix(U16(|b|), b + suffix);
    TakePrefix(b, suffix);
  }

  lemma IntRoundTrip(n: nat, suffix: bytes)
    requires |MinDigits(n)| <= 255
    ensures ParseInt(EncInt(n) + suffix) == Parsed(MinDigits(n), suffix)
    ensures FromDigits(MinDigits(n)) == n
  {
    var ds := MinDigits(n);
    assert EncInt(n) + suffix == [|ds|] + (ds + suffix);
    TakePrefix([|ds|], ds + suffix);
    TakePrefix(ds, suffix);
    DigitsRoundTrip(n, ds);
  }

  /** Reading what was printed, whatever follows, returns the value and leaves
      exactly what follows. */
  lemma {:induction false} RoundTrip(v: Value, suffix: bytes)
    requires Encodable(v)
    ensures ReadOne(Enc(v) + suffix) == Parsed(Node(v), suffix)
    decreases v
  {
    hide ReadMembers, EncMembers, EncodableMembers, FromDigits, MinDigits, ParseBlob, ParseInt, U16;
    var s := Enc(v) + suffix;
    match v
    case Dict(ms) =>
      assert s[1..] == EncMembers(ms) + ([TAG_END] + suffix);
      MembersRoundTrip(ms, suffix, []);
      assert [] + ms == ms;
    case Blob(b) =>
      assert s[1..] == EncBlob(b) + suffix;
      BlobRoundTrip(b, suffix);
    case Str(b) =>
      assert s[1..] == EncBlob(b) + suffix;
      BlobRoundTrip(b, suffix);
    case Int(n) =>
      assert s[1..] == EncInt(n) + suffix;
      IntRoundTrip(n, suffix);
  }

  lemma {:induction false} MembersRoundTrip(ms: seq<Pair>, suffix: bytes, acc: seq<Pair>)
    requires EncodableMembers(ms)
    ensures ReadMembers(EncMembers(ms) + ([TAG_END] + suffix), acc) == Parsed(Node(Dict(acc + ms)), suffix)
    decreases ms
  {
    hide Enc, ParseBlob, ParseInt, FromDigits;
    var tail := [TAG_END] + suffix;
    if ms == [] {
      assert EncMembers(ms) + tail == tail;
      assert tail[1..] == suffix;
      assert acc + ms == acc;
    } else {
      var Pair(k, v) := ms[0];
      var rest := EncMembers(ms[1..]) + tail;
      PairForms(k, v, ms, tail);
      PairRoundTrip(ms[0], rest);
      MembersRoundTrip(ms[1..], suffix, acc + [Pair(k, v)]);
      assert acc + [Pair(k, v)] + ms[1..] == acc + ms;
    }
  }

  lemma {:induction false} PairRoundTrip(p: Pair, rest: bytes)
    requires EncodablePair(p)
    ensures ReadOne(Enc(p.key) + (Enc(p.value) + rest)) == Parsed(Node(p.key), Enc(p.value) + rest)
    ensures ReadOne(Enc(p.value) + rest) == Parsed(Node(p.value), rest)
    decreases p
  {
    match p
    case Pair(k, v) =>
      RoundTrip(k, Enc(v) + rest);
      RoundTrip(v, rest);
  }

  /** The wire form, byte by byte, of one value of each kind: a blob, a string, an
      integer of two digits, and a dict. */
  lemma WireExample()
    ensures Enc(Blob([7, 8])) == [0x11, 0, 2, 7, 8]
    ensures Enc(Str([0x68, 0x69])) == [0x10, 0, 2, 0x68, 0x69]
    ensures Enc(Int(0x0102)) == [0x01, 2, 1, 2]
    ensures Enc(Dict([Pair(Str([0x6B]), Int(5))])) == [0x42, 0x10, 0, 1, 0x6B, 0x01, 1, 5, 0x40]
    ensures U16(0x0102) == [1, 2] && U16Value(1, 2) == 0x0102
  {
    NumberExample();
    DictExample();
    hide Enc;
  }

  lemma NumberExample()
    ensures U16(0x0102) == [1, 2] && U16Value(1, 2) == 0x0102
    ensures Enc(Int(0x0102)) == [0x01, 2, 1, 2] && Enc(Int(5)) == [0x01, 1, 5]
    ensures Enc(Blob([7, 8])) == [0x11, 0, 2, 7, 8]
    ensures Enc(Str([0x68, 0x69])) == [0x10, 0, 2, 0x68, 0x69]
    ensures Enc(Str([0x6B])) == [0x10, 0, 1, 0x6B]
  {
    assert MinDigits(0x0102) == MinDigits(1) + [2];
  }

  lemma DictExample()
    ensures Enc(Dict([Pair(Str([0x6B]), Int(5))])) == [0x42, 0x10, 0, 1, 0x6B, 0x01, 1, 5, 0x40]
  {
    NumberExample();
    hide EncInt, EncBlob;
    var ms := [Pair(Str([0x6B]), Int(5))];
    assert ms[1..] == [];
    assert EncMembers(ms) == EncPair(ms[0]) + EncMembers([]);
    assert EncPair(ms[0]) == [0x10, 0, 1, 0x6B] + [0x01, 1, 5];
  }

  // -- What parses is encodable, and canonical input is re-printed exactly --

  /** Every integer field that ReadOne passes over is minimally encoded. */
  predicate Canonical(s: bytes)
    decreases |s|, 0
  {
    if s == [] then true
    else if s[0] == TAG_DICT then CanonicalMembers(s[1..])
    else if s[0] == TAG_INT then
      match ParseInt(s[1..]) case Failed(_) => true case Parsed(ds, _) => Minimal(ds)
    else true
  }

  predicate CanonicalMembers(s: bytes)
    decreases |s|, 1
  {
    match ReadOne(s)
    case Parsed(Node(k), t) =>
      Canonical(s) &&
      (match ReadOne(t)
       case Parsed(Node(v), u) => Canonical(t) && CanonicalMembers(u)
       case _ => true)
    case _ => true
  }

  lemma TakeSplits(s: bytes, n: nat)
    ensures match Take(s, n) case Parsed(h, t) => s == h + t && |h| == n case Failed(_) => true
  {
  }

  lemma BlobReprint(s: bytes)
    ensures match ParseBlob(s) case Parsed(b, u) => s == EncBlob(b) + u case Failed(_) => true
  {
    TakeSplits(s, 2);
    if 2 <= |s| {
      var n := U16Value(s[0], s[1]);
      TakeSplits(s[2..], n);
      assert s[..2] == U16(n);
      assert ParseBlob(s).Parsed? ==> s == s[..2] + (s[2..][..n] + s[2..][n..]);
    }
  }

  /** A parsed integer field re-prints to itself exactly when it is minimal. */
  lemma IntReprint(s: bytes)
    ensures match ParseInt(s)
            case Failed(_) => true
            case Parsed(ds, u) =>
              |MinDigits(FromDigits(ds))| <= 255 && (Minimal(ds) <==> s == EncInt(FromDigits(ds)) + u)
  {
    match ParseInt(s)
    case Failed(_) =>
    case Parsed(ds, u) =>
      TakeSplits(s, 1);
      TakeSplits(s[1..], s[0]);
      assert s == [|ds|] + ds + u;
      MinIsShortest(ds);
      DigitsRoundTrip(FromDigits(ds), ds);
      hide FromDigits, MinDigits, ParseInt;
      SameDigits(s, ds, MinDigits(FromDigits(ds)), u);
  }

  lemma SameDigits(s: bytes, ds: bytes, m: bytes, u: bytes)
    requires |ds| <= 255 && |m| <= 255 && s == [|ds|] + ds + u
    ensures s == ([|m| % 256] + m) + u <==> ds == m
  {
    if s == ([|m| % 256] + m) + u {
      assert |ds| == s[0] == |m|;
      assert ds == s[1..1 + |ds|] == m;
    }
  }

  lemma {:induction false} MinIsShortest(ds: bytes)
    ensures |MinDigits(FromDigits(ds))| <= (if |ds| == 0 then 1 else |ds|)
  {
    if |ds| > 1 {
      var front := ds[..|ds| - 1];
      MinIsShortest(front);
      var n := FromDigits(ds);
      assert n / 256 == FromDigits(front);
      if n < 256 {} else {}
    } else if |ds| == 1 {
      assert FromDigits(ds) == ds[0] by { assert ds[..0] == []; }
    }
  }

  lemma CancelFirst(s: bytes, tag: byte, body: bytes, tail: bytes)
    requires s != [] && s[0] == tag
    ensures s == [tag] + body + tail <==> s[1..] == body + tail
  {
    assert [tag] + body + tail == [tag] + (body + tail);
    assert ([tag] + (body + tail))[1..] == body + tail;
    assert s == [tag] + s[1..];
  }

  /** The converse of RoundTrip: the consumed bytes are the printed form of the
      parsed value exactly when every integer among them is minimal. */
  lemma {:induction false} Reprint(s: bytes)
    ensures match ReadOne(s)
            case Parsed(Node(v), rest) => Encodable(v) && (Canonical(s) <==> s == Enc(v) + rest)
            case _ => true
    decreases |s|, 0
  {
    if s != [] {
      var t := s[1..];
      if s[0] == TAG_DICT {
        MembersReprint(t, []);
        match ReadMembers(t, [])
        case Parsed(item, rest) =>
          var ms := item.v.members;
          assert ms[0..] == ms;
          CancelFirst(s, TAG_DICT, EncMembers(ms) + [TAG_END], rest);
          assert EncMembers(ms) + [TAG_END] + rest == EncMembers(ms) + ([TAG_END] + rest);
          assert Enc(item.v) == [TAG_DICT] + (EncMembers(ms) + [TAG_END]);
        case _ =>
      } else if s[0] == TAG_BYTES || s[0] == TAG_STRING {
        BlobReprint(t);
        match ParseBlob(t)
        case Parsed(b, rest) => CancelFirst(s, s[0], EncBlob(b), rest);
        case _ =>
      } else if s[0] == TAG_INT {
        IntReprint(t);
        match ParseInt(t)
        case Parsed(ds, rest) => CancelFirst(s, TAG_INT, EncInt(FromDigits(ds)), rest);
        case _ =>
      }
    }
  }

  lemma {:induction false} MembersReprint(s: bytes, acc: seq<Pair>)
    ensures match ReadMembers(s, acc)
            case Parsed(item, rest) =>
              item.Node? && item.v.Dict? && acc <= item.v.members
              && EncodableMembers(item.v.members[|acc|..])
              && (CanonicalMembers(s) <==> s == EncMembers(item.v.members[|acc|..]) + ([TAG_END] + rest))
            case _ => true
    decreases |s|, 1
  {
    match ReadMembers(s, acc)
    case Failed(_) =>
    case Parsed(item, rest) =>
      var tail := [TAG_END] + rest;
      Reprint(s);
      match ReadOne(s)
      case Parsed(End, t) =>
        assert s[0] == TAG_END by { EndIsEnd(s); }
        assert acc[|acc|..] == [];
        assert EncMembers([]) + tail == tail;
        assert s == [TAG_END] + t;
      case Parsed(Node(k), t) =>
        Reprint(t);
        match ReadOne(t)
        case Parsed(Node(v), u) =>
          var acc' := acc + [Pair(k, v)];
          MembersReprint(u, acc');
          var ms := item.v.members;
          assert ms[|acc|] == acc'[|acc|] == Pair(k, v);
          assert ms[|acc|..][1..] == ms[|acc'|..];
          ReprintPair(s, k, t, v, u, ms[|acc|..], tail);
        case _ =>
  }

  lemma EndIsEnd(s: bytes)
    requires ReadOne(s).Parsed? && ReadOne(s).got == End
    ensures s != [] && s[0] == TAG_END
  {
    if s != [] && s[0] == TAG_DICT {
      MembersYieldNode(s[1..], []);
    }
  }

  lemma {:induction false} MembersYieldNode(s: bytes, acc: seq<Pair>)
    ensures match ReadMembers(s, acc) case Parsed(item, _) => item.Node? case Failed(_) => true
    decreases |s|
  {
    match ReadOne(s)
    case Parsed(Node(k), t) =>
      match ReadOne(t) {
        case Parsed(Node(v), u) => MembersYieldNode(u, acc + [Pair(k, v)]);
        case _ =>
      }
    case _ =>
  }

  lemma ReprintPair(s: bytes, k: Value, t: bytes, v: Value, u: bytes, ms: seq<Pair>, tail: bytes)
    requires ms != [] && ms[0] == Pair(k, v)
    requires ReadOne(s) == Parsed(Node(k), t) && ReadOne(t) == Parsed(Node(v), u)
    requires Encodable(k) && Encodable(v)
    requires Canonical(s) <==> s == Enc(k) + t
    requires Canonical(t) <==> t == Enc(v) + u
    requires CanonicalMembers(u) <==> u == EncMembers(ms[1..]) + tail
    ensures CanonicalMembers(s) <==> s == EncMembers(ms) + tail
  {
    var w := EncMembers(ms[1..]) + tail;
    assert CanonicalMembers(s) <==> Canonical(s) && Canonical(t) && CanonicalMembers(u);
    PairForms(k, v, ms, tail);
    if s == Enc(k) + (Enc(v) + w) {
      RoundTrip(k, Enc(v) + w);
      RoundTrip(v, w);
    }
  }

  lemma PairForms(k: Value, v: Value, ms: seq<Pair>, tail: bytes)
    requires ms != [] && ms[0] == Pair(k, v)
    ensures EncMembers(ms) + tail == Enc(k) + (Enc(v) + (EncMembers(ms[1..]) + tail))
  {
    assert EncMembers(ms) == Enc(k) + Enc(v) + EncMembers(ms[1..]);
    Regroup(Enc(k), Enc(v), EncMembers(ms[1..]), tail);
  }

  lemma Regroup(a: bytes, b: bytes, c: bytes, d: bytes)
    ensures a + b + c + d == a + (b + (c + d))
  {
  }
}
