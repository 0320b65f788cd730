/** Where a stream may end: the parser under extension and truncation of its
    input. */
module WireEnds {
  import opened Bytes
  import opened Wire

  predicate RanOut<T>(r: Parse<T>) {
    r == Failed(Eof) || r == Failed(UnexpectedEof)
  }

  /** What `r` becomes when `t` is appended to the input. */
  function Extended<T>(r: Parse<T>, t: bytes): Parse<T> {
    match r
    case Parsed(x, rest) => Parsed(x, rest + t)
    case Failed(e) => r
  }

  lemma TakeExtends(s: bytes, n: nat, t: bytes)
    requires !RanOut(Take(s, n))
    ensures Take(s + t, n) == Extended(Take(s, n), t)
  {
    assert (s + t)[..n] == s[..n] && (s + t)[n..] == s[n..] + t;
  }

  lemma BlobExtends(s: bytes, t: bytes)
    requires !RanOut(ParseBlob(s))
    ensures ParseBlob(s + t) == Extended(ParseBlob(s), t)
  {
    TakeExtends(s, 2, t);
    TakeExtends(s[2..], U16Value(s[0], s[1]), t);
  }

  lemma IntExtends(s: bytes, t: bytes)
    requires !RanOut(ParseInt(s))
    ensures ParseInt(s + t) == Extended(ParseInt(s), t)
  {
    TakeExtends(s, 1, t);
    TakeExtends(s[1..], s[0], t);
  }

  /** More input after a parse that did not run out changes nothing but the rest. */
  lemma {:induction false} ReadExtends(s: bytes, t: bytes)
    requires !RanOut(ReadOne(s))
    ensures ReadOne(s + t) == Extended(ReadOne(s), t)
    decreases |s|, 0
  {
    assert (s + t)[1..] == s[1..] + t && (s + t)[0] == s[0];
    if s[0] == TAG_DICT {
      MembersExtend(s[1..], t, []);
    } else if s[0] == TAG_BYTES || s[0] == TAG_STRING {
      BlobExtends(s[1..], t);
    } else if s[0] == TAG_INT {
      IntExtends(s[1..], t);
    }
  }

  lemma {:induction false} MembersExtend(s: bytes, t: bytes, ms: seq<Pair>)
    requires !RanOut(ReadMembers(s, ms))
    ensures ReadMembers(s + t, ms) == Extended(ReadMembers(s, ms), t)
    decreases |s|, 1
  {
    ReadExtends(s, t);
    match ReadOne(s)
    case Parsed(Node(k), u) =>
      ReadExtends(u, t);
      match ReadOne(u) {
        case Parsed(Node(v), w) => MembersExtend(w, t, ms + [Pair(k, v)]);
        case _ =>
      }
    case _ =>
  }

  /** No strict prefix of the bytes a parse consumed parses to anything: each
      one runs out of input. */
  lemma PrefixFree(s: bytes, k: nat)
    requires ReadOne(s).Parsed? && k < |s| - |ReadOne(s).rest|
    ensures RanOut(ReadOne(s[..k]))
  {
    assert s == s[..k] + s[k..];
    if !RanOut(ReadOne(s[..k])) {
      ReadExtends(s[..k], s[k..]);
    }
  }

  // -- Field boundaries --

  /** Does `s` break off exactly where a field (a tag, a length or a non-empty
      body) would start?  A flat scan that knows nothing about nesting. */
  predicate AtFieldStart(s: bytes)
    decreases |s|, 0
  {
    if s == [] then true
    else
      var t := s[1..];
      if s[0] == TAG_END || s[0] == TAG_DICT then AtFieldStart(t)
      else if s[0] == TAG_BYTES || s[0] == TAG_STRING then
        t == [] || (|t| >= 2 && AfterBody(t[2..], U16Value(t[0], t[1])))
      else if s[0] == TAG_INT then
        t == [] || AfterBody(t[1..], t[0])
      else false
  }

  predicate AfterBody(s: bytes, n: nat)
    decreases |s|, 1
  {
    s == [] || (n <= |s| && AtFieldStart(s[n..]))
  }

  lemma BodyPasses(s: bytes, n: nat)
    ensures match Take(s, n)
            case Parsed(_, rest) => AfterBody(s, n) <==> AtFieldStart(rest)
            case Failed(e) => e == Eof <==> AfterBody(s, n)
  {
  }

  lemma {:induction false} ReadPasses(s: bytes)
    ensures match ReadOne(s)
            case Parsed(_, rest) => AtFieldStart(s) <==> AtFieldStart(rest)
            case Failed(e) => RanOut(ReadOne(s)) ==> (e == Eof <==> AtFieldStart(s))
    decreases |s|, 0
  {
    if s != [] {
      var t := s[1..];
      if s[0] == TAG_DICT {
        MembersPass(t, []);
      } else if s[0] == TAG_BYTES || s[0] == TAG_STRING {
        if |t| >= 2 {
          BodyPasses(t[2..], U16Value(t[0], t[1]));
        }
      } else if s[0] == TAG_INT {
        if |t| >= 1 {
          BodyPasses(t[1..], t[0]);
        }
      }
    }
  }

  lemma {:induction false} MembersPass(s: bytes, ms: seq<Pair>)
    ensures match ReadMembers(s, ms)
            case Parsed(_, rest) => AtFieldStart(s) <==> AtFieldStart(rest)
            case Failed(e) => RanOut(ReadMembers(s, ms)) ==> (e == Eof <==> AtFieldStart(s))
    decreases |s|, 1
  {
    ReadPasses(s);
    match ReadOne(s)
    case Parsed(Node(k), u) =>
      ReadPasses(u);
      match ReadOne(u) {
        case Parsed(Node(v), w) => MembersPass(w, ms + [Pair(k, v)]);
        case _ =>
      }
    case _ =>
  }

  // -- The clean end --

  /** How a stretch of input comes out: it breaks off where a field would start,
      or inside one, or it holds a bare end tag or a whole value, or is malformed. */
  datatype Extent = OutAtStart | OutInside | BareEnd | Whole | Malformed

  /** A flat scan for one value.  For each dict that is open `open` says whether
      it stands after a key, so that a value must follow. */
  function Scan(s: bytes, open: seq<bool>): Extent
    decreases |s|, 0
  {
    if s == [] then OutAtStart
    else
      var t := s[1..];
      if s[0] == TAG_END then
        if open == [] then BareEnd else if open[|open| - 1] then Malformed else Onwards(t, open[..|open| - 1])
      else if s[0] == TAG_DICT then Scan(t, open + [false])
      else if s[0] == TAG_BYTES || s[0] == TAG_STRING then
        if |t| < 2 then (if t == [] then OutAtStart else OutInside)
        else PassBody(t[2..], U16Value(t[0], t[1]), open)
      else if s[0] == TAG_INT then
        if t == [] then OutAtStart else PassBody(t[1..], t[0], open)
      else Malformed
  }

  function PassBody(s: bytes, n: nat, open: seq<bool>): Extent
    decreases |s|, 2
  {
    if n <= |s| then Onwards(s[n..], open) else if s == [] then OutAtStart else OutInside
  }

  /** Past the end of a value. */
  function Onwards(s: bytes, open: seq<bool>): Extent
    decreases |s|, 1
  {
    if open == [] then Whole else Scan(s, open[..|open| - 1] + [!open[|open| - 1]])
  }

  function Reported(e: WireError): Extent {
    match e case Eof => OutAtStart case UnexpectedEof => OutInside case _ => Malformed
  }

  /** The recursive parser and the flat scan agree, inside any open dicts. */
  lemma {:induction false} ScanIsRead(s: bytes, open: seq<bool>)
    ensures match ReadOne(s)
            case Failed(e) => Scan(s, open) == Reported(e)
            case Parsed(Node(_), u) => Scan(s, open) == Onwards(u, open)
            case Parsed(End, u) =>
              Scan(s, open) == if open == [] then BareEnd
                               else if open[|open| - 1] then Malformed
                               else Onwards(u, open[..|open| - 1])
    decreases |s|, 0
  {
    hide FromDigits;
    if s != [] && s[0] == TAG_DICT {
      ScanIsMembers(s[1..], [], open);
      MembersYieldNode(s[1..], []);
    }
  }

  lemma {:induction false} ScanIsMembers(s: bytes, ms: seq<Pair>, open: seq<bool>)
    ensures match ReadMembers(s, ms)
            case Failed(e) => Scan(s, open + [false]) == Reported(e)
            case Parsed(_, u) => Scan(s, open + [false]) == Onwards(u, open)
    decreases |s|, 1
  {
    hide Scan;
    var before, after := open + [false], open + [true];
    assert before[..|open|] == open && after[..|open|] == open;
    ScanIsRead(s, before);
    match ReadOne(s)
    case Parsed(Node(k), u) =>
      assert Onwards(u, before) == Scan(u, after);
      ScanIsRead(u, after);
      match ReadOne(u) {
        case Parsed(Node(v), w) =>
          assert Onwards(w, after) == Scan(w, before);
          ScanIsMembers(w, ms + [Pair(k, v)], open);
        case _ =>
      }
    case _ =>
  }

  /** What Next comes to, decided by the flat scan: the stream ends without error
      exactly at a bare end tag or when the input breaks off where a field would
      start, however many dicts are open there. */
  lemma CleanEnd(s: bytes)
    ensures Next(s) == Done <==> (s != [] && s[0] == TAG_END) || Scan(s, []) == OutAtStart
    ensures Next(s) == Broken(UnexpectedEof) <==> Scan(s, []) == OutInside
    ensures Next(s).Object? <==> Scan(s, []) == Whole
  {
    hide Scan;
    ScanIsRead(s, []);
    if ReadOne(s).Parsed? && ReadOne(s).got == End {
      EndIsEnd(s);
    }
  }

  /** A single dict tag is such an end, although the dict it opens has none. */
  lemma OpenDictEndsCleanly()
    ensures Next([TAG_DICT]) == Done
  {
    CleanEnd([TAG_DICT]);
    assert [TAG_DICT][1..] == [];
  }

  /** Cutting a printed value short is taken for the clean end of the stream
      when the cut falls on a field boundary, and for an error otherwise. */
  lemma TruncatedValue(v: Value, k: nat)
    requires Encodable(v) && k < |Enc(v)|
    ensures Next(Enc(v)[..k]) == if AtFieldStart(Enc(v)[..k]) then Done else Broken(UnexpectedEof)
  {
    RoundTrip(v, []);
    assert Enc(v) + [] == Enc(v);
    PrefixFree(Enc(v), k);
    ReadPasses(Enc(v)[..k]);
  }
}
