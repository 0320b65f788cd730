/** The metadata record: one mutable object that fields are absorbed into, and
    the leading dict whose absorption gives back what was written. */
module Metadata {
  import opened Bytes
  import opened TextCodecs
  import opened Wire
  import opened Encoder
  import N = Names

  datatype Result<+T> = Ok(value: T) | Err(error: Error) {
    predicate IsFailure() {
      Err?
    }

    function PropagateFailure<U>(): Result<U>
      requires Err?
    {
      Err(error)
    }

    function Extract(): T
      requires Ok?
    {
      value
    }
  }

  datatype Error =
    | MagicUnread(e: WireError) | BadMagic | BadMagicChecksum
    | Stream(e: WireError) | NotADict | NoType | UnknownType
    | BadEncKey1 | BadEncKey2 | EncryptMode | CompressMode
    | NoSecret | PasswordMismatch | KeyUnaligned | KeyPadding | OaepFailed | SessionKeyMismatch | KeyNotHex
    | NoPayload | DataUnaligned | SinkRefused | LzFailed | FinalPadding | NoData | Md5Mismatch
    | RandomShort | OaepRefused | Encoding(why: EncError) | ClosedWriter | NoCredential | BadMajor

  datatype Meta = Meta(
    major: int64, minor: int64, salt: bytes, digest: bytes,
    encKey1: Option<bytes>, encKey2: Option<bytes>, key1Hash: bytes, sessionKeyHash: bytes,
    plaintextMD5: bytes, filename: bytes, compress: int64, encrypt: int64)

  /** What a stream that says nothing means. */
  const DEFAULTS := Meta(0, 0, [], [], None, None, [], [], [], [], 1, 1)

  /** The low 64 bits of a number, read as a signed integer. */
  function ToInt64(n: nat): int64 {
    var low := n % 0x1_0000_0000_0000_0000;
    if low < 0x8000_0000_0000_0000 then low else low - 0x1_0000_0000_0000_0000
  }

  function IntOr(v: Option<Value>, default: int64): int64 {
    match v case Some(Int(n)) => ToInt64(n) case _ => default
  }

  function DecodeB64(v: Value): Option<bytes> {
    match v case Str(s) => Base64Decode(s) case Blob(b) => Base64Decode(b) case _ => None
  }

  /** The record after one more field. */
  function Absorb(m: Meta, key: bytes, v: Value): Result<Meta> {
    match N.FieldOf(key)
    case Version => Ok(m.(major := IntOr(Lookup(v, N.MAJOR), m.major), minor := IntOr(Lookup(v, N.MINOR), m.minor)))
    case Salt => Ok(if v.Str? then m.(salt := v.str) else m)
    case Digest => Ok(if v.Str? then m.(digest := v.str) else m)
    case EncKey1 => (match DecodeB64(v) case None => Err(BadEncKey1) case Some(b) => Ok(m.(encKey1 := Some(b))))
    case EncKey2 => (match DecodeB64(v) case None => Err(BadEncKey2) case Some(b) => Ok(m.(encKey2 := Some(b))))
    case Key1Hash => Ok(if v.Str? then m.(key1Hash := v.str) else m)
    case SessionKeyHash => Ok(if v.Str? then m.(sessionKeyHash := v.str) else m)
    case FileMd5 => Ok(if v.Str? then m.(plaintextMD5 := v.str) else m)
    case FileName => Ok(if v.Str? then m.(filename := v.str) else m)
    case Compress => Ok(m.(compress := IntOr(Some(v), m.compress)))
    case Encrypt => Ok(m.(encrypt := IntOr(Some(v), m.encrypt)))
    case Key2Hash => Ok(m)
    case Unrecognized => Ok(m)
  }

  /** Keys that are not strings, and the dict's own type, are passed over. */
  function AbsorbPair(m: Meta, p: Pair): Result<Meta> {
    if !p.key.Str? || p.key.str == N.TYPE then Ok(m) else Absorb(m, p.key.str, p.value)
  }

  function AbsorbAll(m: Meta, ms: seq<Pair>): Result<Meta>
    decreases ms
  {
    if ms == [] then Ok(m)
    else match AbsorbPair(m, ms[0])
         case Err(e) => Err(e)
         case Ok(m') => AbsorbAll(m', ms[1..])
  }

  function CheckModes(m: Meta): Option<Error> {
    if m.encrypt != 1 then Some(EncryptMode)
    else if m.compress != 0 && m.compress != 1 then Some(CompressMode)
    else None
  }

  class Record {
    var major: int64
    var minor: int64
    var salt: bytes
    var digest: bytes
    var encKey1: Option<bytes>
    var encKey2: Option<bytes>
    var key1Hash: bytes
    var sessionKeyHash: bytes
    var plaintextMD5: bytes
    var filename: bytes
    var compress: int64
    var encrypt: int64

    /** The value a snapshot of the record has. */
    function View(): Meta
      reads this
    {
      Meta(major, minor, salt, digest, encKey1, encKey2, key1Hash, sessionKeyHash,
           plaintextMD5, filename, compress, encrypt)
    }

    constructor ()
      ensures View() == DEFAULTS
    {
      major, minor, salt, digest := 0, 0, [], [];
      encKey1, encKey2, key1Hash, sessionKeyHash := None, None, [], [];
      plaintextMD5, filename, compress, encrypt := [], [], 1, 1;
    }

    method AbsorbField(key: bytes, v: Value) returns (err: Option<Error>)
      modifies this
      ensures match Absorb(old(View()), key, v)
              case Ok(m) => err == None && View() == m
              case Err(e) => err == Some(e) && View() == old(View())
    {
      hide N.FieldOf, Base64Decode, Find;
      err := None;
      match N.FieldOf(key) {
        case Version =>
          match Lookup(v, N.MAJOR) { case Some(Int(n)) => major := ToInt64(n); case _ => }
          match Lookup(v, N.MINOR) { case Some(Int(n)) => minor := ToInt64(n); case _ => }
        case Salt =>
          if v.Str? { salt := v.str; }
        case Digest =>
          if v.Str? { digest := v.str; }
        case EncKey1 =>
          var b := DecodeB64(v);
          if b == None { return Some(BadEncKey1); }
          encKey1 := b;
        case EncKey2 =>
          var b := DecodeB64(v);
          if b == None { return Some(BadEncKey2); }
          encKey2 := b;
        case Key1Hash =>
          if v.Str? { key1Hash := v.str; }
        case SessionKeyHash =>
          if v.Str? { sessionKeyHash := v.str; }
        case FileMd5 =>
          if v.Str? { plaintextMD5 := v.str; }
        case FileName =>
          if v.Str? { filename := v.str; }
        case Compress =>
          if v.Int? { compress := ToInt64(v.n); }
        case Encrypt =>
          if v.Int? { encrypt := ToInt64(v.n); }
        case Key2Hash =>
        case Unrecognized =>
      }
    }

    /** The loop over one metadata dict's members. */
    method AbsorbMembers(ms: seq<Pair>) returns (err: Option<Error>)
      modifies this
      ensures match AbsorbAll(old(View()), ms)
              case Ok(m) => err == None && View() == m
              case Err(e) => err == Some(e)
    {
      hide Absorb;
      var i := 0;
      while i < |ms|
        invariant 0 <= i <= |ms|
        invariant AbsorbAll(old(View()), ms) == AbsorbAll(View(), ms[i..])
      {
        assert ms[i..][0] == ms[i] && ms[i..][1..] == ms[i + 1..];
        if ms[i].key.Str? && ms[i].key.str != N.TYPE {
          err := AbsorbField(ms[i].key.str, ms[i].value);
          if err.Some? {
            return;
          }
        }
        i := i + 1;
      }
      err := None;
    }
  }

  // -- What the writer records --

  datatype Leading = Leading(
    major: int64, minor: int64, salt: bytes, encKey1: bytes, encKey2: bytes,
    key1Hash: bytes, sessKeyHash: bytes, compress: int64, encrypt: int64, filename: bytes)
  {
    predicate NonNegative() {
      major >= 0 && minor >= 0 && compress >= 0 && encrypt >= 0
    }
  }

  function StrMember(k: bytes, v: bytes): Pair {
    Pair(Str(k), Str(v))
  }

  function IntMember(k: bytes, n: nat): Pair {
    Pair(Str(k), Int(n))
  }

  /** A member that is left out when `present` is empty. */
  function Optional(present: bytes, k: bytes, v: bytes): seq<Pair> {
    if present == [] then [] else [StrMember(k, v)]
  }

  function VersionMember(h: Leading): Pair
    requires h.NonNegative()
  {
    Pair(Str(N.VERSION), Dict([IntMember(N.MAJOR, h.major), IntMember(N.MINOR, h.minor)]))
  }

  function LeadingMembers(h: Leading): seq<Pair>
    requires h.NonNegative()
  {
    FormatPart(h) + KeyPart(h) + ModePart(h)
  }

  function FormatPart(h: Leading): seq<Pair>
    requires h.NonNegative()
  {
    [StrMember(N.TYPE, N.METADATA), VersionMember(h)]
    + Optional(h.salt, N.SALT, h.salt)
    + [StrMember(N.DIGEST, N.MD5)]
  }

  function KeyPart(h: Leading): seq<Pair> {
    Optional(h.encKey1, N.ENC_KEY1, Base64Encode(h.encKey1))
    + Optional(h.key1Hash, N.KEY1_HASH, h.key1Hash)
    + Optional(h.encKey2, N.ENC_KEY2, Base64Encode(h.encKey2))
  }

  function ModePart(h: Leading): seq<Pair>
    requires h.NonNegative()
  {
    [StrMember(N.SESSION_KEY_HASH, h.sessKeyHash), IntMember(N.COMPRESS, h.compress), IntMember(N.ENCRYPT, h.encrypt)]
    + Optional(h.filename, N.FILE_NAME, h.filename)
  }

  function KeyOption(k: bytes): Option<bytes> {
    if k == [] then None else Some(k)
  }

  /** The record that describes what was written; absent keys stay absent. */
  function Recorded(h: Leading): Meta {
    Meta(h.major, h.minor, h.salt, N.MD5,
         KeyOption(h.encKey1), KeyOption(h.encKey2),
         h.key1Hash, h.sessKeyHash, [], h.filename, h.compress, h.encrypt)
  }

  lemma {:induction false} AbsorbAppend(m: Meta, a: seq<Pair>, b: seq<Pair>)
    ensures AbsorbAll(m, a + b) == match AbsorbAll(m, a) case Err(e) => Err(e) case Ok(m') => AbsorbAll(m', b)
    decreases a
  {
    if a == [] {
      assert a + b == b;
    } else {
      assert (a + b)[1..] == a[1..] + b;
      match AbsorbPair(m, a[0])
      case Ok(m') => AbsorbAppend(m', a[1..], b);
      case Err(_) =>
    }
  }

  lemma AbsorbOne(m: Meta, p: Pair)
    ensures AbsorbAll(m, [p]) == AbsorbPair(m, p)
  {
    assert [p][1..] == [];
    match AbsorbPair(m, p)
    case Ok(m') => assert AbsorbAll(m', []) == Ok(m');
    case Err(_) =>
  }

  /** Extending a prefix that is absorbed to `m1` by one member, or by an
      optional one, when the member's own effect is known. */
  lemma Then(m0: Meta, a: seq<Pair>, m1: Meta, p: Pair, m2: Meta)
    requires AbsorbAll(m0, a) == Ok(m1) && AbsorbPair(m1, p) == Ok(m2)
    ensures AbsorbAll(m0, a + [p]) == Ok(m2)
  {
    AbsorbAppend(m0, a, [p]);
    AbsorbOne(m1, p);
  }

  lemma ThenOptional(m0: Meta, a: seq<Pair>, m1: Meta, present: bytes, k: bytes, v: bytes, m2: Meta)
    requires AbsorbAll(m0, a) == Ok(m1)
    requires if present == [] then m2 == m1 else AbsorbPair(m1, StrMember(k, v)) == Ok(m2)
    ensures AbsorbAll(m0, a + Optional(present, k, v)) == Ok(m2)
  {
    if present == [] {
      assert a + [] == a;
    } else {
      Then(m0, a, m1, StrMember(k, v), m2);
    }
  }

  lemma VersionAbsorbed(m: Meta, h: Leading)
    requires h.NonNegative()
    ensures AbsorbPair(m, VersionMember(h)) == Ok(m.(major := h.major, minor := h.minor))
  {
    hide N.FieldOf;
    N.FieldNames();
    var ms := [IntMember(N.MAJOR, h.major), IntMember(N.MINOR, h.minor)];
    assert ms[1..] == [IntMember(N.MINOR, h.minor)];
    assert Find(ms, N.MAJOR) == Some(Int(h.major));
    assert Find(ms, N.MINOR) == Find(ms[1..], N.MINOR) == Some(Int(h.minor));
  }

  lemma FormatAbsorbed(m0: Meta, h: Leading)
    requires h.NonNegative() && m0.salt == []
    ensures AbsorbAll(m0, FormatPart(h))
         == Ok(m0.(major := h.major, minor := h.minor, salt := h.salt, digest := N.MD5))
  {
    hide N.FieldOf, Base64Decode, Base64Encode;
    N.FieldNames();
    var a := [StrMember(N.TYPE, N.METADATA)];
    AbsorbOne(m0, a[0]);
    var m1 := m0.(major := h.major, minor := h.minor);
    VersionAbsorbed(m0, h);
    Then(m0, a, m0, VersionMember(h), m1);
    assert a + [VersionMember(h)] == [StrMember(N.TYPE, N.METADATA), VersionMember(h)];
    var m2 := m1.(salt := h.salt);
    var b := a + [VersionMember(h)];
    ThenOptional(m0, b, m1, h.salt, N.SALT, h.salt, m2);
    Then(m0, b + Optional(h.salt, N.SALT, h.salt), m2, StrMember(N.DIGEST, N.MD5), m2.(digest := N.MD5));
  }

  lemma KeysAbsorbed(m0: Meta, h: Leading)
    requires m0.encKey1 == None && m0.encKey2 == None && m0.key1Hash == []
    ensures AbsorbAll(m0, KeyPart(h))
         == Ok(m0.(encKey1 := KeyOption(h.encKey1), key1Hash := h.key1Hash, encKey2 := KeyOption(h.encKey2)))
  {
    hide N.FieldOf, Base64Decode, Base64Encode;
    N.FieldNames();
    Base64RoundTrip(h.encKey1);
    Base64RoundTrip(h.encKey2);
    var m1 := m0.(encKey1 := KeyOption(h.encKey1));
    var a := Optional(h.encKey1, N.ENC_KEY1, Base64Encode(h.encKey1));
    ThenOptional(m0, [], m0, h.encKey1, N.ENC_KEY1, Base64Encode(h.encKey1), m1);
    assert [] + a == a;
    var m2 := m1.(key1Hash := h.key1Hash);
    ThenOptional(m0, a, m1, h.key1Hash, N.KEY1_HASH, h.key1Hash, m2);
    ThenOptional(m0, a + Optional(h.key1Hash, N.KEY1_HASH, h.key1Hash), m2,
                 h.encKey2, N.ENC_KEY2, Base64Encode(h.encKey2), m2.(encKey2 := KeyOption(h.encKey2)));
  }

  lemma ModesAbsorbed(m0: Meta, h: Leading)
    requires h.NonNegative() && m0.filename == []
    ensures AbsorbAll(m0, ModePart(h))
         == Ok(m0.(sessionKeyHash := h.sessKeyHash, compress := h.compress, encrypt := h.encrypt,
                      filename := h.filename))
  {
    hide N.FieldOf, Base64Decode, Base64Encode;
    N.FieldNames();
    var a := [StrMember(N.SESSION_KEY_HASH, h.sessKeyHash)];
    var m1 := m0.(sessionKeyHash := h.sessKeyHash);
    AbsorbOne(m0, a[0]);
    var m2 := m1.(compress := h.compress);
    Then(m0, a, m1, IntMember(N.COMPRESS, h.compress), m2);
    var m3 := m2.(encrypt := h.encrypt);
    var b := a + [IntMember(N.COMPRESS, h.compress)];
    Then(m0, b, m2, IntMember(N.ENCRYPT, h.encrypt), m3);
    var c := b + [IntMember(N.ENCRYPT, h.encrypt)];
    ThenOptional(m0, c, m3, h.filename, N.FILE_NAME, h.filename, m3.(filename := h.filename));
    assert c == [StrMember(N.SESSION_KEY_HASH, h.sessKeyHash), IntMember(N.COMPRESS, h.compress),
                 IntMember(N.ENCRYPT, h.encrypt)];
  }

  /** Absorbing the leading dict's members, whatever fields were left out,
      reproduces every field that was written and the defaults of the rest. */
  lemma LeadingRoundTrip(h: Leading)
    requires h.NonNegative()
    ensures AbsorbAll(DEFAULTS, LeadingMembers(h)) == Ok(Recorded(h))
  {
    var m1 := DEFAULTS.(major := h.major, minor := h.minor, salt := h.salt, digest := N.MD5);
    FormatAbsorbed(DEFAULTS, h);
    AbsorbAppend(DEFAULTS, FormatPart(h), KeyPart(h));
    KeysAbsorbed(m1, h);
    AbsorbAppend(DEFAULTS, FormatPart(h) + KeyPart(h), ModePart(h));
    ModesAbsorbed(m1.(encKey1 := KeyOption(h.encKey1), key1Hash := h.key1Hash, encKey2 := KeyOption(h.encKey2)), h);
  }
}
