/** The metadata record described field by field: what each field is once a list
    of members has been absorbed, and when absorbing fails. */
module Fields {
  import opened Bytes
  import opened TextCodecs
  import opened Wire
  import opened Encoder
  import opened Metadata
  import N = Names

  predicate Keyed(p: Pair, name: bytes) {
    p.key == Str(name)
  }

  /** The last string under the key `name`, or `before` if there is none. */
  function LastStr(ms: seq<Pair>, name: bytes, before: bytes): bytes {
    if ms == [] then before
    else
      var p := ms[|ms| - 1];
      if Keyed(p, name) && p.value.Str? then p.value.str else LastStr(ms[..|ms| - 1], name, before)
  }

  /** The last integer under the key, as 64 bits. */
  function LastInt(ms: seq<Pair>, name: bytes, before: int64): int64 {
    if ms == [] then before
    else
      var p := ms[|ms| - 1];
      if Keyed(p, name) && p.value.Int? then ToInt64(p.value.n) else LastInt(ms[..|ms| - 1], name, before)
  }

  /** The last key under the key, a string or a blob, decoded from base64. */
  function LastKey(ms: seq<Pair>, name: bytes, before: Option<bytes>): Option<bytes> {
    if ms == [] then before
    else
      var p := ms[|ms| - 1];
      if Keyed(p, name) then Decoded(p.value) else LastKey(ms[..|ms| - 1], name, before)
  }

  function Decoded(v: Value): Option<bytes> {
    if v.Str? then Base64Decode(v.str) else if v.Blob? then Base64Decode(v.data) else None
  }

  /** The last version dict that has an integer under `part`. */
  function LastVersion(ms: seq<Pair>, part: bytes, before: int64): int64 {
    if ms == [] then before
    else
      var p := ms[|ms| - 1];
      var v := Lookup(p.value, part);
      if Keyed(p, N.VERSION) && v.Some? && v.value.Int? then ToInt64(v.value.n)
      else LastVersion(ms[..|ms| - 1], part, before)
  }

  /** Can every wrapped key be decoded? */
  predicate KeysDecode(ms: seq<Pair>) {
    forall i :: 0 <= i < |ms| ==> KeyDecodes(ms[i])
  }

  predicate KeyDecodes(p: Pair) {
    Keyed(p, N.ENC_KEY1) || Keyed(p, N.ENC_KEY2) ==> Decoded(p.value).Some?
  }

  /** Every field is the last one of its name and kind. */
  function LastFields(m: Meta, ms: seq<Pair>): Meta {
    Meta(LastVersion(ms, N.MAJOR, m.major), LastVersion(ms, N.MINOR, m.minor),
         LastStr(ms, N.SALT, m.salt), LastStr(ms, N.DIGEST, m.digest),
         LastKey(ms, N.ENC_KEY1, m.encKey1), LastKey(ms, N.ENC_KEY2, m.encKey2),
         LastStr(ms, N.KEY1_HASH, m.key1Hash), LastStr(ms, N.SESSION_KEY_HASH, m.sessionKeyHash),
         LastStr(ms, N.FILE_MD5, m.plaintextMD5), LastStr(ms, N.FILE_NAME, m.filename),
         LastInt(ms, N.COMPRESS, m.compress), LastInt(ms, N.ENCRYPT, m.encrypt))
  }

  lemma NamesDiffer(key: bytes)
    ensures N.FieldOf(key).Version? <==> key == N.VERSION
    ensures N.FieldOf(key).Salt? <==> key == N.SALT
    ensures N.FieldOf(key).Digest? <==> key == N.DIGEST
    ensures N.FieldOf(key).EncKey1? <==> key == N.ENC_KEY1
    ensures N.FieldOf(key).EncKey2? <==> key == N.ENC_KEY2
    ensures N.FieldOf(key).Key1Hash? <==> key == N.KEY1_HASH
    ensures N.FieldOf(key).SessionKeyHash? <==> key == N.SESSION_KEY_HASH
    ensures N.FieldOf(key).FileMd5? <==> key == N.FILE_MD5
    ensures N.FieldOf(key).FileName? <==> key == N.FILE_NAME
    ensures N.FieldOf(key).Compress? <==> key == N.COMPRESS
    ensures N.FieldOf(key).Encrypt? <==> key == N.ENCRYPT
    ensures key == N.TYPE ==> N.FieldOf(key).Unrecognized?
  {
    N.FieldNames();
  }

  lemma OneMore(m: Meta, front: seq<Pair>, p: Pair)
    ensures var now := LastFields(m, front);
            var next := LastFields(m, front + [p]);
            if KeyDecodes(p) then AbsorbPair(now, p) == Ok(next) else AbsorbPair(now, p).Err?
  {
    hide N.FieldOf, Base64Decode, Find, ToInt64;
    var ms := front + [p];
    assert ms[..|ms| - 1] == front;
    if p.key.Str? {
      NamesDiffer(p.key.str);
    }
  }

  /** Absorbing fails exactly when a wrapped key cannot be decoded, and otherwise
      the last field of each name and kind counts. */
  lemma {:induction false} FieldsAreLast(m: Meta, ms: seq<Pair>)
    ensures if KeysDecode(ms) then AbsorbAll(m, ms) == Ok(LastFields(m, ms)) else AbsorbAll(m, ms).Err?
  {
    hide AbsorbPair, LastFields, KeyDecodes;
    if ms == [] {
      NoFields(m);
    } else {
      var front, p := ms[..|ms| - 1], ms[|ms| - 1];
      assert ms == front + [p];
      FieldsAreLast(m, front);
      AbsorbAppend(m, front, [p]);
      if KeysDecode(front) {
        AbsorbOne(LastFields(m, front), p);
        OneMore(m, front, p);
      }
    }
  }

  /** The first wrapped key that cannot be decoded gives the error. */
  lemma {:induction false} FirstBadKey(m: Meta, ms: seq<Pair>, i: nat)
    requires i < |ms| && !KeyDecodes(ms[i]) && KeysDecode(ms[..i])
    ensures AbsorbAll(m, ms) == Err(if Keyed(ms[i], N.ENC_KEY1) then BadEncKey1 else BadEncKey2)
  {
    hide LastFields, N.FieldOf, Base64Decode;
    var front, p, rest := ms[..i], ms[i], ms[i + 1..];
    assert ms == front + ([p] + rest);
    FieldsAreLast(m, front);
    AbsorbAppend(m, front, [p] + rest);
    NamesDiffer(p.key.str);
    assert ([p] + rest)[0] == p;
  }

  lemma NoFields(m: Meta)
    ensures LastFields(m, []) == m && AbsorbAll(m, []) == Ok(m)
  {
  }

  /** The 64-bit value of a number: the one in range that differs from it by a
      multiple of 2^64. */
  lemma ToInt64Is(n: nat)
    ensures -0x8000_0000_0000_0000 <= ToInt64(n) < 0x8000_0000_0000_0000
    ensures (n - ToInt64(n)) % 0x1_0000_0000_0000_0000 == 0
  {
  }
}
