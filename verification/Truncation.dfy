/** A written stream cut short: which strict prefixes still have a plaintext, and
    which plaintext each of them has. */
module Truncation {
  import opened Bytes
  import opened TextCodecs
  import opened Primitives
  import opened Wire
  import opened WireEnds
  import opened Metadata
  import opened Envelope
  import opened Dicts
  import opened EncryptPipe
  import opened Meaning
  import opened RoundTrip
  import W = Writer
  import Cbc
  import Pkcs7

  // -- Where a cut falls --

  /** A cut of a data section leaves some whole dicts and a strict prefix of the next. */
  lemma {:induction false} CutSection(ps: seq<bytes>, n: nat) returns (j: nat, partial: bytes)
    requires n < |DataSection(ps)|
    ensures j < |ps| && DataSection(ps)[..n] == DataSection(ps[..j]) + partial
    ensures partial < Enc(DataValue(ps[j]))
  {
    hide Enc, DataValue;
    var first := Enc(DataValue(ps[0]));
    if n < |first| {
      j, partial := 0, first[..n];
      assert DataSection(ps)[..n] == partial;
    } else {
      var i, q := CutSection(ps[1..], n - |first|);
      j, partial := i + 1, q;
      assert ps[..j][0] == ps[0] && ps[..j][1..] == ps[1..][..i];
      assert DataSection(ps)[..n] == first + DataSection(ps[1..])[..n - |first|];
      assert DataSection(ps[..j]) + partial == first + (DataSection(ps[1..][..i]) + partial);
    }
  }

  /** The item that a cut interrupts after `j` data dicts. */
  function Interrupted(ps: seq<bytes>, hex: bytes, j: nat): Value
    requires j <= |ps|
  {
    if j < |ps| then DataValue(ps[j]) else FinalValue(hex)
  }

  lemma CutBody(ps: seq<bytes>, hex: bytes, n: nat) returns (j: nat, partial: bytes)
    requires n < |DataSection(ps) + Enc(FinalValue(hex))|
    ensures j <= |ps| && partial < Enc(Interrupted(ps, hex, j))
    ensures (DataSection(ps) + Enc(FinalValue(hex)))[..n] == DataSection(ps[..j]) + partial
  {
    hide Enc, DataValue, FinalValue, DataSection;
    var section, trailer := DataSection(ps), Enc(FinalValue(hex));
    if n < |section| {
      j, partial := CutSection(ps, n);
      assert (section + trailer)[..n] == section[..n];
    } else {
      j, partial := |ps|, trailer[..n - |section|];
      assert ps[..j] == ps;
      assert (section + trailer)[..n] == section + partial;
    }
  }

  // -- What is read of it --

  lemma CutValueRead(v: Value, partial: bytes)
    requires Encodable(v) && partial < Enc(v)
    ensures Next(partial) == if AtFieldStart(partial) then Done else Broken(UnexpectedEof)
  {
    assert partial == Enc(v)[..|partial|];
    TruncatedValue(v, |partial|);
  }

  /** After `j` whole data dicts and a strict prefix of the next item. */
  lemma CutCollected(ps: seq<bytes>, hex: bytes, j: nat, partial: bytes, m: Meta)
    requires Writable(ps) && |hex| <= 0xFFFF && j <= |ps| && CheckModes(m) == None
    requires partial < Enc(Interrupted(ps, hex, j))
    ensures Collect(DataSection(ps[..j]) + partial, Gathered(m, None, []))
         == if !AtFieldStart(partial) then Err(Stream(UnexpectedEof))
            else Ok(Gathered(m, if j == 0 then None else Some(m), ps[..j]))
  {
    hide Enc, DataValue, FinalValue, CheckModes, AtFieldStart, Gather;
    if j < |ps| {
      DataForm(ps[j]);
    } else {
      FinalForm(hex);
    }
    CutValueRead(Interrupted(ps, hex, j), partial);
    if j == 0 {
      assert ps[..j] == [];
      assert DataSection([]) + partial == partial;
    } else {
      FirstSection(ps[..j], partial, m);
    }
  }

  // -- What is decoded of it --

  lemma {:induction false} FrontChunks(ct: bytes, j: nat)
    requires |ct| % BLOCK == 0 && j < |Chunks(ct)|
    ensures j * CHUNK < |ct| && Flatten(Chunks(ct)[..j]) == ct[..j * CHUNK]
    decreases j
  {
    var ps := Chunks(ct);
    if j > 0 {
      FrontChunks(ct[CHUNK..], j - 1);
      assert ps[..j][1..] == ps[1..][..j - 1];
      assert ct[..j * CHUNK] == ct[..CHUNK] + ct[CHUNK..][..(j - 1) * CHUNK];
    }
  }

  /** The plaintext of a front of the ciphertext is the front of what was padded,
      which the padding does not reach. */
  lemma FrontDecrypted(S: Suite, k: CipherKey, x: bytes, n: nat)
    requires k.Valid() && n % BLOCK == 0 && n < |W.Ciphertext(S, k, x)|
    ensures n <= |x| && Cbc.Decrypt(S, k.key, k.iv, W.Ciphertext(S, k, x)[..n]) == x[..n]
  {
    hide Family.Lawful, Cbc.Decrypt, Cbc.Encrypt;
    var ct := W.Ciphertext(S, k, x);
    assert ct == ct[..n] + ct[n..];
    Cbc.DecryptEncrypt(S, k.key, k.iv, Pkcs7.Pad(x));
    Cbc.DecryptAppend(S, k.key, k.iv, ct[..n], ct[n..]);
    assert Pkcs7.Pad(x)[..n] == x[..n];
  }

  /** What the first `j` chunks of a written payload decode to: all of them to
      what was written, fewer to whatever the front of the payload happens to
      unpad and decompress to. */
  ghost function FrontDecoded(S: Suite, compress: bool, writes: seq<bytes>, all: bool, n: nat): Option<bytes> {
    var x := W.Payload(S, compress, writes);
    if all then Some(Flatten(writes))
    else if n > |x| then None
    else
      match Pkcs7.Unpadded(x[..n])
      case None => None
      case Some(y) =>
        if !compress then Some(y) else match S.LzRead(y) case LzOk(out) => Some(out) case LzError => None
  }

  lemma FrontIsDecoded(S: Suite, k: CipherKey, compress: bool, writes: seq<bytes>, j: nat)
    requires k.Valid() && j <= |Chunks(W.Ciphertext(S, k, W.Payload(S, compress, writes)))|
    ensures var ps := Chunks(W.Ciphertext(S, k, W.Payload(S, compress, writes)));
            && Cbc.Aligned(Flatten(ps[..j]))
            && Decoded(S, k, compress, Flatten(ps[..j])) == FrontDecoded(S, compress, writes, j == |ps|, j * CHUNK)
  {
    hide Family.Lawful, Cbc.Decrypt, W.Ciphertext, W.Payload, Chunks, Pkcs7.Unpadded;
    var x := W.Payload(S, compress, writes);
    var ct := W.Ciphertext(S, k, x);
    ChunksShape(ct);
    if j == |Chunks(ct)| {
      assert Chunks(ct)[..j] == Chunks(ct);
      PayloadDecoded(S, k, compress, writes);
    } else {
      FrontChunks(ct, j);
      FrontDecrypted(S, k, x, j * CHUNK);
    }
  }

  // -- The cut stream --

  lemma CutLeading(S: Suite, h: Leading, opt: Options, partial: bytes)
    requires Fits(h) && partial < Enc(LeadingValue(h))
    ensures Plaintext(S, opt, Magic(S) + partial) == None
  {
    hide Enc, LeadingValue, Family.Lawful, Finished, Magic, AfterMagic, AtFieldStart;
    MagicPassed(S, partial);
    CutValueRead(LeadingValue(h), partial);
    if Collect(partial, START).Ok? {
      assert Collect(partial, START) == Ok(START);
      SameRecovery(S, opt, Magic(S) + partial);
      NoHead(S, opt);
    }
  }

  lemma NoHead(S: Suite, opt: Options)
    ensures Finished(S, opt, START) == None
  {
    hide Family.Lawful;
  }

  /** A cut inside the header leaves nothing to decrypt. */
  lemma CutInHeader(S: Suite, h: Leading, opt: Options, s: bytes, n: nat)
    requires Fits(h) && Magic(S) + Enc(LeadingValue(h)) <= s && n < |Magic(S) + Enc(LeadingValue(h))|
    ensures Plaintext(S, opt, s[..n]) == None
  {
    hide Enc, LeadingValue, Family.Lawful, Magic, AfterMagic, PlaintextFrom;
    var lead := Enc(LeadingValue(h));
    if n < |Magic(S)| {
      assert s[..n] == Magic(S)[..n];
      CutMagic(S, n);
    } else {
      var partial := lead[..n - |Magic(S)|];
      assert s[..n] == (Magic(S) + lead)[..n] == Magic(S) + partial;
      CutLeading(S, h, opt, partial);
    }
  }

  lemma CutMagic(S: Suite, n: nat)
    requires n < |Magic(S)|
    ensures AfterMagic(S, Magic(S)[..n]).Err?
  {
  }

  function WrittenChunks(S: Suite, plan: W.Plan, compress: bool, writes: seq<bytes>): seq<bytes>
    requires plan.cipher.Valid()
  {
    Chunks(W.Ciphertext(S, plan.cipher, W.Payload(S, compress, writes)))
  }

  /** Where a cut of the whole stream falls. */
  datatype Cut = InHeader | InData(whole: nat, partial: bytes)

  /** `s[..n]` is what the cut says it is. */
  ghost predicate IsCut(header: bytes, ps: seq<bytes>, hex: bytes, s: bytes, n: nat, cut: Cut)
    requires n <= |s|
  {
    match cut
    case InHeader => n < |header|
    case InData(j, partial) =>
      && n >= |header|
      && j <= |ps|
      && partial < Enc(Interrupted(ps, hex, j))
      && s[..n] == header + (DataSection(ps[..j]) + partial)
  }

  /** The plaintext that a cut leaves. */
  ghost function CutPlaintext(S: Suite, compress: bool, writes: seq<bytes>, chunks: nat, cut: Cut): Option<bytes> {
    match cut
    case InHeader => None
    case InData(j, partial) =>
      if j == 0 || !AtFieldStart(partial) then None
      else FrontDecoded(S, compress, writes, j == chunks, j * CHUNK)
  }

  lemma CutOf(header: bytes, ps: seq<bytes>, hex: bytes, n: nat) returns (cut: Cut)
    requires n < |header + DataSection(ps) + Enc(FinalValue(hex))|
    ensures IsCut(header, ps, hex, header + DataSection(ps) + Enc(FinalValue(hex)), n, cut)
  {
    hide Enc, DataSection, FinalValue;
    var section := DataSection(ps) + Enc(FinalValue(hex));
    var s := header + DataSection(ps) + Enc(FinalValue(hex));
    assert s == header + section;
    if n < |header| {
      cut := InHeader;
    } else {
      var j, partial := CutBody(ps, hex, n - |header|);
      cut := InData(j, partial);
      assert s[..n] == header + section[..n - |header|];
    }
  }

  /** A cut after the header, with `j` whole data dicts left. */
  lemma CutInData(S: Suite, o: EncryptOptions, rand: bytes, plan: W.Plan, writes: seq<bytes>, opt: Options,
                  hex: bytes, ps: seq<bytes>, j: nat, partial: bytes)
    requires W.PlanOf(S, o, rand) == Some(plan) && Opens(S, o, opt) && |hex| <= 0xFFFF
    requires ps == WrittenChunks(S, plan, o.CompressOn(), writes)
    requires j <= |ps| && partial < Enc(Interrupted(ps, hex, j))
    ensures Plaintext(S, opt, plan.header + (DataSection(ps[..j]) + partial))
         == CutPlaintext(S, o.CompressOn(), writes, |ps|, InData(j, partial))
  {
    hide AfterMagic, Collect, Magic, Enc, DataSection, Chunks, Family.Lawful, Recover, Prepare, Decoded, W.Payload,
         W.Ciphertext, Opens, AtFieldStart, FrontDecoded, LeadingValue, CheckModes, DataKey;
    var p := Prepare(S, o, rand).value;
    ChunksShape(W.Ciphertext(S, DataKey(S, p.session), W.Payload(S, o.CompressOn(), writes)));
    var m, lead, rest := Recorded(p.leading), Enc(LeadingValue(p.leading)), DataSection(ps[..j]) + partial;
    assert (Magic(S) + lead) + rest == Magic(S) + (lead + rest);
    MagicPassed(S, lead + rest);
    HeaderCollected(p.leading, rest);
    LeadingModes(S, o, rand);
    CutCollected(ps, hex, j, partial, m);
    if AtFieldStart(partial) {
      SameRecovery(S, opt, Magic(S) + (lead + rest));
      if j > 0 {
        KeyAgreement(S, o, opt, rand);
        FrontIsDecoded(S, DataKey(S, p.session), o.CompressOn(), writes, j);
      }
    }
  }

  /** A strict prefix of a written stream has a plaintext if and only if it holds
      the header and at least one whole data dict, breaks off where a field would
      start, and either holds all data dicts, when the plaintext is everything
      that was written, or what it holds of the payload happens to unpad and
      decompress, when the plaintext is that. */
  lemma TruncatedStream(S: Suite, o: EncryptOptions, rand: bytes, plan: W.Plan, writes: seq<bytes>, opt: Options,
                        n: nat)
    returns (cut: Cut)
    requires W.PlanOf(S, o, rand) == Some(plan) && Opens(S, o, opt)
    requires n < |W.StreamFrom(S, plan, o.CompressOn(), writes)|
    ensures var s := W.StreamFrom(S, plan, o.CompressOn(), writes);
            var ps := WrittenChunks(S, plan, o.CompressOn(), writes);
            && IsCut(plan.header, ps, HexEncode(S.md5(Flatten(writes))), s, n, cut)
            && Plaintext(S, opt, s[..n]) == CutPlaintext(S, o.CompressOn(), writes, |ps|, cut)
  {
    hide Magic, Enc, DataSection, Chunks, Family.Lawful, Recover, Prepare, W.Payload, W.Ciphertext,
         Opens, AtFieldStart, FrontDecoded, LeadingValue, DataKey, Plaintext, Interrupted, HexEncode;
    var hex := HexEncode(S.md5(Flatten(writes)));
    var header, ps := plan.header, WrittenChunks(S, plan, o.CompressOn(), writes);
    W.DigestLength(S, Flatten(writes));
    cut := CutOf(header, ps, hex, n);
    match cut
    case InHeader =>
      var s := W.StreamFrom(S, plan, o.CompressOn(), writes);
      assert s == header + (DataSection(ps) + W.Trailer(S, Flatten(writes)));
      CutInHeader(S, Prepare(S, o, rand).value.leading, opt, s, n);
    case InData(j, partial) =>
      CutInData(S, o, rand, plan, writes, opt, hex, ps, j, partial);
  }

  /** One such prefix: without compression and with at least one chunk of plaintext
      whose last byte there is 1, the stream cut after its first data dict
      passes for a stream of the bytes before that one. */
  lemma CutAfterFirstDict(S: Suite, o: EncryptOptions, rand: bytes, plan: W.Plan, writes: seq<bytes>, opt: Options)
    returns (n: nat)
    requires W.PlanOf(S, o, rand) == Some(plan) && Opens(S, o, opt) && !o.CompressOn()
    requires |Flatten(writes)| >= CHUNK && Flatten(writes)[CHUNK - 1] == 1
    ensures n < |W.StreamFrom(S, plan, false, writes)|
    ensures Plaintext(S, opt, W.StreamFrom(S, plan, false, writes)[..n]) == Some(Flatten(writes)[..CHUNK - 1])
  {
    hide Magic, Enc, DataSection, Chunks, Family.Lawful, Recover, Prepare, W.Ciphertext, W.PlanOf,
         Opens, LeadingValue, DataKey, Plaintext, HexEncode, W.Trailer;
    var x := Flatten(writes);
    var hex := HexEncode(S.md5(x));
    W.DigestLength(S, x);
    var ps := WrittenChunks(S, plan, false, writes);
    LongEnough(S, plan.cipher, x);
    var front := DataSection(ps[..1]);
    DataSectionAppend(ps[..1], ps[1..]);
    assert ps == ps[..1] + ps[1..];
    n := |plan.header + front|;
    var rest := DataSection(ps[1..]) + W.Trailer(S, x);
    var s := W.StreamFrom(S, plan, false, writes);
    assert s == (plan.header + front) + rest;
    assert s[..n] == plan.header + (front + []);
    assert W.Trailer(S, x) != [] by { TrailerIsSome(S, x); }
    CutInData(S, o, rand, plan, writes, opt, hex, ps, 1, []);
    assert x[..CHUNK][CHUNK - 1] == 1;
    assert x[..CHUNK][..CHUNK - 1] == x[..CHUNK - 1];
  }

  lemma TrailerIsSome(S: Suite, x: bytes)
    ensures W.Trailer(S, x) != []
  {
  }

  lemma LongEnough(S: Suite, k: CipherKey, x: bytes)
    requires k.Valid() && |x| >= CHUNK
    ensures |Chunks(W.Ciphertext(S, k, x))| >= 2
  {
    hide Family.Lawful;
    ChunksShape(W.Ciphertext(S, k, x));
  }
}
