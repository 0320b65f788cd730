/** The session-key envelope: how the writer wraps the key that encrypts the
    payload, and how the reader gets it back with either credential. */
module Envelope {
  import opened Bytes
  import opened TextCodecs
  import opened Primitives
  import opened Encoder
  import opened Metadata
  import Cbc
  import Kdf
  import Pkcs7

  // -- Salted digests --

  function SaltedDigest(S: Suite, prefix: bytes, data: bytes): bytes {
    prefix + HexEncode(S.md5(prefix + data))
  }

  /** verifyKeyHash: short or missing hashes verify nothing. */
  predicate HashAccepts(S: Suite, saltedHash: bytes, secret: bytes) {
    |saltedHash| < 10 || SaltedDigest(S, saltedHash[..10], secret) == saltedHash
  }

  /** For a ten-byte prefix, the check accepts a recorded digest exactly when
      the digests of the two secrets agree. */
  lemma DigestAccepts(S: Suite, prefix: bytes, data: bytes, secret: bytes)
    requires |prefix| == 10
    ensures HashAccepts(S, SaltedDigest(S, prefix, data), secret)
       <==> S.md5(prefix + secret) == S.md5(prefix + data)
  {
    assert SaltedDigest(S, prefix, data)[..10] == prefix;
    HexRoundTrip(S.md5(prefix + data));
    HexRoundTrip(S.md5(prefix + secret));
    assert SaltedDigest(S, prefix, data)[10..] == HexEncode(S.md5(prefix + data));
    assert SaltedDigest(S, prefix, secret)[10..] == HexEncode(S.md5(prefix + secret));
  }

  // -- Keys --

  datatype CipherKey = CipherKey(key: bytes, iv: bytes) {
    predicate Valid() {
      |key| == 32 && |iv| == BLOCK
    }
  }

  function KeyFrom(material: bytes): (k: CipherKey)
    requires |material| == 48
    ensures k.Valid()
  {
    CipherKey(material[..32], material[32..])
  }

  /** The cipher that wraps the session key: 1000 rounds with a salt, else one. */
  function PasswordKey(S: Suite, password: bytes, salt: bytes): (k: CipherKey)
    ensures k.Valid()
  {
    KeyFrom(Kdf.Material(S, password, salt, if |salt| > 0 then 1000 else 1, 48))
  }

  /** The cipher of the payload. */
  function DataKey(S: Suite, session: bytes): (k: CipherKey)
    ensures k.Valid()
  {
    KeyFrom(Kdf.Material(S, session, [], 1, 48))
  }

  method DeriveKey(S: Suite, password: bytes, salt: bytes, count: int) returns (k: CipherKey)
    ensures k.Valid() && k == KeyFrom(Kdf.Material(S, password, salt, count, 48))
  {
    var key, iv := Kdf.EvpKdf(S, password, salt, count, 32, BLOCK);
    assert key == (key + iv)[..32] && iv == (key + iv)[32..];
    k := CipherKey(key, iv);
  }

  /** A cipher key whose two parts are the first 48 bytes of the KDF's chain. */
  ghost predicate KeyOf(S: Suite, secret: bytes, salt: bytes, count: int, k: CipherKey) {
    k.Valid() && Kdf.Yields(S, secret, salt, count, k.key + k.iv)
  }

  lemma KeyFromChain(S: Suite, secret: bytes, salt: bytes, count: int, k: CipherKey)
    ensures KeyOf(S, secret, salt, count, k) <==> k == KeyFrom(Kdf.Material(S, secret, salt, count, 48))
  {
    hide Family.Lawful, Kdf.Yields, Kdf.Material;
    if k.Valid() {
      Kdf.MaterialYields(S, secret, salt, count, k.key + k.iv);
      assert (k.key + k.iv)[..32] == k.key && (k.key + k.iv)[32..] == k.iv;
    }
    var made := KeyFrom(Kdf.Material(S, secret, salt, count, 48));
    Kdf.MaterialYields(S, secret, salt, count, made.key + made.iv);
    assert made.key + made.iv == Kdf.Material(S, secret, salt, count, 48);
  }

  /** The key that a password stands for is that of a thousand rounds when there is
      a salt and of one otherwise; the payload's is that of one round without salt. */
  lemma KeysAre(S: Suite, secret: bytes, salt: bytes, k: CipherKey)
    ensures salt != [] ==> (k == PasswordKey(S, secret, salt) <==> KeyOf(S, secret, salt, 1000, k))
    ensures salt == [] ==> (k == PasswordKey(S, secret, salt) <==> KeyOf(S, secret, [], 1, k))
    ensures k == DataKey(S, secret) <==> KeyOf(S, secret, [], 1, k)
  {
    hide Family.Lawful, KeyOf, KeyFrom, Kdf.Material;
    KeyFromChain(S, secret, salt, 1000, k);
    KeyFromChain(S, secret, [], 1, k);
  }

  /** The payload key, written out. */
  lemma DataKeyIs(S: Suite, session: bytes)
    ensures var d1 := S.md5(session);
            var d2 := S.md5(d1 + session);
            DataKey(S, session) == CipherKey(d1 + d2, S.md5(d2 + session))
  {
    Kdf.OneRound(S, session, []);
    var d1 := S.md5(session);
    var d2 := S.md5(d1 + session);
    var d3 := S.md5(d2 + session);
    assert |d1| == |d2| == |d3| == 16;
    assert session + [] == session && d1 + session + [] == d1 + session && d2 + session + [] == d2 + session;
    assert (d1 + d2 + d3)[..32] == d1 + d2 && (d1 + d2 + d3)[32..] == d3;
  }

  // -- The writer's side --

  datatype EncryptOptions = EncryptOptions(
    password: bytes, publicKey: Option<PublicKey>, majorOpt: int64, minorOpt: int64,
    filename: bytes, compressOpt: Option<bool>)
  {
    function Major(): int64 {
      if majorOpt == 0 then 3 else majorOpt
    }

    function Minor(): int64 {
      if majorOpt == 0 && minorOpt == 0 then 1 else minorOpt
    }

    predicate CompressOn() {
      compressOpt == None || compressOpt == Some(true)
    }

    /** What NewWriter checks. */
    predicate Acceptable() {
      (password != [] || publicKey.Some?) && (Major() == 1 || Major() == 3)
    }
  }

  /** The header's contents, the raw session key, and the randomness left over. */
  datatype Prepared = Prepared(leading: Leading, session: bytes, rand: bytes)

  function Draw(rand: bytes, n: nat): (r: Result<(bytes, bytes)>)
    ensures r.Ok? ==> |r.value.0| == n
  {
    if n <= |rand| then Ok((rand[..n], rand[n..])) else Err(RandomShort)
  }

  function AlnumChar(b: byte): byte {
    var i := b % 62;
    if i < 26 then 0x41 + i else if i < 52 then 0x61 + i - 26 else 0x30 + i - 52
  }

  function Alnum(raw: bytes): (s: bytes)
    ensures |s| == |raw|
  {
    seq(|raw|, i requires 0 <= i < |raw| => AlnumChar(raw[i]))
  }

  /** The session key as the envelope carries it. */
  function OnWire(major: int64, session: bytes): bytes {
    if major >= 3 then HexEncode(session) else session
  }

  function WrapWithPassword(S: Suite, password: bytes, salt: bytes, onWire: bytes): bytes {
    var k := PasswordKey(S, password, salt);
    Cbc.Encrypt(S, k.key, k.iv, Pkcs7.Pad(onWire))
  }

  function DrawSalt(major: int64, rand: bytes): Result<(bytes, bytes)> {
    if major >= 3 then
      var (raw, rest) :- Draw(rand, 8);
      Ok((Alnum(raw), rest))
    else Ok(([], rand))
  }

  function WrapWithKey(S: Suite, key: Option<PublicKey>, onWire: bytes, rand: bytes): Result<(bytes, bytes)> {
    match key
    case None => Ok(([], rand))
    case Some(pk) =>
      var (seed, rest) :- Draw(rand, 20);
      match S.oaepEncrypt(pk, seed, onWire)
      case None => Err(OaepRefused)
      case Some(c) => Ok((c, rest))
  }

  /** A salted digest under ten fresh hexadecimal characters. */
  function DrawDigest(S: Suite, secret: bytes, rand: bytes): Result<(bytes, bytes)> {
    var (raw, rest) :- Draw(rand, 5);
    Ok((SaltedDigest(S, HexEncode(raw), secret), rest))
  }

  /** What Writer.start computes before it writes anything. */
  function Prepare(S: Suite, o: EncryptOptions, rand: bytes): Result<Prepared> {
    var major := o.Major();
    var (session, r1) :- Draw(rand, 32);
    var onWire := OnWire(major, session);
    var (salt, r2) :- DrawSalt(major, r1);
    var encKey1 := if o.password == [] then [] else WrapWithPassword(S, o.password, salt, onWire);
    var (encKey2, r3) :- WrapWithKey(S, o.publicKey, onWire, r2);
    var (key1Hash, r4) :- if o.password == [] then Ok(([], r3)) else DrawDigest(S, o.password, r3);
    var (sessKeyHash, r5) :- DrawDigest(S, onWire, r4);
    Ok(Prepared(
         Leading(major, o.Minor(), salt, encKey1, encKey2, key1Hash, sessKeyHash,
                 if o.CompressOn() then 1 else 0, 1, o.filename),
         session, r5))
  }

  // -- What the header says --

  /** Where the randomness of a header goes, in the order in which it is drawn. */
  datatype Layout = Layout(seed: nat, passwordPrefix: nat, sessionPrefix: nat, end: nat)

  function LayoutOf(major: int64, withKey: bool, withPassword: bool): Layout {
    var seed := if major == 3 then 40 else 32;
    var first := if withKey then seed + 20 else seed;
    var second := if withPassword then first + 5 else first;
    Layout(seed, first, second, second + 5)
  }

  const CAPITALS := "ABCDEFGHIJKLMNOPQRSTUVWXYZ"
  const SMALLS := "abcdefghijklmnopqrstuvwxyz"
  const DIGITS := "0123456789"

  /** A recorded hash: ten hexadecimal characters, and the MD5 of them and the
      secret in hexadecimal. */
  predicate IsDigestOf(S: Suite, recorded: bytes, drawn: bytes, secret: bytes) {
    recorded == HexEncode(drawn) + HexEncode(S.md5(HexEncode(drawn) + secret))
  }

  /** What the options ask for is what the header says: version 3.1 by default and
      otherwise the numbers given, compression unless it is switched off, always
      encryption, and the file name. */
  lemma PreparedFields(S: Suite, o: EncryptOptions, rand: bytes)
    requires Prepare(S, o, rand).Ok?
    ensures var h := Prepare(S, o, rand).value.leading;
            && h.major == (if o.majorOpt == 0 then 3 else o.majorOpt)
            && h.minor == (if o.majorOpt == 0 && o.minorOpt == 0 then 1 else o.minorOpt)
            && h.compress == (if o.compressOpt == Some(false) then 0 else 1)
            && h.encrypt == 1
            && h.filename == o.filename
  {
    hide Family.Lawful, WrapWithPassword, WrapWithKey, DrawDigest, DrawSalt, OnWire;
    match o.compressOpt
    case None =>
    case Some(on) =>
  }

  /** How the header uses its randomness: the session key is the first 32 bytes of
      it, the salt of version 3 the next eight as letters and digits, then comes the
      seed of the public key's wrap and the prefixes of the two recorded hashes.
      The key travels in hexadecimal in version 3 and as it is in version 1. */
  lemma PreparedSecrets(S: Suite, o: EncryptOptions, rand: bytes)
    requires o.Acceptable() && Prepare(S, o, rand).Ok?
    ensures var p := Prepare(S, o, rand).value;
            var h, at := p.leading, LayoutOf(o.Major(), o.publicKey.Some?, o.password != []);
            var onWire := if h.major == 3 then HexEncode(p.session) else p.session;
            && at.end <= |rand| && p.rand == rand[at.end..]
            && p.session == rand[..32]
            && (h.major == 1 ==> h.salt == [])
            && (h.major == 3 ==> |h.salt| == 8 && forall i :: 0 <= i < 8 ==> SaltChar(rand[32 + i], h.salt[i]))
            && (if o.publicKey.Some?
                then S.oaepEncrypt(o.publicKey.value, rand[at.seed..at.seed + 20], onWire) == Some(h.encKey2)
                else h.encKey2 == [])
            && (if o.password != []
                then IsDigestOf(S, h.key1Hash, rand[at.passwordPrefix..at.passwordPrefix + 5], o.password)
                else h.key1Hash == [] && h.encKey1 == [])
            && IsDigestOf(S, h.sessKeyHash, rand[at.sessionPrefix..at.sessionPrefix + 5], onWire)
  {
    hide Family.Lawful, WrapWithPassword, AlnumChar;
    var p := Prepare(S, o, rand).value;
    var h, at := p.leading, LayoutOf(o.Major(), o.publicKey.Some?, o.password != []);
    var onWire := OnWire(h.major, p.session);
    DrawnAt(rand, 0, 32);
    SaltDrawn(h.major, rand);
    assert rand[..][at.seed..] == rand[at.seed..];
    if o.publicKey.Some? {
      DrawnAt(rand, at.seed, 20);
    }
    if o.password != [] {
      DigestDrawn(S, o.password, rand, at.passwordPrefix);
    }
    DigestDrawn(S, onWire, rand, at.sessionPrefix);
  }

  /** A header can be prepared exactly when the randomness reaches and the public
      key, if there is one, takes the session key. */
  lemma PreparedIff(S: Suite, o: EncryptOptions, rand: bytes)
    requires o.Acceptable()
    ensures var at := LayoutOf(o.Major(), o.publicKey.Some?, o.password != []);
            Prepare(S, o, rand).Ok? <==>
            && at.end <= |rand|
            && var onWire := if o.Major() == 3 then HexEncode(rand[..32]) else rand[..32];
               o.publicKey.Some?
               ==> S.oaepEncrypt(o.publicKey.value, rand[at.seed..at.seed + 20], onWire).Some?
  {
    hide Family.Lawful, WrapWithPassword, DrawSalt, DrawDigest, Draw;
    var at := LayoutOf(o.Major(), o.publicKey.Some?, o.password != []);
    DrawnAt(rand, 0, 32);
    if |rand| >= 32 {
      var onWire := OnWire(o.Major(), rand[..32]);
      SaltDrawn(o.Major(), rand);
      NoSalt(o.Major(), rand[32..]);
      if |rand| >= at.seed {
        DrawnAt(rand, at.seed, 20);
        if |rand| >= at.passwordPrefix {
          DigestDrawn(S, o.password, rand, at.passwordPrefix);
          if |rand| >= at.sessionPrefix {
            DigestDrawn(S, onWire, rand, at.sessionPrefix);
          }
        }
      }
    }
  }

  lemma NoSalt(major: int64, rand: bytes)
    ensures major < 3 ==> DrawSalt(major, rand) == Ok(([], rand))
  {
  }

  /** Drawing on from position `at`. */
  lemma DrawnAt(rand: bytes, at: nat, n: nat)
    requires at <= |rand|
    ensures Draw(rand[at..], n)
         == if at + n <= |rand| then Ok((rand[at..at + n], rand[at + n..])) else Err(RandomShort)
    ensures rand[0..] == rand
  {
    if at + n <= |rand| {
      assert rand[at..][..n] == rand[at..at + n] && rand[at..][n..] == rand[at + n..];
    }
  }

  lemma SaltDrawn(major: int64, rand: bytes)
    requires |rand| >= 32
    ensures major >= 3 && |rand| >= 40
            ==> match DrawSalt(major, rand[32..])
                case Err(_) => false
                case Ok(d) =>
                  |d.0| == 8 && d.1 == rand[40..] && forall i :: 0 <= i < 8 ==> SaltChar(rand[32 + i], d.0[i])
    ensures major >= 3 && |rand| < 40 ==> DrawSalt(major, rand[32..]).Err?
  {
    DrawnAt(rand, 32, 8);
    hide AlnumChar;
    if major >= 3 && |rand| >= 40 {
      forall i | 0 <= i < 8 ensures SaltChar(rand[32 + i], DrawSalt(major, rand[32..]).value.0[i]) {
        AlnumIs(rand[32 + i]);
      }
    }
  }

  lemma DigestDrawn(S: Suite, secret: bytes, rand: bytes, at: nat)
    requires at <= |rand|
    ensures match DrawDigest(S, secret, rand[at..])
            case Err(_) => at + 5 > |rand|
            case Ok(d) => at + 5 <= |rand| && d.1 == rand[at + 5..] && IsDigestOf(S, d.0, rand[at..at + 5], secret)
  {
    hide Family.Lawful, HexEncode;
    DrawnAt(rand, at, 5);
  }

  predicate SaltChar(drawn: byte, c: byte) {
    var i := drawn % 62;
    c == if i < 26 then CAPITALS[i] as int else if i < 52 then SMALLS[i - 26] as int else DIGITS[i - 52] as int
  }

  lemma AlnumIs(b: byte)
    ensures SaltChar(b, AlnumChar(b))
  {
    var i := b % 62;
    if i < 26 {
      Capital(i);
    } else if i < 52 {
      Small(i - 26);
    } else {
      Digit(i - 52);
    }
  }

  lemma Capital(i: nat)
    requires i < 26
    ensures CAPITALS[i] as int == 0x41 + i
  {
  }

  lemma Small(i: nat)
    requires i < 26
    ensures SMALLS[i] as int == 0x61 + i
  {
  }

  lemma Digit(i: nat)
    requires i < 10
    ensures DIGITS[i] as int == 0x30 + i
  {
  }

  /** What the password wraps: the padded session key, under the key of a thousand
      rounds when there is a salt and of one otherwise. */
  lemma PreparedWrap(S: Suite, o: EncryptOptions, rand: bytes) returns (k: CipherKey)
    requires o.password != [] && Prepare(S, o, rand).Ok?
    ensures var h := Prepare(S, o, rand).value.leading;
            KeyOf(S, o.password, h.salt, if h.salt != [] then 1000 else 1, k)
    ensures var p := Prepare(S, o, rand).value;
            var onWire := if p.leading.major >= 3 then HexEncode(p.session) else p.session;
            && Cbc.Aligned(p.leading.encKey1)
            && Cbc.Decrypt(S, k.key, k.iv, p.leading.encKey1) == Pkcs7.Pad(onWire)
  {
    var p := Prepare(S, o, rand).value;
    var onWire := OnWire(o.Major(), p.session);
    hide Family.Lawful, KeyOf, Cbc.Decrypt, Cbc.Encrypt, Pkcs7.Pad, WrapWithKey, DrawDigest, PasswordKey;
    k := PasswordKey(S, o.password, p.leading.salt);
    KeysAre(S, o.password, p.leading.salt, k);
    Cbc.DecryptEncrypt(S, k.key, k.iv, Pkcs7.Pad(onWire));
  }

  // -- The reader's side --

  datatype Options = Options(password: Option<bytes>, privateKey: Option<PrivateKey>)

  function UnwrapWithPassword(S: Suite, password: bytes, encKey1: bytes, salt: bytes, key1Hash: bytes): Result<bytes> {
    if !HashAccepts(S, key1Hash, password) then Err(PasswordMismatch)
    else if encKey1 == [] || |encKey1| % BLOCK != 0 then Err(KeyUnaligned)
    else
      var k := PasswordKey(S, password, salt);
      match Pkcs7.Unpadded(Cbc.Decrypt(S, k.key, k.iv, encKey1))
      case None => Err(KeyPadding)
      case Some(sk) => Ok(sk)
  }

  function Unwrap(S: Suite, opt: Options, m: Meta): Result<bytes> {
    if opt.password.Some? && m.encKey1.Some? then
      UnwrapWithPassword(S, opt.password.value, m.encKey1.value, m.salt, m.key1Hash)
    else if opt.privateKey.Some? && m.encKey2.Some? then
      match S.oaepDecrypt(opt.privateKey.value, m.encKey2.value)
      case None => Err(OaepFailed)
      case Some(sk) => Ok(sk)
    else Err(NoSecret)
  }

  function Recover(S: Suite, opt: Options, m: Meta): Result<bytes> {
    var sk :- Unwrap(S, opt, m);
    if !HashAccepts(S, m.sessionKeyHash, sk) then Err(SessionKeyMismatch)
    else if |m.salt| == 0 then Ok(sk)
    else match HexDecode(sk)
         case None => Err(KeyNotHex)
         case Some(raw) => Ok(raw)
  }

  /** recoverSessionKey, running the loops of the KDF and of the unpadding. */
  method RecoverSessionKey(S: Suite, opt: Options, m: Meta) returns (r: Result<bytes>)
    ensures r == Recover(S, opt, m)
  {
    var sk;
    if opt.password.Some? && m.encKey1.Some? {
      var password, encKey1 := opt.password.value, m.encKey1.value;
      if !HashAccepts(S, m.key1Hash, password) {
        return Err(PasswordMismatch);
      }
      var k := DeriveKey(S, password, m.salt, if |m.salt| > 0 then 1000 else 1);
      if |encKey1| == 0 || |encKey1| % BLOCK != 0 {
        return Err(KeyUnaligned);
      }
      var unpadded := Pkcs7.Unpad(Cbc.Decrypt(S, k.key, k.iv, encKey1));
      if unpadded == None {
        return Err(KeyPadding);
      }
      sk := unpadded.value;
    } else if opt.privateKey.Some? && m.encKey2.Some? {
      var pt := S.oaepDecrypt(opt.privateKey.value, m.encKey2.value);
      if pt == None {
        return Err(OaepFailed);
      }
      sk := pt.value;
    } else {
      return Err(NoSecret);
    }
    if !HashAccepts(S, m.sessionKeyHash, sk) {
      return Err(SessionKeyMismatch);
    }
    if |m.salt| > 0 {
      var decoded := HexDecode(sk);
      if decoded == None {
        return Err(KeyNotHex);
      }
      sk := decoded.value;
    }
    r := Ok(sk);
  }

  // -- What is recovered, and what is refused --

  /** A recorded hash is that of the secret, or is too short to say anything. */
  predicate Matches(S: Suite, recorded: bytes, secret: bytes) {
    |recorded| >= 10 ==> recorded == recorded[..10] + HexEncode(S.md5(recorded[..10] + secret))
  }

  predicate ByPassword(opt: Options, m: Meta) {
    opt.password.Some? && m.encKey1.Some?
  }

  predicate ByKey(opt: Options, m: Meta) {
    !ByPassword(opt, m) && opt.privateKey.Some? && m.encKey2.Some?
  }

  /** `sk` is what the credential unwraps: of the password's wrap, whose plaintext
      is the padding of `sk`, or of the public key's. */
  ghost predicate Unwrapped(S: Suite, opt: Options, m: Meta, sk: bytes) {
    if ByPassword(opt, m) then
      && Matches(S, m.key1Hash, opt.password.value)
      && PadsTo(S, opt.password.value, m.salt, m.encKey1.value, sk)
    else ByKey(opt, m) && S.oaepDecrypt(opt.privateKey.value, m.encKey2.value) == Some(sk)
  }

  ghost predicate PadsTo(S: Suite, password: bytes, salt: bytes, wrap: bytes, sk: bytes) {
    exists k :: WrapOpens(S, password, salt, wrap, sk, k)
  }

  ghost predicate WrapOpens(S: Suite, password: bytes, salt: bytes, wrap: bytes, sk: bytes, k: CipherKey) {
    && k.Valid() && |wrap| % 16 == 0
    && KeyOf(S, password, salt, if salt != [] then 1000 else 1, k)
    && Cbc.Decrypt(S, k.key, k.iv, wrap) == Pkcs7.Pad(sk)
  }

  lemma PasswordPath(S: Suite, password: bytes, encKey1: bytes, salt: bytes, key1Hash: bytes)
    ensures var r := UnwrapWithPassword(S, password, encKey1, salt, key1Hash);
            && (!Matches(S, key1Hash, password) ==> r == Err(PasswordMismatch))
            && (Matches(S, key1Hash, password) && (encKey1 == [] || |encKey1| % 16 != 0) ==> r == Err(KeyUnaligned))
            && (forall sk :: r == Ok(sk) <==> Matches(S, key1Hash, password) && PadsTo(S, password, salt, encKey1, sk))
            && (r == Err(KeyPadding) <==>
                && Matches(S, key1Hash, password) && encKey1 != [] && |encKey1| % 16 == 0
                && forall sk :: !PadsTo(S, password, salt, encKey1, sk))
  {
    hide Family.Lawful, KeyOf, Cbc.Decrypt, PasswordKey, Pkcs7.Unpadded;
    var r := UnwrapWithPassword(S, password, encKey1, salt, key1Hash);
    forall sk ensures r == Ok(sk) <==> Matches(S, key1Hash, password) && PadsTo(S, password, salt, encKey1, sk) {
      var k := PasswordKey(S, password, salt);
      KeysAre(S, password, salt, k);
      if PadsTo(S, password, salt, encKey1, sk) {
        var l :| WrapOpens(S, password, salt, encKey1, sk, l);
        KeysAre(S, password, salt, l);
      }
      if encKey1 != [] && |encKey1| % BLOCK == 0 {
        Pkcs7.UnpadInvertsPad(sk, Cbc.Decrypt(S, k.key, k.iv, encKey1));
        assert r == Ok(sk) ==> WrapOpens(S, password, salt, encKey1, sk, k);
      }
    }
  }

  /** Exactly when a key is recovered, and which: the credential unwraps something,
      the recorded hash of the session key matches it, and it is the key itself or,
      with a salt, its hexadecimal form. */
  lemma RecoverIff(S: Suite, opt: Options, m: Meta, key: bytes)
    ensures Recover(S, opt, m) == Ok(key) <==>
            exists sk :: Unwrapped(S, opt, m, sk) && Matches(S, m.sessionKeyHash, sk)
                         && (if m.salt == [] then key == sk else HexDecode(sk) == Some(key))
  {
    hide Family.Lawful, PadsTo, UnwrapWithPassword, HexDecode;
    if ByPassword(opt, m) {
      PasswordPath(S, opt.password.value, m.encKey1.value, m.salt, m.key1Hash);
    }
    if Recover(S, opt, m) == Ok(key) {
      var sk := Unwrap(S, opt, m).value;
      assert Unwrapped(S, opt, m, sk);
    }
  }

  /** What is refused, and as what. */
  lemma RecoverRefuses(S: Suite, opt: Options, m: Meta)
    ensures !ByPassword(opt, m) && !ByKey(opt, m) ==> Recover(S, opt, m) == Err(NoSecret)
    ensures ByPassword(opt, m) && !Matches(S, m.key1Hash, opt.password.value)
            ==> Recover(S, opt, m) == Err(PasswordMismatch)
    ensures ByPassword(opt, m) && Matches(S, m.key1Hash, opt.password.value)
            && (m.encKey1.value == [] || |m.encKey1.value| % 16 != 0)
            ==> Recover(S, opt, m) == Err(KeyUnaligned)
    ensures ByPassword(opt, m) && Matches(S, m.key1Hash, opt.password.value)
            && m.encKey1.value != [] && |m.encKey1.value| % 16 == 0
            && (forall sk :: !PadsTo(S, opt.password.value, m.salt, m.encKey1.value, sk))
            ==> Recover(S, opt, m) == Err(KeyPadding)
    ensures ByKey(opt, m) && S.oaepDecrypt(opt.privateKey.value, m.encKey2.value) == None
            ==> Recover(S, opt, m) == Err(OaepFailed)
    ensures forall sk :: Unwrapped(S, opt, m, sk) && !Matches(S, m.sessionKeyHash, sk)
                         ==> Recover(S, opt, m) == Err(SessionKeyMismatch)
    ensures forall sk :: Unwrapped(S, opt, m, sk) && Matches(S, m.sessionKeyHash, sk)
                         && m.salt != [] && HexDecode(sk) == None
                         ==> Recover(S, opt, m) == Err(KeyNotHex)
  {
    hide Family.Lawful, PadsTo, UnwrapWithPassword, HexDecode;
    if ByPassword(opt, m) {
      PasswordPath(S, opt.password.value, m.encKey1.value, m.salt, m.key1Hash);
    }
  }

  // -- Agreement --

  /** Does the credential open what was written under `o`?  The password is used
      whenever there is one on both sides, and the private key otherwise. */
  predicate Opens(S: Suite, o: EncryptOptions, opt: Options) {
    if opt.password.Some? && o.password != [] then opt.password.value == o.password
    else opt.privateKey.Some? && o.publicKey == Some(S.publicOf(opt.privateKey.value))
  }

  lemma PasswordUnwraps(S: Suite, password: bytes, salt: bytes, onWire: bytes, key1Hash: bytes)
    requires HashAccepts(S, key1Hash, password)
    ensures var c := WrapWithPassword(S, password, salt, onWire);
            c != [] && UnwrapWithPassword(S, password, c, salt, key1Hash) == Ok(onWire)
  {
    var k := PasswordKey(S, password, salt);
    Cbc.DecryptEncrypt(S, k.key, k.iv, Pkcs7.Pad(onWire));
    Pkcs7.UnpadInvertsPad(onWire, Pkcs7.Pad(onWire));
  }

  lemma DrawnDigestAccepts(S: Suite, secret: bytes, rand: bytes)
    requires DrawDigest(S, secret, rand).Ok?
    ensures HashAccepts(S, DrawDigest(S, secret, rand).value.0, secret)
  {
    DigestAccepts(S, HexEncode(rand[..5]), secret, secret);
  }

  /** The key the reader recovers is the key the writer fed to the payload's
      KDF, for every version and either credential: the writer's branch on the
      version and the reader's branch on the salt agree on written streams. */
  lemma KeyAgreement(S: Suite, o: EncryptOptions, opt: Options, rand: bytes)
    requires Prepare(S, o, rand).Ok? && Opens(S, o, opt)
    ensures Recover(S, opt, Recorded(Prepare(S, o, rand).value.leading)) == Ok(Prepare(S, o, rand).value.session)
  {
    var p := Prepare(S, o, rand).value;
    var h := p.leading;
    var onWire := OnWire(o.Major(), p.session);
    assert |h.salt| > 0 <==> o.Major() >= 3;
    var r2 := DrawSalt(o.Major(), rand[32..]).value.1;
    var r3 := WrapWithKey(S, o.publicKey, onWire, r2).value.1;
    var r4 := (if o.password == [] then Ok(([], r3)) else DrawDigest(S, o.password, r3)).value.1;
    if o.password != [] {
      DrawnDigestAccepts(S, o.password, r3);
      PasswordUnwraps(S, o.password, h.salt, onWire, h.key1Hash);
    }
    DrawnDigestAccepts(S, onWire, r4);
    assert HashAccepts(S, h.sessKeyHash, onWire);
    assert Unwrap(S, opt, Recorded(h)) == Ok(onWire);
    HexRoundTrip(p.session);
  }
}
