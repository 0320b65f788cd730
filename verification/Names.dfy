/** The strings of the protocol, as ASCII bytes. */
module Names {
  import opened Bytes

  // "type"
  const TYPE: bytes := [0x74, 0x79, 0x70, 0x65]
  // "metadata"
  const METADATA: bytes := [0x6d, 0x65, 0x74, 0x61, 0x64, 0x61, 0x74, 0x61]
  // "data"
  const DATA: bytes := [0x64, 0x61, 0x74, 0x61]
  // "version"
  const VERSION: bytes := [0x76, 0x65, 0x72, 0x73, 0x69, 0x6f, 0x6e]
  // "major"
  const MAJOR: bytes := [0x6d, 0x61, 0x6a, 0x6f, 0x72]
  // "minor"
  const MINOR: bytes := [0x6d, 0x69, 0x6e, 0x6f, 0x72]
  // "salt"
  const SALT: bytes := [0x73, 0x61, 0x6c, 0x74]
  // "digest"
  const DIGEST: bytes := [0x64, 0x69, 0x67, 0x65, 0x73, 0x74]
  // "md5"
  const MD5: bytes := [0x6d, 0x64, 0x35]
  // "enc_key1"
  const ENC_KEY1: bytes := [0x65, 0x6e, 0x63, 0x5f, 0x6b, 0x65, 0x79, 0x31]
  // "enc_key2"
  const ENC_KEY2: bytes := [0x65, 0x6e, 0x63, 0x5f, 0x6b, 0x65, 0x79, 0x32]
  // "key1_hash"
  const KEY1_HASH: bytes := [0x6b, 0x65, 0x79, 0x31, 0x5f, 0x68, 0x61, 0x73, 0x68]
  // "key2_hash"
  const KEY2_HASH: bytes := [0x6b, 0x65, 0x79, 0x32, 0x5f, 0x68, 0x61, 0x73, 0x68]
  // "session_key_hash"
  const SESSION_KEY_HASH: bytes :=
    [0x73, 0x65, 0x73, 0x73, 0x69, 0x6f, 0x6e, 0x5f, 0x6b, 0x65, 0x79, 0x5f, 0x68, 0x61, 0x73, 0x68]
  // "file_md5"
  const FILE_MD5: bytes := [0x66, 0x69, 0x6c, 0x65, 0x5f, 0x6d, 0x64, 0x35]
  // "file_name"
  const FILE_NAME: bytes := [0x66, 0x69, 0x6c, 0x65, 0x5f, 0x6e, 0x61, 0x6d, 0x65]
  // "compress"
  const COMPRESS: bytes := [0x63, 0x6f, 0x6d, 0x70, 0x72, 0x65, 0x73, 0x73]
  // "encrypt"
  const ENCRYPT: bytes := [0x65, 0x6e, 0x63, 0x72, 0x79, 0x70, 0x74]
  // "__CLOUDSYNC_ENC__"
  const FILE_MAGIC: bytes :=
    [0x5f, 0x5f, 0x43, 0x4c, 0x4f, 0x55, 0x44, 0x53, 0x59, 0x4e, 0x43, 0x5f, 0x45, 0x4e, 0x43, 0x5f, 0x5f]

  /** The metadata fields the reader knows; key2_hash is known but ignored. */
  datatype Field =
    | Version | Salt | Digest | EncKey1 | EncKey2 | Key1Hash | Key2Hash
    | SessionKeyHash | FileMd5 | FileName | Compress | Encrypt | Unrecognized

  function FieldOf(key: bytes): Field {
    if key == VERSION then Version
    else if key == SALT then Salt
    else if key == DIGEST then Digest
    else if key == ENC_KEY1 then EncKey1
    else if key == ENC_KEY2 then EncKey2
    else if key == KEY1_HASH then Key1Hash
    else if key == SESSION_KEY_HASH then SessionKeyHash
    else if key == FILE_MD5 then FileMd5
    else if key == FILE_NAME then FileName
    else if key == COMPRESS then Compress
    else if key == ENCRYPT then Encrypt
    else if key == KEY2_HASH then Key2Hash
    else Unrecognized
  }

  lemma FieldNames()
    ensures FieldOf(VERSION) == Version && FieldOf(SALT) == Salt && FieldOf(DIGEST) == Digest
    ensures FieldOf(ENC_KEY1) == EncKey1 && FieldOf(ENC_KEY2) == EncKey2
    ensures FieldOf(KEY1_HASH) == Key1Hash && FieldOf(SESSION_KEY_HASH) == SessionKeyHash
    ensures FieldOf(FILE_MD5) == FileMd5 && FieldOf(FILE_NAME) == FileName
    ensures FieldOf(COMPRESS) == Compress && FieldOf(ENCRYPT) == Encrypt
    ensures FieldOf(TYPE) == Unrecognized && METADATA != DATA && MAJOR != MINOR
  {
    assert ENC_KEY1[7] != ENC_KEY2[7];
    assert TYPE[0] != SALT[0];
    assert FILE_NAME[0] != KEY1_HASH[0];
    assert FILE_MD5[0] != ENC_KEY1[0] && FILE_MD5[0] != ENC_KEY2[0];
    assert COMPRESS[0] != ENC_KEY1[0] && COMPRESS[0] != ENC_KEY2[0] && COMPRESS[0] != FILE_MD5[0];
    assert ENCRYPT[0] != VERSION[0];
    assert KEY1_HASH[3] != KEY2_HASH[3];
    assert MAJOR[1] != MINOR[1];
  }

  /** Do the bytes spell the string? */
  predicate Spells(b: bytes, s: string) {
    |b| == |s| && forall i :: 0 <= i < |b| ==> b[i] == s[i] as int
  }

  /** The constants are what they say. */
  lemma SpelledOut()
    ensures Spells(TYPE, "type") && Spells(METADATA, "metadata") && Spells(DATA, "data")
    ensures Spells(VERSION, "version") && Spells(MAJOR, "major") && Spells(MINOR, "minor")
    ensures Spells(SALT, "salt") && Spells(DIGEST, "digest") && Spells(MD5, "md5")
    ensures Spells(ENC_KEY1, "enc_key1") && Spells(ENC_KEY2, "enc_key2")
    ensures Spells(KEY1_HASH, "key1_hash") && Spells(KEY2_HASH, "key2_hash")
    ensures Spells(SESSION_KEY_HASH, "session_key_hash") && Spells(FILE_MD5, "file_md5")
    ensures Spells(FILE_NAME, "file_name") && Spells(COMPRESS, "compress") && Spells(ENCRYPT, "encrypt")
    ensures Spells(FILE_MAGIC, "__CLOUDSYNC_ENC__")
  {
  }
}
