/** Cipher block chaining (section 6.2 of NIST SP 800-38A) over the abstract
    block cipher. */
module Cbc {
  import opened Bytes
  import opened Primitives

  predicate Aligned(b: bytes) {
    |b| % BLOCK == 0
  }

  function Encrypt(S: Suite, key: bytes, iv: bytes, plain: bytes): (r: bytes)
    requires |key| == 32 && |iv| == BLOCK && Aligned(plain)
    ensures |r| == |plain|
    decreases |plain|
  {
    if plain == [] then []
    else
      var c := S.aesEncrypt(key, XorBlock(plain[..BLOCK], iv));
      c + Encrypt(S, key, c, plain[BLOCK..])
  }

  function Decrypt(S: Suite, key: bytes, iv: bytes, cipher: bytes): (r: bytes)
    requires |key| == 32 && |iv| == BLOCK && Aligned(cipher)
    ensures |r| == |cipher|
    decreases |cipher|
  {
    if cipher == [] then []
    else
      XorBlock(S.aesDecrypt(key, cipher[..BLOCK]), iv) + Decrypt(S, key, cipher[..BLOCK], cipher[BLOCK..])
  }

  /** The chaining value after `cipher` has passed. */
  function Chain(iv: bytes, cipher: bytes): (r: bytes)
    requires |iv| == BLOCK && Aligned(cipher)
    ensures |r| == BLOCK
  {
    if cipher == [] then iv else cipher[|cipher| - BLOCK..]
  }

  lemma ChainAppend(iv: bytes, a: bytes, b: bytes)
    requires |iv| == BLOCK && Aligned(a) && Aligned(b)
    ensures Aligned(a + b) && Chain(Chain(iv, a), b) == Chain(iv, a + b)
  {
    if b == [] {
      assert a + b == a;
    } else {
      assert (a + b)[|a + b| - BLOCK..] == b[|b| - BLOCK..];
    }
  }

  lemma {:induction false} DecryptEncrypt(S: Suite, key: bytes, iv: bytes, plain: bytes)
    requires |key| == 32 && |iv| == BLOCK && Aligned(plain)
    ensures Decrypt(S, key, iv, Encrypt(S, key, iv, plain)) == plain
    decreases |plain|
  {
    if plain != [] {
      var x := XorBlock(plain[..BLOCK], iv);
      var c := S.aesEncrypt(key, x);
      var rest := Encrypt(S, key, c, plain[BLOCK..]);
      assert (c + rest)[..BLOCK] == c && (c + rest)[BLOCK..] == rest;
      XorBlockCancel(plain[..BLOCK], iv);
      DecryptEncrypt(S, key, c, plain[BLOCK..]);
    }
  }

  lemma BlockLength(S: Suite, key: bytes, b: bytes)
    requires |key| == 32 && |b| == BLOCK
    ensures |S.aesEncrypt(key, b)| == BLOCK
  {
  }

  lemma {:induction false} EncryptAppend(S: Suite, key: bytes, iv: bytes, a: bytes, b: bytes)
    requires |key| == 32 && |iv| == BLOCK && Aligned(a) && Aligned(b)
    ensures Encrypt(S, key, iv, a + b)
         == Encrypt(S, key, iv, a) + Encrypt(S, key, Chain(iv, Encrypt(S, key, iv, a)), b)
    decreases |a|
  {
    hide Family.Lawful;
    if a == [] {
      assert a + b == b;
    } else {
      var c := S.aesEncrypt(key, XorBlock(a[..BLOCK], iv));
      BlockLength(S, key, XorBlock(a[..BLOCK], iv));
      assert (a + b)[..BLOCK] == a[..BLOCK] && (a + b)[BLOCK..] == a[BLOCK..] + b;
      var rest := Encrypt(S, key, c, a[BLOCK..]);
      EncryptAppend(S, key, c, a[BLOCK..], b);
      assert Chain(iv, c + rest) == Chain(c, rest);
      var tail := Encrypt(S, key, Chain(c, rest), b);
      assert (c + rest) + tail == c + (rest + tail);
    }
  }

  lemma {:induction false} DecryptAppend(S: Suite, key: bytes, iv: bytes, a: bytes, b: bytes)
    requires |key| == 32 && |iv| == BLOCK && Aligned(a) && Aligned(b)
    ensures Decrypt(S, key, iv, a + b) == Decrypt(S, key, iv, a) + Decrypt(S, key, Chain(iv, a), b)
    decreases |a|
  {
    hide Family.Lawful;
    if a == [] {
      assert a + b == b;
    } else {
      assert (a + b)[..BLOCK] == a[..BLOCK] && (a + b)[BLOCK..] == a[BLOCK..] + b;
      DecryptAppend(S, key, a[..BLOCK], a[BLOCK..], b);
      assert Chain(iv, a) == Chain(a[..BLOCK], a[BLOCK..]);
    }
  }

  // -- Block by block --

  /** Block `i` of a byte string. */
  function Block(b: bytes, i: nat): (r: bytes)
    requires BLOCK * (i + 1) <= |b|
    ensures |r| == BLOCK
  {
    b[BLOCK * i..BLOCK * (i + 1)]
  }

  /** The ciphertext block in front of block `i`, or the iv. */
  function Before(iv: bytes, cipher: bytes, i: nat): bytes
    requires BLOCK * i <= |cipher|
  {
    if i == 0 then iv else Block(cipher, i - 1)
  }

  /** `c` is `a` and `b` combined bit by bit, each bit being one exactly where one
      of the two bits is. */
  predicate ExclusiveOr(a: bytes, b: bytes, c: bytes) {
    && |a| == |b| == |c|
    && forall j, k :: 0 <= j < |c| && 0 <= k < 8 ==> Bit(c[j], k) == (Bit(a[j], k) + Bit(b[j], k)) % 2
  }

  lemma XorBlockIs(a: bytes, b: bytes)
    requires |a| == |b|
    ensures ExclusiveOr(a, b, XorBlock(a, b))
  {
    forall j, k | 0 <= j < |a| && 0 <= k < 8
      ensures Bit(XorBlock(a, b)[j], k) == (Bit(a[j], k) + Bit(b[j], k)) % 2
    {
      XorBit(a[j], b[j], k);
    }
  }

  /** Every deciphered block is the block cipher's inverse on its ciphertext block,
      exclusive-or the ciphertext block in front of it. */
  lemma {:induction false} DecryptBlock(S: Suite, key: bytes, iv: bytes, cipher: bytes, i: nat)
    requires |key| == 32 && |iv| == BLOCK && Aligned(cipher) && BLOCK * (i + 1) <= |cipher|
    ensures ExclusiveOr(S.aesDecrypt(key, Block(cipher, i)), Before(iv, cipher, i),
                        Block(Decrypt(S, key, iv, cipher), i))
    decreases i
  {
    var first, rest := cipher[..BLOCK], cipher[BLOCK..];
    var x := XorBlock(S.aesDecrypt(key, first), iv);
    var more := Decrypt(S, key, first, rest);
    if i == 0 {
      XorBlockIs(S.aesDecrypt(key, first), iv);
      assert Block(x + more, 0) == x;
    } else {
      DecryptBlock(S, key, first, rest, i - 1);
      assert Block(rest, i - 1) == Block(cipher, i);
      assert Before(first, rest, i - 1) == Before(iv, cipher, i);
      assert Block(x + more, i) == Block(more, i - 1);
    }
  }

  /** And every enciphered block is the block cipher on its plaintext block
      exclusive-or the ciphertext block in front of it. */
  lemma {:induction false} EncryptBlock(S: Suite, key: bytes, iv: bytes, plain: bytes, i: nat) returns (x: bytes)
    requires |key| == 32 && |iv| == BLOCK && Aligned(plain) && BLOCK * (i + 1) <= |plain|
    ensures ExclusiveOr(Block(plain, i), Before(iv, Encrypt(S, key, iv, plain), i), x)
    ensures Block(Encrypt(S, key, iv, plain), i) == S.aesEncrypt(key, x)
    decreases i
  {
    var first, rest := plain[..BLOCK], plain[BLOCK..];
    var y := XorBlock(first, iv);
    var c := S.aesEncrypt(key, y);
    BlockLength(S, key, y);
    var more := Encrypt(S, key, c, rest);
    if i == 0 {
      x := y;
      XorBlockIs(first, iv);
      assert Block(c + more, 0) == c;
    } else {
      x := EncryptBlock(S, key, c, rest, i - 1);
      assert Block(rest, i - 1) == Block(plain, i);
      assert Before(iv, c + more, i) == Before(c, more, i - 1);
      assert Block(c + more, i) == Block(more, i - 1);
    }
  }
}
