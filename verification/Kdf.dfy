/** EVP_BytesToKey with MD5: the nested loops of evpKDF against the recursive
    chain of digests they walk along. */
module Kdf {
  import opened Bytes
  import opened Primitives

  /** MD5 applied `n` times. */
  function Iterate(S: Suite, d: bytes, n: nat): bytes {
    if n == 0 then d else S.md5(Iterate(S, d, n - 1))
  }

  /** D(i) of the chain: D(0) is empty and D(i) hashes D(i-1), the password and
      the salt, `max(count, 1)` times over. */
  function Digest(S: Suite, password: bytes, salt: bytes, count: int, i: nat): bytes {
    if i == 0 then []
    else Iterate(S, Digest(S, password, salt, count, i - 1) + password + salt, if count < 1 then 1 else count)
  }

  /** D(1) + ... + D(n). */
  function Stream(S: Suite, password: bytes, salt: bytes, count: int, n: nat): (r: bytes)
    ensures |r| == 16 * n
  {
    if n == 0 then []
    else
      assert |Digest(S, password, salt, count, n)| == 16;
      Stream(S, password, salt, count, n - 1) + Digest(S, password, salt, count, n)
  }

  /** The first `need` bytes of the endless stream D(1), D(2), ... */
  function Material(S: Suite, password: bytes, salt: bytes, count: int, need: nat): (r: bytes)
    ensures |r| == need
  {
    Stream(S, password, salt, count, (need + 15) / 16)[..need]
  }

  lemma {:induction false} StreamGrows(S: Suite, password: bytes, salt: bytes, count: int, m: nat, n: nat)
    requires m <= n
    ensures Stream(S, password, salt, count, m) <= Stream(S, password, salt, count, n)
    decreases n
  {
    if m < n {
      StreamGrows(S, password, salt, count, m, n - 1);
    }
  }

  /** A larger request only extends a smaller one, and every byte is the one
      that its digest of the chain puts there. */
  lemma MaterialExtends(S: Suite, password: bytes, salt: bytes, count: int, m: nat, n: nat)
    requires m <= n
    ensures Material(S, password, salt, count, m) <= Material(S, password, salt, count, n)
  {
    StreamGrows(S, password, salt, count, (m + 15) / 16, (n + 15) / 16);
  }

  lemma {:induction false} MaterialByte(S: Suite, password: bytes, salt: bytes, count: int, need: nat, k: nat)
    requires k < need
    ensures var d := Digest(S, password, salt, count, k / 16 + 1);
            |d| == 16 && Material(S, password, salt, count, need)[k] == d[k % 16]
  {
    StreamGrows(S, password, salt, count, k / 16 + 1, (need + 15) / 16);
    var s := Stream(S, password, salt, count, k / 16 + 1);
    assert s[k] == s[16 * (k / 16) + k % 16];
  }

  // -- The chain, step by step --

  /** `y` is the last of `n` successive MD5 values, the first of them of `x`. */
  ghost predicate Hashed(S: Suite, x: bytes, n: nat, y: bytes) {
    exists r: seq<bytes> :: HashRun(S, x, n, y, r)
  }

  ghost predicate HashRun(S: Suite, x: bytes, n: nat, y: bytes, r: seq<bytes>) {
    && |r| == n + 1 && r[0] == x && r[n] == y
    && forall j :: 0 <= j < n ==> r[j + 1] == S.md5(r[j])
  }

  /** The chain starts from nothing, and each link hashes the one before it, the
      password and the salt, in this order and `count` times, at least once. */
  ghost predicate Chained(S: Suite, password: bytes, salt: bytes, count: int, ds: seq<bytes>) {
    && ds != [] && ds[0] == []
    && forall i :: 0 <= i < |ds| - 1 ==> Linked(S, password, salt, count, ds[i], ds[i + 1])
  }

  ghost predicate Linked(S: Suite, password: bytes, salt: bytes, count: int, d: bytes, next: bytes) {
    Hashed(S, d + password + salt, if count < 1 then 1 else count, next)
  }

  /** `out` is what the chain yields when its links are put in a row. */
  ghost predicate Yields(S: Suite, password: bytes, salt: bytes, count: int, out: bytes) {
    exists ds: seq<bytes> :: Chained(S, password, salt, count, ds) && out <= Flatten(ds)
  }

  lemma {:induction false} HashedIff(S: Suite, x: bytes, n: nat, y: bytes)
    ensures Hashed(S, x, n, y) <==> y == Iterate(S, x, n)
  {
    if Hashed(S, x, n, y) {
      var r :| HashRun(S, x, n, y, r);
      RunIterates(S, x, n, y, r);
    }
    var r := RunOf(S, x, n);
  }

  lemma {:induction false} RunIterates(S: Suite, x: bytes, n: nat, y: bytes, r: seq<bytes>)
    requires HashRun(S, x, n, y, r)
    ensures y == Iterate(S, x, n)
  {
    if n > 0 {
      RunIterates(S, x, n - 1, r[n - 1], r[..n]);
    }
  }

  lemma {:induction false} RunOf(S: Suite, x: bytes, n: nat) returns (r: seq<bytes>)
    ensures HashRun(S, x, n, Iterate(S, x, n), r)
  {
    if n == 0 {
      r := [x];
    } else {
      r := RunOf(S, x, n - 1);
      r := r + [Iterate(S, x, n)];
    }
  }

  lemma {:induction false} ChainIs(S: Suite, password: bytes, salt: bytes, count: int, ds: seq<bytes>, i: nat)
    requires Chained(S, password, salt, count, ds) && i < |ds|
    ensures ds[i] == Digest(S, password, salt, count, i)
  {
    hide Hashed;
    if i > 0 {
      ChainIs(S, password, salt, count, ds, i - 1);
      assert Linked(S, password, salt, count, ds[i - 1], ds[i - 1 + 1]);
      HashedIff(S, ds[i - 1] + password + salt, if count < 1 then 1 else count, ds[i]);
    }
  }

  lemma {:induction false} ChainOf(S: Suite, password: bytes, salt: bytes, count: int, n: nat) returns (ds: seq<bytes>)
    ensures |ds| == n + 1 && Chained(S, password, salt, count, ds)
    ensures Flatten(ds) == Stream(S, password, salt, count, n) && ds[n] == Digest(S, password, salt, count, n)
  {
    hide Hashed;
    if n == 0 {
      ds := [[]];
      assert Flatten([[]]) == [] + Flatten([][..]);
    } else {
      var front := ChainOf(S, password, salt, count, n - 1);
      var d := Digest(S, password, salt, count, n);
      HashedIff(S, front[n - 1] + password + salt, if count < 1 then 1 else count, d);
      ds := front + [d];
      FlattenSnoc(front, d);
      forall i | 0 <= i < |ds| - 1 ensures Linked(S, password, salt, count, ds[i], ds[i + 1]) {
        if i < n - 1 {
          assert Linked(S, password, salt, count, front[i], front[i + 1]);
        }
      }
    }
  }

  lemma {:induction false} ChainSpells(S: Suite, password: bytes, salt: bytes, count: int, ds: seq<bytes>, n: nat)
    requires Chained(S, password, salt, count, ds) && n < |ds|
    ensures Flatten(ds[..n + 1]) == Stream(S, password, salt, count, n)
  {
    hide Linked;
    if n == 0 {
      assert ds[..1] == [[]];
      assert Flatten([[]]) == [] + Flatten([][..]);
    } else {
      ChainSpells(S, password, salt, count, ds, n - 1);
      ChainIs(S, password, salt, count, ds, n);
      FlattenSnoc(ds[..n], ds[n]);
      assert ds[..n + 1] == ds[..n] + [ds[n]];
    }
  }

  /** The material is exactly what the chain yields. */
  lemma MaterialYields(S: Suite, password: bytes, salt: bytes, count: int, out: bytes)
    ensures Yields(S, password, salt, count, out) <==> out == Material(S, password, salt, count, |out|)
  {
    hide Chained, Family.Lawful;
    var need := (|out| + 15) / 16;
    var ds := ChainOf(S, password, salt, count, need);
    if Yields(S, password, salt, count, out) {
      var es: seq<bytes> :| Chained(S, password, salt, count, es) && out <= Flatten(es);
      ChainLength(S, password, salt, count, es);
      var n := |es| - 1;
      ChainSpells(S, password, salt, count, es, n);
      assert es[..n + 1] == es;
      assert n >= need;
      StreamGrows(S, password, salt, count, need, n);
    }
  }

  lemma ChainLength(S: Suite, password: bytes, salt: bytes, count: int, ds: seq<bytes>)
    requires Chained(S, password, salt, count, ds)
    ensures |ds| >= 1
  {
  }

  /** With one round the first 48 bytes are the first three links, written out. */
  lemma OneRound(S: Suite, password: bytes, salt: bytes)
    ensures var d1 := S.md5(password + salt);
            var d2 := S.md5(d1 + password + salt);
            var d3 := S.md5(d2 + password + salt);
            Material(S, password, salt, 1, 48) == d1 + d2 + d3
  {
    assert forall x: bytes :: |S.md5(x)| == 16;
    hide Family.Lawful;
    var d1 := S.md5(password + salt);
    assert [] + password + salt == password + salt;
    assert Iterate(S, password + salt, 1) == S.md5(Iterate(S, password + salt, 0));
    assert Digest(S, password, salt, 1, 0) == [];
    assert Digest(S, password, salt, 1, 1) == d1;
    var d2 := S.md5(d1 + password + salt);
    assert Iterate(S, d1 + password + salt, 1) == S.md5(Iterate(S, d1 + password + salt, 0));
    assert Digest(S, password, salt, 1, 2) == d2;
    var d3 := S.md5(d2 + password + salt);
    assert Iterate(S, d2 + password + salt, 1) == S.md5(Iterate(S, d2 + password + salt, 0));
    assert Digest(S, password, salt, 1, 3) == d3;
    var s0, s1, s2 := Stream(S, password, salt, 1, 0), Stream(S, password, salt, 1, 1), Stream(S, password, salt, 1, 2);
    assert s1 == s0 + d1 == d1;
    assert s2 == s1 + d2;
    assert Stream(S, password, salt, 1, 3) == s2 + d3;
  }

  /** evpKDF. */
  method EvpKdf(S: Suite, password: bytes, salt: bytes, count: int, keyLen: nat, ivLen: nat)
    returns (key: bytes, iv: bytes)
    ensures |key| == keyLen && |iv| == ivLen
    ensures key + iv == Material(S, password, salt, count, keyLen + ivLen)
    ensures Yields(S, password, salt, count, key + iv)
  {
    hide Family.Lawful;
    var rounds := if count < 1 then 1 else count;
    var need := keyLen + ivLen;
    var buf: bytes := [];
    var prev: bytes := [];
    ghost var n: nat := 0;
    while |buf| < need
      invariant buf == Stream(S, password, salt, count, n)
      invariant prev == Digest(S, password, salt, count, n)
      invariant n == 0 || 16 * (n - 1) < need
      decreases need - |buf|
    {
      var digest := S.md5(prev + password + salt);
      var i := 1;
      while i < rounds
        invariant 1 <= i <= rounds
        invariant digest == Iterate(S, prev + password + salt, i)
      {
        digest := S.md5(digest);
        i := i + 1;
      }
      prev := digest;
      n := n + 1;
      assert prev == Digest(S, password, salt, count, n);
      buf := buf + digest;
      assert buf == Stream(S, password, salt, count, n);
    }
    key := buf[..keyLen];
    iv := buf[keyLen..keyLen + ivLen];
    assert n == (need + 15) / 16;
    assert key + iv == buf[..need];
    MaterialYields(S, password, salt, count, key + iv);
  }
}
