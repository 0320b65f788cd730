/** The ends of a codec run: a finite input, an output that may refuse writes,
    and a running hash. */
module Streams {
  import opened Bytes
  import opened Primitives
  import opened Wire

  /** An io.Reader over a finite input; `rest` is what is still unread. */
  class Source {
    var rest: bytes

    constructor (s: bytes)
      ensures rest == s
    {
      rest := s;
    }

    /** io.ReadFull into a buffer of length `n`. */
    method ReadFull(n: nat) returns (buf: bytes, err: Option<WireError>)
      modifies this
      ensures match Take(old(rest), n)
              case Parsed(h, t) => err == None && buf == h && rest == t
              case Failed(e) => err == Some(e) && rest == []
    {
      if n <= |rest| {
        buf, err := rest[..n], None;
        rest := rest[n..];
      } else {
        buf, err := rest, Some(if rest == [] then Eof else UnexpectedEof);
        rest := [];
      }
    }
  }

  /** An io.Writer that takes each call's bytes whole or refuses the call;
      `fails` says which calls it refuses. */
  class Output {
    var data: bytes
    var calls: nat
    const fails: nat -> bool

    constructor (fails: nat -> bool)
      ensures data == [] && calls == 0 && this.fails == fails
    {
      data, calls := [], 0;
      this.fails := fails;
    }

    ghost predicate Reliable() {
      SteadyFrom(0)
    }

    /** No call from number `c` on is refused. */
    ghost predicate SteadyFrom(c: nat) {
      forall i: nat :: i >= c ==> !fails(i)
    }

    method Write(b: bytes) returns (ok: bool)
      modifies this
      ensures calls == old(calls) + 1
      ensures ok == !fails(old(calls))
      ensures data == if ok then old(data) + b else old(data)
    {
      ok := !fails(calls);
      if ok {
        data := data + b;
      }
      calls := calls + 1;
    }
  }

  /** hash.Hash for MD5; the hash state is determined by the bytes seen. */
  class Hasher {
    var seen: bytes

    constructor ()
      ensures seen == []
    {
      seen := [];
    }

    method Write(b: bytes)
      modifies this
      ensures seen == old(seen) + b
    {
      seen := seen + b;
    }

    method Sum(S: Suite) returns (d: bytes)
      ensures d == S.md5(seen)
    {
      d := S.md5(seen);
    }
  }
}
