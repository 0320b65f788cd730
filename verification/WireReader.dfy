/** The reader in its imperative form: consuming a source, collecting dict members in a loop. */
module WireReader {
  import opened Bytes
  import opened Wire
  import opened Streams

  method ReadShortBlob(r: Source) returns (buf: bytes, err: Option<WireError>)
    modifies r
    ensures match ParseBlob(old(r.rest))
            case Parsed(b, t) => err == None && buf == b && r.rest == t
            case Failed(e) => err == Some(e)
  {
    var len;
    len, err := r.ReadFull(2);
    if err.Some? {
      return [], err;
    }
    var n := U16Value(len[0], len[1]);
    if n == 0 {
      return [], None;
    }
    buf, err := r.ReadFull(n);
  }

  method ReadItem(r: Source) returns (item: Item, err: Option<WireError>)
    modifies r
    ensures match ReadOne(old(r.rest))
            case Parsed(i, t) => err == None && item == i && r.rest == t
            case Failed(e) => err == Some(e)
    decreases |r.rest|
  {
    var head;
    item := End;
    head, err := r.ReadFull(1);
    if err.Some? {
      return;
    }
    if head[0] == TAG_END {
      return;
    } else if head[0] == TAG_DICT {
      var members: seq<Pair> := [];
      while true
        invariant ReadOne(old(r.rest)) == ReadMembers(r.rest, members)
        invariant |r.rest| < |old(r.rest)|
        decreases |r.rest|
      {
        var key;
        key, err := ReadItem(r);
        if err.Some? {
          return;
        }
        if key == End {
          return Node(Dict(members)), None;
        }
        var val;
        val, err := ReadItem(r);
        if err.Some? {
          return;
        }
        if val == End {
          return End, Some(KeyWithoutValue);
        }
        members := members + [Pair(key.v, val.v)];
      }
    } else if head[0] == TAG_BYTES {
      var b;
      b, err := ReadShortBlob(r);
      item := Node(Blob(b));
    } else if head[0] == TAG_STRING {
      var b;
      b, err := ReadShortBlob(r);
      item := Node(Str(b));
    } else if head[0] == TAG_INT {
      var size, digits;
      size, err := r.ReadFull(1);
      if err.Some? {
        return;
      }
      digits, err := r.ReadFull(size[0]);
      item := Node(Int(FromDigits(digits)));
    } else {
      err := Some(UnknownTag(head[0]));
    }
  }

  class StreamReader {
    const src: Source

    constructor (src: Source)
      ensures this.src == src
    {
      this.src := src;
    }

    /** Next: an object, the clean end (`obj` and `err` both None), or an error. */
    method Next() returns (obj: Option<Value>, err: Option<WireError>)
      modifies src
      ensures match Wire.Next(old(src.rest))
              case Object(v, t) => obj == Some(v) && err == None && src.rest == t
              case Done => obj == None && err == None
              case Broken(e) => obj == None && err == Some(e)
    {
      var item;
      item, err := ReadItem(src);
      if err == Some(Eof) {
        return None, None;
      }
      if err.Some? {
        return None, err;
      }
      if item == End {
        return None, None;
      }
      obj := Some(item.v);
    }
  }
}
