/**
 A network connection as the code above it sees one: writes may be cut short or fail part-way, and a
 read gets some of the bytes that are on their way. `incoming` is what arrives before the connection ends
 or breaks for good, so a read that finds none of it left stands for either.
 */
module Streams {
  import opened Bytes

  class Stream {
    var sent: seq<byte>
    var incoming: seq<byte>

    constructor (incoming: seq<byte>)
      ensures sent == [] && this.incoming == incoming
    {
      sent, this.incoming := [], incoming;
    }

    /** Takes some of `p`, possibly nothing, possibly failing after it. */
    method Write(p: seq<byte>) returns (n: nat, failed: bool)
      modifies `sent
      ensures n <= |p| && sent == old(sent) + p[..n]
    {
      n :| 0 <= n <= |p|;
      failed := *;
      sent := sent + p[..n];
    }

    /** Gets at most `size` of the incoming bytes: at least one if there is one and room for it. */
    method Read(size: nat) returns (b: seq<byte>, end: bool)
      modifies `incoming
      ensures |b| <= size && old(incoming) == b + incoming
      ensures end <==> old(incoming) == [] && size > 0
      ensures old(incoming) != [] && size > 0 ==> b != []
    {
      end := incoming == [] && size > 0;
      var n :| 0 <= n <= size && n <= |incoming| && (incoming != [] && size > 0 ==> n > 0) by {
        assert incoming != [] && size > 0 ==> 0 <= 1 <= size && 1 <= |incoming|;
        assert 0 <= 0 <= size && 0 <= |incoming|;
      }
      b := incoming[..n];
      incoming := incoming[n..];
    }

    /** Reads exactly `size` bytes, or all there are before the end of the stream. */
    method ReadFull(size: nat) returns (b: seq<byte>, ok: bool)
      modifies `incoming
      ensures ok <==> size <= |old(incoming)|
      ensures b == old(incoming)[..Min(size, |old(incoming)|)] && old(incoming) == b + incoming
    {
      b, ok := [], true;
      while |b| < size && ok
        invariant |b| <= size && old(incoming) == b + incoming
        invariant !ok ==> |b| < size && incoming == []
        decreases size - |b|, ok
      {
        var more, end := Read(size - |b|);
        b, ok := b + more, !end;
      }
    }

    /** Reads everything up to the end of the stream, in pieces. */
    method ReadAll() returns (b: seq<byte>)
      modifies `incoming
      ensures b == old(incoming) && incoming == []
    {
      b := [];
      var end := false;
      while !end
        invariant old(incoming) == b + incoming && (end ==> incoming == [])
        decreases |incoming|, !end
      {
        var more;
        more, end := Read(512);
        b := b + more;
      }
    }
  }
}
