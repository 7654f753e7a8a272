/**
 Connections with a write buffer and pushed-back input (lib/conn/conn.go). Bytes given to BufferWrite
 wait until the next Write, FlushBuf or Read; bytes given to SetRb are read before the network's.
 */
module BufferedConns {
  import opened Wrappers
  import opened Bytes
  import opened Streams

  class Conn {
    const stream: Stream
    var rbs: seq<seq<byte>>
    var wBuf: Option<seq<byte>>
    var closed: bool
    /** Every byte that a call has accepted, in the order of the calls. */
    ghost var accepted: seq<byte>

    /** Bytes accepted and not yet sent. */
    ghost function Pending(): seq<byte>
      reads this
    {
      if wBuf.Some? then wBuf.value else []
    }

    /** What reads will return: the pushed-back bytes, then the network's. */
    ghost function Readable(): seq<byte>
      reads this, stream
    {
      Concat(rbs) + stream.incoming
    }

    /** Until Close, what was sent followed by what is pending is exactly what was accepted. */
    ghost predicate Valid()
      reads this, stream
    {
      && (!closed ==> stream.sent + Pending() == accepted)
      && (forall i :: 0 <= i < |rbs| ==> rbs[i] != [])
    }

    /** Open, with nothing waiting to be sent: a read fails only for want of bytes. */
    ghost predicate Ready()
      reads this
    {
      !closed && Pending() == []
    }

    constructor (stream: Stream)
      ensures this.stream == stream && !closed && rbs == [] && Pending() == [] && accepted == stream.sent && Valid()
    {
      this.stream := stream;
      rbs, wBuf, closed, accepted := [], None, false, stream.sent;
    }

    /** Writes until everything is taken, a write fails, or one takes nothing; counts what was taken. */
    method WriteAllCount(p: seq<byte>) returns (total: nat, ok: bool)
      modifies stream`sent
      ensures total <= |p| && (ok ==> total == |p|)
      ensures stream.sent == old(stream.sent) + p[..total]
    {
      total := 0;
      var rest := p;
      while |rest| > 0
        invariant total <= |p| && rest == p[total..] && stream.sent == old(stream.sent) + p[..total]
        decreases |rest|
      {
        var n, failed := stream.Write(rest);
        assert p[..total] + rest[..n] == p[..total + n];
        total := total + n;
        rest := rest[n..];
        if failed || n == 0 {
          return total, false;
        }
      }
      return total, true;
    }

    /** Sends what is pending; whatever was not taken stays pending, in order. */
    method FlushBuffer() returns (ok: bool)
      requires Valid()
      modifies stream`sent, `wBuf
      ensures stream.sent + Pending() == old(stream.sent + Pending())
      ensures ok ==> Pending() == []
      ensures old(stream.sent) <= stream.sent && (old(Pending()) == [] ==> ok && stream.sent == old(stream.sent))
    {
      if wBuf.None? || |wBuf.value| == 0 {
        return true;
      }
      var pending := wBuf.value;
      var written;
      written, ok := WriteAllCount(pending);
      assert pending == pending[..written] + pending[written..];
      if written >= |pending| {
        wBuf := Some([]);
        return ok;
      }
      wBuf := Some(pending[written..]);
    }

    /** Accepts the first `n` bytes: directly if nothing is pending, otherwise behind what is pending. */
    method Write(b: seq<byte>) returns (n: nat, ok: bool)
      requires Valid()
      modifies this, stream`sent
      ensures Valid() && n <= |b| && closed == old(closed) && rbs == old(rbs)
      ensures accepted == old(accepted) + b[..n]
      ensures old(closed) ==> n == 0 && !ok && stream.sent == old(stream.sent) && wBuf == old(wBuf)
      ensures ok ==> n == |b| && Pending() == []
      ensures !old(closed) && old(Pending()) != [] ==> n == |b|
    {
      if closed {
        return 0, false;
      }
      if wBuf.None? || |wBuf.value| == 0 {
        n, ok := WriteAllCount(b);
        accepted := accepted + b[..n];
        return n, ok;
      }
      wBuf := Some(wBuf.value + b);
      accepted := accepted + b;
      n := |b|;
      ok := FlushBuffer();
    }

    /** Accepts all of `b` without sending anything. */
    method BufferWrite(b: seq<byte>) returns (n: nat, ok: bool)
      requires Valid()
      modifies `wBuf, `accepted
      ensures Valid() && ok == !old(closed) && n == (if ok then |b| else 0)
      ensures accepted == old(accepted) + b[..n] && Pending() == old(Pending()) + b[..n]
    {
      if closed {
        return 0, false;
      }
      wBuf := Some((if wBuf.None? then [] else wBuf.value) + b);
      accepted := accepted + b;
      return |b|, true;
    }

    method FlushBuf() returns (ok: bool)
      requires Valid()
      modifies stream`sent, `wBuf
      ensures Valid() && (old(closed) ==> !ok && stream.sent == old(stream.sent) && wBuf == old(wBuf))
      ensures ok ==> Pending() == []
      ensures !old(closed) && old(Pending()) == [] ==> ok
    {
      if closed {
        return false;
      }
      ok := FlushBuffer();
    }

    /** Puts chunks behind those already pushed back; empty ones are dropped. */
    method SetRb(chunks: seq<seq<byte>>)
      requires Valid()
      modifies `rbs
      ensures Valid() && Concat(rbs) == old(Concat(rbs)) + Concat(chunks)
    {
      var i := 0;
      assert chunks[..0] == [];
      while i < |chunks|
        invariant 0 <= i <= |chunks|
        invariant Concat(rbs) == old(Concat(rbs)) + Concat(chunks[..i])
        invariant forall k :: 0 <= k < |rbs| ==> rbs[k] != []
      {
        ConcatSnoc(chunks[..i], chunks[i]);
        assert chunks[..i] + [chunks[i]] == chunks[..i + 1];
        if |chunks[i]| > 0 {
          ConcatSnoc(rbs, chunks[i]);
          rbs := rbs + [chunks[i]];
        }
        i := i + 1;
      }
      assert chunks[..i] == chunks;
    }

    /**
     Returns the next readable bytes, without loss or repetition, and only from the pushed-back ones while
     there are any. Pending output is sent first; if that fails, nothing is read.
     */
    method Read(b: array<byte>) returns (n: nat, ok: bool)
      requires Valid()
      modifies this, stream, b
      ensures Valid() && closed == old(closed) && accepted == old(accepted) && n <= b.Length
      ensures old(Readable()) == b[..n] + Readable() && b[n..] == old(b[n..])
      ensures !ok ==> n == 0 && rbs == old(rbs) && stream.incoming == old(stream.incoming)
      ensures ok && old(rbs) != [] ==> stream.incoming == old(stream.incoming) && n == Min(b.Length, |old(rbs)[0]|)
      ensures ok ==> Ready() && (b.Length > 0 ==> n > 0)
      ensures !ok && !closed && old(Pending()) == [] ==> old(rbs) == [] && stream.incoming == []
    {
      ok := FlushBuf();
      if !ok {
        return 0, false;
      }
      DropEmpty();
      if |rbs| > 0 {
        n := ReadPushedBack(b);
        return n, true;
      }
      var got, end := stream.Read(b.Length);
      forall i | 0 <= i < |got| { b[i] := got[i]; }
      return |got|, !end;
    }

    method DropEmpty()
      modifies `rbs
      ensures Concat(rbs) == old(Concat(rbs)) && (rbs == [] || rbs[0] != [])
      ensures old(rbs) != [] && old(rbs)[0] != [] ==> rbs == old(rbs)
    {
      while |rbs| > 0 && |rbs[0]| == 0
        invariant Concat(rbs) == old(Concat(rbs))
        invariant old(rbs) != [] && old(rbs)[0] != [] ==> rbs == old(rbs)
        decreases |rbs|
      {
        rbs := rbs[1..];
      }
    }

    method ReadPushedBack(b: array<byte>) returns (n: nat)
      requires Valid() && |rbs| > 0
      modifies `rbs, b
      ensures Valid() && n == Min(b.Length, |old(rbs)[0]|)
      ensures old(Concat(rbs)) == b[..n] + Concat(rbs) && b[n..] == old(b[n..])
    {
      var cur := rbs[0];
      n := Min(b.Length, |cur|);
      forall i | 0 <= i < n { b[i] := cur[i]; }
      assert cur == cur[..n] + cur[n..];
      if |cur[n..]| == 0 {
        rbs := rbs[1..];
      } else {
        rbs := [cur[n..]] + rbs[1..];
      }
    }

    /** io.ReadFull on the connection: reads until `n` bytes are there, or a read fails. */
    method ReadFull(n: nat) returns (b: seq<byte>, ok: bool)
      requires Valid()
      modifies this, stream
      ensures Valid() && closed == old(closed) && accepted == old(accepted)
      ensures ok ==> |b| == n && old(Readable()) == b + Readable()
      ensures old(Ready()) ==> (ok <==> n <= |old(Readable())|) && (ok ==> Ready())
    {
      b, ok := [], true;
      while |b| < n && ok
        invariant Valid() && closed == old(closed) && accepted == old(accepted)
        invariant |b| <= n && old(Readable()) == b + Readable()
        invariant old(Ready()) && ok ==> Ready()
        invariant !ok ==> |b| < n && (old(Ready()) ==> Readable() == [])
        decreases n - |b|, ok
      {
        var buf := new byte[n - |b|];
        var got;
        got, ok := Read(buf);
        b := b + buf[..got];
      }
    }

    method Close() returns (ok: bool)
      modifies this
      ensures closed && ok == !old(closed)
      ensures ok ==> rbs == [] && Pending() == [] && Valid()
      ensures !ok ==> rbs == old(rbs) && wBuf == old(wBuf)
    {
      if closed {
        return false;
      }
      closed := true;
      rbs := [];
      if wBuf.Some? {
        wBuf := Some([]);
      }
      return true;
    }
  }

  lemma ConcatSnoc(chunks: seq<seq<byte>>, c: seq<byte>)
    ensures Concat(chunks + [c]) == Concat(chunks) + c
  {
    ConcatAppend(chunks, [c]);
    assert Concat([c]) == c + Concat([]);
  }
}
