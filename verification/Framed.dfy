/** Framing over a stream (lib/conn/framed.go): a frame is its length in two bytes, then its payload. */
module Framed {
  import opened Bytes
  import opened Streams

  const MAX_FRAME_PAYLOAD := 65535

  function Frame(p: seq<byte>): seq<byte>
    requires |p| <= MAX_FRAME_PAYLOAD
  {
    U16BE(|p|) + p
  }

  predicate Payloads(frames: seq<seq<byte>>) {
    forall i :: 0 <= i < |frames| ==> |frames[i]| <= MAX_FRAME_PAYLOAD
  }

  /** Frames on the wire. */
  function Wire(frames: seq<seq<byte>>): seq<byte>
    requires Payloads(frames)
  {
    if frames == [] then [] else Frame(frames[0]) + Wire(frames[1..])
  }

  lemma Assoc(a: seq<byte>, b: seq<byte>, c: seq<byte>)
    ensures a + (b + c) == (a + b) + c
  {
  }

  lemma {:induction false} WireAppend(a: seq<seq<byte>>, b: seq<seq<byte>>)
    requires Payloads(a) && Payloads(b) && Payloads(a + b)
    ensures Wire(a + b) == Wire(a) + Wire(b)
  {
    if a == [] {
      assert a + b == b;
    } else {
      assert (a + b)[1..] == a[1..] + b;
      WireAppend(a[1..], b);
      Assoc(Frame(a[0]), Wire(a[1..]), Wire(b));
    }
  }

  /** The payloads one Write makes of its argument: as few as fit, and one empty one for an empty argument. */
  function Chunks(p: seq<byte>): (r: seq<seq<byte>>)
    ensures Payloads(r) && r != []
  {
    if |p| <= MAX_FRAME_PAYLOAD then [p] else [p[..MAX_FRAME_PAYLOAD]] + Chunks(p[MAX_FRAME_PAYLOAD..])
  }

  /** The payloads of one Write concatenate to its argument, and only an empty argument gives an empty payload. */
  lemma {:induction false} ChunksConcat(p: seq<byte>)
    ensures Concat(Chunks(p)) == p
    ensures p != [] ==> forall i :: 0 <= i < |Chunks(p)| ==> Chunks(p)[i] != []
  {
    if |p| <= MAX_FRAME_PAYLOAD {
      assert Concat([p]) == p + Concat([]);
    } else {
      ChunksConcat(p[MAX_FRAME_PAYLOAD..]);
      assert Chunks(p)[1..] == Chunks(p[MAX_FRAME_PAYLOAD..]);
    }
  }

  /** The payloads of a sequence of writes. */
  function AllChunks(writes: seq<seq<byte>>): (r: seq<seq<byte>>)
    ensures Payloads(r)
  {
    if writes == [] then [] else Chunks(writes[0]) + AllChunks(writes[1..])
  }

  // ---------------------------------------------------------------- reading

  /** The bytes a read puts into the buffer, the count it reports, whether it failed, and what is left of the stream. */
  datatype ReadResult = ReadResult(got: seq<byte>, count: nat, failed: bool, rest: seq<byte>)

  /** FramedConn.Read with a buffer of `size` bytes. A frame cut short in a big enough buffer still counts in full. */
  function ReadFrame(s: seq<byte>, size: nat): ReadResult {
    if |s| < 2 then ReadResult([], 0, true, [])
    else
      var n := FromU16BE(s[..2]);
      var body := s[2..];
      if size >= n then
        if |body| < n then ReadResult(body, n, true, []) else ReadResult(body[..n], n, false, body[n..])
      else if |body| < size then ReadResult(body, 0, true, [])
      else if |body| < n then ReadResult(body[..size], size, true, [])
      else ReadResult(body[..size], size, false, body[n..])
  }

  /** Successive reads with the given buffer sizes: what each one returned, and what is left. */
  function ReadFrames(s: seq<byte>, sizes: seq<nat>): (seq<ReadResult>, seq<byte>)
    decreases |sizes|
  {
    if sizes == [] then ([], s)
    else
      var r := ReadFrame(s, sizes[0]);
      var (more, rest) := ReadFrames(r.rest, sizes[1..]);
      ([r] + more, rest)
  }

  /** A read of a frame returns its first bytes, as many as fit, and leaves the stream behind the frame. */
  lemma ReadOneFrame(p: seq<byte>, rest: seq<byte>, size: nat)
    requires |p| <= MAX_FRAME_PAYLOAD
    ensures ReadFrame(Frame(p) + rest, size) == ReadResult(p[..Min(size, |p|)], Min(size, |p|), false, rest)
  {
    var s := Frame(p) + rest;
    U16BERoundTrip(|p|);
    assert s[..2] == U16BE(|p|);
    assert s[2..] == p + rest;
    assert (p + rest)[..|p|] == p && (p + rest)[|p|..] == rest;
    assert (p + rest)[..Min(size, |p|)] == p[..Min(size, |p|)];
  }

  /**
   The i-th read returns the start of the i-th frame, whatever the buffer sizes, and the stream stays on a frame
   boundary.
   */
  lemma {:induction false} ReadsFollowFrames(frames: seq<seq<byte>>, sizes: seq<nat>, rest: seq<byte>)
    requires Payloads(frames) && |sizes| <= |frames|
    ensures var (rs, left) := ReadFrames(Wire(frames) + rest, sizes);
            && |rs| == |sizes|
            && (forall i :: 0 <= i < |sizes| ==>
                  !rs[i].failed && rs[i].got == frames[i][..Min(sizes[i], |frames[i]|)] && rs[i].count == |rs[i].got|)
            && left == Wire(frames[|sizes|..]) + rest
  {
    if sizes == [] {
      assert frames[0..] == frames;
    } else {
      assert Wire(frames) + rest == Frame(frames[0]) + (Wire(frames[1..]) + rest);
      ReadOneFrame(frames[0], Wire(frames[1..]) + rest, sizes[0]);
      ReadsFollowFrames(frames[1..], sizes[1..], rest);
      assert frames[1..][|sizes| - 1..] == frames[|sizes|..];
    }
  }

  /** The payloads of all writes hold all their bytes, in order. */
  lemma {:induction false} WritesAreReadBack(writes: seq<seq<byte>>)
    ensures Concat(AllChunks(writes)) == Concat(writes)
  {
    if writes != [] {
      ChunksConcat(writes[0]);
      WritesAreReadBack(writes[1..]);
      ConcatAppend(Chunks(writes[0]), AllChunks(writes[1..]));
    }
  }

  /** What a sequence of successful writes puts out. */
  function Put(writes: seq<seq<byte>>): seq<byte> {
    if writes == [] then [] else Wire(Chunks(writes[0])) + Put(writes[1..])
  }

  lemma {:induction false} PutIsWire(writes: seq<seq<byte>>)
    ensures Put(writes) == Wire(AllChunks(writes))
  {
    if writes != [] {
      PutIsWire(writes[1..]);
      WireAppend(Chunks(writes[0]), AllChunks(writes[1..]));
    }
  }

  /** Whatever was written, the i-th read returns the start of the i-th payload, and a frame boundary follows. */
  lemma WritesThenReads(writes: seq<seq<byte>>, sizes: seq<nat>, rest: seq<byte>)
    requires |sizes| <= |AllChunks(writes)|
    ensures var (rs, left) := ReadFrames(Put(writes) + rest, sizes);
            && |rs| == |sizes|
            && (forall i :: 0 <= i < |sizes| ==>
                  !rs[i].failed && rs[i].got == AllChunks(writes)[i][..Min(sizes[i], |AllChunks(writes)[i]|)]
                    && rs[i].count == |rs[i].got|)
            && left == Wire(AllChunks(writes)[|sizes|..]) + rest
    ensures Concat(AllChunks(writes)) == Concat(writes)
  {
    PutIsWire(writes);
    ReadsFollowFrames(AllChunks(writes), sizes, rest);
    WritesAreReadBack(writes);
  }

  // ---------------------------------------------------------------- the connection

  class FramedConn {
    const conn: Stream

    constructor (conn: Stream)
      ensures this.conn == conn
    {
      this.conn := conn;
    }

    /** Writes until everything is taken, a write fails, or one takes nothing. */
    method WriteAll(p: seq<byte>) returns (ok: bool)
      modifies conn`sent
      ensures exists d :: 0 <= d <= |p| && conn.sent == old(conn.sent) + p[..d] && (ok ==> d == |p|)
    {
      var rest := p;
      ghost var d := 0;
      while |rest| > 0
        invariant 0 <= d <= |p| && rest == p[d..] && conn.sent == old(conn.sent) + p[..d]
        decreases |rest|
      {
        var n, failed := conn.Write(rest);
        assert p[..d] + rest[..n] == p[..d + n];
        d := d + n;
        rest := rest[n..];
        if failed || n == 0 {
          return false;
        }
      }
      return true;
    }

    /** Puts out a frame, or the start of one if it fails. */
    method WriteFrame(p: seq<byte>) returns (ok: bool)
      requires |p| <= MAX_FRAME_PAYLOAD
      modifies conn`sent
      ensures ok ==> conn.sent == old(conn.sent) + Frame(p)
      ensures PartOf(old(conn.sent), conn.sent, Frame(p))
    {
      var header := U16BE(|p|);
      ok := WriteAll(header);
      ghost var d :| 0 <= d <= |header| && conn.sent == old(conn.sent) + header[..d] && (ok ==> d == |header|);
      assert header[..d] == Frame(p)[..d];
      if !ok || |p| == 0 {
        return ok;
      }
      ok := WriteAll(p);
      ghost var e :| 0 <= e <= |p| && conn.sent == old(conn.sent) + header + p[..e] && (ok ==> e == |p|);
      assert header + p[..e] == Frame(p)[..2 + e];
    }

    /**
     A successful Write puts out the frames of its argument. A failed one reports the payload bytes of the
     frames that went out whole, `k` of them, followed by at most the start of the next.
     */
    method Write(p: seq<byte>) returns (written: nat, ok: bool)
      modifies conn`sent
      ensures ok ==> written == |p| && conn.sent == old(conn.sent) + Wire(Chunks(p))
      ensures !ok ==> exists k :: 0 <= k < |Chunks(p)| && FailedAfter(old(conn.sent), conn.sent, Chunks(p), k, written)
    {
      if |p| == 0 {
        ok := WriteFrame([]);
        assert p == [] && Wire([p]) == Frame(p) + Wire([]);
        assert FailedAfter(old(conn.sent), conn.sent, Chunks(p), 0, 0) by {
          assert Chunks(p)[..0] == [] && old(conn.sent) + Wire([]) == old(conn.sent);
        }
        return 0, ok;
      }
      written, ok := WriteChunks(p);
    }

    method WriteChunks(p: seq<byte>) returns (written: nat, ok: bool)
      requires p != []
      modifies conn`sent
      ensures ok ==> written == |p| && conn.sent == old(conn.sent) + Wire(Chunks(p))
      ensures !ok ==> exists k :: 0 <= k < |Chunks(p)| && FailedAfter(old(conn.sent), conn.sent, Chunks(p), k, written)
    {
      ghost var chunks := Chunks(p);
      written := 0;
      var rest := p;
      ghost var k := 0;
      assert chunks[0..] == chunks;
      while |rest| > 0
        invariant 0 <= k <= |chunks| && written + |rest| == |p| && Done(chunks, k, rest, written)
        invariant conn.sent == old(conn.sent) + Wire(chunks[..k])
        decreases |rest|
      {
        var n;
        n, ok := WriteChunk(old(conn.sent), rest, chunks, k, written);
        if !ok {
          return written, false;
        }
        written := written + n;
        rest := rest[n..];
        k := k + 1;
      }
      assert chunks[..k] == chunks;
      return written, true;
    }

    /** The next frame of a write, `k` of whose chunks are out. */
    method WriteChunk(ghost start: seq<byte>, rest: seq<byte>, ghost chunks: seq<seq<byte>>, ghost k: nat,
                      ghost written: nat)
      returns (n: nat, ok: bool)
      requires rest != [] && Payloads(chunks) && k < |chunks| && Done(chunks, k, rest, written)
      requires conn.sent == start + Wire(chunks[..k])
      modifies conn`sent
      ensures 0 < n <= |rest|
      ensures ok ==> Done(chunks, k + 1, rest[n..], written + n) && conn.sent == start + Wire(chunks[..k + 1])
      ensures !ok ==> FailedAfter(start, conn.sent, chunks, k, written)
    {
      var chunk := if |rest| > MAX_FRAME_PAYLOAD then rest[..MAX_FRAME_PAYLOAD] else rest;
      NextChunk(chunks, k, rest);
      ok := WriteFrame(chunk);
      n := |chunk|;
      Assoc(start, Wire(chunks[..k]), Frame(chunk));
    }

    /** Fills the start of the buffer with the start of the next frame; the rest of the buffer is left alone. */
    method Read(p: array<byte>) returns (count: nat, ok: bool)
      modifies conn`incoming, p
      ensures var r := ReadFrame(old(conn.incoming), p.Length);
              && count == r.count && ok == !r.failed && conn.incoming == r.rest
              && |r.got| <= p.Length && p[..] == r.got + old(p[..])[|r.got|..]
    {
      var header, full := conn.ReadFull(2);
      if !full {
        return 0, false;
      }
      var n := FromU16BE(header);
      if n == 0 {
        return 0, true;
      }
      if p.Length >= n {
        ok := Fill(p, n);
        return n, ok;
      }
      ok := Fill(p, p.Length);
      if !ok {
        return 0, false;
      }
      var skipped;
      skipped, ok := conn.ReadFull(n - p.Length);
      count := p.Length;
    }

    /** Reads `n` bytes, or what there is, into the start of the buffer. */
    method Fill(p: array<byte>, n: nat) returns (ok: bool)
      requires n <= p.Length
      modifies conn`incoming, p
      ensures ok <==> n <= |old(conn.incoming)|
      ensures var m := Min(n, |old(conn.incoming)|);
              conn.incoming == old(conn.incoming)[m..] && p[..] == old(conn.incoming)[..m] + old(p[..])[m..]
    {
      var b;
      b, ok := conn.ReadFull(n);
      forall i | 0 <= i < |b| { p[i] := b[i]; }
    }
  }

  /** The first `k` chunks hold `written` bytes, and the others are those of the rest. */
  ghost predicate Done(chunks: seq<seq<byte>>, k: nat, rest: seq<byte>, written: nat) {
    && k <= |chunks| && written == |Concat(chunks[..k])|
    && (if rest == [] then k == |chunks| else k < |chunks| && chunks[k..] == Chunks(rest))
  }

  /** The start of `whole` was put out. */
  ghost predicate PartOf(before: seq<byte>, after: seq<byte>, whole: seq<byte>) {
    exists d :: 0 <= d <= |whole| && after == before + whole[..d]
  }

  /** After a failure: `k` whole frames and a part of the next one. */
  ghost predicate FailedAfter(before: seq<byte>, after: seq<byte>, chunks: seq<seq<byte>>, k: nat, written: nat)
    requires Payloads(chunks) && k < |chunks|
  {
    && written == |Concat(chunks[..k])|
    && PartOf(before + Wire(chunks[..k]), after, Frame(chunks[k]))
  }

  lemma NextChunk(chunks: seq<seq<byte>>, k: nat, rest: seq<byte>)
    requires Payloads(chunks) && k < |chunks| && chunks[k..] == Chunks(rest)
    ensures var chunk := if |rest| > MAX_FRAME_PAYLOAD then rest[..MAX_FRAME_PAYLOAD] else rest;
            && chunks[k] == chunk
            && Wire(chunks[..k + 1]) == Wire(chunks[..k]) + Frame(chunk)
            && |Concat(chunks[..k + 1])| == |Concat(chunks[..k])| + |chunk|
            && (|rest| > MAX_FRAME_PAYLOAD ==> k + 1 < |chunks| && chunks[k + 1..] == Chunks(rest[MAX_FRAME_PAYLOAD..]))
            && (|rest| <= MAX_FRAME_PAYLOAD ==> k + 1 == |chunks|)
  {
    assert chunks[k] == chunks[k..][0];
    assert chunks[..k + 1] == chunks[..k] + [chunks[k]];
    WireAppend(chunks[..k], [chunks[k]]);
    ConcatAppend(chunks[..k], [chunks[k]]);
    assert chunks[k + 1..] == chunks[k..][1..];
    assert Concat([chunks[k]]) == chunks[k] + Concat([]);
    assert Wire([chunks[k]]) == Frame(chunks[k]) + Wire([]);
  }
}
