/** The handshake over a connection, step by step, as both sides run it (client/control.go, bridge/handshake.go). */
module HandshakeIO {
  import opened Bytes
  import opened BufferedConns
  import opened Handshake

  // ---------------------------------------------------------------- fields (lib/conn/conn.go)

  method GetShortContent(c: Conn, n: nat) returns (b: seq<byte>, ok: bool)
    requires c.Valid()
    modifies c, c.stream
    ensures c.Valid() && c.accepted == old(c.accepted) && c.closed == old(c.closed)
    ensures ok ==> Take(old(c.Readable()), n) == Got(b, c.Readable())
    ensures old(c.Ready()) ==> if ok then c.Ready() else Take(old(c.Readable()), n) == Failed
  {
    b, ok := c.ReadFull(n);
  }

  method GetShortLenContent(c: Conn) returns (b: seq<byte>, ok: bool)
    requires c.Valid()
    modifies c, c.stream
    ensures c.Valid() && c.accepted == old(c.accepted) && c.closed == old(c.closed)
    ensures ok ==> TakePrefixed(old(c.Readable())) == Got(b, c.Readable())
    ensures old(c.Ready()) ==> if ok then c.Ready() else TakePrefixed(old(c.Readable())) == Failed
  {
    var head;
    head, ok := GetShortContent(c, 4);
    if !ok {
      return [], false;
    }
    Word32();
    var n := Int32(FromLE(head));
    if n < 0 || n > MAX_SHORT {
      return [], false;
    }
    b, ok := GetShortContent(c, n);
  }

  method WriteLenContent(c: Conn, p: seq<byte>) returns (ok: bool)
    requires c.Valid()
    modifies c`wBuf, c`accepted
    ensures c.Valid() && c.stream.sent == old(c.stream.sent)
    ensures ok == (!c.closed && |p| <= MAX_LENGTH_PREFIXED)
    ensures c.accepted == old(c.accepted) + if ok then Prefixed(p) else []
  {
    if |p| > MAX_LENGTH_PREFIXED {
      return false;
    }
    var n;
    n, ok := c.BufferWrite(Prefixed(p));
  }

  // ---------------------------------------------------------------- the client's side

  lemma Regrouped(a: seq<byte>, b: seq<byte>, c: seq<byte>)
    ensures a + (b + c) == a + b + c
  {
  }

  /** Buffers `p` behind what was accepted since `start`, which is `done`. */
  method Put(c: Conn, p: seq<byte>, ghost start: seq<byte>, ghost done: seq<byte>) returns (ok: bool)
    requires c.Valid() && (!c.closed ==> c.accepted == start + done)
    modifies c`wBuf, c`accepted
    ensures c.Valid() && ok == !c.closed && (ok ==> c.accepted == start + (done + p))
  {
    var n;
    n, ok := c.BufferWrite(p);
    Regrouped(start, done, p);
  }

  /** The same for a payload behind its length. */
  method PutLen(c: Conn, p: seq<byte>, ghost start: seq<byte>, ghost done: seq<byte>) returns (ok: bool)
    requires c.Valid() && |p| <= MAX_SHORT && (!c.closed ==> c.accepted == start + done)
    modifies c`wBuf, c`accepted
    ensures c.Valid() && ok == !c.closed && (ok ==> c.accepted == start + (done + Prefixed(p)))
  {
    ok := WriteLenContent(c, p);
    Regrouped(start, done, Prefixed(p));
  }

  method WriteClientControlVersion(c: Conn, v: int, pad: nat) returns (ok: bool)
    requires c.Valid() && pad < MAX_PAD
    modifies c
    ensures c.Valid() && c.closed == old(c.closed) && ok == !c.closed
    ensures ok ==> c.accepted == old(c.accepted) + Hello(v, pad)
  {
    var min, raw := GetVersion(v), ClientVersionRaw(pad);
    ghost var start := c.accepted;
    ok := Put(c, CONN_TEST, start, []);
    assert [] + CONN_TEST == CONN_TEST;
    ok := PutLen(c, min, start, CONN_TEST);
    ok := PutLen(c, raw, start, CONN_TEST + Prefixed(min));
  }

  method WriteClientControlRuntimeAuthPayload(c: Conn, a: Auth) returns (ok: bool)
    requires c.Valid() && AuthOk(a)
    modifies c
    ensures c.Valid() && c.closed == old(c.closed) && ok == !c.closed
    ensures ok ==> c.accepted == old(c.accepted) + AuthBytes(a)
  {
    ghost var start := c.accepted;
    ghost var ts := TimestampBytes(a.ts);
    ok := Put(c, TimestampBytes(a.ts), start, []);
    assert [] + ts == ts;
    ok := Put(c, a.key, start, ts);
    ok := PutLen(c, a.info, start, ts + a.key);
    ok := PutLen(c, a.random, start, ts + a.key + Prefixed(a.info));
    ok := Put(c, a.hmac, start, ts + a.key + Prefixed(a.info) + Prefixed(a.random));
  }

  method WriteTail(c: Conn, v: int, uuid: seq<byte>, random: seq<byte>) returns (ok: bool)
    requires c.Valid() && |uuid| <= MAX_SHORT && |random| <= MAX_SHORT && !c.closed
    modifies c
    ensures c.Valid() && !c.closed && ok
    ensures c.accepted == old(c.accepted) + Tail(v, Prefixed(uuid), Prefixed(random))
  {
    ok := true;
    if v > 3 {
      ghost var done: seq<byte> := [];
      if v > 5 {
        ok := WriteLenContent(c, uuid);
        done := Prefixed(uuid);
      }
      ok := PutLen(c, random, old(c.accepted), done);
      assert [] + Prefixed(random) == Prefixed(random);
    }
  }

  /**
   After a successful SendType all of the client's bytes are on the wire; after a failed one the connection is
   closed.
   */
  method SendType(c: Conn, v: int, w: Work, random: seq<byte>) returns (ok: bool)
    requires c.Valid() && WorkOk(w, random)
    modifies c, c.stream
    ensures c.Valid()
    ensures ok ==> c.Ready() && c.accepted == old(c.accepted) + WorkBytes(v, w, random) == c.stream.sent
    ensures !ok ==> c.closed
  {
    var n;
    n, ok := c.BufferWrite(w.flag);
    if ok {
      ok := WriteTail(c, v, w.uuid, random);
      Regrouped(old(c.accepted), w.flag, Tail(v, Prefixed(w.uuid), Prefixed(random)));
      ok := c.FlushBuf();
    }
    if !ok {
      var _ := c.Close();
    }
  }

  // ---------------------------------------------------------------- the bridge's side

  method ReadBridgeHandshakeVersion(c: Conn, secure: bool) returns (hs: Version, ok: bool)
    requires c.Valid() && c.Ready()
    modifies c, c.stream
    ensures var p := Handshake.ReadHello(old(c.Readable()), secure);
            if ok then p == Got(hs, c.Readable()) && c.Valid() && c.Ready() else p == Failed
  {
    hs := Version(0, [], [], []);
    var min, ver;
    min, ver, ok := ReadBridgeHandshakeMinVersion(c, secure);
    if !ok {
      return;
    }
    var raw;
    raw, ok := GetShortLenContent(c);
    if !ok {
      var _ := c.Close();
      return;
    }
    hs := Version(ver, min, TrimZeros(raw), raw);
  }

  method ReadBridgeHandshakeMinVersion(c: Conn, secure: bool) returns (min: seq<byte>, ver: nat, ok: bool)
    requires c.Valid() && c.Ready()
    modifies c, c.stream
    ensures ok ==> c.Valid() && c.Ready() && ver == GetIndex(min) && !(secure && ver < MIN_VER)
    ensures ok ==> Take(old(c.Readable()), 3).Got?
    ensures ok ==> TakePrefixed(Take(old(c.Readable()), 3).rest) == Got(min, c.Readable())
    ensures !ok ==> Handshake.ReadHello(old(c.Readable()), secure) == Failed
  {
    var test;
    ver := 0;
    test, ok := GetShortContent(c, 3);
    if ok {
      min, ok := GetShortLenContent(c);
    }
    if ok {
      var i := GetIndex(min);
      if (secure && i < MIN_VER) || i == -1 {
        ok := false;
      } else {
        ver := i;
      }
    }
    if !ok {
      var _ := c.Close();
      min := [];
    }
  }

  method ReadFixed(c: Conn) returns (ts: seq<byte>, key: seq<byte>, ok: bool)
    requires c.Valid() && c.Ready()
    modifies c, c.stream
    ensures c.Valid() && (ok ==> c.Ready())
    ensures var f := Take(old(c.Readable()), 8);
            if ok then f.Got? && f.value == ts && Take(f.rest, 64) == Got(key, c.Readable())
            else f.Failed? || Take(f.rest, 64).Failed?
  {
    key := [];
    ts, ok := GetShortContent(c, 8);
    if ok {
      key, ok := GetShortContent(c, 64);
    }
  }

  method ReadPayloads(c: Conn) returns (p: seq<byte>, q: seq<byte>, ok: bool)
    requires c.Valid() && c.Ready()
    modifies c, c.stream
    ensures c.Valid() && (ok ==> c.Ready())
    ensures var f := TakePrefixed(old(c.Readable()));
            if ok then f.Got? && f.value == p && TakePrefixed(f.rest) == Got(q, c.Readable())
            else f.Failed? || TakePrefixed(f.rest).Failed?
  {
    q := [];
    p, ok := GetShortLenContent(c);
    if ok {
      q, ok := GetShortLenContent(c);
    }
  }

  method ReadBridgeRuntimeAuthEnvelope(c: Conn) returns (a: Auth, ok: bool)
    requires c.Valid() && c.Ready()
    modifies c, c.stream
    ensures c.Valid()
    ensures var p := ReadAuth(old(c.Readable())); if ok then p == Got(a, c.Readable()) && c.Ready() else p == Failed
  {
    a := Auth(0, [], [], [], []);
    var ts, key, info, random, hmac;
    ts, key, ok := ReadFixed(c);
    if !ok { return; }
    info, random, ok := ReadPayloads(c);
    if !ok { return; }
    hmac, ok := GetShortContent(c, 32);
    if !ok { return; }
    a := Auth(TimestampOf(ts), key, info, random, hmac);
  }

  method ReadOptional(c: Conn, ver: int) returns (uuid: seq<byte>, ok: bool)
    requires c.Valid() && c.Ready()
    modifies c, c.stream
    ensures c.Valid()
    ensures var p := ReadTail(old(c.Readable()), ver); if ok then p == Got(uuid, c.Readable()) && c.Ready()
            else p == Failed
  {
    uuid, ok := [], true;
    if ver > 3 {
      if ver > 5 {
        uuid, ok := GetShortLenContent(c);
        if !ok {
          return;
        }
      }
      var random;
      random, ok := GetShortLenContent(c);
    }
  }

  method ReadBridgeRuntimeWorkEnvelope(c: Conn, ver: int) returns (w: Work, ok: bool)
    requires c.Valid() && c.Ready()
    modifies c, c.stream
    ensures var p := ReadWork(old(c.Readable()), ver); if ok then p == Got(w, c.Readable()) && c.Valid() && c.Ready()
            else p == Failed
  {
    w := Work([], []);
    var flag, uuid;
    flag, ok := GetShortContent(c, 4);
    if ok {
      uuid, ok := ReadOptional(c, ver);
    }
    if !ok {
      var _ := c.Close();
      return;
    }
    w := Work(flag, uuid);
  }

  // ---------------------------------------------------------------- the bridge's answer

  method WriteBridgeRuntimeAuthResponse(c: Conn, ver: int, r: Response, random: seq<byte>) returns (ok: bool)
    requires c.Valid() && ResponseOk(r, random)
    modifies c, c.stream
    ensures c.Valid() && c.closed == old(c.closed)
    ensures ok ==> c.Ready() && c.accepted == old(c.accepted) + ResponseBytes(ver, r, random) == c.stream.sent
  {
    ok := BufferResponse(c, ver, r, random);
    if ok {
      ok := c.FlushBuf();
    }
  }

  method BufferResponse(c: Conn, ver: int, r: Response, random: seq<byte>) returns (ok: bool)
    requires c.Valid() && ResponseOk(r, random)
    modifies c
    ensures c.Valid() && c.closed == old(c.closed) && ok == !c.closed
    ensures ok ==> c.accepted == old(c.accepted) + ResponseBytes(ver, r, random)
  {
    var n;
    n, ok := c.BufferWrite(r.hmac);
    if ok && ver > 1 {
      ok := WriteFingerprint(c, ver, r, random);
      Regrouped(old(c.accepted), r.hmac, Prefixed(r.fingerprint) + Tail(ver, Prefixed(r.uuid), Prefixed(random)));
    }
  }

  method WriteFingerprint(c: Conn, ver: int, r: Response, random: seq<byte>) returns (ok: bool)
    requires c.Valid() && ResponseOk(r, random) && !c.closed
    modifies c
    ensures c.Valid() && !c.closed && ok
    ensures c.accepted == old(c.accepted) + (Prefixed(r.fingerprint) + Tail(ver, Prefixed(r.uuid), Prefixed(random)))
  {
    ok := WriteLenContent(c, r.fingerprint);
    ok := WriteTail(c, ver, r.uuid, random);
    Regrouped(old(c.accepted), Prefixed(r.fingerprint), Tail(ver, Prefixed(r.uuid), Prefixed(random)));
  }

  method ReadClientControlRuntimeAuthResponse(c: Conn, v: int, expected: seq<byte>, accept: seq<byte> -> bool)
    returns (r: Response, ok: bool)
    requires c.Valid() && c.Ready()
    modifies c, c.stream
    ensures c.Valid()
    ensures var p := ReadResponse(old(c.Readable()), v, expected, accept);
            if ok then p == Got(r, c.Readable()) && c.Ready() else p == Failed
  {
    r := Response([], [], []);
    var hmac, fp, uuid;
    hmac, ok := GetShortContent(c, 32);
    if !ok || hmac != expected {
      return r, false;
    }
    if v <= 1 {
      return Response(hmac, [], []), true;
    }
    fp, ok := GetShortLenContent(c);
    if !ok || !accept(fp) {
      return r, false;
    }
    uuid, ok := ReadOptional(c, v);
    r := Response(hmac, fp, uuid);
  }
}
