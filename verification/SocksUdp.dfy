/**
 The SOCKS5 UDP request header (section 7 of RFC 1928) as lib/common/netpackager.go writes and reads it.
 A host is kept as text; `parse` and `format` stand for the conversions between IP addresses and text.
 */
module SocksUdp {
  import opened Wrappers
  import opened Bytes
  import opened Streams

  const IP_V4: byte := 1
  const DOMAIN_NAME: byte := 3
  const IP_V6: byte := 4
  const BUFFER_SIZE := 1672

  type Parser = seq<byte> -> Option<IP>
  type Formatter = IP -> seq<byte>
  type Port = x: int | 0 <= x < TWO_16

  datatype Addr = Addr(typ: byte, host: seq<byte>, port: Port)
  datatype Header = Header(rsv: Port, frag: byte, addr: Addr)
  datatype Datagram = Datagram(header: Header, data: seq<byte>)

  // ---------------------------------------------------------------- addresses

  /** The four bytes of an IPv4 host; any other host counts as 0.0.0.0. */
  function HostV4(parse: Parser, host: seq<byte>): (b: seq<byte>)
    ensures |b| == 4
  {
    var ip := parse(host);
    if ip.Some? && IsV4(ip.value) then ip.value[12..] else Zeros(4)
  }

  function HostV6(parse: Parser, host: seq<byte>): (b: seq<byte>)
    ensures |b| == 16
  {
    var ip := parse(host);
    if ip.Some? then ip.value else Zeros(16)
  }

  /** A domain name has at most 255 bytes on the wire. */
  function HostName(host: seq<byte>): (b: seq<byte>)
    ensures |b| <= 255
  {
    host[..Min(255, |host|)]
  }

  /** The type byte and the host field, with its length for a domain name; an unknown type becomes 0.0.0.0. */
  function HostBytes(parse: Parser, a: Addr): (b: seq<byte>)
    ensures 5 <= |b| || a.typ == DOMAIN_NAME
    ensures 2 <= |b| <= 257
  {
    if a.typ == IP_V4 then [IP_V4] + HostV4(parse, a.host)
    else if a.typ == DOMAIN_NAME then [DOMAIN_NAME, |HostName(a.host)|] + HostName(a.host)
    else if a.typ == IP_V6 then [IP_V6] + HostV6(parse, a.host)
    else [IP_V4] + Zeros(4)
  }

  function AddrBytes(parse: Parser, a: Addr): seq<byte> {
    HostBytes(parse, a) + U16BE(a.port)
  }

  /** Addr.Decode. */
  function DecodeAddr(format: Formatter, b: seq<byte>): Option<Addr> {
    if |b| < 1 then None
    else if b[0] == IP_V4 then
      if |b| < 7 then None else Some(Addr(IP_V4, format(V4_PREFIX + b[1..5]), FromU16BE(b[5..7])))
    else if b[0] == IP_V6 then
      if |b| < 19 then None else Some(Addr(IP_V6, format(b[1..17]), FromU16BE(b[17..19])))
    else if b[0] == DOMAIN_NAME then
      if |b| < 2 then None
      else
        var n: int := b[1];
        if |b| < 2 + n + 2 then None else Some(Addr(DOMAIN_NAME, b[2..2 + n], FromU16BE(b[2 + n..2 + n + 2])))
    else None
  }

  /** What is left of an address on the wire: a canonical host, cut to the wire's limits, and a known type. */
  function Normal(parse: Parser, format: Formatter, a: Addr): Addr {
    if a.typ == IP_V4 then a.(host := format(V4_PREFIX + HostV4(parse, a.host)))
    else if a.typ == DOMAIN_NAME then a.(host := HostName(a.host))
    else if a.typ == IP_V6 then a.(host := format(HostV6(parse, a.host)))
    else Addr(IP_V4, format(V4_PREFIX + Zeros(4)), a.port)
  }

  /** An address of a known type whose host is a canonical IP of that type, or a domain name of at most 255 bytes. */
  ghost predicate WellFormed(format: Formatter, a: Addr) {
    || (a.typ == IP_V4 && exists ip: IP :: IsV4(ip) && a.host == format(ip))
    || (a.typ == IP_V6 && exists ip: IP :: a.host == format(ip))
    || (a.typ == DOMAIN_NAME && |a.host| <= 255)
  }

  /** Parsing undoes formatting. */
  ghost predicate Inverse(parse: Parser, format: Formatter) {
    forall ip: IP :: parse(format(ip)) == Some(ip)
  }

  /** Exactly the well-formed addresses are their own normal form. */
  lemma NormalIffWellFormed(parse: Parser, format: Formatter, a: Addr)
    requires Inverse(parse, format)
    ensures Normal(parse, format, a) == a <==> WellFormed(format, a)
  {
    if a.typ == IP_V4 {
      var four: IP := V4_PREFIX + HostV4(parse, a.host);
      assert four[..12] == V4_PREFIX && IsV4(four);
      if ip: IP :| IsV4(ip) && a.host == format(ip) {
        assert ip == ip[..12] + ip[12..];
      }
    } else if a.typ == IP_V6 {
      var sixteen: IP := HostV6(parse, a.host);
      assert Normal(parse, format, a).host == format(sixteen);
    } else if a.typ == DOMAIN_NAME {
      assert |a.host| <= 255 ==> HostName(a.host) == a.host;
    }
  }

  lemma AddrRoundTrip(parse: Parser, format: Formatter, a: Addr)
    ensures DecodeAddr(format, AddrBytes(parse, a)) == Some(Normal(parse, format, a))
  {
    var h, p := HostBytes(parse, a), U16BE(a.port);
    U16BERoundTrip(a.port);
    assert (h + p)[|h|..|h| + 2] == p;
    if a.typ == DOMAIN_NAME {
      assert (h + p)[2..|h|] == HostName(a.host);
    } else if a.typ == IP_V6 {
      assert (h + p)[1..17] == HostV6(parse, a.host);
    } else {
      assert (h + p)[1..5] == if a.typ == IP_V4 then HostV4(parse, a.host) else Zeros(4);
    }
  }

  // ---------------------------------------------------------------- datagrams

  function HeaderBytes(parse: Parser, h: Header): seq<byte> {
    U16BE(h.rsv) + [h.frag] + AddrBytes(parse, h.addr)
  }

  function DatagramBytes(parse: Parser, d: Datagram): seq<byte> {
    HeaderBytes(parse, d.header) + d.data
  }

  /** The length of the header, told from its first five bytes. */
  function HeaderLength(b: seq<byte>): Option<nat>
    requires |b| >= 5
  {
    if b[3] == IP_V4 then Some(10)
    else if b[3] == IP_V6 then Some(22)
    else if b[3] == DOMAIN_NAME then
      var n: int := b[4];
      Some(7 + n)
    else None
  }

  datatype ReadResult = Got(d: Datagram, rest: seq<byte>) | Failed

  /** ReadUDPDatagram from a reader that holds the bytes `s` and then ends. */
  function ReadDatagram(format: Formatter, s: seq<byte>): ReadResult {
    if |s| < 5 || s[2] != 0 || HeaderLength(s).None? then Failed
    else
      var n := HeaderLength(s).value;
      if |s| < n then Failed
      else
        var addr := DecodeAddr(format, s[3..n]);
        if addr.None? then Failed
        else ReadData(Header(FromU16BE(s[..2]), 0, addr.value), s[n..])
  }

  /** Without a length in RSV the data is all that is left; with one it is exactly that long. */
  function ReadData(h: Header, s: seq<byte>): ReadResult {
    if h.rsv == 0 then Got(Datagram(h, s), [])
    else if |s| < h.rsv then Failed
    else Got(Datagram(h, s[..h.rsv]), s[h.rsv..])
  }

  lemma HeaderRead(parse: Parser, format: Formatter, h: Header, tail: seq<byte>)
    ensures var s := HeaderBytes(parse, h) + tail;
            ReadDatagram(format, s) ==
            if h.frag != 0 then Failed else ReadData(h.(addr := Normal(parse, format, h.addr)), tail)
  {
    var a := AddrBytes(parse, h.addr);
    var s := HeaderBytes(parse, h) + tail;
    var n := 3 + |a|;
    HeaderShape(U16BE(h.rsv), h.frag, a, tail);
    U16BERoundTrip(h.rsv);
    AddrRoundTrip(parse, format, h.addr);
    assert a[0] == HostBytes(parse, h.addr)[0] && a[1] == HostBytes(parse, h.addr)[1];
    assert HeaderLength(s) == Some(n);
  }

  lemma HeaderShape(rsv: seq<byte>, frag: byte, a: seq<byte>, tail: seq<byte>)
    requires |rsv| == 2 && |a| >= 2
    ensures var s := rsv + [frag] + a + tail;
            && |s| >= 5 && s[..2] == rsv && s[2] == frag && s[3] == a[0] && s[4] == a[1]
            && s[3..3 + |a|] == a && s[3 + |a|..] == tail
  {
  }

  /**
   A datagram written and read back with `rest` behind it comes back the same, with `rest` left over, if
   and only if it is not a fragment, its address is well-formed, and RSV is zero with nothing behind
   the data or is the length of the data.
   */
  lemma DatagramRoundTripIff(parse: Parser, format: Formatter, d: Datagram, rest: seq<byte>)
    requires Inverse(parse, format)
    ensures ReadDatagram(format, DatagramBytes(parse, d) + rest) == Got(d, rest) <==>
              && d.header.frag == 0 && WellFormed(format, d.header.addr)
              && (if d.header.rsv == 0 then rest == [] else d.header.rsv == |d.data|)
  {
    var h := d.header;
    var tail := d.data + rest;
    assert DatagramBytes(parse, d) + rest == HeaderBytes(parse, h) + tail;
    HeaderRead(parse, format, h, tail);
    NormalIffWellFormed(parse, format, h.addr);
    if h.frag == 0 {
      if h.rsv == 0 {
        assert tail == d.data <==> rest == [];
      } else if h.rsv == |d.data| {
        assert tail[..h.rsv] == d.data && tail[h.rsv..] == rest;
      }
    }
  }

  // ---------------------------------------------------------------- writing into a buffer

  /** `s` with `p` written over it from `pos` on. */
  function Pasted(s: seq<byte>, pos: nat, p: seq<byte>): (r: seq<byte>)
    requires pos + |p| <= |s|
    ensures |r| == |s|
  {
    s[..pos] + p + s[pos + |p|..]
  }

  lemma PasteTwice(s: seq<byte>, pos: nat, p: seq<byte>, q: seq<byte>)
    requires pos + |p| + |q| <= |s|
    ensures Pasted(Pasted(s, pos, p), pos + |p|, q) == Pasted(s, pos, p + q)
  {
    var once := Pasted(s, pos, p);
    assert once[..pos + |p|] == s[..pos] + p;
    assert once[pos + |p| + |q|..] == s[pos + |p| + |q|..];
    assert s[..pos] + p + q == s[..pos] + (p + q);
  }

  lemma PasteInFront(s: seq<byte>, p: seq<byte>)
    requires |p| <= |s|
    ensures Pasted(s, 0, p)[..|p|] == p
  {
  }

  /** Copies `p` into the buffer at `pos`. */
  method CopyAt(b: array<byte>, pos: nat, p: seq<byte>)
    requires pos + |p| <= b.Length
    modifies b
    ensures b[..] == Pasted(old(b[..]), pos, p)
  {
    forall i | 0 <= i < |p| { b[pos + i] := p[i]; }
  }

  /** Addr.Encode into the buffer from `start` on; returns how much of it was used. */
  method Encode(parse: Parser, a: Addr, b: array<byte>, start: nat) returns (n: nat)
    requires start + 259 <= b.Length
    modifies b
    ensures n == |AddrBytes(parse, a)| && start + n <= b.Length
    ensures b[..] == Pasted(old(b[..]), start, AddrBytes(parse, a))
  {
    var host := HostField(parse, a);
    CopyAt(b, start, host);
    CopyAt(b, start + |host|, U16BE(a.port));
    PasteTwice(old(b[..]), start, host, U16BE(a.port));
    n := |host| + 2;
  }

  method HostField(parse: Parser, a: Addr) returns (f: seq<byte>)
    ensures f == HostBytes(parse, a)
  {
    if a.typ == IP_V4 {
      var ip := parse(a.host);
      if ip.None? || !IsV4(ip.value) {
        f := [IP_V4] + Zeros(4);
      } else {
        f := [IP_V4] + ip.value[12..];
      }
    } else if a.typ == DOMAIN_NAME {
      var h := if |a.host| > 255 then a.host[..255] else a.host;
      assert h == HostName(a.host);
      f := [DOMAIN_NAME, |h|] + h;
    } else if a.typ == IP_V6 {
      var ip := parse(a.host);
      f := [IP_V6] + if ip.None? then Zeros(16) else ip.value;
    } else {
      f := [IP_V4] + Zeros(4);
    }
  }

  /** The header in the first bytes of a pooled buffer. */
  method EncodeHeader(parse: Parser, h: Header, b: array<byte>) returns (n: nat)
    requires b.Length == BUFFER_SIZE
    modifies b
    ensures n == |HeaderBytes(parse, h)| <= b.Length && b[..n] == HeaderBytes(parse, h)
  {
    ghost var (s, rsv, addr) := (b[..], U16BE(h.rsv), AddrBytes(parse, h.addr));
    CopyAt(b, 0, U16BE(h.rsv));
    CopyAt(b, 2, [h.frag]);
    PasteTwice(s, 0, rsv, [h.frag]);
    var m := Encode(parse, h.addr, b, 3);
    PasteTwice(s, 0, rsv + [h.frag], addr);
    PasteInFront(s, rsv + [h.frag] + addr);
    n := 3 + m;
  }

  /**
   The first `n` bytes of a buffer and the data behind them, in that buffer if they fit and in one of their own
   size otherwise.
   */
  method Pack(b: array<byte>, n: nat, data: seq<byte>) returns (packet: seq<byte>)
    requires n <= b.Length
    modifies b
    ensures packet == old(b[..n]) + data
  {
    var total := n + |data|;
    if total <= b.Length {
      CopyAt(b, n, data);
      packet := b[..total];
    } else {
      var big := new byte[total];
      ghost var (s, head) := (big[..], b[..n]);
      CopyAt(big, 0, b[..n]);
      CopyAt(big, n, data);
      PasteTwice(s, 0, head, data);
      PasteInFront(s, head + data);
      packet := big[..];
    }
  }

  method BuildPacket(parse: Parser, d: Datagram) returns (packet: seq<byte>)
    ensures packet == DatagramBytes(parse, d)
  {
    var b := new byte[BUFFER_SIZE];
    var n := EncodeHeader(parse, d.header, b);
    packet := Pack(b, n, d.data);
  }

  /** Some of the packet went out, and all of it if the write succeeded. */
  ghost predicate Sent(before: seq<byte>, after: seq<byte>, packet: seq<byte>, ok: bool) {
    exists k :: 0 <= k <= |packet| && after == before + packet[..k] && (ok ==> k == |packet|)
  }

  method SendPacket(all: seq<byte>, w: Stream) returns (ok: bool)
    modifies w`sent
    ensures Sent(old(w.sent), w.sent, all, ok)
  {
    var packet := all;
    ghost var k := 0;
    while |packet| > 0
      invariant 0 <= k <= |all| && packet == all[k..] && w.sent == old(w.sent) + all[..k]
      decreases |packet|
    {
      var m, failed := w.Write(packet);
      assert all[..k] + packet[..m] == all[..k + m];
      k := k + m;
      packet := packet[m..];
      if failed || m == 0 {
        return false;
      }
    }
    return true;
  }

  /** UDPDatagram.Write. */
  method Write(parse: Parser, d: Datagram, w: Stream) returns (ok: bool)
    modifies w`sent
    ensures Sent(old(w.sent), w.sent, DatagramBytes(parse, d), ok)
  {
    var packet := BuildPacket(parse, d);
    ok := SendPacket(packet, w);
  }

  // ---------------------------------------------------------------- reading from a connection

  /** ReadUDPDatagram. */
  method Read(format: Formatter, r: Stream) returns (d: Option<Datagram>)
    modifies r`incoming
    ensures var want := ReadDatagram(format, old(r.incoming));
            if d.Some? then want == Got(d.value, r.incoming) else want == Failed
  {
    var head, ok := r.ReadFull(5);
    if !ok || head[2] != 0 || HeaderLength(head).None? {
      return None;
    }
    var n := HeaderLength(head).value;
    var more;
    more, ok := r.ReadFull(n - 5);
    if !ok {
      return None;
    }
    var whole := head + more;
    assert whole == old(r.incoming)[..n];
    assert whole[3..] == old(r.incoming)[3..n];
    var addr := DecodeAddr(format, whole[3..]);
    if addr.None? {
      return None;
    }
    d := ReadBody(Header(FromU16BE(head[..2]), 0, addr.value), r);
  }

  method ReadBody(h: Header, r: Stream) returns (d: Option<Datagram>)
    modifies r`incoming
    ensures var want := ReadData(h, old(r.incoming)); if d.Some? then want == Got(d.value, r.incoming)
            else want == Failed
  {
    var data;
    if h.rsv == 0 {
      data := r.ReadAll();
    } else {
      var ok;
      data, ok := r.ReadFull(h.rsv);
      if !ok {
        return None;
      }
    }
    return Some(Datagram(h, data));
  }
}
