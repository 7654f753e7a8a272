/**
 The version-gated handshake between a client (client/control.go) and the bridge (bridge/handshake.go):
 what each side puts on the wire and what the other reads from it. `v` is the client's configured
 protocol version, any integer; the bridge works with the index of the version text it receives.
 */
module Handshake {
  import opened Wrappers
  import opened Bytes

  const MAX_SHORT := 32768
  const MAX_LENGTH_PREFIXED := TWO_31 - 1
  const MAX_PAD := 64
  const MIN_VER := 7
  const LATEST := 9
  const MAX_TP := 32
  /** "TST" */
  const CONN_TEST: seq<byte> := [0x54, 0x53, 0x54]

  /** What a reader got and what is left on the wire, or a failed read. */
  datatype Parse<T> = Got(value: T, rest: seq<byte>) | Failed

  // ---------------------------------------------------------------- fields

  function Take(s: seq<byte>, n: nat): Parse<seq<byte>> {
    if |s| < n then Failed else Got(s[..n], s[n..])
  }

  /** A payload behind its length; one that is too long for the prefix cannot be written. */
  function Prefixed(p: seq<byte>): seq<byte>
    requires |p| <= MAX_LENGTH_PREFIXED
  {
    LE(|p|, 4) + p
  }

  /** GetShortLenContent: the length is a signed 32-bit integer and at most 32 KiB. */
  function TakePrefixed(s: seq<byte>): Parse<seq<byte>> {
    var head := Take(s, 4);
    if head.Failed? then Failed
    else
      Word32();
      var n := Int32(FromLE(head.value));
      if n < 0 || n > MAX_SHORT then Failed else Take(head.rest, n)
  }

  lemma TakeWhole(p: seq<byte>, rest: seq<byte>)
    ensures Take(p + rest, |p|) == Got(p, rest)
  {
    assert (p + rest)[..|p|] == p && (p + rest)[|p|..] == rest;
  }

  /** A written payload is read back exactly if it is within the reader's bound; a longer one is refused. */
  lemma PrefixedRoundTrip(p: seq<byte>, rest: seq<byte>)
    requires |p| <= MAX_LENGTH_PREFIXED
    ensures TakePrefixed(Prefixed(p) + rest) == if |p| <= MAX_SHORT then Got(p, rest) else Failed
  {
    Word32();
    LERoundTrip(|p|, 4);
    assert Prefixed(p) + rest == LE(|p|, 4) + (p + rest);
    TakeWhole(LE(|p|, 4), p + rest);
    TakeWhole(p, rest);
  }

  // ---------------------------------------------------------------- versions

  /** The text of the i-th core version, "0.26.0" to "0.35.0". */
  function VersionAt(i: nat): seq<byte>
    requires i <= LATEST
  {
    [0x30, 0x2E, 0x30 + (26 + i) / 10, 0x30 + (26 + i) % 10, 0x2E, 0x30]
  }

  const VERSION: seq<byte> := VersionAt(LATEST)

  function GetVersion(v: int): seq<byte> {
    if 0 <= v <= LATEST then VersionAt(v) else VersionAt(LATEST)
  }

  function IndexFrom(text: seq<byte>, i: nat): (r: int)
    requires i <= LATEST + 1
    ensures r == -1 || i <= r <= LATEST
    decreases LATEST + 1 - i
  {
    if i > LATEST then -1 else if VersionAt(i) == text then i else IndexFrom(text, i + 1)
  }

  function GetIndex(text: seq<byte>): int {
    IndexFrom(text, 0)
  }

  /** The index at which the bridge serves a client that speaks version `v`. */
  function Served(v: int): nat {
    if 0 <= v <= LATEST then v else LATEST
  }

  lemma {:induction false} IndexFromFinds(i: nat, k: nat)
    requires i <= k <= LATEST
    ensures IndexFrom(VersionAt(k), i) == k
    decreases k - i
  {
    if i < k {
      assert 26 + i == 10 * ((26 + i) / 10) + (26 + i) % 10 && 26 + k == 10 * ((26 + k) / 10) + (26 + k) % 10;
      assert VersionAt(i)[2] != VersionAt(k)[2] || VersionAt(i)[3] != VersionAt(k)[3];
      IndexFromFinds(i + 1, k);
    }
  }

  lemma IndexOfVersion(v: int)
    ensures GetIndex(GetVersion(v)) == Served(v)
  {
    IndexFromFinds(0, Served(v));
  }

  // ---------------------------------------------------------------- hello

  function TrimZeros(s: seq<byte>): seq<byte> {
    if s != [] && s[|s| - 1] == 0 then TrimZeros(s[..|s| - 1]) else s
  }

  function ClientVersionRaw(pad: nat): seq<byte> {
    VERSION + Zeros(pad)
  }

  /** writeClientControlVersion with `pad` zero bytes behind the version text. */
  function Hello(v: int, pad: nat): seq<byte>
    requires pad < MAX_PAD
  {
    CONN_TEST + Prefixed(GetVersion(v)) + Prefixed(ClientVersionRaw(pad))
  }

  datatype Version = Version(ver: nat, minRaw: seq<byte>, client: seq<byte>, clientRaw: seq<byte>)

  /** readBridgeHandshakeVersion; the first three bytes are not looked at. */
  function ReadHello(s: seq<byte>, secure: bool): Parse<Version> {
    var test := Take(s, 3);
    if test.Failed? then Failed
    else
      var min := TakePrefixed(test.rest);
      if min.Failed? then Failed
      else
        var ver := GetIndex(min.value);
        if (secure && ver < MIN_VER) || ver == -1 then Failed
        else
          var raw := TakePrefixed(min.rest);
          if raw.Failed? then Failed
          else Got(Version(ver, min.value, TrimZeros(raw.value), raw.value), raw.rest)
  }

  lemma {:induction false} TrimPadding(s: seq<byte>, n: nat)
    requires s != [] && s[|s| - 1] != 0
    ensures TrimZeros(s + Zeros(n)) == s
    decreases n
  {
    if n == 0 {
      assert s + Zeros(0) == s;
    } else {
      assert (s + Zeros(n))[..|s| + n - 1] == s + Zeros(n - 1);
      TrimPadding(s, n - 1);
    }
  }

  /** The bridge reads the hello exactly, or refuses it, which it does only in secure mode for old versions. */
  lemma HelloRoundTrip(v: int, pad: nat, rest: seq<byte>, secure: bool)
    requires pad < MAX_PAD
    ensures ReadHello(Hello(v, pad) + rest, secure) ==
            if secure && Served(v) < MIN_VER then Failed
            else Got(Version(Served(v), GetVersion(v), VERSION, ClientVersionRaw(pad)), rest)
  {
    var second := Prefixed(ClientVersionRaw(pad)) + rest;
    assert Hello(v, pad) + rest == CONN_TEST + (Prefixed(GetVersion(v)) + second);
    TakeWhole(CONN_TEST, Prefixed(GetVersion(v)) + second);
    PrefixedRoundTrip(GetVersion(v), second);
    PrefixedRoundTrip(ClientVersionRaw(pad), rest);
    IndexOfVersion(v);
    TrimPadding(VERSION, pad);
  }

  // ---------------------------------------------------------------- auth envelope

  const TWO_63 := 0x8000_0000_0000_0000
  const TWO_64 := 0x1_0000_0000_0000_0000

  function TimestampBytes(ts: int): seq<byte>
    requires -TWO_63 <= ts < TWO_63
  {
    BE(if ts >= 0 then ts else ts + TWO_64, 8)
  }

  function TimestampOf(b: seq<byte>): int {
    var n := FromBE(b);
    if n < TWO_63 then n else n - TWO_64
  }

  lemma TimestampRoundTrip(ts: int)
    requires -TWO_63 <= ts < TWO_63
    ensures TimestampOf(TimestampBytes(ts)) == ts
  {
    assert Pow256(8) == TWO_64 by {
      Word32();
      assert Pow256(5) == 256 * Pow256(4) && Pow256(6) == 256 * Pow256(5) && Pow256(7) == 256 * Pow256(6);
    }
    BERoundTrip(if ts >= 0 then ts else ts + TWO_64, 8);
  }

  datatype Auth = Auth(ts: int, key: seq<byte>, info: seq<byte>, random: seq<byte>, hmac: seq<byte>)

  predicate AuthOk(a: Auth) {
    -TWO_63 <= a.ts < TWO_63 && |a.key| == 64 && |a.info| <= MAX_SHORT && |a.random| <= MAX_SHORT && |a.hmac| == 32
  }

  /** writeClientControlRuntimeAuthPayload. */
  function AuthBytes(a: Auth): seq<byte>
    requires AuthOk(a)
  {
    TimestampBytes(a.ts) + a.key + Prefixed(a.info) + Prefixed(a.random) + a.hmac
  }

  /** readBridgeRuntimeAuthEnvelope. */
  function ReadAuth(s: seq<byte>): Parse<Auth> {
    var ts := Take(s, 8);
    if ts.Failed? then Failed
    else
      var key := Take(ts.rest, 64);
      if key.Failed? then Failed
      else
        var info := TakePrefixed(key.rest);
        if info.Failed? then Failed
        else
          var random := TakePrefixed(info.rest);
          if random.Failed? then Failed
          else
            var hmac := Take(random.rest, 32);
            if hmac.Failed? then Failed
            else Got(Auth(TimestampOf(ts.value), key.value, info.value, random.value, hmac.value), hmac.rest)
  }

  lemma FiveFields(a: seq<byte>, b: seq<byte>, c: seq<byte>, d: seq<byte>, e: seq<byte>, rest: seq<byte>)
    ensures a + b + c + d + e + rest == a + (b + (c + (d + (e + rest))))
  {
  }

  lemma AuthRoundTrip(a: Auth, rest: seq<byte>)
    requires AuthOk(a)
    ensures ReadAuth(AuthBytes(a) + rest) == Got(a, rest)
  {
    var r4 := a.hmac + rest;
    var r3 := Prefixed(a.random) + r4;
    var r2 := Prefixed(a.info) + r3;
    var r1 := a.key + r2;
    FiveFields(TimestampBytes(a.ts), a.key, Prefixed(a.info), Prefixed(a.random), a.hmac, rest);
    TakeWhole(TimestampBytes(a.ts), r1);
    TimestampRoundTrip(a.ts);
    TakeWhole(a.key, r2);
    PrefixedRoundTrip(a.info, r3);
    PrefixedRoundTrip(a.random, r4);
    TakeWhole(a.hmac, rest);
  }

  // ---------------------------------------------------------------- client info

  function EncodeIP(ip: IP): (b: seq<byte>)
    ensures |b| == 17
  {
    if IsV4(ip) then [1] + ip[12..] + Zeros(12) else [4] + ip
  }

  function DecodeIP(b: seq<byte>): Option<IP> {
    if |b| < 17 then None
    else if b[0] == 1 then Some(V4_PREFIX + b[1..5])
    else if b[0] == 4 then Some(b[1..17])
    else None
  }

  lemma IPRoundTrip(ip: IP, more: seq<byte>)
    ensures DecodeIP(EncodeIP(ip) + more) == Some(ip)
  {
    var b := EncodeIP(ip) + more;
    if ip[..12] == V4_PREFIX {
      assert b[1..5] == ip[12..];
      assert ip == ip[..12] + ip[12..];
    } else {
      assert b[1..17] == ip;
    }
  }

  /** buildClientControlRuntimeInfo before encryption; a transport name over 32 bytes is an error. */
  function ClientInfo(v: int, ip: IP, tp: seq<byte>): Option<seq<byte>> {
    if v < 3 then Some(EncodeIP(ip))
    else if |tp| > MAX_TP then None
    else Some(EncodeIP(ip) + [|tp|] + tp)
  }

  datatype Info = Info(ip: IP, mode: seq<byte>)

  const COMMA: seq<byte> := [0x2C]

  /** decodeBridgeRuntimeClientInfo. */
  function DecodeInfo(tunnel: seq<byte>, ver: int, payload: seq<byte>): Option<Info> {
    if ver < 3 then
      var ip := DecodeIP(payload);
      if ip.None? then None else Some(Info(ip.value, tunnel))
    else if |payload| < 18 then None
    else
      var n: int := payload[17];
      if |payload| < 18 + n then None
      else
        var ip := DecodeIP(payload[..17]);
        if ip.None? then None else Some(Info(ip.value, tunnel + COMMA + payload[18..18 + n]))
  }

  lemma InfoShape(ip: seq<byte>, n: byte, tp: seq<byte>)
    requires |ip| == 17 && n == |tp|
    ensures var b := ip + [n] + tp; |b| == 18 + n && b[..17] == ip && b[17] == n && b[18..18 + n] == tp
  {
    var b := ip + [n] + tp;
    assert b[18..] == tp && b[18..18 + n] == b[18..];
  }

  /**
   The bridge recovers the client's address and transport name, for every version from 0 on and for no
   negative one: a negative version is served as the latest, but its info has the oldest form.
   */
  lemma InfoRoundTripIff(v: int, ip: IP, tp: seq<byte>, tunnel: seq<byte>)
    requires |tp| <= MAX_TP
    ensures ClientInfo(v, ip, tp).Some?
    ensures DecodeInfo(tunnel, Served(v), ClientInfo(v, ip, tp).value) ==
            if v < 0 then None else Some(Info(ip, if v < 3 then tunnel else tunnel + COMMA + tp))
  {
    var b := ClientInfo(v, ip, tp).value;
    IPRoundTrip(ip, []);
    assert EncodeIP(ip) + [] == EncodeIP(ip);
    if v >= 3 {
      InfoShape(EncodeIP(ip), |tp|, tp);
    }
  }

  // ---------------------------------------------------------------- work envelope

  datatype Work = Work(flag: seq<byte>, uuid: seq<byte>)

  predicate WorkOk(w: Work, random: seq<byte>) {
    |w.flag| == 4 && |w.uuid| <= MAX_SHORT && |random| <= MAX_SHORT
  }

  /** SendType. */
  function WorkBytes(v: int, w: Work, random: seq<byte>): seq<byte>
    requires WorkOk(w, random)
  {
    w.flag + Tail(v, Prefixed(w.uuid), Prefixed(random))
  }

  /** The UUID a client's work carries at version `v`; older ones carry none. */
  function CarriedUuid(v: int, uuid: seq<byte>): seq<byte> {
    if v > 5 then uuid else []
  }

  /** readBridgeRuntimeWorkEnvelope up to the choice of a UUID for work that carries none. */
  function ReadWork(s: seq<byte>, ver: int): Parse<Work> {
    var flag := Take(s, 4);
    if flag.Failed? then Failed
    else
      var tail := ReadTail(flag.rest, ver);
      if tail.Failed? then Failed else Got(Work(flag.value, tail.value), tail.rest)
  }

  /** The optional fields behind a flag or a fingerprint: a UUID from version 6 on, random bytes from version 4 on. */
  function Tail(v: int, uuid: seq<byte>, random: seq<byte>): seq<byte> {
    if v > 5 then uuid + random else if v > 3 then random else []
  }

  function ReadTail(s: seq<byte>, v: int): Parse<seq<byte>> {
    if v <= 3 then Got([], s)
    else
      var uuid := if v > 5 then TakePrefixed(s) else Got([], s);
      if uuid.Failed? then Failed
      else
        var random := TakePrefixed(uuid.rest);
        if random.Failed? then Failed else Got(uuid.value, random.rest)
  }

  lemma TailRoundTrip(v: int, uuid: seq<byte>, random: seq<byte>, rest: seq<byte>)
    requires |uuid| <= MAX_SHORT && |random| <= MAX_SHORT
    ensures ReadTail(Tail(v, Prefixed(uuid), Prefixed(random)) + rest, v) == Got(CarriedUuid(v, uuid), rest)
  {
    var (u, r) := (Prefixed(uuid), Prefixed(random));
    PrefixedRoundTrip(random, rest);
    PrefixedRoundTrip(uuid, r + rest);
    TailOf(v, u, r, rest);
  }

  lemma TailOf(v: int, u: seq<byte>, r: seq<byte>, rest: seq<byte>)
    ensures Tail(v, u, r) + rest == if v > 5 then u + (r + rest) else if v > 3 then r + rest else rest
  {
  }

  /** A field read from the front, and then the rest of the message. */
  lemma FieldFirst(a: seq<byte>, b: seq<byte>, rest: seq<byte>)
    ensures a + b + rest == a + (b + rest)
  {
  }

  lemma WorkRoundTrip(v: int, w: Work, random: seq<byte>, rest: seq<byte>)
    requires WorkOk(w, random) && v >= 0
    ensures ReadWork(WorkBytes(v, w, random) + rest, Served(v)) == Got(w.(uuid := CarriedUuid(v, w.uuid)), rest)
  {
    var tail := Tail(v, Prefixed(w.uuid), Prefixed(random));
    FieldFirst(w.flag, tail, rest);
    TakeWhole(w.flag, tail + rest);
    TailRoundTrip(v, w.uuid, random, rest);
    assert ReadTail(tail + rest, v) == ReadTail(tail + rest, Served(v));
  }

  // ---------------------------------------------------------------- auth response

  datatype Response = Response(hmac: seq<byte>, fingerprint: seq<byte>, uuid: seq<byte>)

  predicate ResponseOk(r: Response, random: seq<byte>) {
    |r.hmac| == 32 && |r.fingerprint| <= MAX_SHORT && |r.uuid| <= MAX_SHORT && |random| <= MAX_SHORT
  }

  /** writeBridgeRuntimeAuthResponse. */
  function ResponseBytes(ver: int, r: Response, random: seq<byte>): seq<byte>
    requires ResponseOk(r, random)
  {
    r.hmac + if ver <= 1 then [] else Prefixed(r.fingerprint) + Tail(ver, Prefixed(r.uuid), Prefixed(random))
  }

  /**
   readClientControlRuntimeAuthResponse: the hash has to be the expected one, and `accept` is the check of the
   certificate fingerprint that came, still encrypted.
   */
  function ReadResponse(s: seq<byte>, v: int, expected: seq<byte>, accept: seq<byte> -> bool): Parse<Response> {
    var hmac := Take(s, 32);
    if hmac.Failed? || hmac.value != expected then Failed
    else if v <= 1 then Got(Response(hmac.value, [], []), hmac.rest)
    else
      var fp := TakePrefixed(hmac.rest);
      if fp.Failed? || !accept(fp.value) then Failed
      else
        var tail := ReadTail(fp.rest, v);
        if tail.Failed? then Failed else Got(Response(hmac.value, fp.value, tail.value), tail.rest)
  }

  function CarriedResponse(v: int, r: Response): Response {
    r.(fingerprint := if v > 1 then r.fingerprint else [], uuid := CarriedUuid(v, r.uuid))
  }

  /** The client reads the answer exactly, or refuses it, which it does only for its hash or its fingerprint. */
  lemma ResponseRoundTrip(v: int, r: Response, random: seq<byte>, rest: seq<byte>, expected: seq<byte>,
                          accept: seq<byte> -> bool)
    requires ResponseOk(r, random) && v >= 0
    ensures ReadResponse(ResponseBytes(Served(v), r, random) + rest, v, expected, accept) ==
            if r.hmac == expected && (v <= 1 || accept(r.fingerprint)) then Got(CarriedResponse(v, r), rest) else Failed
  {
    var tail := Tail(v, Prefixed(r.uuid), Prefixed(random));
    var body := if v <= 1 then [] else Prefixed(r.fingerprint) + tail;
    assert ResponseBytes(Served(v), r, random) == r.hmac + body;
    FieldFirst(r.hmac, body, rest);
    TakeWhole(r.hmac, body + rest);
    if v <= 1 {
      assert [] + rest == rest;
    } else {
      FieldFirst(Prefixed(r.fingerprint), tail, rest);
      PrefixedRoundTrip(r.fingerprint, tail + rest);
      TailRoundTrip(v, r.uuid, random, rest);
    }
  }

  // ---------------------------------------------------------------- the whole exchange

  /** The gates of the two sides agree exactly for versions that are not negative. */
  lemma GatesAgreeIff(v: int)
    ensures ((v < 3 <==> Served(v) < 3) && (v <= 1 <==> Served(v) <= 1) && (v > 3 <==> Served(v) > 3)
            && (v > 5 <==> Served(v) > 5)) <==> v >= 0
  {
  }

  /** Everything the bridge learns from a client that connects and asks for work. */
  datatype Session = Session(version: Version, auth: Auth, work: Work)

  function ReadSession(s: seq<byte>, secure: bool): Parse<Session> {
    var hello := ReadHello(s, secure);
    if hello.Failed? then Failed
    else
      var auth := ReadAuth(hello.rest);
      if auth.Failed? then Failed
      else
        var work := ReadWork(auth.rest, hello.value.ver);
        if work.Failed? then Failed else Got(Session(hello.value, auth.value, work.value), work.rest)
  }

  /**
   From hello, auth envelope and work envelope the bridge reads exactly the bytes written, and the client's
   fields.
   */
  lemma SessionRoundTrip(v: int, pad: nat, a: Auth, w: Work, random: seq<byte>, rest: seq<byte>, secure: bool)
    requires v >= 1 && pad < MAX_PAD && AuthOk(a) && WorkOk(w, random)
    ensures ReadSession(Hello(v, pad) + AuthBytes(a) + WorkBytes(v, w, random) + rest, secure) ==
            if secure && v < MIN_VER then Failed
            else Got(Session(Version(Served(v), GetVersion(v), VERSION, ClientVersionRaw(pad)), a,
              w.(uuid := CarriedUuid(v, w.uuid))), rest)
  {
    var (hello, auth, work) := (Hello(v, pad), AuthBytes(a), WorkBytes(v, w, random));
    FieldFirst(hello + auth, work, rest);
    FieldFirst(hello, auth, work + rest);
    HelloRoundTrip(v, pad, auth + (work + rest), secure);
    AuthRoundTrip(a, work + rest);
    WorkRoundTrip(v, w, random, rest);
  }

  /** What the bridge knows of a client once it has decrypted its info. */
  datatype Seen = Seen(version: Version, auth: Auth, info: Info, work: Work)

  type Decrypt = seq<byte> -> Option<seq<byte>>

  /**
   Version, auth envelope, the info in it, and then the work envelope, in the order in which the bridge reads
   them.
   */
  function ReadClient(s: seq<byte>, secure: bool, tunnel: seq<byte>, decrypt: Decrypt): Parse<Seen> {
    var hello := ReadHello(s, secure);
    if hello.Failed? then Failed
    else
      var auth := ReadAuth(hello.rest);
      if auth.Failed? then Failed
      else
        var info := ReadInfo(tunnel, hello.value.ver, decrypt(auth.value.info));
        if info.None? then Failed
        else
          var work := ReadWork(auth.rest, hello.value.ver);
          if work.Failed? then Failed else Got(Seen(hello.value, auth.value, info.value, work.value), work.rest)
  }

  /** applyBridgeRuntimeClientInfo on what decryption gave. */
  function ReadInfo(tunnel: seq<byte>, ver: int, payload: Option<seq<byte>>): Option<Info> {
    if payload.None? then None else DecodeInfo(tunnel, ver, payload.value)
  }

  /**
   From the bytes of a client of any version but 0 the bridge recovers its version, address, transport name,
   auth fields and work, and leaves exactly what follows, if and only if the version is positive and, in secure
   mode, new enough; otherwise it refuses the client.
   */
  lemma ClientRoundTripIff(v: int, pad: nat, ip: IP, tp: seq<byte>, tunnel: seq<byte>, decrypt: Decrypt,
                           a: Auth, w: Work, random: seq<byte>, rest: seq<byte>, secure: bool)
    requires v != 0 && pad < MAX_PAD && |tp| <= MAX_TP && AuthOk(a) && WorkOk(w, random)
    requires decrypt(a.info) == ClientInfo(v, ip, tp)
    ensures ReadClient(Hello(v, pad) + AuthBytes(a) + WorkBytes(v, w, random) + rest, secure, tunnel, decrypt) ==
            if v < 0 || (secure && v < MIN_VER) then Failed
            else Got(Seen(Version(Served(v), GetVersion(v), VERSION, ClientVersionRaw(pad)), a,
                          Info(ip, if v < 3 then tunnel else tunnel + COMMA + tp),
                          w.(uuid := CarriedUuid(v, w.uuid))), rest)
  {
    var (hello, auth, work) := (Hello(v, pad), AuthBytes(a), WorkBytes(v, w, random));
    HelloRoundTrip(v, pad, auth + (work + rest), secure);
    AuthRoundTrip(a, work + rest);
    InfoRoundTripIff(v, ip, tp, tunnel);
    if v > 0 { WorkRoundTrip(v, w, random, rest); }
    ReadsInTurn(hello, auth, work, rest, secure, tunnel, decrypt, a, w.(uuid := CarriedUuid(v, w.uuid)));
  }

  /** Three envelopes that are read as they should be, one by one, are so in turn; a refused hello or info ends it. */
  lemma ReadsInTurn(hello: seq<byte>, auth: seq<byte>, work: seq<byte>, rest: seq<byte>, secure: bool,
                    tunnel: seq<byte>, decrypt: Decrypt, a: Auth, w: Work)
    requires var h := ReadHello(hello + (auth + (work + rest)), secure); h.Got? ==> h.rest == auth + (work + rest)
    requires ReadAuth(auth + (work + rest)) == Got(a, work + rest)
    requires var h := ReadHello(hello + (auth + (work + rest)), secure);
             h.Got? && ReadInfo(tunnel, h.value.ver, decrypt(a.info)).Some? ==>
               ReadWork(work + rest, h.value.ver) == Got(w, rest)
    ensures var h := ReadHello(hello + (auth + (work + rest)), secure);
            ReadClient(hello + auth + work + rest, secure, tunnel, decrypt) ==
            if h.Failed? || ReadInfo(tunnel, h.value.ver, decrypt(a.info)).None? then Failed
            else Got(Seen(h.value, a, ReadInfo(tunnel, h.value.ver, decrypt(a.info)).value, w), rest)
  {
    FieldFirst(hello + auth, work, rest);
    FieldFirst(hello, auth, work + rest);
  }

  /** A keyed hash over a timestamp and pieces of data. */
  type Mac = (int, seq<seq<byte>>) -> seq<byte>

  /** The hash the client puts into its auth payload, and the one the bridge expects from what it has read. */
  function ClientMac(mac: Mac, v: int, pad: nat, ts: int, info: seq<byte>, random: seq<byte>): seq<byte> {
    mac(ts, [GetVersion(v), ClientVersionRaw(pad), info, random])
  }

  function ExpectedMac(mac: Mac, hs: Version, a: Auth): seq<byte> {
    mac(a.ts, [hs.minRaw, hs.clientRaw, a.info, a.random])
  }

  /** The hash with which the bridge answers a client whose hash it has read. */
  function AnswerMac(mac: Mac, hs: Version, a: Auth): seq<byte> {
    mac(a.ts, [a.hmac, GetVersion(hs.ver)])
  }

  /**
   With one key on both sides, whatever the hash function: the bridge's check of the client's hash passes, and
   it answers with the hash that the client expects.
   */
  lemma BothSidesAccept(mac: Mac, v: int, pad: nat, a: Auth, w: Work, random: seq<byte>, rest: seq<byte>, secure: bool)
    requires v >= 1 && pad < MAX_PAD && AuthOk(a) && WorkOk(w, random) && (secure ==> v >= MIN_VER)
    requires a.hmac == ClientMac(mac, v, pad, a.ts, a.info, a.random)
    ensures var s := ReadSession(Hello(v, pad) + AuthBytes(a) + WorkBytes(v, w, random) + rest, secure);
            && s.Got? && ExpectedMac(mac, s.value.version, s.value.auth) == s.value.auth.hmac
            && AnswerMac(mac, s.value.version, s.value.auth) == mac(a.ts, [a.hmac, GetVersion(v)])
  {
    SessionRoundTrip(v, pad, a, w, random, rest, secure);
  }

  /**
   The client reads that answer exactly if it accepts the fingerprint in it, which versions up to 1 do not carry,
   and refuses it otherwise.
   */
  lemma AnswerIsAccepted(mac: Mac, v: int, hs: Version, a: Auth, fingerprint: seq<byte>, uuid: seq<byte>,
                         random: seq<byte>, rest: seq<byte>, accept: seq<byte> -> bool)
    requires v >= 1 && hs.ver == Served(v) && ResponseOk(Response(AnswerMac(mac, hs, a), fingerprint, uuid), random)
    ensures var r := Response(AnswerMac(mac, hs, a), fingerprint, uuid);
            ReadResponse(ResponseBytes(hs.ver, r, random) + rest, v, mac(a.ts, [a.hmac, GetVersion(v)]), accept) ==
            if v <= 1 || accept(fingerprint) then Got(CarriedResponse(v, r), rest) else Failed
  {
    ResponseRoundTrip(v, Response(AnswerMac(mac, hs, a), fingerprint, uuid), random, rest,
                      mac(a.ts, [a.hmac, GetVersion(v)]), accept);
  }
}
