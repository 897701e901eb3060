/**
 MPEG-TS packets (ISO/IEC 13818-1, sections 2.4.3.2 to 2.4.3.5): how the muxer
 lays one out, and how the reader takes one apart. The two directions share no
 code; `DecodeEncode` connects them.
 */
module TsPackets {
  import opened Wrappers
  import opened Bytes

  const TS_PACKET_SIZE: nat := 188
  const TS_PAYLOAD_SIZE: nat := TS_PACKET_SIZE - 4
  const SYNC_BYTE: byte := 0x47

  /** The payload_unit_start_indicator: the second bit above the 13-bit PID. */
  const PUSI: nat := 0x4000

  /** PTS and PCR count 90 kHz ticks modulo 2^33. */
  const TIMESTAMP_WRAP: nat := 0x2_0000_0000

  datatype Packet = Packet(
    pid: nat,
    start: bool,
    counter: nat,
    hasPayload: bool,
    randomAccess: bool,
    pcr: Option<nat>,
    body: seq<byte>)

  /** Bytes the flags and the PCR claim in front of the payload. */
  function Reserved(randomAccess: bool, pcr: Option<nat>): nat {
    if randomAccess || pcr.Some? then 2 + (if pcr.Some? then 6 else 0) else 0
  }

  predicate Sendable(p: Packet) {
    && p.pid < 0x2000
    && p.counter < 16
    && p.hasPayload
    && (p.pcr.Some? ==> p.pcr.value < TIMESTAMP_WRAP)
    && |p.body| + Reserved(p.randomAccess, p.pcr) <= TS_PAYLOAD_SIZE
  }

  // ---------------------------------------------------------------- writing

  /** A 33-bit base, six reserved bits, and an extension left at zero. */
  function PcrBytes(base: nat): (s: seq<byte>)
    requires base < TIMESTAMP_WRAP
    ensures |s| == 6
  {
    [base / 0x200_0000 % 256, base / 0x2_0000 % 256, base / 0x200 % 256, base / 2 % 256,
     base % 2 * 128 + 0x7E, 0]
  }

  function Flags(randomAccess: bool, pcr: Option<nat>): byte {
    (if randomAccess then 0x40 else 0) + (if pcr.Some? then 0x10 else 0)
  }

  /** An adaptation field of exactly `field` bytes. */
  function AdaptationField(field: nat, randomAccess: bool, pcr: Option<nat>): (s: seq<byte>)
    requires Reserved(randomAccess, pcr) <= field <= TS_PAYLOAD_SIZE
    requires pcr.Some? ==> pcr.value < TIMESTAMP_WRAP
    ensures |s| == field
  {
    if field == 0 then []
    else if field == 1 then [0]
    else
      var clock := if pcr.Some? then PcrBytes(pcr.value) else [];
      [field - 1, Flags(randomAccess, pcr)] + clock + Repeat(0xFF, field - 2 - |clock|)
  }

  /** Sync byte, PUSI and PID, adaptation_field_control and counter. */
  function Header(pid: nat, start: bool, adapted: bool, counter: nat): (s: seq<byte>)
    requires pid < 0x2000 && counter < 16
    ensures |s| == 4
  {
    [SYNC_BYTE] + BE16((if start then PUSI else 0) + pid) + [(if adapted then 0x30 else 0x10) + counter]
  }

  function HeaderOf(p: Packet): (s: seq<byte>)
    requires Sendable(p)
    ensures |s| == 4
  {
    Header(p.pid, p.start, |p.body| < TS_PAYLOAD_SIZE, p.counter)
  }

  function Encode(p: Packet): (s: seq<byte>)
    requires Sendable(p)
    ensures |s| == TS_PACKET_SIZE
  {
    HeaderOf(p) + AdaptationField(TS_PAYLOAD_SIZE - |p.body|, p.randomAccess, p.pcr) + p.body
  }

  lemma EncodeParts(p: Packet)
    requires Sendable(p)
    ensures Encode(p) == HeaderOf(p) + AdaptationField(TS_PAYLOAD_SIZE - |p.body|, p.randomAccess, p.pcr) + p.body
  {
  }

  predicate AllSendable(ps: seq<Packet>) {
    forall i :: 0 <= i < |ps| ==> Sendable(ps[i])
  }

  function Encodings(ps: seq<Packet>): seq<seq<byte>>
    requires AllSendable(ps)
  {
    seq(|ps|, i requires 0 <= i < |ps| => Encode(ps[i]))
  }

  /** The byte stream a list of packets makes. */
  function EncodeAll(ps: seq<Packet>): seq<byte>
    requires AllSendable(ps)
  {
    Flatten(Encodings(ps))
  }

  lemma EncodeAllConcat(a: seq<Packet>, b: seq<Packet>)
    requires AllSendable(a) && AllSendable(b)
    ensures AllSendable(a + b) && EncodeAll(a + b) == EncodeAll(a) + EncodeAll(b)
  {
    assert Encodings(a + b) == Encodings(a) + Encodings(b);
    FlattenConcat(Encodings(a), Encodings(b));
  }

  lemma EncodeAllNone()
    ensures EncodeAll([]) == []
  {
  }

  lemma EncodeAllOne(p: Packet)
    requires Sendable(p)
    ensures AllSendable([p]) && EncodeAll([p]) == Encode(p)
  {
    assert Encodings([p]) == [Encode(p)];
    assert Flatten([Encode(p)][1..]) == [];
  }

  lemma EncodeAllFirst(ps: seq<Packet>)
    requires ps != [] && AllSendable(ps)
    ensures AllSendable(ps[1..]) && EncodeAll(ps) == Encode(ps[0]) + EncodeAll(ps[1..])
  {
    assert Encodings(ps)[1..] == Encodings(ps[1..]);
  }

  // ---------------------------------------------------------------- reading

  function PcrBase(b: seq<byte>): nat
    requires |b| >= 5
  {
    (b[0] as int) * 0x200_0000 + (b[1] as int) * 0x2_0000 + (b[2] as int) * 0x200 + (b[3] as int) * 2
    + b[4] as int / 128
  }

  /**
   One packet, taken apart. `None` is every assertion of the reader: a lost sync
   byte, the reserved adaptation_field_control, a field running past the packet.
   */
  function Decode(packet: seq<byte>): Option<Packet>
    requires |packet| == TS_PACKET_SIZE
  {
    var pid := FromBE16(packet[1] % 32, packet[2]);
    var start := packet[1] / 64 % 2 == 1;
    var control := packet[3] / 16 % 4;
    var counter := packet[3] % 16;
    if packet[0] != SYNC_BYTE || control == 0 then
      None
    else if control < 2 then
      Some(Packet(pid, start, counter, true, false, None, packet[4..]))
    else
      var length := packet[4];
      if length > TS_PACKET_SIZE - 5 then
        None
      else
        var flags := if length > 0 then packet[5] else 0;
        var pcr := if flags / 16 % 2 == 1 then Some(PcrBase(packet[6..12])) else None;
        Some(Packet(pid, start, counter, control % 2 == 1, flags / 64 % 2 == 1, pcr, packet[5 + length..]))
  }

  // ------------------------------------------------------------ connection

  lemma PcrRoundTrip(base: nat)
    requires base < TIMESTAMP_WRAP
    ensures PcrBase(PcrBytes(base)) == base
  {
    var a := base / 2;
    var b := a / 256;
    var c := b / 256;
    assert base / 0x200 == b;
    assert base / 0x2_0000 == c;
    assert base / 0x200_0000 == c / 256;
  }

  lemma HeaderFields(p: Packet)
    requires Sendable(p)
    ensures var h := HeaderOf(p);
      && h[0] == SYNC_BYTE
      && FromBE16(h[1] % 32, h[2]) == p.pid
      && (h[1] / 64 % 2 == 1 <==> p.start)
      && h[3] / 16 % 4 == (if |p.body| < TS_PAYLOAD_SIZE then 3 else 1)
      && h[3] % 16 == p.counter
  {
  }

  lemma FieldFlags(field: nat, randomAccess: bool, pcr: Option<nat>)
    requires 2 <= field && Reserved(randomAccess, pcr) <= field <= TS_PAYLOAD_SIZE
    requires pcr.Some? ==> pcr.value < TIMESTAMP_WRAP
    ensures var f := AdaptationField(field, randomAccess, pcr);
      && f[0] == field - 1
      && (f[1] / 64 % 2 == 1 <==> randomAccess)
      && (f[1] / 16 % 2 == 1 <==> pcr.Some?)
      && (pcr.Some? ==> f[2..8] == PcrBytes(pcr.value))
  {
  }

  /** The reader recovers every field of every packet the muxer can send. */
  lemma DecodeEncode(p: Packet)
    requires Sendable(p)
    ensures Decode(Encode(p)) == Some(p)
  {
    hide HeaderOf, AdaptationField, PcrBytes, PcrBase, FromBE16;
    HeaderFields(p);
    var field := TS_PAYLOAD_SIZE - |p.body|;
    if field >= 2 {
      FieldFlags(field, p.randomAccess, p.pcr);
    } else if field == 1 {
      LoneLength(p.randomAccess, p.pcr);
    }
    if p.pcr.Some? {
      PcrRoundTrip(p.pcr.value);
    }
    Joined(HeaderOf(p), AdaptationField(field, p.randomAccess, p.pcr), p.body);
  }

  /** One spare byte holds a length of zero and no flags, and then there are none to lose. */
  lemma LoneLength(randomAccess: bool, pcr: Option<nat>)
    requires Reserved(randomAccess, pcr) <= 1
    ensures !randomAccess && pcr.None? && AdaptationField(1, randomAccess, pcr) == [0]
  {
  }

  /** Where the three parts of a packet sit once joined. */
  lemma Joined(h: seq<byte>, f: seq<byte>, body: seq<byte>)
    requires |h| == 4
    ensures var e := h + f + body;
      && e[0] == h[0] && e[1] == h[1] && e[2] == h[2] && e[3] == h[3]
      && e[4 + |f|..] == body
      && (|f| >= 1 ==> e[4] == f[0])
      && (|f| >= 2 ==> e[5] == f[1])
      && (|f| >= 8 ==> e[6..12] == f[2..8])
  {
  }
}
