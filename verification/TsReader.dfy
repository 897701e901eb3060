/**
 A strict MPEG-TS reader, written from the standard rather than from the muxer.
 Everything it would assert on is a `None`.
 */
module TsReader {
  import opened Wrappers
  import opened Bytes
  import opened TsPackets
  import Crc

  const PAT_PID: nat := 0x0000
  /** "Not named yet"; no real PID is this large. */
  const UNSET_PID: nat := 0xFFFF

  datatype Frame = Frame(
    pid: nat,
    pts: nat,
    payload: seq<byte>,
    randomAccess: bool,
    declaredLength: nat,
    precededByPsi: bool)

  /** A frame being put together again. */
  datatype PesBuilder = PesBuilder(
    pts: nat,
    payload: seq<byte>,
    randomAccess: bool,
    declaredLength: nat,
    precededByPsi: bool,
    open: bool)

  datatype Reader = Reader(
    pmtPid: nat,
    pcrPid: nat,
    streams: seq<(nat, byte)>,
    frames: seq<Frame>,
    pcrs: seq<(nat, nat)>,
    patPackets: seq<nat>,
    pmtCount: nat,
    builders: map<nat, PesBuilder>,
    continuity: map<nat, nat>,
    freshPsi: bool,
    index: nat)

  const FRESH: Reader := Reader(UNSET_PID, 0, [], [], [], [], 0, map[], map[], false, 0)
  const IDLE: PesBuilder := PesBuilder(0, [], false, 0, false, false)

  // ------------------------------------------------------------ timestamps

  function ReadTimestamp(b: seq<byte>, prefix: nat): Option<nat>
    requires |b| == 5
  {
    if b[0] / 16 == prefix && b[0] % 2 == 1 && b[2] % 2 == 1 && b[4] % 2 == 1
    then Some((b[0] / 2 % 8) as int * 0x4000_0000 + (b[1] as int) * 0x40_0000 + (b[2] / 2) as int * 0x8000
              + (b[3] as int) * 0x80 + (b[4] / 2) as int)
    else None
  }

  // ------------------------------------------------------------ sections

  /** A section's body from the extension field on, minus the CRC. */
  function ReadSection(body: seq<byte>, expectTable: byte): Option<seq<byte>> {
    if |body| < 1 || 1 + body[0] as int > |body| then None
    else
      var section := body[1 + body[0]..];
      if |section| < 3 || section[0] != expectTable then None
      else
        var header := FromBE16(section[1], section[2]);
        var length := header % 0x1000;
        if header / 0x8000 % 2 != 1 || header / 0x4000 % 2 != 0 || 3 + length > |section| || length < 4 then None
        else
          var payload := section[..length - 1];
          var crc := section[length - 1..length + 3];
          if Crc.FromBE32(crc[0], crc[1], crc[2], crc[3]) != Crc.Checksum(payload) then None
          else if exists i :: 3 + length <= i < |section| && section[i] != 0xFF then None
          else Some(payload[3..])
  }

  /** The PMT PID a PAT body names: the last entry with a non-zero program wins. */
  function PatTarget(entries: seq<byte>, pmtPid: nat): nat {
    if |entries| < 4 then pmtPid
    else
      var named := if FromBE16(entries[0], entries[1]) != 0
                   then FromBE16(entries[2] % 32, entries[3]) else pmtPid;
      PatTarget(entries[4..], named)
  }

  function PmtStreams(entries: seq<byte>): seq<(nat, byte)> {
    if |entries| < 5 then []
    else [(FromBE16(entries[1] % 32, entries[2]), entries[0])] + PmtStreams(entries[5..])
  }

  // ------------------------------------------------------------ frames

  function AsFrame(pid: nat, b: PesBuilder): Frame {
    Frame(pid, b.pts, b.payload, b.randomAccess, b.declaredLength, b.precededByPsi)
  }

  function Builder(r: Reader, pid: nat): PesBuilder {
    if pid in r.builders then r.builders[pid] else IDLE
  }

  /** Finish the frame a builder holds, if it holds one. */
  function Flush(r: Reader, pid: nat): Reader {
    var b := Builder(r, pid);
    if b.open
    then r.(frames := r.frames + [AsFrame(pid, b)], builders := r.builders[pid := b.(payload := [], open := false)])
    else r.(builders := r.builders[pid := b])
  }

  /** The start of a PES packet. */
  function StartPes(r: Reader, p: Packet): Option<Reader> {
    var body := p.body;
    if || |body| < 14 || body[0] != 0 || body[1] != 0 || body[2] != 1
       || body[6] / 64 != 2 || body[7] != 0x80 || body[8] != 5
    then None
    else
      var pts := ReadTimestamp(body[9..14], 2);
      if pts.None? then None
      else
        var flushed := Flush(r, p.pid);
        var b := PesBuilder(pts.value, body[14..], p.randomAccess, FromBE16(body[4], body[5]), r.freshPsi, true);
        Some(flushed.(builders := flushed.builders[p.pid := b], freshPsi := false))
  }

  function ContinuePes(r: Reader, p: Packet): Reader {
    var b := Builder(r, p.pid);
    r.(builders := r.builders[p.pid := if b.open then b.(payload := b.payload + p.body) else b])
  }

  /** A declared length lets the frame finish here. */
  function FinishDeclared(r: Reader, pid: nat): Option<Reader> {
    var b := Builder(r, pid);
    if b.declaredLength == 0 then Some(r)
    else if b.declaredLength < 8 then None
    else if |b.payload| >= b.declaredLength - 8
    then Some(Flush(r.(builders := r.builders[pid := b.(payload := b.payload[..b.declaredLength - 8])]), pid))
    else Some(r)
  }

  // ------------------------------------------------------------ one packet

  function FeedPat(r: Reader, p: Packet): Option<Reader> {
    var section := ReadSection(p.body, 0x00);
    if !p.start || section.None? || |section.value| < 5 then None
    else Some(r.(patPackets := r.patPackets + [r.index], pmtPid := PatTarget(section.value[5..], r.pmtPid)))
  }

  function FeedPmt(r: Reader, p: Packet): Option<Reader> {
    var section := ReadSection(p.body, 0x02);
    if !p.start || section.None? || |section.value| < 9 then None
    else
      var rest := section.value[5..];
      var infoLength := FromBE16(rest[2] % 16, rest[3]);
      if 4 + infoLength > |rest| then None
      else
        var streams := PmtStreams(rest[4 + infoLength..]);
        if r.streams != [] && r.streams != streams then None
        else Some(r.(pmtCount := r.pmtCount + 1, freshPsi := true,
                     pcrPid := FromBE16(rest[0] % 32, rest[1]), streams := streams))
  }

  function FeedPes(r: Reader, p: Packet): Option<Reader> {
    var moved := if p.start then StartPes(r, p) else Some(ContinuePes(r, p));
    if moved.None? then None else FinishDeclared(moved.value, p.pid)
  }

  predicate Listed(r: Reader, pid: nat) {
    exists i :: 0 <= i < |r.streams| && r.streams[i].0 == pid
  }

  predicate Continuous(r: Reader, p: Packet) {
    p.pid in r.continuity ==> p.counter == (r.continuity[p.pid] + 1) % 16
  }

  /** A packet's payload, by the PID it came on. */
  function FeedPayload(r: Reader, p: Packet): Option<Reader> {
    if p.pid == PAT_PID then FeedPat(r, p)
    else if p.pid == r.pmtPid then FeedPmt(r, p)
    else if Listed(r, p.pid) then FeedPes(r, p)
    else Some(r)
  }

  function NotePcr(r: Reader, p: Packet): Reader {
    if p.pcr.Some? then r.(pcrs := r.pcrs + [(r.index, p.pcr.value)]) else r
  }

  function Feed(r: Reader, p: Packet): Option<Reader> {
    var noted := NotePcr(r, p);
    if !p.hasPayload then Some(noted.(index := r.index + 1))
    else if !Continuous(r, p) then None
    else
      var fed := FeedPayload(noted.(continuity := r.continuity[p.pid := p.counter]), p);
      if fed.None? then None else Some(fed.value.(index := r.index + 1))
  }

  function FeedAll(r: Reader, ps: seq<Packet>): Option<Reader>
    decreases |ps|
  {
    if ps == [] then Some(r)
    else
      var next := Feed(r, ps[0]);
      if next.None? then None else FeedAll(next.value, ps[1..])
  }

  lemma FeedAllStep(r: Reader, ps: seq<Packet>, next: Reader, rest: seq<Packet>)
    requires ps != [] && ps[1..] == rest && Feed(r, ps[0]) == Some(next)
    ensures FeedAll(r, ps) == FeedAll(next, rest)
  {
  }

  lemma FeedAllEnd(r: Reader)
    ensures FeedAll(r, []) == Some(r)
  {
  }

  lemma {:induction false} FeedAllConcat(r: Reader, a: seq<Packet>, b: seq<Packet>)
    ensures FeedAll(r, a + b) == if FeedAll(r, a).None? then None else FeedAll(FeedAll(r, a).value, b)
    decreases |a|
  {
    hide Feed;
    if a == [] {
      assert a + b == b;
    } else {
      assert (a + b)[0] == a[0] && (a + b)[1..] == a[1..] + b;
      if Feed(r, a[0]).Some? {
        FeedAllConcat(Feed(r, a[0]).value, a[1..], b);
      }
    }
  }

  /** A whole byte stream: whole packets only. */
  function FeedBytes(r: Reader, ts: seq<byte>): Option<Reader>
    decreases |ts|
  {
    if ts == [] then Some(r)
    else if |ts| < TS_PACKET_SIZE then None
    else
      var p := Decode(ts[..TS_PACKET_SIZE]);
      if p.None? then None
      else
        var next := Feed(r, p.value);
        if next.None? then None else FeedBytes(next.value, ts[TS_PACKET_SIZE..])
  }

  // ------------------------------------------------------------ what was read

  function OnPid(frames: seq<Frame>, pid: nat): seq<Frame> {
    if frames == [] then []
    else
      var last := frames[|frames| - 1];
      OnPid(frames[..|frames| - 1], pid) + if last.pid == pid then [last] else []
  }

  /** Everything read on one PID, the frame still being assembled included. */
  function Delivered(r: Reader, pid: nat): seq<Frame> {
    OnPid(r.frames, pid) + if Builder(r, pid).open then [AsFrame(pid, Builder(r, pid))] else []
  }

  // ------------------------------------------------------------ the loop

  lemma {:induction false} FeedBytesConcat(r: Reader, a: seq<byte>, b: seq<byte>)
    requires |a| % TS_PACKET_SIZE == 0
    ensures FeedBytes(r, a + b) == if FeedBytes(r, a).None? then None else FeedBytes(FeedBytes(r, a).value, b)
    decreases |a|
  {
    hide Feed, Decode;
    if a == [] {
      assert a + b == b;
    } else {
      assert (a + b)[..TS_PACKET_SIZE] == a[..TS_PACKET_SIZE];
      assert (a + b)[TS_PACKET_SIZE..] == a[TS_PACKET_SIZE..] + b;
      var p := Decode(a[..TS_PACKET_SIZE]);
      if p.Some? && Feed(r, p.value).Some? {
        FeedBytesConcat(Feed(r, p.value).value, a[TS_PACKET_SIZE..], b);
      }
    }
  }

  lemma FlushDelivers(r: Reader, pid: nat, other: nat)
    ensures Delivered(Flush(r, pid), other) == Delivered(r, other)
  {
    var b := Builder(r, pid);
    var f := AsFrame(pid, b);
    assert (r.frames + [f])[..|r.frames|] == r.frames;
  }
}
