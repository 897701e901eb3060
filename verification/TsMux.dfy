/**
 The MPEG-TS muxer as a value: what a muxer holds, and what announcing the program and
 writing a frame make of it. `TsMuxer` does the same in place, byte by byte.
 */
module TsMux {
  import opened Wrappers
  import opened Bytes
  import opened TsPackets
  import Crc

  const PAT_PID: nat := 0x0000
  const PMT_PID: nat := 0x1000
  const FIRST_ES_PID: nat := 0x0100
  const NULL_PID: nat := 0x1FFF
  const PROGRAM_NUMBER: nat := 1

  /** The reserved bits above a 13-bit PID in a table. */
  const RESERVED_3: nat := 0xE000
  /** Four reserved bits and a length of zero: "no descriptors here". */
  const EMPTY_INFO_LENGTH: nat := 0xF000

  const CLOCK_HZ: nat := 90_000
  /** The lead given to presentation over the clock: a fifth of a second. */
  const PTS_LEAD: nat := CLOCK_HZ / 5
  /** Longest gap between table repeats. */
  const PSI_INTERVAL: nat := CLOCK_HZ / 10

  /** The most tracks whose PMT still fits one packet. */
  const MAX_TRACKS: nat := 33

  datatype StreamType = H264 | H265 | Aac | Pcma {
    /** The stream_type byte of the PMT. */
    function Id(): byte {
      match this
      case H264 => 0x1B
      case H265 => 0x24
      case Aac => 0x0F
      case Pcma => 0x90
    }

    predicate IsVideo() {
      H264? || H265?
    }

    /** The PES stream_id. */
    function StreamId(): byte {
      if IsVideo() then 0xE0 else 0xC0
    }
  }

  /** `continuity` is a `u8` of which the low four bits are sent. */
  datatype Track = Track(pid: nat, kind: StreamType, continuity: nat)

  datatype State = State(
    tracks: seq<Track>,
    pcrTrack: Option<nat>,
    patContinuity: nat,
    pmtContinuity: nat,
    lastPsi: Option<nat>)

  predicate Valid(m: State) {
    && |m.tracks| <= MAX_TRACKS
    && (forall i :: 0 <= i < |m.tracks| ==> m.tracks[i].pid == FIRST_ES_PID + i && m.tracks[i].continuity < 256)
    && (m.pcrTrack.Some? ==> m.pcrTrack.value < |m.tracks|)
    && m.patContinuity < 256
    && m.pmtContinuity < 256
    && (m.lastPsi.Some? ==> m.lastPsi.value < TIMESTAMP_WRAP)
  }

  function FirstVideo(kinds: seq<StreamType>): (i: nat)
    requires exists i :: 0 <= i < |kinds| && kinds[i].IsVideo()
    ensures i < |kinds| && kinds[i].IsVideo()
    ensures forall j :: 0 <= j < i ==> !kinds[j].IsVideo()
  {
    if kinds[0].IsVideo() then 0 else 1 + FirstVideo(kinds[1..])
  }

  /** The clock rides on the first video track, or on the first track of a program without video. */
  function PcrTrackOf(kinds: seq<StreamType>): (i: Option<nat>)
    ensures i.Some? ==> i.value < |kinds|
  {
    if exists i :: 0 <= i < |kinds| && kinds[i].IsVideo() then Some(FirstVideo(kinds))
    else if kinds == [] then None else Some(0)
  }

  /** A new muxer: consecutive PIDs, all counters at zero, nothing announced. */
  function Initial(kinds: seq<StreamType>): (m: State)
    requires |kinds| <= MAX_TRACKS
    ensures Valid(m)
  {
    State(seq(|kinds|, i requires 0 <= i < |kinds| => Track(FIRST_ES_PID + i, kinds[i], 0)),
          PcrTrackOf(kinds), 0, 0, None)
  }

  // ------------------------------------------------------------ the clock

  /** `u64::saturating_mul(9) / 100`: microseconds to 90 kHz ticks. */
  function Ticks(ptsUs: nat): nat {
    Min(9 * ptsUs, MAX_U64) / 100
  }

  function Clock(ptsUs: nat): (c: nat)
    ensures c < TIMESTAMP_WRAP
  {
    Ticks(ptsUs) % TIMESTAMP_WRAP
  }

  function Pts(ptsUs: nat): (c: nat)
    ensures c < TIMESTAMP_WRAP
  {
    (Clock(ptsUs) + PTS_LEAD) % TIMESTAMP_WRAP
  }

  // ------------------------------------------------------------ the tables

  /** A table from table_id up to, not including, its CRC. */
  function PsiSection(tableId: byte, extension: nat, body: seq<byte>): (s: seq<byte>)
    requires extension <= MAX_U16
    requires |body| + 9 < 0x1000
    ensures |s| == |body| + 8
  {
    [tableId] + BE16(0xB000 + 5 + |body| + 4) + BE16(extension) + [0xC1, 0, 0] + body
  }

  function PatSection(): (s: seq<byte>)
    ensures |s| == 12
  {
    PsiSection(0x00, PROGRAM_NUMBER, BE16(PROGRAM_NUMBER) + BE16(RESERVED_3 + PMT_PID))
  }

  function PcrPid(m: State): (pid: nat)
    requires Valid(m)
    ensures pid < 0x2000
  {
    if m.pcrTrack.Some? then m.tracks[m.pcrTrack.value].pid else NULL_PID
  }

  function Entry(t: Track): (s: seq<byte>)
    requires t.pid < 0x2000
    ensures |s| == 5
  {
    [t.kind.Id()] + BE16(RESERVED_3 + t.pid) + BE16(EMPTY_INFO_LENGTH)
  }

  function Entries(tracks: seq<Track>): (s: seq<byte>)
    requires forall i :: 0 <= i < |tracks| ==> tracks[i].pid < 0x2000
    ensures |s| == 5 * |tracks|
  {
    if tracks == [] then [] else Entries(tracks[..|tracks| - 1]) + Entry(tracks[|tracks| - 1])
  }

  function PmtSection(m: State): (s: seq<byte>)
    requires Valid(m)
    ensures |s| == 12 + 5 * |m.tracks|
  {
    PsiSection(0x02, PROGRAM_NUMBER,
               BE16(RESERVED_3 + PcrPid(m)) + BE16(EMPTY_INFO_LENGTH) + Entries(m.tracks))
  }

  /** Pointer field, section, CRC, filler. */
  function PsiPayload(section: seq<byte>): (s: seq<byte>)
    requires |section| + 5 <= TS_PAYLOAD_SIZE
    ensures |s| == TS_PAYLOAD_SIZE
  {
    [0] + section + Crc.BE32(Crc.Checksum(section)) + Repeat(0xFF, TS_PAYLOAD_SIZE - 5 - |section|)
  }

  function PsiPacket(pid: nat, continuity: nat, section: seq<byte>): (p: Packet)
    requires pid < 0x2000
    requires |section| + 5 <= TS_PAYLOAD_SIZE
    ensures Sendable(p)
  {
    Packet(pid, true, continuity % 16, true, false, None, PsiPayload(section))
  }

  /** The state after a PAT/PMT pair. */
  function Announced(m: State): State {
    m.(patContinuity := (m.patContinuity + 1) % 256, pmtContinuity := (m.pmtContinuity + 1) % 256)
  }

  function Tables(m: State): (ps: seq<Packet>)
    requires Valid(m)
    ensures AllSendable(ps)
  {
    [PsiPacket(PAT_PID, m.patContinuity, PatSection()), PsiPacket(PMT_PID, m.pmtContinuity, PmtSection(m))]
  }

  predicate PsiDue(m: State, clock: nat, randomAccess: bool) {
    || m.lastPsi.None?
    || randomAccess
    || (clock - m.lastPsi.value) % TIMESTAMP_WRAP >= PSI_INTERVAL
  }

  // ------------------------------------------------------------ one frame

  /** A 33-bit timestamp in the five-byte PES form. */
  function TimestampBytes(prefix: nat, ts: nat): (s: seq<byte>)
    requires prefix < 16 && ts < TIMESTAMP_WRAP
    ensures |s| == 5
  {
    [prefix * 16 + ts / 0x4000_0000 * 2 + 1,
     ts / 0x40_0000 % 256,
     ts / 0x8000 % 128 * 2 + 1,
     ts / 0x80 % 256,
     ts % 128 * 2 + 1]
  }

  /** PES_packet_length, zero when the frame is too long for the field. */
  function DeclaredLength(size: nat): (n: nat)
    ensures n <= MAX_U16
  {
    if 3 + 5 + size <= MAX_U16 then 3 + 5 + size else 0
  }

  function PesHeader(kind: StreamType, size: nat, pts: nat): (s: seq<byte>)
    requires pts < TIMESTAMP_WRAP
    ensures |s| == 14
  {
    [0x00, 0x00, 0x01, kind.StreamId()] + BE16(DeclaredLength(size)) + [0x80, 0x80, 5] + TimestampBytes(2, pts)
  }

  /** How much of `size` bytes the next packet takes. */
  function Share(size: nat, randomAccess: bool, pcr: Option<nat>): nat {
    Min(size, TS_PAYLOAD_SIZE - Reserved(randomAccess, pcr))
  }

  /** The packets one PES packet is split over. */
  function Split(pid: nat, continuity: nat, data: seq<byte>, pcr: Option<nat>, randomAccess: bool, start: bool)
    : (ps: seq<Packet>)
    requires pid < 0x2000
    requires pcr.Some? ==> pcr.value < TIMESTAMP_WRAP
    ensures AllSendable(ps)
    decreases |data|
  {
    if data == [] then []
    else
      var n := Share(|data|, randomAccess, pcr);
      [Packet(pid, start, continuity % 16, true, randomAccess, pcr, data[..n])]
      + Split(pid, (continuity + 1) % 256, data[n..], None, false, false)
  }

  lemma SplitEnd(pid: nat, continuity: nat, pcr: Option<nat>, randomAccess: bool, start: bool)
    requires pid < 0x2000
    requires pcr.Some? ==> pcr.value < TIMESTAMP_WRAP
    ensures Split(pid, continuity, [], pcr, randomAccess, start) == []
  {
  }

  lemma SplitStep(pid: nat, continuity: nat, data: seq<byte>, pcr: Option<nat>, randomAccess: bool, start: bool)
    requires pid < 0x2000 && data != []
    requires pcr.Some? ==> pcr.value < TIMESTAMP_WRAP
    ensures var n := Share(|data|, randomAccess, pcr);
      && 0 < n <= |data|
      && Split(pid, continuity, data, pcr, randomAccess, start)
      == [Packet(pid, start, continuity % 16, true, randomAccess, pcr, data[..n])]
         + Split(pid, (continuity + 1) % 256, data[n..], None, false, false)
  {
  }

  /** What one call appends, and the state it leaves. */
  datatype Written = Written(state: State, packets: seq<Packet>)

  function FramePackets(m: State, track: nat, ptsUs: nat, randomAccess: bool, payload: seq<byte>): (ps: seq<Packet>)
    requires Valid(m) && track < |m.tracks|
    ensures AllSendable(ps)
  {
    var t := m.tracks[track];
    var pcr := if m.pcrTrack == Some(track) then Some(Clock(ptsUs)) else None;
    Split(t.pid, t.continuity, PesHeader(t.kind, |payload|, Pts(ptsUs)) + payload, pcr, randomAccess, true)
  }

  function Advance(m: State, track: nat, packets: nat): State
    requires track < |m.tracks|
  {
    var t := m.tracks[track];
    m.(tracks := m.tracks[track := t.(continuity := (t.continuity + packets) % 256)])
  }

  /** The tables, if they are due before this frame. */
  function WriteTables(m: State, clock: nat, randomAccess: bool): (w: Written)
    requires Valid(m) && clock < TIMESTAMP_WRAP
    ensures Valid(w.state) && AllSendable(w.packets)
    ensures |w.state.tracks| == |m.tracks|
  {
    if PsiDue(m, clock, randomAccess)
    then Written(Announced(m).(lastPsi := Some(clock)), Tables(m))
    else Written(m, [])
  }

  function WriteFrame(m: State, track: nat, ptsUs: nat, randomAccess: bool, payload: seq<byte>): (w: Written)
    requires Valid(m)
    ensures Valid(w.state) && AllSendable(w.packets)
    ensures |w.state.tracks| == |m.tracks|
  {
    if payload == [] then Written(m, [])
    else
      var tables := WriteTables(m, Clock(ptsUs), randomAccess);
      if track >= |m.tracks| then tables
      else
        var frame := FramePackets(tables.state, track, ptsUs, randomAccess, payload);
        Written(Advance(tables.state, track, |frame|), tables.packets + frame)
  }
}
