/**
 What goes out on the wire, in literal bytes: the tables, the head of every PES packet,
 the stream codes of ISO/IEC 13818-1 and which track the clock rides on. Nothing here
 is stated through the muxer's own constants.
 */
module WireFormat {
  import opened Wrappers
  import opened Bytes
  import opened TsPackets
  import opened TsMux
  import Crc
  import CrcDivision
  import PSI = PsiReading
  import R = TsReader
  import RT = RoundTrip
  import MP = MuxProperties

  // ------------------------------------------------------------ one packet

  /** The adaptation field of a packet with flags `f`, or of stuffing alone. */
  predicate Adapted(e: seq<byte>, size: nat, randomAccess: bool, pcr: Option<nat>) {
    && |e| == size
    && (size == 1 ==> e == [0])
    && (size >= 2 ==>
          && e[0] == size - 1
          && e[1] == (if randomAccess then 0x40 else 0) + (if pcr.Some? then 0x10 else 0)
          && (forall i :: (if pcr.Some? then 8 else 2) <= i < size ==> e[i] == 0xFF))
    && (size >= 8 && pcr.Some? ==>
          && e[2] as int * 0x200_0000 + e[3] as int * 0x2_0000 + e[4] as int * 0x200 + e[5] as int * 2
             + e[6] as int / 128 == pcr.value
          && e[6] % 128 == 0x7E && e[7] == 0)
  }

  /**
   Every packet, byte for byte: no error, priority or scrambling bit set, the adaptation
   field there exactly if there is room for it, nothing in it but the two flags and the
   clock, and 0xFF behind them.
   */
  lemma PacketOnTheWire(p: Packet)
    requires Sendable(p)
    ensures var e := Encode(p);
      var size := 184 - |p.body|;
      && |e| == 188
      && e[..4] == [0x47, (if p.start then 0x40 else 0) + p.pid / 256, p.pid % 256,
                    (if size > 0 then 0x30 else 0x10) + p.counter]
      && Adapted(e[4..4 + size], size, p.randomAccess, p.pcr)
      && e[4 + size..] == p.body
  {
    hide AdaptationField;
    EncodeParts(p);
    var field := AdaptationField(184 - |p.body|, p.randomAccess, p.pcr);
    FieldOnTheWire(184 - |p.body|, p.randomAccess, p.pcr);
    assert Encode(p)[4..4 + |field|] == field;
  }

  lemma FieldOnTheWire(size: nat, randomAccess: bool, pcr: Option<nat>)
    requires Reserved(randomAccess, pcr) <= size <= 184
    requires pcr.Some? ==> pcr.value < TIMESTAMP_WRAP
    ensures Adapted(AdaptationField(size, randomAccess, pcr), size, randomAccess, pcr)
  {
    hide PcrBytes;
    if pcr.Some? {
      PcrRoundTrip(pcr.value);
      ReservedBits(pcr.value);
      var e := AdaptationField(size, randomAccess, pcr);
      assert e[2..8] == PcrBytes(pcr.value);
      assert forall i :: 0 <= i < 6 ==> e[2 + i] == PcrBytes(pcr.value)[i];
    }
  }

  lemma ReservedBits(base: nat)
    requires base < TIMESTAMP_WRAP
    ensures PcrBytes(base)[4] % 128 == 0x7E && PcrBytes(base)[5] == 0
  {
  }

  // ------------------------------------------------------------ the tables

  /** The one PAT there is, counter aside: all 188 bytes of it. */
  lemma PatOnTheWire(m: State)
    requires Valid(m)
    ensures Encode(Tables(m)[0])
         == [0x47, 0x40, 0x00, 0x10 + m.patContinuity % 16, 0x00,
             0x00, 0xB0, 0x0D, 0x00, 0x01, 0xC1, 0x00, 0x00, 0x00, 0x01, 0xF0, 0x00, 0x2A, 0xB1, 0x04, 0xB2]
            + seq(167, _ => 0xFF)
  {
    hide Crc.Checksum, Crc.BE32;
    CrcDivision.PatChecksum();
    assert PatSection() == [0x00, 0xB0, 0x0D, 0x00, 0x01, 0xC1, 0x00, 0x00, 0x00, 0x01, 0xF0, 0x00];
    hide TsMux.PatSection;
    PsiOnTheWire(0, m.patContinuity, PatSection());
  }

  /** Any table's packet: header, pointer field, section, checksum, filler. */
  lemma PsiOnTheWire(pid: nat, continuity: nat, section: seq<byte>)
    requires pid < 0x2000 && |section| <= 179
    ensures Encode(PsiPacket(pid, continuity, section))
         == [0x47, 0x40 + pid / 256, pid % 256, 0x10 + continuity % 16, 0x00]
            + section + Crc.BE32(Crc.Checksum(section)) + seq(179 - |section|, _ => 0xFF)
  {
    hide Crc.Checksum, Crc.BE32;
    var p := PsiPacket(pid, continuity, section);
    assert HeaderOf(p) == [0x47, 0x40 + pid / 256, pid % 256, 0x10 + continuity % 16];
    assert AdaptationField(0, false, None) == [];
    EncodeParts(p);
  }

  /** Where the clock rides: the first video track, or else the first track. */
  predicate CarriesClock(kinds: seq<StreamType>, track: nat) {
    && track < |kinds|
    && if kinds[track].H264? || kinds[track].H265?
       then forall j :: 0 <= j < track ==> kinds[j].Aac? || kinds[j].Pcma?
       else track == 0 && forall j :: 0 <= j < |kinds| ==> kinds[j].Aac? || kinds[j].Pcma?
  }

  /** The five bytes of a PMT that announce one track. */
  predicate Announces(entry: seq<byte>, kind: StreamType, track: nat) {
    && |entry| == 5
    && (kind.H264? ==> entry[0] == 0x1B)
    && (kind.H265? ==> entry[0] == 0x24)
    && (kind.Aac? ==> entry[0] == 0x0F)
    && (kind.Pcma? ==> entry[0] == 0x90)
    && entry[1] == 0xE1 && entry[2] == track
    && entry[3] == 0xF0 && entry[4] == 0x00
  }

  function KindsOf(m: State): (kinds: seq<StreamType>)
    ensures |kinds| == |m.tracks|
  {
    seq(|m.tracks|, i requires 0 <= i < |m.tracks| => m.tracks[i].kind)
  }

  /** The clock is where it belongs. */
  predicate ClockPlaced(m: State) {
    && (m.pcrTrack.None? <==> m.tracks == [])
    && (m.pcrTrack.Some? ==> CarriesClock(KindsOf(m), m.pcrTrack.value))
  }

  lemma InitialPlacesClock(kinds: seq<StreamType>)
    requires |kinds| <= MAX_TRACKS
    ensures ClockPlaced(Initial(kinds)) && KindsOf(Initial(kinds)) == kinds
  {
    var m := Initial(kinds);
    assert KindsOf(m) == kinds;
    if exists i :: 0 <= i < |kinds| && kinds[i].IsVideo() {
      var t := FirstVideo(kinds);
      assert kinds[t].IsVideo();
      forall j | 0 <= j < t
        ensures kinds[j].Aac? || kinds[j].Pcma?
      {
        assert !kinds[j].IsVideo();
      }
    } else {
      forall j | 0 <= j < |kinds|
        ensures kinds[j].Aac? || kinds[j].Pcma?
      {
        assert !kinds[j].IsVideo();
      }
    }
  }

  /** Only one track can be the one. */
  lemma OneClock(kinds: seq<StreamType>, a: nat, b: nat)
    requires CarriesClock(kinds, a) && CarriesClock(kinds, b)
    ensures a == b
  {
  }

  lemma {:induction false} EntryAt(tracks: seq<Track>, i: nat)
    requires forall k :: 0 <= k < |tracks| ==> tracks[k].pid == FIRST_ES_PID + k
    requires |tracks| <= MAX_TRACKS && i < |tracks|
    ensures Announces(Entries(tracks)[5 * i..5 * i + 5], tracks[i].kind, i)
    decreases |tracks|
  {
    var n := |tracks| - 1;
    var before := Entries(tracks[..n]);
    if i < n {
      EntryAt(tracks[..n], i);
      assert Entries(tracks)[5 * i..5 * i + 5] == before[5 * i..5 * i + 5];
    } else {
      assert Entries(tracks)[5 * i..5 * i + 5] == Entry(tracks[n]);
    }
  }

  /** The PMT: its fixed bytes, the PID of the clock, and five bytes for each track. */
  lemma PmtOnTheWire(m: State, i: nat)
    requires Valid(m) && ClockPlaced(m)
    ensures var b := Encode(Tables(m)[1]);
      && |b| == 188
      && b[..13] == [0x47, 0x50, 0x00, 0x10 + m.pmtContinuity % 16, 0x00,
                     0x02, 0xB0, 13 + 5 * |m.tracks|, 0x00, 0x01, 0xC1, 0x00, 0x00]
      && b[13..17] == (if m.tracks == [] then [0xFF, 0xFF] else [0xE1, m.pcrTrack.value]) + [0xF0, 0x00]
      && (i < |m.tracks| ==> Announces(b[17 + 5 * i..22 + 5 * i], m.tracks[i].kind, i))
      && forall k :: 21 + 5 * |m.tracks| <= k < 188 ==> b[k] == 0xFF
  {
    hide Crc.Checksum, Crc.BE32, TsMux.Entries, Encode, TsMux.Entry;
    var section := PmtSection(m);
    PsiOnTheWire(0x1000, m.pmtContinuity, section);
    assert section == [0x02, 0xB0, 13 + 5 * |m.tracks|, 0x00, 0x01, 0xC1, 0x00, 0x00]
                      + (if m.tracks == [] then [0xFF, 0xFF] else [0xE1, m.pcrTrack.value]) + [0xF0, 0x00]
                      + Entries(m.tracks) by {
      PmtHead(m);
    }
    if i < |m.tracks| {
      EntryAt(m.tracks, i);
      var b := Encode(Tables(m)[1]);
      assert b[17 + 5 * i..22 + 5 * i] == Entries(m.tracks)[5 * i..5 * i + 5];
    }
  }

  lemma PmtHead(m: State)
    requires Valid(m) && ClockPlaced(m)
    ensures PmtSection(m) == [0x02, 0xB0, 13 + 5 * |m.tracks|, 0x00, 0x01, 0xC1, 0x00, 0x00]
                             + (if m.tracks == [] then [0xFF, 0xFF] else [0xE1, m.pcrTrack.value]) + [0xF0, 0x00]
                             + Entries(m.tracks)
  {
    hide TsMux.Entries;
    assert BE16(0xB000 + 5 + (4 + 5 * |m.tracks|) + 4) == [0xB0, 13 + 5 * |m.tracks|];
    assert BE16(RESERVED_3 + PcrPid(m)) == if m.tracks == [] then [0xFF, 0xFF] else [0xE1, m.pcrTrack.value];
    assert BE16(EMPTY_INFO_LENGTH) == [0xF0, 0x00];
    assert BE16(PROGRAM_NUMBER) == [0x00, 0x01];
  }

  // ------------------------------------------------------------ over whole runs

  /** What no call changes: the kinds, their PIDs and where the clock is. */
  predicate SameProgram(m: State, n: State) {
    KindsOf(m) == KindsOf(n) && m.pcrTrack == n.pcrTrack
  }

  lemma StepKeepsProgram(m: State, c: RT.Call)
    requires Valid(m)
    ensures SameProgram(RT.Step(m, c).state, m)
  {
    hide TsMux.Tables, FramePackets;
    assert KindsOf(RT.Step(m, c).state) == KindsOf(m);
  }

  lemma {:induction false} RunKeepsProgram(m: State, calls: seq<RT.Call>)
    requires Valid(m)
    ensures SameProgram(RT.Run(m, calls).state, m)
    decreases |calls|
  {
    hide RT.Step;
    if calls != [] {
      StepKeepsProgram(m, calls[0]);
      RunKeepsProgram(RT.Step(m, calls[0]).state, calls[1..]);
    }
  }

  /** The code of ISO/IEC 13818-1, table 2-34, or 0x90 for A-law, as readers know it. */
  predicate Coded(stream: (nat, byte), kind: StreamType, track: nat) {
    && stream.0 == 0x100 + track
    && (kind.H264? ==> stream.1 == 0x1B)
    && (kind.H265? ==> stream.1 == 0x24)
    && (kind.Aac? ==> stream.1 == 0x0F)
    && (kind.Pcma? ==> stream.1 == 0x90)
  }

  /**
   Whatever was written, once anything is out a strict reader knows the program: its PMT
   on PID 0x1000 and every declared track, in order, under its PID and its code.
   */
  lemma ProgramAnnounced(kinds: seq<StreamType>, calls: seq<RT.Call>)
    requires |kinds| <= MAX_TRACKS && RT.Output(kinds, calls) != []
    ensures R.FeedBytes(R.FRESH, RT.Output(kinds, calls)).Some?
    ensures var read := R.FeedBytes(R.FRESH, RT.Output(kinds, calls)).value;
      && read.pmtPid == 0x1000
      && |read.streams| == |kinds|
      && forall i :: 0 <= i < |kinds| ==> Coded(read.streams[i], kinds[i], i)
  {
    var m := Initial(kinds);
    var w := RT.Run(m, calls);
    InitialPlacesClock(kinds);
    RunKeepsProgram(m, calls);
    CodedStreams(w.state, kinds);
    hide R.FeedAll, R.FeedBytes, RT.Run, EncodeAll, Initial, RT.InStep, RT.Ready, R.Delivered, RT.ClocksRead, Coded,
      PSI.StreamList, SameProgram;
    RT.BytesAreBuilt(R.FRESH, w.packets);
    RT.FreshIsReady(kinds);
    EncodeAllNone();
    RT.RunRead(m, R.FRESH, calls, 0);
  }

  lemma CodedStreams(m: State, kinds: seq<StreamType>)
    requires Valid(m) && KindsOf(m) == kinds
    ensures |PSI.StreamList(m)| == |kinds|
    ensures forall i :: 0 <= i < |kinds| ==> Coded(PSI.StreamList(m)[i], kinds[i], i)
  {
    assert forall i :: 0 <= i < |kinds| ==> KindsOf(m)[i] == m.tracks[i].kind;
  }

  /** Microseconds as 90 kHz ticks on a 33-bit clock, the 64-bit product saturating. */
  function Tick(us: nat): nat {
    Min(9 * us, 18_446_744_073_709_551_615) / 100 % 8_589_934_592
  }

  /** When the tables last went out: with the first frame, with keyframes, and a tenth of a second after that. */
  function LastTables(calls: seq<RT.Call>): Option<nat> {
    if calls == [] then None
    else
      var before := LastTables(calls[..|calls| - 1]);
      if TablesGoOut(before, calls[|calls| - 1]) then Some(Tick(calls[|calls| - 1].ptsUs)) else before
  }

  predicate TablesGoOut(last: Option<nat>, c: RT.Call) {
    && c.WriteFrame? && c.payload != []
    && (last.None? || c.randomAccess || (Tick(c.ptsUs) - last.value) % 8_589_934_592 >= 9_000)
  }

  lemma StepLastTables(m: State, c: RT.Call)
    requires Valid(m)
    ensures RT.Step(m, c).state.lastPsi == if TablesGoOut(m.lastPsi, c) then Some(Tick(c.ptsUs)) else m.lastPsi
  {
    hide TsMux.Tables, FramePackets;
  }

  lemma {:induction false} RunSnoc(m: State, calls: seq<RT.Call>, c: RT.Call)
    requires Valid(m)
    ensures RT.Run(m, calls + [c]).state == RT.Step(RT.Run(m, calls).state, c).state
    decreases |calls|
  {
    hide RT.Step;
    if calls == [] {
      assert ([] + [c])[1..] == [];
    } else {
      assert (calls + [c])[1..] == calls[1..] + [c] && (calls + [c])[0] == calls[0];
      RunSnoc(RT.Step(m, calls[0]).state, calls[1..], c);
    }
  }

  lemma {:induction false} TablesRemembered(kinds: seq<StreamType>, calls: seq<RT.Call>)
    requires |kinds| <= MAX_TRACKS
    ensures RT.Run(Initial(kinds), calls).state.lastPsi == LastTables(calls)
  {
    hide RT.Step, TablesGoOut, RT.Run;
    if calls == [] {
      NothingRun(Initial(kinds));
    } else {
      var n := |calls| - 1;
      TablesRemembered(kinds, calls[..n]);
      RunSnoc(Initial(kinds), calls[..n], calls[n]);
      assert calls[..n] + [calls[n]] == calls;
      StepLastTables(RT.Run(Initial(kinds), calls[..n]).state, calls[n]);
    }
  }

  lemma NothingRun(m: State)
    requires Valid(m)
    ensures RT.Run(m, []).state == m
  {
  }

  /** The packets a frame of `size` bytes is cut into: what only the first one carries, and none but the last short. */
  predicate Framed(ps: seq<Packet>, kinds: seq<StreamType>, track: nat, ptsUs: nat, randomAccess: bool, size: nat)
    requires track < |kinds|
  {
    && ps != []
    && |ps[0].body| >= 9
    && ps[0].body[..4] == [0x00, 0x00, 0x01, if kinds[track].H264? || kinds[track].H265? then 0xE0 else 0xC0]
    && ps[0].body[4] as int * 256 + ps[0].body[5] == (if size + 8 <= 65_535 then size + 8 else 0)
    && ps[0].body[6..9] == [0x80, 0x80, 0x05]
    && forall k :: 0 <= k < |ps| ==>
      && ps[k].pid == 0x100 + track
      && ps[k].start == (k == 0)
      && ps[k].randomAccess == (randomAccess && k == 0)
      && ps[k].pcr == (if k == 0 && CarriesClock(kinds, track) then Some(Tick(ptsUs)) else None)
      && (k + 1 < |ps| ==>
            |ps[k].body| == 184 - if ps[k].pcr.Some? then 8 else if ps[k].randomAccess then 2 else 0)
  }

  lemma FrameFramed(m: State, track: nat, ptsUs: nat, randomAccess: bool, payload: seq<byte>)
    requires Valid(m) && ClockPlaced(m) && track < |m.tracks|
    ensures Framed(FramePackets(m, track, ptsUs, randomAccess, payload), KindsOf(m), track, ptsUs, randomAccess,
                   |payload|)
  {
    hide TsMux.Split, CarriesClock, TsMux.Pts, TimestampBytes;
    var t := m.tracks[track];
    var pcr := if m.pcrTrack == Some(track) then Some(Clock(ptsUs)) else None;
    var h := PesHeader(t.kind, |payload|, Pts(ptsUs));
    var data := h + payload;
    if CarriesClock(KindsOf(m), track) {
      OneClock(KindsOf(m), track, m.pcrTrack.value);
    }
    assert pcr == if CarriesClock(KindsOf(m), track) then Some(Tick(ptsUs)) else None;
    MP.SplitWellCut(t.pid, t.continuity, data, pcr, randomAccess, true);
    SplitStep(t.pid, t.continuity, data, pcr, randomAccess, true);
    var n := Share(|data|, randomAccess, pcr);
    assert data[..n][..9] == h[..9];
    HeaderHead(t.kind, |payload|, Pts(ptsUs));
  }

  lemma HeaderHead(kind: StreamType, size: nat, pts: nat)
    requires pts < TIMESTAMP_WRAP
    ensures var h := PesHeader(kind, size, pts);
      && h[..4] == [0x00, 0x00, 0x01, if kind.H264? || kind.H265? then 0xE0 else 0xC0]
      && h[4] as int * 256 + h[5] == (if size + 8 <= 65_535 then size + 8 else 0)
      && h[6..9] == [0x80, 0x80, 0x05]
  {
    hide TimestampBytes;
  }

  lemma CallOnTheWire(m: State, track: nat, ptsUs: nat, randomAccess: bool, payload: seq<byte>)
    requires Valid(m) && ClockPlaced(m) && track < |m.tracks| && payload != []
    ensures var c := RT.WriteFrame(track, ptsUs, randomAccess, payload);
      var ps := RT.Step(m, c).packets;
      var tables := if TablesGoOut(m.lastPsi, c) then 2 else 0;
      && |ps| > tables
      && ps[..tables] == Tables(m)[..tables]
      && Framed(ps[tables..], KindsOf(m), track, ptsUs, randomAccess, |payload|)
  {
    hide TsMux.Tables, FramePackets, Framed, CarriesClock;
    var c := RT.WriteFrame(track, ptsUs, randomAccess, payload);
    var t := WriteTables(m, Clock(ptsUs), randomAccess);
    MP.TwoTables(m);
    SameAfterTables(m, Clock(ptsUs), randomAccess);
    var frame := FramePackets(t.state, track, ptsUs, randomAccess, payload);
    FrameFramed(t.state, track, ptsUs, randomAccess, payload);
    FramedNotEmpty(frame, KindsOf(m), track, ptsUs, randomAccess, |payload|);
    Behind(RT.Step(m, c).packets, t.packets, frame);
  }

  lemma Behind(ps: seq<Packet>, a: seq<Packet>, b: seq<Packet>)
    requires ps == a + b
    ensures ps[..|a|] == a && ps[|a|..] == b
  {
  }

  /**
   One frame, after any calls at all: the tables in front of it exactly when they are due,
   and then its own packets.
   */
  lemma FrameOnTheWire(
      kinds: seq<StreamType>, calls: seq<RT.Call>, track: nat, ptsUs: nat, randomAccess: bool, payload: seq<byte>)
    requires |kinds| <= MAX_TRACKS && track < |kinds| && payload != []
    ensures var m := RT.Run(Initial(kinds), calls).state;
      var c := RT.WriteFrame(track, ptsUs, randomAccess, payload);
      var ps := RT.Step(m, c).packets;
      var tables := if TablesGoOut(LastTables(calls), c) then 2 else 0;
      && |ps| > tables
      && ps[..tables] == Tables(m)[..tables]
      && Framed(ps[tables..], kinds, track, ptsUs, randomAccess, |payload|)
  {
    InitialPlacesClock(kinds);
    RunKeepsProgram(Initial(kinds), calls);
    TablesRemembered(kinds, calls);
    hide RT.Run, RT.Step, Initial, TsMux.Tables, Framed, LastTables, CarriesClock, TablesGoOut;
    CallOnTheWire(RT.Run(Initial(kinds), calls).state, track, ptsUs, randomAccess, payload);
  }

  lemma FramedNotEmpty(
      ps: seq<Packet>, kinds: seq<StreamType>, track: nat, ptsUs: nat, randomAccess: bool, size: nat)
    requires track < |kinds| && Framed(ps, kinds, track, ptsUs, randomAccess, size)
    ensures ps != []
  {
  }

  lemma SameAfterTables(m: State, clock: nat, randomAccess: bool)
    requires Valid(m) && clock < TIMESTAMP_WRAP
    ensures var t := WriteTables(m, clock, randomAccess).state;
      KindsOf(t) == KindsOf(m) && t.pcrTrack == m.pcrTrack && t.tracks == m.tracks
  {
    hide TsMux.Tables;
  }
}
