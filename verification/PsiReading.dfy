/** The reader takes back exactly the tables the muxer writes. */
module PsiReading {
  import opened Wrappers
  import opened Bytes
  import opened TsPackets
  import opened TsMux
  import R = TsReader
  import Crc

  /** The streams a PMT of this muxer lists, in order. */
  function Listing(tracks: seq<Track>): seq<(nat, byte)> {
    seq(|tracks|, i requires 0 <= i < |tracks| => (tracks[i].pid, tracks[i].kind.Id()))
  }

  function StreamList(m: State): seq<(nat, byte)> {
    Listing(m.tracks)
  }

  lemma {:induction false} StreamsAppend(entries: seq<byte>, t: Track)
    requires |entries| % 5 == 0
    requires t.pid < 0x2000
    ensures R.PmtStreams(entries + Entry(t)) == R.PmtStreams(entries) + [(t.pid, t.kind.Id())]
    decreases |entries|
  {
    var all := entries + Entry(t);
    if entries == [] {
      assert all == Entry(t) && all[5..] == [];
      assert R.PmtStreams(all) == [(t.pid, t.kind.Id())] + R.PmtStreams(all[5..]);
    } else {
      assert all[5..] == entries[5..] + Entry(t);
      StreamsAppend(entries[5..], t);
    }
  }

  lemma {:induction false} StreamsRead(tracks: seq<Track>)
    requires forall i :: 0 <= i < |tracks| ==> tracks[i].pid < 0x2000
    ensures R.PmtStreams(Entries(tracks)) == Listing(tracks)
  {
    if tracks != [] {
      var n := |tracks| - 1;
      StreamsRead(tracks[..n]);
      StreamsAppend(Entries(tracks[..n]), tracks[n]);
    }
  }

  /** The reader finds a section between a zero pointer and a run of filler. */
  lemma SectionFound(body: seq<byte>, s: seq<byte>, crc: seq<byte>, filler: seq<byte>)
    requires body == [0] + s + crc + filler
    requires |s| >= 6 && |s| + 1 < 0x1000 && |crc| == 4
    requires FromBE16(s[1], s[2]) == 0xB000 + |s| + 1
    requires Crc.FromBE32(crc[0], crc[1], crc[2], crc[3]) == Crc.Checksum(s)
    requires forall i :: 0 <= i < |filler| ==> filler[i] == 0xFF
    ensures R.ReadSection(body, s[0]) == Some(s[3..])
  {
    hide Crc.Checksum, Crc.FromBE32;
    var section := body[1..];
    assert section == s + crc + filler;
    assert section[..|s|] == s;
    assert section[|s|..|s| + 4] == crc;
    assert section[1] == s[1] && section[2] == s[2];
    var header := FromBE16(s[1], s[2]);
    assert header % 0x1000 == |s| + 1 && header / 0x8000 % 2 == 1 && header / 0x4000 % 2 == 0;
    assert forall i :: |s| + 4 <= i < |section| ==> section[i] == filler[i - |s| - 4];
  }

  /** Any section the muxer packs is read back whole, CRC and filler checked. */
  lemma SectionRead(tableId: byte, extension: nat, content: seq<byte>)
    requires extension <= MAX_U16 && |content| + 13 <= TS_PAYLOAD_SIZE
    ensures R.ReadSection(PsiPayload(PsiSection(tableId, extension, content)), tableId)
         == Some(PsiSection(tableId, extension, content)[3..])
  {
    hide Crc.Checksum, Crc.BE32, Crc.FromBE32, R.ReadSection, TsMux.PsiSection;
    var s := PsiSection(tableId, extension, content);
    Crc.BE32RoundTrip(Crc.Checksum(s));
    SectionLength(tableId, extension, content);
    SectionFound(PsiPayload(s), s, Crc.BE32(Crc.Checksum(s)), Repeat(0xFF, TS_PAYLOAD_SIZE - 5 - |s|));
  }

  /** The reader refuses what it finds if the checksum is another. */
  lemma SectionRefused(body: seq<byte>, s: seq<byte>, crc: seq<byte>, filler: seq<byte>)
    requires body == [0] + s + crc + filler
    requires |s| >= 6 && |s| + 1 < 0x1000 && |crc| == 4
    requires FromBE16(s[1], s[2]) == 0xB000 + |s| + 1
    requires Crc.FromBE32(crc[0], crc[1], crc[2], crc[3]) != Crc.Checksum(s)
    ensures R.ReadSection(body, s[0]).None?
  {
    hide Crc.Checksum, Crc.FromBE32;
    var section := body[1..];
    assert section == s + crc + filler;
    assert section[..|s|] == s;
    assert section[|s|..|s| + 4] == crc;
    assert section[1] == s[1] && section[2] == s[2];
    assert FromBE16(s[1], s[2]) % 0x1000 == |s| + 1;
  }

  /** And if anything but 0xFF stands behind it. */
  lemma StrayFillerRefused(body: seq<byte>, s: seq<byte>, crc: seq<byte>, filler: seq<byte>, i: nat)
    requires body == [0] + s + crc + filler
    requires |s| >= 6 && |s| + 1 < 0x1000 && |crc| == 4
    requires FromBE16(s[1], s[2]) == 0xB000 + |s| + 1
    requires i < |filler| && filler[i] != 0xFF
    ensures R.ReadSection(body, s[0]).None?
  {
    hide Crc.Checksum, Crc.FromBE32;
    var section := body[1..];
    assert section == s + crc + filler;
    assert section[1] == s[1] && section[2] == s[2];
    assert FromBE16(s[1], s[2]) % 0x1000 == |s| + 1;
    assert section[|s| + 4 + i] == filler[i];
  }

  /**
   A table damaged on the way, anywhere behind its length within four consecutive bytes, is
   refused.
   */
  lemma DamagedTableRefused(section: seq<byte>, before: seq<byte>, x: seq<byte>, y: seq<byte>, after: seq<byte>)
    requires section == before + x + after && |before| >= 3 && |section| >= 6
    requires |section| + 5 <= TS_PAYLOAD_SIZE && FromBE16(section[1], section[2]) == 0xB000 + |section| + 1
    requires |x| == |y| <= 4 && x != y
    ensures var sent := PsiPayload(section);
      var got := sent[..1 + |before|] + y + sent[1 + |before| + |y|..];
      |got| == |sent| && R.ReadSection(got, section[0]).None?
  {
    hide Crc.Checksum, Crc.BE32, Crc.FromBE32, R.ReadSection;
    var crc := Crc.BE32(Crc.Checksum(section));
    var damaged := before + y + after;
    var filler := Repeat(0xFF, TS_PAYLOAD_SIZE - 5 - |section|);
    Crc.BurstDetected(before, x, y, after);
    Crc.BE32RoundTrip(Crc.Checksum(section));
    var sent := PsiPayload(section);
    assert sent == [0] + before + x + (after + crc + filler);
    assert sent[..1 + |before|] == [0] + before;
    assert sent[1 + |before| + |y|..] == after + crc + filler;
    assert [0] + before + y + (after + crc + filler) == [0] + damaged + crc + filler;
    SectionRefused([0] + damaged + crc + filler, damaged, crc, filler);
  }

  lemma SectionLength(tableId: byte, extension: nat, content: seq<byte>)
    requires extension <= MAX_U16 && |content| + 13 <= TS_PAYLOAD_SIZE
    ensures var s := PsiSection(tableId, extension, content);
      && s[0] == tableId
      && FromBE16(s[1], s[2]) == 0xB000 + |s| + 1
      && s[3..] == BE16(extension) + [0xC1, 0, 0] + content
      && s[3..][5..] == content
  {
  }

  // ------------------------------------------------------------ PAT, then PMT

  predicate CounterFits(r: R.Reader, pid: nat, continuity: nat) {
    pid in r.continuity ==> continuity % 16 == (r.continuity[pid] + 1) % 16
  }

  function AfterPat(r: R.Reader, m: State): R.Reader {
    r.(patPackets := r.patPackets + [r.index],
       pmtPid := PMT_PID,
       continuity := r.continuity[PAT_PID := m.patContinuity % 16],
       index := r.index + 1)
  }

  lemma FeedsPat(r: R.Reader, p: Packet, section: seq<byte>)
    requires p.pid == PAT_PID && p.start && p.hasPayload && p.pcr.None?
    requires p.counter < 16 && CounterFits(r, PAT_PID, p.counter)
    requires R.ReadSection(p.body, 0x00) == Some(section) && |section| >= 5
    ensures R.Feed(r, p) == Some(r.(
      patPackets := r.patPackets + [r.index],
      pmtPid := R.PatTarget(section[5..], r.pmtPid),
      continuity := r.continuity[PAT_PID := p.counter],
      index := r.index + 1))
  {
    hide R.ReadSection, R.PatTarget;
  }

  lemma PatRead(m: State, r: R.Reader)
    requires Valid(m) && CounterFits(r, PAT_PID, m.patContinuity)
    ensures R.Feed(r, PsiPacket(PAT_PID, m.patContinuity, PatSection())) == Some(AfterPat(r, m))
  {
    hide R.ReadSection, TsMux.PsiPayload, TsMux.PsiSection;
    var content := BE16(PROGRAM_NUMBER) + BE16(RESERVED_3 + PMT_PID);
    SectionRead(0x00, PROGRAM_NUMBER, content);
    SectionLength(0x00, PROGRAM_NUMBER, content);
    assert PatSection()[3..][5..] == content;
    PatNames(r.pmtPid);
    FeedsPat(r, PsiPacket(PAT_PID, m.patContinuity, PatSection()), PatSection()[3..]);
  }

  lemma PatNames(before: nat)
    ensures R.PatTarget(BE16(PROGRAM_NUMBER) + BE16(RESERVED_3 + PMT_PID), before) == PMT_PID
  {
    var content := BE16(PROGRAM_NUMBER) + BE16(RESERVED_3 + PMT_PID);
    assert content[4..] == [];
    assert R.PatTarget(content[4..], PMT_PID) == PMT_PID;
  }

  function AfterPmt(r: R.Reader, m: State): R.Reader
    requires Valid(m)
  {
    r.(pmtCount := r.pmtCount + 1,
       freshPsi := true,
       pcrPid := PcrPid(m),
       streams := StreamList(m),
       continuity := r.continuity[PMT_PID := m.pmtContinuity % 16],
       index := r.index + 1)
  }

  lemma RestFields(pcrPid: nat, entries: seq<byte>)
    requires pcrPid < 0x2000
    ensures var rest := BE16(RESERVED_3 + pcrPid) + BE16(EMPTY_INFO_LENGTH) + entries;
      && FromBE16(rest[0] % 32, rest[1]) == pcrPid
      && FromBE16(rest[2] % 16, rest[3]) == 0
      && rest[4..] == entries
  {
  }

  lemma PmtRest(m: State)
    requires Valid(m)
    ensures var rest := PmtSection(m)[3..][5..];
      && |PmtSection(m)| == 12 + 5 * |m.tracks|
      && FromBE16(rest[0] % 32, rest[1]) == PcrPid(m)
      && FromBE16(rest[2] % 16, rest[3]) == 0
      && rest[4..] == Entries(m.tracks)
  {
    hide FromBE16, BE16, TsMux.PcrPid, TsMux.Entries;
    RestFields(PcrPid(m), Entries(m.tracks));
    var content := BE16(RESERVED_3 + PcrPid(m)) + BE16(EMPTY_INFO_LENGTH) + Entries(m.tracks);
    hide TsMux.PsiSection;
    SectionLength(0x02, PROGRAM_NUMBER, content);
  }

  lemma PmtAccepted(r: R.Reader, p: Packet, section: seq<byte>, rest: seq<byte>)
    requires p.start
    requires R.ReadSection(p.body, 0x02) == Some(section) && |section| >= 9 && section[5..] == rest
    requires FromBE16(rest[2] % 16, rest[3]) == 0
    requires r.streams == [] || r.streams == R.PmtStreams(rest[4..])
    ensures R.FeedPmt(r, p) == Some(r.(pmtCount := r.pmtCount + 1, freshPsi := true,
                                       pcrPid := FromBE16(rest[0] % 32, rest[1]), streams := R.PmtStreams(rest[4..])))
  {
    hide R.ReadSection, R.PmtStreams, FromBE16;
    assert |rest| >= 4 && rest[4 + 0..] == rest[4..];
  }

  lemma PmtReaches(r: R.Reader, p: Packet)
    requires p.pid == PMT_PID == r.pmtPid && p.hasPayload && p.pcr.None?
    requires p.counter < 16 && CounterFits(r, PMT_PID, p.counter)
    ensures R.Feed(r, p) ==
      var fed := R.FeedPmt(r.(continuity := r.continuity[PMT_PID := p.counter]), p);
      if fed.None? then None else Some(fed.value.(index := r.index + 1))
  {
    hide R.FeedPmt, R.FeedPat, R.FeedPes;
  }

  lemma PmtRead(m: State, r: R.Reader)
    requires Valid(m) && CounterFits(r, PMT_PID, m.pmtContinuity)
    requires r.pmtPid == PMT_PID
    requires r.streams == [] || r.streams == StreamList(m)
    ensures R.Feed(r, PsiPacket(PMT_PID, m.pmtContinuity, PmtSection(m))) == Some(AfterPmt(r, m))
  {
    hide R.ReadSection, R.PmtStreams, TsMux.PsiPayload, TsMux.PsiSection, TsMux.Entries, TsMux.PcrPid, R.Feed,
      R.FeedPmt, FromBE16, BE16;
    PmtSectionRead(m);
    PmtRest(m);
    StreamsRead(m.tracks);
    var p := PsiPacket(PMT_PID, m.pmtContinuity, PmtSection(m));
    PmtReaches(r, p);
    PmtAccepted(r.(continuity := r.continuity[PMT_PID := p.counter]), p, PmtSection(m)[3..], PmtSection(m)[3..][5..]);
  }

  lemma PmtSectionRead(m: State)
    requires Valid(m)
    ensures R.ReadSection(PsiPayload(PmtSection(m)), 0x02) == Some(PmtSection(m)[3..])
  {
    hide R.ReadSection, TsMux.PsiPayload, TsMux.PsiSection;
    SectionRead(0x02, PROGRAM_NUMBER, BE16(RESERVED_3 + PcrPid(m)) + BE16(EMPTY_INFO_LENGTH) + Entries(m.tracks));
  }

  /** What a PAT/PMT pair does to a reader, whether it has seen one before or not. */
  function AfterTables(r: R.Reader, m: State): R.Reader
    requires Valid(m)
  {
    AfterPmt(AfterPat(r, m), m)
  }

  lemma TablesRead(m: State, r: R.Reader)
    requires Valid(m)
    requires CounterFits(r, PAT_PID, m.patContinuity) && CounterFits(r, PMT_PID, m.pmtContinuity)
    requires r.streams == [] || r.streams == StreamList(m)
    ensures R.FeedAll(r, Tables(m)) == Some(AfterTables(r, m))
  {
    hide TsMux.PsiPacket, TsMux.PmtSection, TsMux.PatSection, R.Feed, AfterPmt, TsMux.PcrPid;
    PatRead(m, r);
    PmtRead(m, AfterPat(r, m));
    var pat := PsiPacket(PAT_PID, m.patContinuity, PatSection());
    var pmt := PsiPacket(PMT_PID, m.pmtContinuity, PmtSection(m));
    assert Tables(m) == [pat, pmt] && [pat, pmt][1..] == [pmt] && [pmt][1..] == [];
    assert R.FeedAll(AfterPat(r, m), [pmt]) == Some(AfterTables(r, m));
  }
}
