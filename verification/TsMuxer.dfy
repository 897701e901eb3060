/** The muxer as it runs: fields updated in place, output appended byte by byte. */
module TsMuxer {
  import opened Wrappers
  import opened Bytes
  import opened TsPackets
  import opened TsMux
  import Crc

  /** Two byte strings read as if they were one: a PES header, then the payload behind it. */
  class Chain {
    var parts: seq<seq<byte>>

    ghost predicate Valid()
      reads this
    {
      |parts| == 2
    }

    /** What is left to take. */
    ghost function Rest(): seq<byte>
      reads this
      requires Valid()
    {
      parts[0] + parts[1]
    }

    constructor (head: seq<byte>, tail: seq<byte>)
      ensures Valid() && Rest() == head + tail
    {
      parts := [head, tail];
    }

    function Len(): (n: nat)
      reads this
      requires Valid()
      ensures n == |Rest()|
    {
      |parts[0]| + |parts[1]|
    }

    /** Take `amount` bytes off the front, across the joint if need be, and append them. */
    method Take(amount: nat, out: seq<byte>) returns (out': seq<byte>)
      requires Valid() && amount <= Len()
      modifies this
      ensures Valid()
      ensures out' == out + old(Rest())[..amount]
      ensures Rest() == old(Rest())[amount..]
    {
      out' := out;
      var count := amount;
      for i := 0 to 2
        invariant Valid() && 0 <= count <= amount
        invariant i == 0 ==> count == amount && parts == old(parts) && out' == out
        invariant i == 1 ==> count == amount - |old(parts)[0]| && parts == [[], old(parts)[1]]
        invariant i == 1 ==> out' == out + old(parts)[0]
        invariant i == 2 ==> count == 0 && out' == out + old(Rest())[..amount]
        invariant i == 2 ==> Rest() == old(Rest())[amount..]
      {
        var n := Min(count, |parts[i]|);
        out' := out' + parts[i][..n];
        parts := parts[i := parts[i][n..]];
        count := count - n;
        if count == 0 {
          assert out' == out + old(Rest())[..amount];
          assert Rest() == old(Rest())[amount..];
          return;
        }
      }
    }
  }

  method WriteTimestamp(out: array<byte>, at: nat, prefix: nat, ts: nat)
    requires prefix < 16 && ts < TIMESTAMP_WRAP
    requires at + 5 <= out.Length
    modifies out
    ensures out[..at] == old(out[..at]) && out[at + 5..] == old(out[at + 5..])
    ensures out[at..at + 5] == TimestampBytes(prefix, ts)
  {
    out[at] := prefix * 16 + ts / 0x4000_0000 % 8 * 2 + 1;
    out[at + 1] := ts / 0x40_0000 % 256;
    out[at + 2] := ts / 0x8000 % 128 * 2 + 1;
    out[at + 3] := ts / 0x80 % 256;
    out[at + 4] := ts % 128 * 2 + 1;
  }

  method WritePcr(out: seq<byte>, base: nat) returns (out': seq<byte>)
    requires base < TIMESTAMP_WRAP
    ensures out' == out + PcrBytes(base)
  {
    out' := out + [base / 0x200_0000 % 256];
    out' := out' + [base / 0x2_0000 % 256];
    out' := out' + [base / 0x200 % 256];
    out' := out' + [base / 2 % 256];
    out' := out' + [base % 2 * 128 + 0x7E];
    out' := out' + [0];
  }

  /** A table goes out as a single packet. */
  method WritePsiPacket(pid: nat, continuity: nat, section: seq<byte>, out: seq<byte>)
    returns (continuity': nat, out': seq<byte>)
    requires pid < 0x2000 && continuity < 256
    requires |section| + 5 <= TS_PAYLOAD_SIZE
    ensures continuity' == (continuity + 1) % 256
    ensures out' == out + Encode(PsiPacket(pid, continuity, section))
  {
    hide Crc.Checksum, Crc.BE32, TsPackets.Encode;
    ghost var packet := PsiPacket(pid, continuity, section);
    EncodeParts(packet);
    var start := |out|;
    out' := out + [SYNC_BYTE];
    out' := out' + BE16(PUSI + pid);
    out' := out' + [0x10 + continuity % 16];
    continuity' := (continuity + 1) % 256;
    assert out' == out + HeaderOf(packet);

    out' := out' + [0];
    out' := out' + section;
    var crc := Crc.Crc32Mpeg2(section);
    out' := out' + Crc.BE32(crc);

    var written := |out'| - start;
    out' := out' + Repeat(0xFF, TS_PACKET_SIZE - written);
    assert out' == out + (HeaderOf(packet) + [] + PsiPayload(section));
  }

  /** The adaptation field in front of a packet's payload. */
  method WriteField(field: nat, pcr: Option<nat>, randomAccess: bool, out: seq<byte>) returns (out': seq<byte>)
    requires Reserved(randomAccess, pcr) <= field <= TS_PAYLOAD_SIZE
    requires pcr.Some? ==> pcr.value < TIMESTAMP_WRAP
    ensures out' == out + AdaptationField(field, randomAccess, pcr)
  {
    out' := out;
    if field == 1 {
      out' := out' + [0];
    } else if field > 1 {
      out' := out' + [field - 1];
      var flags: byte := 0;
      if randomAccess {
        flags := flags + 0x40;
      }
      if pcr.Some? {
        flags := flags + 0x10;
      }
      out' := out' + [flags];
      var used := 2;
      if pcr.Some? {
        out' := WritePcr(out', pcr.value);
        used := used + 6;
      }
      out' := out' + Repeat(0xFF, field - used);
    }
  }

  lemma WrapStep(c: nat, n: nat)
    ensures ((c + n) % 256 + 1) % 256 == (c + (n + 1)) % 256
  {
  }

  method WriteHeader(pid: nat, start: bool, field: nat, continuity: nat, out: seq<byte>) returns (out': seq<byte>)
    requires pid < 0x2000 && continuity < 256
    ensures out' == out + Header(pid, start, field > 0, continuity % 16)
  {
    out' := out + [SYNC_BYTE];
    out' := out' + BE16((if start then PUSI else 0) + pid);
    var control := if field > 0 then 3 else 1;
    out' := out' + [control * 16 + continuity % 16];
  }

  /** The next packet of a PES packet: one turn of the loop in `EmitPackets`. */
  method EmitOne(track: Track, chain: Chain, pcr: Option<nat>, randomAccess: bool, start: bool, out: seq<byte>)
    returns (track': Track, out': seq<byte>)
    requires chain.Valid() && chain.Len() != 0
    requires track.pid < 0x2000 && track.continuity < 256
    requires pcr.Some? ==> pcr.value < TIMESTAMP_WRAP
    modifies chain
    ensures chain.Valid()
    ensures track' == track.(continuity := (track.continuity + 1) % 256)
    ensures var n := Share(|old(chain.Rest())|, randomAccess, pcr);
      && chain.Rest() == old(chain.Rest())[n..]
      && out' == out + Encode(Packet(track.pid, start, track.continuity % 16, true, randomAccess, pcr,
                                     old(chain.Rest())[..n]))
  {
    hide TsPackets.Encode, TsPackets.Header, TsPackets.AdaptationField;
    var flagged := randomAccess || pcr.Some?;
    var reserved := if flagged then 2 + (if pcr.Some? then 6 else 0) else 0;
    var take := Min(chain.Len(), TS_PAYLOAD_SIZE - reserved);
    var field := TS_PAYLOAD_SIZE - take;
    ghost var packet := Packet(track.pid, start, track.continuity % 16, true, randomAccess, pcr, chain.Rest()[..take]);
    EncodeParts(packet);

    out' := WriteHeader(track.pid, start, field, track.continuity, out);
    track' := track.(continuity := (track.continuity + 1) % 256);
    out' := WriteField(field, pcr, randomAccess, out');
    out' := chain.Take(take, out');
  }

  /** Drain the chain into as many packets as it takes. */
  method EmitPackets(track: Track, chain: Chain, pcr: Option<nat>, randomAccess: bool, out: seq<byte>)
    returns (track': Track, out': seq<byte>)
    requires chain.Valid()
    requires track.pid < 0x2000 && track.continuity < 256
    requires pcr.Some? ==> pcr.value < TIMESTAMP_WRAP
    modifies chain
    ensures chain.Valid() && chain.Rest() == []
    ensures var ps := Split(track.pid, track.continuity, old(chain.Rest()), pcr, randomAccess, true);
      && out' == out + EncodeAll(ps)
      && track' == track.(continuity := (track.continuity + |ps|) % 256)
  {
    hide TsPackets.EncodeAll, TsPackets.Encode, TsMux.Split;
    ghost var all := Split(track.pid, track.continuity, chain.Rest(), pcr, randomAccess, true);
    ghost var sent: seq<Packet> := [];
    track', out' := track, out;
    var pcr': Option<nat>, flag, start := pcr, randomAccess, true;
    EncodeAllNone();
    while chain.Len() != 0
      invariant chain.Valid()
      invariant pcr'.Some? ==> pcr'.value < TIMESTAMP_WRAP
      invariant AllSendable(sent)
      invariant track' == track.(continuity := (track.continuity + |sent|) % 256)
      invariant out' == out + EncodeAll(sent)
      invariant all == sent + Split(track.pid, track'.continuity, chain.Rest(), pcr', flag, start)
      decreases chain.Len()
    {
      ghost var n := Share(chain.Len(), flag, pcr');
      ghost var packet := Packet(track.pid, start, track'.continuity % 16, true, flag, pcr', chain.Rest()[..n]);
      SplitStep(track.pid, track'.continuity, chain.Rest(), pcr', flag, start);
      EncodeAllOne(packet);
      EncodeAllConcat(sent, [packet]);
      WrapStep(track.continuity, |sent|);
      sent := sent + [packet];
      track', out' := EmitOne(track', chain, pcr', flag, start, out');
      start, flag, pcr' := false, false, None;
    }
    assert chain.Rest() == [];
    SplitEnd(track.pid, track'.continuity, pcr', flag, start);
    assert all == sent;
  }

  lemma TablesInOrder(m: State, out: seq<byte>)
    requires Valid(m)
    ensures out + Encode(PsiPacket(PAT_PID, m.patContinuity, PatSection()))
                + Encode(PsiPacket(PMT_PID, m.pmtContinuity, PmtSection(m)))
         == out + EncodeAll(Tables(m))
  {
    PairInOrder(PsiPacket(PAT_PID, m.patContinuity, PatSection()),
                PsiPacket(PMT_PID, m.pmtContinuity, PmtSection(m)), out);
  }

  lemma PairInOrder(p: Packet, q: Packet, out: seq<byte>)
    requires Sendable(p) && Sendable(q)
    ensures AllSendable([p, q]) && out + Encode(p) + Encode(q) == out + EncodeAll([p, q])
  {
    EncodeAllOne(p);
    EncodeAllOne(q);
    EncodeAllConcat([p], [q]);
    assert [p, q] == [p] + [q];
  }

  /** The PES header, in the fixed buffer it is assembled in. */
  method BuildHeader(kind: StreamType, size: nat, pts: nat) returns (header: array<byte>)
    requires pts < TIMESTAMP_WRAP
    ensures fresh(header) && header[..] == PesHeader(kind, size, pts)
  {
    header := new byte[14];
    header[0], header[1], header[2] := 0x00, 0x00, 0x01;
    header[3] := kind.StreamId();
    var length := if 3 + 5 + size <= MAX_U16 then 3 + 5 + size else 0;
    header[4], header[5] := length / 256, length % 256;
    header[6] := 0x80;
    header[7] := 0x80;
    header[8] := 5;
    ghost var fixed := header[..9];
    WriteTimestamp(header, 9, 2, pts);
    hide TimestampBytes;
    assert header[..] == header[..9] + header[9..14];
    assert header[..9] == fixed;
  }

  class TsMuxer {
    var tracks: seq<Track>
    var pcrTrack: Option<nat>
    var patContinuity: nat
    var pmtContinuity: nat
    var lastPsi: Option<nat>

    /** The value these fields stand for. */
    ghost function Model(): State
      reads this
    {
      State(tracks, pcrTrack, patContinuity, pmtContinuity, lastPsi)
    }

    /** One track per kind, numbered from the first elementary PID. */
    constructor (kinds: seq<StreamType>)
      requires |kinds| <= MAX_TRACKS
      ensures Valid(Model()) && Model() == Initial(kinds)
    {
      var list := seq(|kinds|, i requires 0 <= i < |kinds| => Track(FIRST_ES_PID + i, kinds[i], 0));
      tracks := list;
      pcrTrack := if exists i :: 0 <= i < |kinds| && kinds[i].IsVideo() then Some(FirstVideo(kinds))
                  else if kinds == [] then None else Some(0);
      patContinuity := 0;
      pmtContinuity := 0;
      lastPsi := None;
    }

    /** Find a track by its kind; the first one declared wins. */
    method TrackOf(kind: StreamType) returns (r: Option<nat>)
      ensures r.Some? ==> r.value < |tracks| && tracks[r.value].kind == kind
      ensures r.Some? ==> forall i :: 0 <= i < r.value ==> tracks[i].kind != kind
      ensures r.None? ==> forall i :: 0 <= i < |tracks| ==> tracks[i].kind != kind
    {
      for i := 0 to |tracks|
        invariant forall j :: 0 <= j < i ==> tracks[j].kind != kind
      {
        if tracks[i].kind == kind {
          return Some(i);
        }
      }
      return None;
    }

    method PmtSectionBytes() returns (section: seq<byte>)
      requires Valid(Model())
      ensures section == PmtSection(Model())
    {
      var pcrPid := if pcrTrack.Some? then tracks[pcrTrack.value].pid else NULL_PID;
      var body := BE16(RESERVED_3 + pcrPid);
      body := body + BE16(EMPTY_INFO_LENGTH);
      ghost var fixed := body;
      for i := 0 to |tracks|
        invariant body == fixed + Entries(tracks[..i])
      {
        var track := tracks[i];
        assert tracks[..i + 1][..i] == tracks[..i];
        body := body + [track.kind.Id()];
        body := body + BE16(RESERVED_3 + track.pid);
        body := body + BE16(EMPTY_INFO_LENGTH);
        assert body == fixed + (Entries(tracks[..i]) + Entry(track));
      }
      assert tracks[..|tracks|] == tracks;
      section := PsiSection(0x02, PROGRAM_NUMBER, body);
    }

    /** Announce the program. */
    method WritePsi(out: seq<byte>) returns (out': seq<byte>)
      requires Valid(Model())
      modifies this
      ensures Model() == Announced(old(Model()))
      ensures out' == out + EncodeAll(Tables(old(Model())))
    {
      hide TsPackets.Encode, TsPackets.EncodeAll, TsMux.PsiPacket, TsMux.PsiSection;
      var pat := PatSection();
      patContinuity, out' := WritePsiPacket(PAT_PID, patContinuity, pat, out);
      var pmt := PmtSectionBytes();
      pmtContinuity, out' := WritePsiPacket(PMT_PID, pmtContinuity, pmt, out');
      TablesInOrder(old(Model()), out);
    }

    /** The tables in front of a frame, when they are due. */
    method WriteTablesIfDue(clock: nat, randomAccess: bool, out: seq<byte>) returns (out': seq<byte>)
      requires Valid(Model()) && clock < TIMESTAMP_WRAP
      modifies this
      ensures var w := WriteTables(old(Model()), clock, randomAccess);
        && Model() == w.state
        && out' == out + EncodeAll(w.packets)
    {
      hide TsPackets.Encode, TsPackets.Encodings, TsPackets.EncodeAll, TsMux.Tables;
      out' := out;
      if PsiDueNow(clock, randomAccess) {
        out' := WritePsi(out');
        lastPsi := Some(clock);
      } else {
        EncodeAllNone();
      }
    }

    /** The frame itself, on a track that exists. */
    method WriteAccessUnit(track: nat, ptsUs: nat, randomAccess: bool, payload: seq<byte>, out: seq<byte>)
      returns (out': seq<byte>)
      requires Valid(Model()) && track < |tracks|
      modifies this
      ensures var frame := FramePackets(old(Model()), track, ptsUs, randomAccess, payload);
        && Model() == Advance(old(Model()), track, |frame|)
        && out' == out + EncodeAll(frame)
    {
      hide TsPackets.EncodeAll, TsMux.Split, TsMux.PesHeader;
      var clock := Clock(ptsUs);
      var pts := (clock + PTS_LEAD) % TIMESTAMP_WRAP;
      var header := BuildHeader(tracks[track].kind, |payload|, pts);
      var chain := new Chain(header[..], payload);
      var pcr: Option<nat> := if pcrTrack == Some(track) then Some(clock) else None;
      var sent;
      sent, out' := EmitPackets(tracks[track], chain, pcr, randomAccess, out);
      tracks := tracks[track := sent];
    }

    /** The whole call: nothing for an empty frame, else tables when they are due and the frame behind them. */
    method WriteFrame(track: nat, ptsUs: nat, randomAccess: bool, payload: seq<byte>, out: seq<byte>)
      returns (out': seq<byte>)
      requires Valid(Model())
      requires ptsUs <= MAX_U64
      modifies this
      ensures var w := TsMux.WriteFrame(old(Model()), track, ptsUs, randomAccess, payload);
        && Model() == w.state
        && out' == out + EncodeAll(w.packets)
    {
      hide TsPackets.EncodeAll, TsMux.FramePackets, TsMux.WriteTables;
      EncodeAllNone();
      if payload == [] {
        return out;
      }
      ghost var tables := WriteTables(Model(), Clock(ptsUs), randomAccess);
      out' := WriteTablesIfDue(Clock(ptsUs), randomAccess, out);
      if track < |tracks| {
        ghost var frame := FramePackets(tables.state, track, ptsUs, randomAccess, payload);
        out' := WriteAccessUnit(track, ptsUs, randomAccess, payload, out');
        EncodeAllConcat(tables.packets, frame);
      }
    }

    /** The test for repeating the tables, on the fields. */
    predicate PsiDueNow(clock: nat, randomAccess: bool)
      reads this
    {
      match lastPsi
      case None => true
      case Some(last) => randomAccess || (clock - last) % TIMESTAMP_WRAP >= PSI_INTERVAL
    }
  }
}
