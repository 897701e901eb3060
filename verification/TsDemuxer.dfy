/**
 The strict reader in place: one pass over the packets, updating reassembly state and
 continuity as it goes. Each method is what `TsReader` says of the same step; where the
 reader would panic, `ok` is false and nothing more is promised.
 */
module TsDemuxer {
  import opened Bytes
  import opened TsPackets
  import opened TsReader

  class Demuxer {
    var pmtPid: nat
    var pcrPid: nat
    var streams: seq<(nat, byte)>
    var frames: seq<Frame>
    var pcrs: seq<(nat, nat)>
    var patPackets: seq<nat>
    var pmtCount: nat
    var builders: map<nat, PesBuilder>
    var continuity: map<nat, nat>
    var freshPsi: bool
    var index: nat

    ghost function Model(): Reader
      reads this
    {
      Reader(pmtPid, pcrPid, streams, frames, pcrs, patPackets, pmtCount, builders, continuity, freshPsi, index)
    }

    constructor ()
      ensures Model() == FRESH
    {
      pmtPid, pcrPid, streams, frames, pcrs := UNSET_PID, 0, [], [], [];
      patPackets, pmtCount, builders, continuity, freshPsi, index := [], 0, map[], map[], false, 0;
    }

    /** Hand over the frame a builder holds, if it holds one. */
    method FlushPid(pid: nat)
      modifies this
      ensures Model() == Flush(old(Model()), pid)
    {
      var b := if pid in builders then builders[pid] else IDLE;
      if !b.open {
        builders := builders[pid := b];
        return;
      }
      frames := frames + [Frame(pid, b.pts, b.payload, b.randomAccess, b.declaredLength, b.precededByPsi)];
      builders := builders[pid := b.(payload := [], open := false)];
    }

    method TakePat(p: Packet) returns (ok: bool)
      modifies this
      ensures ok <==> FeedPat(old(Model()), p).Some?
      ensures ok ==> Model() == FeedPat(old(Model()), p).value
    {
      hide ReadSection, PatTarget;
      if !p.start {
        return false;
      }
      patPackets := patPackets + [index];
      var section := ReadSection(p.body, 0x00);
      if section.None? || |section.value| < 5 {
        return false;
      }
      pmtPid := FindTarget(section.value[5..], pmtPid);
      ok := true;
    }

    method TakePmt(p: Packet) returns (ok: bool)
      modifies this
      ensures ok <==> FeedPmt(old(Model()), p).Some?
      ensures ok ==> Model() == FeedPmt(old(Model()), p).value
    {
      hide ReadSection, PmtStreams;
      if !p.start {
        return false;
      }
      pmtCount := pmtCount + 1;
      freshPsi := true;
      var section := ReadSection(p.body, 0x02);
      if section.None? || |section.value| < 9 {
        return false;
      }
      var rest := section.value[5..];
      pcrPid := FromBE16(rest[0] % 32, rest[1]);
      var infoLength := FromBE16(rest[2] % 16, rest[3]);
      if 4 + infoLength > |rest| {
        return false;
      }
      var listed := ListStreams(rest[4 + infoLength..]);
      if streams == [] {
        streams := listed;
      } else if streams != listed {
        return false;
      }
      ok := true;
    }

    method OpenPes(p: Packet) returns (ok: bool)
      modifies this
      ensures ok <==> StartPes(old(Model()), p).Some?
      ensures ok ==> Model() == StartPes(old(Model()), p).value
    {
      hide ReadTimestamp;
      var body := p.body;
      if |body| < 14 || body[0] != 0 || body[1] != 0 || body[2] != 1 {
        return false;
      }
      if body[6] / 64 != 2 || body[7] != 0x80 || body[8] != 5 {
        return false;
      }
      var pts := ReadTimestamp(body[9..14], 2);
      if pts.None? {
        return false;
      }
      FlushPid(p.pid);
      var preceded := freshPsi;
      freshPsi := false;
      builders := builders[p.pid :=
        PesBuilder(pts.value, body[14..], p.randomAccess, FromBE16(body[4], body[5]), preceded, true)];
      ok := true;
    }

    method ExtendPes(p: Packet)
      modifies this
      ensures Model() == ContinuePes(old(Model()), p)
    {
      var b := if p.pid in builders then builders[p.pid] else IDLE;
      if b.open {
        b := b.(payload := b.payload + p.body);
      }
      builders := builders[p.pid := b];
    }

    /** A declared length lets the frame finish without waiting for the next one. */
    method FinishPes(pid: nat) returns (ok: bool)
      modifies this
      ensures ok <==> FinishDeclared(old(Model()), pid).Some?
      ensures ok ==> Model() == FinishDeclared(old(Model()), pid).value
    {
      hide Flush;
      var b := if pid in builders then builders[pid] else IDLE;
      if b.declaredLength != 0 {
        if b.declaredLength < 8 {
          return false;
        }
        if |b.payload| >= b.declaredLength - 8 {
          builders := builders[pid := b.(payload := b.payload[..b.declaredLength - 8])];
          FlushPid(pid);
        }
      }
      ok := true;
    }

    method TakePayload(p: Packet) returns (ok: bool)
      modifies this
      ensures ok <==> FeedPayload(old(Model()), p).Some?
      ensures ok ==> Model() == FeedPayload(old(Model()), p).value
    {
      hide FeedPat, FeedPmt, StartPes, ContinuePes, FinishDeclared;
      ok := true;
      if p.pid == PAT_PID {
        ok := TakePat(p);
      } else if p.pid == pmtPid {
        ok := TakePmt(p);
      } else if exists i :: 0 <= i < |streams| && streams[i].0 == p.pid {
        if p.start {
          ok := OpenPes(p);
        } else {
          ExtendPes(p);
        }
        if ok {
          ok := FinishPes(p.pid);
        }
      }
    }

    method TakePacket(p: Packet) returns (ok: bool)
      modifies this
      ensures ok <==> Feed(old(Model()), p).Some?
      ensures ok ==> Model() == Feed(old(Model()), p).value
    {
      hide FeedPayload;
      var next := index + 1;
      if p.pcr.Some? {
        pcrs := pcrs + [(index, p.pcr.value)];
      }
      if p.hasPayload {
        if p.pid in continuity && p.counter != (continuity[p.pid] + 1) % 16 {
          return false;
        }
        continuity := continuity[p.pid := p.counter];
        ok := TakePayload(p);
        if !ok {
          return false;
        }
      }
      index := next;
      ok := true;
    }

    /** Flush every builder, in whatever order the map gives them. */
    method FlushAll()
      modifies this
      ensures Model().(frames := [], builders := map[]) == old(Model()).(frames := [], builders := map[])
      ensures forall pid :: OnPid(frames, pid) == Delivered(old(Model()), pid)
      ensures forall pid :: pid in builders ==> !builders[pid].open
    {
      ghost var read := Model();
      var open := builders.Keys;
      while open != {}
        invariant Model().(frames := [], builders := map[]) == read.(frames := [], builders := map[])
        invariant forall pid :: Delivered(Model(), pid) == Delivered(read, pid)
        invariant forall pid :: pid in builders && pid !in open ==> !builders[pid].open
        decreases |open|
      {
        var pid :| pid in open;
        forall other {
          FlushDelivers(Model(), pid, other);
        }
        FlushPid(pid);
        open := open - {pid};
      }
    }
  }

  method FindTarget(entries: seq<byte>, pmtPid: nat) returns (target: nat)
    ensures target == PatTarget(entries, pmtPid)
  {
    target := pmtPid;
    var at := 0;
    while at + 4 <= |entries|
      invariant 0 <= at <= |entries|
      invariant PatTarget(entries, pmtPid) == PatTarget(entries[at..], target)
    {
      assert entries[at..][4..] == entries[at + 4..];
      if FromBE16(entries[at], entries[at + 1]) != 0 {
        target := FromBE16(entries[at + 2] % 32, entries[at + 3]);
      }
      at := at + 4;
    }
  }

  method ListStreams(entries: seq<byte>) returns (streams: seq<(nat, byte)>)
    ensures streams == PmtStreams(entries)
  {
    streams := [];
    var at := 0;
    while at + 5 <= |entries|
      invariant 0 <= at <= |entries|
      invariant PmtStreams(entries) == streams + PmtStreams(entries[at..])
    {
      assert entries[at..][5..] == entries[at + 5..];
      streams := streams + [(FromBE16(entries[at + 1] % 32, entries[at + 2]), entries[at])];
      at := at + 5;
    }
  }

  /**
   Parse a whole byte stream, failing on anything malformed. The frames still open at
   the end are flushed in no particular order, so the result is stated PID by PID.
   */
  method Demux(ts: seq<byte>) returns (ok: bool, d: Demuxer)
    ensures ok <==> FeedBytes(FRESH, ts).Some?
    ensures ok ==>
      var read := FeedBytes(FRESH, ts).value;
      && d.Model().(frames := [], builders := map[]) == read.(frames := [], builders := map[])
      && (forall pid :: OnPid(d.frames, pid) == Delivered(read, pid))
      && (forall pid :: pid in d.builders ==> !d.builders[pid].open)
  {
    hide Feed, Decode, Delivered;
    d := new Demuxer();
    var at := 0;
    while at + TS_PACKET_SIZE <= |ts|
      invariant 0 <= at <= |ts|
      invariant fresh(d)
      invariant FeedBytes(FRESH, ts) == FeedBytes(d.Model(), ts[at..])
    {
      ghost var rest := ts[at..];
      assert rest[..TS_PACKET_SIZE] == ts[at..at + TS_PACKET_SIZE];
      assert rest[TS_PACKET_SIZE..] == ts[at + TS_PACKET_SIZE..];
      var packet := Decode(ts[at..at + TS_PACKET_SIZE]);
      if packet.None? {
        return false, d;
      }
      ok := d.TakePacket(packet.value);
      if !ok {
        return;
      }
      at := at + TS_PACKET_SIZE;
    }
    if at != |ts| {
      return false, d;
    }
    d.FlushAll();
    ok := true;
  }
}
