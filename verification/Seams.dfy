/**
 Where one muxer's output ends and another's begins. A reader that has read the first is
 given the second: exactly when does it go on reading, and what does it then find?
 */
module Seams {
  import opened Wrappers
  import opened Bytes
  import opened TsPackets
  import opened TsMux
  import opened PsiReading
  import R = TsReader
  import RT = RoundTrip
  import MP = MuxProperties

  /** A stretch of one muxer's output: the muxer as it was, and the calls that follow. */
  datatype Piece = Piece(m: State, calls: seq<RT.Call>)

  /** It opens with the tables: the muxer is new, or the first frame is a keyframe. */
  predicate Opens(p: Piece) {
    && Valid(p.m)
    && p.calls != []
    && RT.AllProduce(p.calls, |p.m.tracks|)
    && (p.m.lastPsi.None? || RT.IsKeyframe(p.calls[0]))
  }

  function Packets(p: Piece): (ps: seq<Packet>)
    requires Valid(p.m)
    ensures AllSendable(ps)
  {
    RT.Run(p.m, p.calls).packets
  }

  // ------------------------------------------------------------ PIDs and their counters

  /** The muxer's counter for a PID. */
  function CounterOf(m: State, pid: nat): nat
    requires Valid(m)
  {
    if pid == PAT_PID then m.patContinuity
    else if pid == PMT_PID then m.pmtContinuity
    else if FIRST_ES_PID <= pid < FIRST_ES_PID + |m.tracks| then m.tracks[pid - FIRST_ES_PID].continuity
    else 0
  }

  /** The counter of the first packet on a PID. */
  function FirstOn(ps: seq<Packet>, pid: nat): Option<nat> {
    if ps == [] then None else if ps[0].pid == pid then Some(ps[0].counter) else FirstOn(ps[1..], pid)
  }

  /** The last counter seen on every PID. */
  function Counters(seen: map<nat, nat>, ps: seq<Packet>): map<nat, nat>
    decreases |ps|
  {
    if ps == [] then seen else Counters(seen[ps[0].pid := ps[0].counter], ps[1..])
  }

  lemma {:induction false} FirstOnConcat(a: seq<Packet>, b: seq<Packet>, pid: nat)
    ensures FirstOn(a + b, pid) == if FirstOn(a, pid).Some? then FirstOn(a, pid) else FirstOn(b, pid)
  {
    if a == [] {
      assert a + b == b;
    } else {
      FirstOnConcat(a[1..], b, pid);
      assert (a + b)[1..] == a[1..] + b;
    }
  }

  lemma {:induction false} CountersConcat(seen: map<nat, nat>, a: seq<Packet>, b: seq<Packet>)
    ensures Counters(seen, a + b) == Counters(Counters(seen, a), b)
    decreases |a|
  {
    if a == [] {
      assert a + b == b;
    } else {
      CountersConcat(seen[a[0].pid := a[0].counter], a[1..], b);
      assert (a + b)[1..] == a[1..] + b;
    }
  }

  /** What has been seen is what was seen before and what is in the packets. */
  lemma {:induction false} CountersKeys(seen: map<nat, nat>, ps: seq<Packet>, pid: nat)
    ensures pid in Counters(seen, ps) <==> pid in seen || FirstOn(ps, pid).Some?
    decreases |ps|
  {
    if ps != [] {
      CountersKeys(seen[ps[0].pid := ps[0].counter], ps[1..], pid);
    }
  }

  /** The PIDs a call writes on. */
  predicate WrittenBy(m: State, c: RT.Call, pid: nat)
    requires Valid(m) && RT.Produces(c, |m.tracks|)
  {
    || pid == FIRST_ES_PID + c.track
    || ((pid == PAT_PID || pid == PMT_PID) && PsiDue(m, Clock(c.ptsUs), c.randomAccess))
  }

  /** The PIDs a piece writes on: the tables and the tracks of its frames. */
  predicate Written(p: Piece, pid: nat) {
    || pid == PAT_PID
    || pid == PMT_PID
    || exists i :: 0 <= i < |p.calls| && p.calls[i].WriteFrame? && pid == FIRST_ES_PID + p.calls[i].track
  }

  lemma SplitFirst(pid: nat, c: nat, data: seq<byte>, pcr: Option<nat>, randomAccess: bool, start: bool, q: nat)
    requires pid < 0x2000 && (pcr.Some? ==> pcr.value < TIMESTAMP_WRAP)
    ensures FirstOn(Split(pid, c, data, pcr, randomAccess, start), q)
         == if q == pid && data != [] then Some(c % 16) else None
  {
    hide Split, MP.WellCut;
    if data == [] {
      SplitEnd(pid, c, pcr, randomAccess, start);
    } else {
      SplitStep(pid, c, data, pcr, randomAccess, start);
      MP.SplitWellCut(pid, c, data, pcr, randomAccess, start);
      var ps := Split(pid, c, data, pcr, randomAccess, start);
      OnlyPid(ps, pid, c, pcr, randomAccess, start);
      NotFirst(ps, pid, q);
    }
  }

  lemma OnlyPid(ps: seq<Packet>, pid: nat, c: nat, pcr: Option<nat>, randomAccess: bool, start: bool)
    requires MP.WellCut(ps, pid, c, pcr, randomAccess, start)
    ensures forall k :: 0 <= k < |ps| ==> ps[k].pid == pid
  {
  }

  lemma {:induction false} NotFirst(ps: seq<Packet>, pid: nat, q: nat)
    requires forall k :: 0 <= k < |ps| ==> ps[k].pid == pid
    ensures q != pid ==> FirstOn(ps, q).None?
  {
    if ps != [] {
      NotFirst(ps[1..], pid, q);
    }
  }

  lemma TablesFirst(m: State, q: nat)
    requires Valid(m)
    ensures FirstOn(Tables(m), q) == if q == PAT_PID || q == PMT_PID then Some(CounterOf(m, q) % 16) else None
  {
    hide PsiPayload, PmtSection, PatSection;
    PairFirst(PsiPacket(PAT_PID, m.patContinuity, PatSection()), PsiPacket(PMT_PID, m.pmtContinuity, PmtSection(m)), q);
  }

  lemma PairFirst(a: Packet, b: Packet, q: nat)
    ensures FirstOn([a, b], q) == if a.pid == q then Some(a.counter) else if b.pid == q then Some(b.counter) else None
  {
    assert [a, b][1..] == [b] && [b][1..] == [];
    assert FirstOn([b], q) == if b.pid == q then Some(b.counter) else None;
  }

  /** One call: its PIDs start at the muxer's counters, and the other counters stay. */
  lemma StepFirst(m: State, c: RT.Call, q: nat)
    requires Valid(m) && RT.Produces(c, |m.tracks|)
    ensures var w := RT.Step(m, c);
      && FirstOn(w.packets, q) == (if WrittenBy(m, c, q) then Some(CounterOf(m, q) % 16) else None)
      && (!WrittenBy(m, c, q) ==> CounterOf(w.state, q) == CounterOf(m, q))
  {
    hide Tables, Split, PesHeader, FirstOn;
    var clock := Clock(c.ptsUs);
    var tables := WriteTables(m, clock, c.randomAccess);
    var frame := FramePackets(tables.state, c.track, c.ptsUs, c.randomAccess, c.payload);
    var t := tables.state.tracks[c.track];
    var pcr := if tables.state.pcrTrack == Some(c.track) then Some(clock) else None;
    var data := PesHeader(t.kind, |c.payload|, Pts(c.ptsUs)) + c.payload;
    SplitFirst(t.pid, t.continuity, data, pcr, c.randomAccess, true, q);
    TablesFirst(m, q);
    NoneFirst(q);
    FirstOnConcat(tables.packets, frame, q);
  }

  lemma NoneFirst(q: nat)
    ensures FirstOn([], q).None?
  {
  }

  predicate WrittenByAny(m: State, calls: seq<RT.Call>, pid: nat)
    requires Valid(m) && RT.AllProduce(calls, |m.tracks|)
    decreases |calls|
  {
    calls != [] && (WrittenBy(m, calls[0], pid) || WrittenByAny(RT.Step(m, calls[0]).state, calls[1..], pid))
  }

  lemma {:induction false} RunFirst(m: State, calls: seq<RT.Call>, q: nat)
    requires Valid(m) && RT.AllProduce(calls, |m.tracks|)
    ensures FirstOn(RT.Run(m, calls).packets, q)
         == if WrittenByAny(m, calls, q) then Some(CounterOf(m, q) % 16) else None
    decreases |calls|
  {
    hide RT.Step, WrittenBy, CounterOf, FirstOn;
    NoneFirst(q);
    if calls != [] {
      var first := RT.Step(m, calls[0]);
      StepFirst(m, calls[0], q);
      RunFirst(first.state, calls[1..], q);
      FirstOnConcat(first.packets, RT.Run(first.state, calls[1..]).packets, q);
    }
  }

  lemma {:induction false} WrittenTracks(m: State, calls: seq<RT.Call>, q: nat)
    requires Valid(m) && RT.AllProduce(calls, |m.tracks|) && q != PAT_PID && q != PMT_PID
    ensures WrittenByAny(m, calls, q) <==> exists i :: 0 <= i < |calls| && q == FIRST_ES_PID + calls[i].track
    decreases |calls|
  {
    hide RT.Step;
    if calls != [] {
      var rest := calls[1..];
      WrittenTracks(RT.Step(m, calls[0]).state, rest, q);
      if i :| 0 <= i < |calls| && q == FIRST_ES_PID + calls[i].track {
        assert i > 0 ==> rest[i - 1] == calls[i];
      }
      if i :| 0 <= i < |rest| && q == FIRST_ES_PID + rest[i].track {
        assert calls[i + 1] == rest[i];
      }
    }
  }

  /** A piece that opens with the tables starts every PID it writes at the muxer's counter. */
  lemma PieceFirst(p: Piece, q: nat)
    requires Opens(p)
    ensures FirstOn(Packets(p), q) == if Written(p, q) then Some(CounterOf(p.m, q) % 16) else None
  {
    hide RT.Run, RT.Step, CounterOf, FirstOn;
    RunFirst(p.m, p.calls, q);
    if q != PAT_PID && q != PMT_PID {
      WrittenTracks(p.m, p.calls, q);
    } else {
      assert PsiDue(p.m, Clock(p.calls[0].ptsUs), p.calls[0].randomAccess);
    }
  }

  // ------------------------------------------------------------ what a reader insists on

  lemma PatApart(r: R.Reader, p: Packet, k: map<nat, nat>)
    ensures R.FeedPat(r.(continuity := k), p)
         == var fed := R.FeedPat(r, p); if fed.None? then None else Some(fed.value.(continuity := k))
  {
    hide R.ReadSection, R.PatTarget;
  }

  lemma PmtApart(r: R.Reader, p: Packet, k: map<nat, nat>)
    ensures R.FeedPmt(r.(continuity := k), p)
         == var fed := R.FeedPmt(r, p); if fed.None? then None else Some(fed.value.(continuity := k))
  {
    hide R.ReadSection, R.PmtStreams, FromBE16;
  }

  lemma OpenApart(r: R.Reader, p: Packet, k: map<nat, nat>)
    ensures R.StartPes(r.(continuity := k), p)
         == var fed := R.StartPes(r, p); if fed.None? then None else Some(fed.value.(continuity := k))
    ensures R.ContinuePes(r.(continuity := k), p) == R.ContinuePes(r, p).(continuity := k)
  {
    hide R.ReadTimestamp, FromBE16;
  }

  lemma FinishApart(r: R.Reader, pid: nat, k: map<nat, nat>)
    ensures R.FinishDeclared(r.(continuity := k), pid)
         == var fed := R.FinishDeclared(r, pid); if fed.None? then None else Some(fed.value.(continuity := k))
  {
  }

  lemma PesApart(r: R.Reader, p: Packet, k: map<nat, nat>)
    ensures R.FeedPes(r.(continuity := k), p)
         == var fed := R.FeedPes(r, p); if fed.None? then None else Some(fed.value.(continuity := k))
  {
    hide R.StartPes, R.ContinuePes, R.FinishDeclared;
    OpenApart(r, p, k);
    var moved := if p.start then R.StartPes(r, p) else Some(R.ContinuePes(r, p));
    if moved.Some? {
      FinishApart(moved.value, p.pid, k);
    }
  }

  /** What a payload does to a reader has nothing to do with the counters it holds. */
  lemma PayloadApart(r: R.Reader, p: Packet, k: map<nat, nat>)
    ensures R.FeedPayload(r.(continuity := k), p)
         == var fed := R.FeedPayload(r, p); if fed.None? then None else Some(fed.value.(continuity := k))
  {
    hide R.FeedPat, R.FeedPmt, R.FeedPes;
    PatApart(r, p, k);
    PmtApart(r, p, k);
    PesApart(r, p, k);
  }

  lemma FeedCounts(r: R.Reader, p: Packet)
    requires p.hasPayload && R.Feed(r, p).Some?
    ensures R.Feed(r, p).value.continuity == r.continuity[p.pid := p.counter]
    ensures p.pid in r.continuity ==> p.counter == (r.continuity[p.pid] + 1) % 16
  {
    hide R.FeedPayload;
    PayloadApart(R.NotePcr(r, p), p, r.continuity[p.pid := p.counter]);
  }

  lemma {:induction false} CountersRead(r: R.Reader, ps: seq<Packet>)
    requires AllSendable(ps) && R.FeedAll(r, ps).Some?
    ensures R.FeedAll(r, ps).value.continuity == Counters(r.continuity, ps)
    decreases |ps|
  {
    hide R.Feed;
    if ps != [] {
      FeedCounts(r, ps[0]);
      CountersRead(R.Feed(r, ps[0]).value, ps[1..]);
    }
  }

  /** Whatever it accepts continues where it left off, PID by PID. */
  lemma {:induction false} MustContinue(r: R.Reader, ps: seq<Packet>, pid: nat)
    requires AllSendable(ps) && R.FeedAll(r, ps).Some? && pid in r.continuity && FirstOn(ps, pid).Some?
    ensures FirstOn(ps, pid).value == (r.continuity[pid] + 1) % 16
    decreases |ps|
  {
    hide R.Feed;
    FeedCounts(r, ps[0]);
    if ps[0].pid != pid {
      MustContinue(R.Feed(r, ps[0]).value, ps[1..], pid);
    }
  }

  lemma PmtRefused(r: R.Reader, p: Packet, section: seq<byte>, rest: seq<byte>)
    requires R.ReadSection(p.body, 0x02) == Some(section) && |section| >= 9 && section[5..] == rest
    requires FromBE16(rest[2] % 16, rest[3]) == 0
    requires r.streams != [] && r.streams != R.PmtStreams(rest[4..])
    ensures R.FeedPmt(r, p).None?
  {
    hide R.ReadSection, R.PmtStreams, FromBE16;
    assert |rest| >= 4 && rest[4 + 0..] == rest[4..];
  }

  /** A program other than the one it knows is refused. */
  lemma OtherProgramRefused(m: State, r: R.Reader)
    requires Valid(m)
    requires CounterFits(r, PAT_PID, m.patContinuity) && CounterFits(r, PMT_PID, m.pmtContinuity)
    requires r.streams != [] && r.streams != StreamList(m)
    ensures R.FeedAll(r, Tables(m)).None?
  {
    hide R.ReadSection, R.PmtStreams, PsiPayload, TsMux.PsiSection, TsMux.Entries, TsMux.PcrPid,
      R.Feed, R.FeedPmt, FromBE16, BE16, StreamList;
    PatRead(m, r);
    PmtSectionRead(m);
    PmtRest(m);
    StreamsRead(m.tracks);
    var r1 := AfterPat(r, m);
    var pat := PsiPacket(PAT_PID, m.patContinuity, PatSection());
    var pmt := PsiPacket(PMT_PID, m.pmtContinuity, PmtSection(m));
    PmtReaches(r1, pmt);
    assert R.PmtStreams(PmtSection(m)[3..][5..][4..]) == StreamList(m) by {
      Listed(m);
    }
    var r2 := r1.(continuity := r1.continuity[PMT_PID := pmt.counter]);
    PmtRefused(r2, pmt, PmtSection(m)[3..], PmtSection(m)[3..][5..]);
    assert Tables(m) == [pat, pmt] && [pat, pmt][1..] == [pmt];
  }

  lemma Listed(m: State)
    ensures StreamList(m) == Listing(m.tracks)
  {
  }

  // ------------------------------------------------------------ what a reader may forget

  /** A reader that has never seen some PIDs. */
  function Forget(r: R.Reader, pids: set<nat>): R.Reader {
    r.(continuity := r.continuity - pids)
  }

  /** Continuity is only ever looked at for the PID at hand. */
  lemma FeedForget(r: R.Reader, p: Packet, pids: set<nat>)
    requires p.hasPayload && p.pid !in pids
    ensures R.Feed(Forget(r, pids), p)
         == var fed := R.Feed(r, p); if fed.None? then None else Some(Forget(fed.value, pids))
  {
    hide R.FeedPayload;
    var noted := R.NotePcr(r, p);
    var k := r.continuity[p.pid := p.counter];
    PayloadApart(noted, p, k);
    PayloadApart(noted, p, k - pids);
    assert (r.continuity - pids)[p.pid := p.counter] == k - pids;
    if R.FeedPayload(noted, p).Some? {
      PayloadApart(noted, p, k);
    }
  }

  lemma {:induction false} FeedAllForget(r: R.Reader, ps: seq<Packet>, pids: set<nat>)
    requires AllSendable(ps)
    requires forall pid :: pid in pids ==> FirstOn(ps, pid).None?
    ensures R.FeedAll(Forget(r, pids), ps)
         == var fed := R.FeedAll(r, ps); if fed.None? then None else Some(Forget(fed.value, pids))
    decreases |ps|
  {
    hide R.Feed, Forget;
    if ps != [] {
      assert FirstOn(ps, ps[0].pid).Some?;
      FeedForget(r, ps[0], pids);
      if R.Feed(r, ps[0]).Some? {
        FeedAllForget(R.Feed(r, ps[0]).value, ps[1..], pids);
      }
    }
  }

  // ------------------------------------------------------------ joining one piece

  /** Every PID written goes on from what the reader has seen of it, and the program is one it can take. */
  predicate Joins(seen: map<nat, nat>, streams: seq<(nat, byte)>, p: Piece)
    requires Valid(p.m)
  {
    && (forall pid :: pid in seen && Written(p, pid) ==> CounterOf(p.m, pid) % 16 == (seen[pid] + 1) % 16)
    && (streams == [] || streams == StreamList(p.m))
  }

  lemma InStepWhenForgotten(p: Piece, r: R.Reader, pids: set<nat>)
    requires Opens(p) && Joins(r.continuity, r.streams, p)
    requires forall pid :: pid in r.continuity && !Written(p, pid) ==> pid in pids
    ensures RT.InStep(p.m, Forget(r, pids))
  {
    hide Written;
    var f := Forget(r, pids);
    forall i | 0 <= i < |p.m.tracks|
      ensures CounterFits(f, p.m.tracks[i].pid, p.m.tracks[i].continuity)
    {
      assert CounterOf(p.m, FIRST_ES_PID + i) == p.m.tracks[i].continuity;
    }
  }

  /** A reader in step at the first call reads the whole piece. */
  lemma InStepReads(p: Piece, r: R.Reader, pid: nat)
    requires Opens(p) && RT.InStep(p.m, r) && (r.streams == [] || r.streams == StreamList(p.m))
    ensures R.FeedAll(r, Packets(p)).Some?
    ensures var r' := R.FeedAll(r, Packets(p)).value;
      && RT.Knows(RT.Run(p.m, p.calls).state, r')
      && RT.InStep(RT.Run(p.m, p.calls).state, r')
      && R.Delivered(r', pid) == R.Delivered(r, pid) + RT.Expected(p.m, false, p.calls, pid)
  {
    hide R.FeedAll, RT.Step, R.Delivered, RT.InStep, RT.FrameOn, RT.FreshAfter, RT.ClocksRead, StreamList;
    var c := p.calls[0];
    FirstIsDue(p, r.freshPsi, pid);
    RT.FrameCallRead(p.m, r, c, pid);
    var first := RT.Step(p.m, c);
    var r1 := R.FeedAll(r, first.packets).value;
    KnowsIsReady(first.state, r1);
    RT.RunRead(first.state, r1, p.calls[1..], pid);
    RunKnows(first.state, r1, p.calls[1..], pid);
    R.FeedAllConcat(r, first.packets, RT.Run(first.state, p.calls[1..]).packets);
    assert r1.freshPsi == RT.FreshAfter(p.m, false, c);
  }

  /** The first frame has the tables in front of it, whether or not others came before. */
  lemma FirstIsDue(p: Piece, fresh': bool, pid: nat)
    requires Opens(p)
    ensures PsiDue(p.m, Clock(p.calls[0].ptsUs), p.calls[0].randomAccess)
    ensures RT.FrameOn(p.m, fresh', p.calls[0], pid) == RT.FrameOn(p.m, false, p.calls[0], pid)
    ensures RT.FreshAfter(p.m, fresh', p.calls[0]) == RT.FreshAfter(p.m, false, p.calls[0])
  {
  }

  lemma KnowsIsReady(m: State, r: R.Reader)
    requires RT.Knows(m, r)
    ensures RT.Ready(m, r)
  {
  }

  /** Knowing the program once is knowing it for the rest of the run. */
  lemma {:induction false} RunKnows(m: State, r: R.Reader, calls: seq<RT.Call>, pid: nat)
    requires Valid(m) && RT.InStep(m, r) && RT.Knows(m, r) && RT.AllProduce(calls, |m.tracks|)
    ensures R.FeedAll(r, RT.Run(m, calls).packets).Some?
    ensures RT.Knows(RT.Run(m, calls).state, R.FeedAll(r, RT.Run(m, calls).packets).value)
    decreases |calls|
  {
    hide R.FeedAll, RT.Step, R.Delivered, RT.InStep, RT.FrameOn, RT.FreshAfter, RT.ClocksRead, StreamList;
    if calls == [] {
      R.FeedAllEnd(r);
    } else {
      var first := RT.Step(m, calls[0]);
      RT.FrameCallRead(m, r, calls[0], pid);
      var r1 := R.FeedAll(r, first.packets).value;
      RunKnows(first.state, r1, calls[1..], pid);
      R.FeedAllConcat(r, first.packets, RT.Run(first.state, calls[1..]).packets);
    }
  }

  /**
   The exact condition for one piece: a reader accepts it if and only if it joins on, and
   then it finds exactly the frames of the piece.
   */
  lemma JoinReads(p: Piece, r: R.Reader, pid: nat)
    requires Opens(p)
    ensures R.FeedAll(r, Packets(p)).Some? <==> Joins(r.continuity, r.streams, p)
    ensures R.FeedAll(r, Packets(p)).Some? ==>
      var r' := R.FeedAll(r, Packets(p)).value;
      && R.Delivered(r', pid) == R.Delivered(r, pid) + RT.Expected(p.m, false, p.calls, pid)
      && r'.continuity == Counters(r.continuity, Packets(p))
      && r'.streams == StreamList(p.m)
  {
    hide R.FeedAll, RT.Run, R.Delivered, RT.InStep, Joins, Counters, FirstOn, Forget, StreamList;
    if Joins(r.continuity, r.streams, p) {
      JoinAccepted(p, r, pid);
    }
    if R.FeedAll(r, Packets(p)).Some? {
      CountersRead(r, Packets(p));
      AcceptedJoins(p, r);
    }
  }

  lemma JoinAccepted(p: Piece, r: R.Reader, pid: nat)
    requires Opens(p) && Joins(r.continuity, r.streams, p)
    ensures R.FeedAll(r, Packets(p)).Some?
    ensures R.Delivered(R.FeedAll(r, Packets(p)).value, pid)
         == R.Delivered(r, pid) + RT.Expected(p.m, false, p.calls, pid)
    ensures R.FeedAll(r, Packets(p)).value.streams == StreamList(p.m)
  {
    hide R.FeedAll, RT.Run, R.Delivered, RT.InStep, Written, FirstOn, StreamList, RT.Expected;
    var unwritten := set q | q in r.continuity && !Written(p, q);
    var f := Forget(r, unwritten);
    InStepWhenForgotten(p, r, unwritten);
    forall q | q in unwritten
      ensures FirstOn(Packets(p), q).None?
    {
      PieceFirst(p, q);
    }
    FeedAllForget(r, Packets(p), unwritten);
    InStepReads(p, f, pid);
    ForgetDelivers(r, unwritten, pid);
    var r' := R.FeedAll(r, Packets(p)).value;
    ForgetDelivers(r', unwritten, pid);
    RunLists(p.m, p.calls);
  }

  lemma ForgetDelivers(r: R.Reader, pids: set<nat>, pid: nat)
    ensures R.Delivered(Forget(r, pids), pid) == R.Delivered(r, pid)
    ensures Forget(r, pids).streams == r.streams
  {
  }

  /** The program never changes under a muxer's hands. */
  lemma {:induction false} RunLists(m: State, calls: seq<RT.Call>)
    requires Valid(m)
    ensures StreamList(RT.Run(m, calls).state) == StreamList(m)
    decreases |calls|
  {
    hide Tables, FramePackets;
    if calls != [] {
      var w := RT.Step(m, calls[0]);
      assert Listing(w.state.tracks) == Listing(m.tracks);
      RunLists(w.state, calls[1..]);
    }
  }

  lemma AcceptedJoins(p: Piece, r: R.Reader)
    requires Opens(p) && R.FeedAll(r, Packets(p)).Some?
    ensures Joins(r.continuity, r.streams, p)
  {
    hide R.FeedAll, Packets, FirstOn, StreamList, Written, Opens, CounterOf, Tables;
    OpensValid(p);
    forall pid | pid in r.continuity && Written(p, pid)
      ensures CounterOf(p.m, pid) % 16 == (r.continuity[pid] + 1) % 16
    {
      PieceFirst(p, pid);
      MustContinue(r, Packets(p), pid);
    }
    assert Written(p, PAT_PID) && Written(p, PMT_PID) by {
      TablesWritten(p);
    }
    if r.streams != [] && r.streams != StreamList(p.m) {
      TableCounters(p.m);
      OtherProgramRefused(p.m, r);
      OpensWithTables(p);
      var ps := Packets(p);
      assert ps == Tables(p.m) + ps[2..];
      R.FeedAllConcat(r, Tables(p.m), ps[2..]);
    }
  }

  lemma TableCounters(m: State)
    requires Valid(m)
    ensures CounterOf(m, PAT_PID) == m.patContinuity && CounterOf(m, PMT_PID) == m.pmtContinuity
  {
  }

  lemma TablesWritten(p: Piece)
    ensures Written(p, PAT_PID) && Written(p, PMT_PID)
  {
  }

  lemma OpensWithTables(p: Piece)
    requires Opens(p)
    ensures |Packets(p)| >= 2 && Packets(p)[..2] == Tables(p.m)
  {
    hide Tables, FramePackets;
    var first := RT.Step(p.m, p.calls[0]);
    FirstIsDue(p, false, 0);
    MP.TwoTables(p.m);
    assert first.packets[..2] == Tables(p.m);
  }

  // ------------------------------------------------------------ any number of pieces

  predicate AllOpen(ps: seq<Piece>) {
    forall i :: 0 <= i < |ps| ==> Opens(ps[i])
  }

  function AllPackets(ps: seq<Piece>): (all: seq<Packet>)
    requires AllOpen(ps)
    ensures AllSendable(all)
    decreases |ps|
  {
    if ps == [] then [] else Packets(ps[0]) + AllPackets(ps[1..])
  }

  /** Every piece joins on to what was written before it. */
  predicate AllJoin(seen: map<nat, nat>, streams: seq<(nat, byte)>, ps: seq<Piece>)
    requires AllOpen(ps)
    decreases |ps|
  {
    ps == [] || (Joins(seen, streams, ps[0]) && AllJoin(Counters(seen, Packets(ps[0])), StreamList(ps[0].m), ps[1..]))
  }

  function AllExpected(ps: seq<Piece>, pid: nat): seq<R.Frame>
    requires AllOpen(ps)
    decreases |ps|
  {
    if ps == [] then [] else RT.Expected(ps[0].m, false, ps[0].calls, pid) + AllExpected(ps[1..], pid)
  }

  lemma FirstPiece(ps: seq<Piece>)
    requires AllOpen(ps) && ps != []
    ensures Opens(ps[0]) && Valid(ps[0].m) && AllOpen(ps[1..])
    ensures AllPackets(ps) == Packets(ps[0]) + AllPackets(ps[1..])
  {
    hide Packets;
  }

  /** The output of any number of muxers, end to end, is read if and only if each joins on to the ones before. */
  lemma {:induction false} ChainReads(ps: seq<Piece>, r: R.Reader, pid: nat)
    requires AllOpen(ps)
    ensures R.FeedAll(r, AllPackets(ps)).Some? <==> AllJoin(r.continuity, r.streams, ps)
    ensures R.FeedAll(r, AllPackets(ps)).Some? ==>
      R.Delivered(R.FeedAll(r, AllPackets(ps)).value, pid) == R.Delivered(r, pid) + AllExpected(ps, pid)
    decreases |ps|
  {
    hide R.FeedAll, R.Delivered, Opens, AllOpen, Packets, RT.Expected, Joins, StreamList, Counters;
    if ps == [] {
      R.FeedAllEnd(r);
    } else {
      var p, rest := ps[0], ps[1..];
      FirstPiece(ps);
      JoinReads(p, r, pid);
      R.FeedAllConcat(r, Packets(p), AllPackets(rest));
      if R.FeedAll(r, Packets(p)).Some? {
        ChainReads(rest, R.FeedAll(r, Packets(p)).value, pid);
      }
    }
  }

  /** A reader that has seen nothing takes any one piece. */
  lemma OnePieceJoins(p: Piece)
    requires Opens(p)
    ensures AllOpen([p]) && AllJoin(map[], [], [p])
  {
    hide Opens, StreamList, Counters, RT.Run;
    assert [p][1..] == [];
  }

  // ------------------------------------------------------------ one seam, plainly

  /** The last counter a piece sends on a PID it writes. */
  function LastSent(p: Piece, pid: nat): nat
    requires Opens(p) && Written(p, pid)
  {
    PieceFirst(p, pid);
    CountersKeys(map[], Packets(p), pid);
    Counters(map[], Packets(p))[pid]
  }

  lemma SentIsWritten(p: Piece, pid: nat)
    requires Opens(p)
    ensures pid in Counters(map[], Packets(p)) <==> Written(p, pid)
  {
    PieceFirst(p, pid);
    CountersKeys(map[], Packets(p), pid);
  }

  lemma NewStartsAtZero(kinds: seq<StreamType>, pid: nat)
    requires |kinds| <= MAX_TRACKS
    ensures CounterOf(Initial(kinds), pid) == 0
  {
  }

  lemma OpensValid(p: Piece)
    requires Opens(p)
    ensures Valid(p.m)
  {
  }

  lemma TwoPieces(p: Piece, q: Piece)
    requires Opens(p) && Opens(q)
    ensures AllOpen([p, q])
    ensures AllJoin(map[], [], [p, q]) <==> Joins(Counters(map[], Packets(p)), StreamList(p.m), q)
  {
    OpensValid(p);
    OpensValid(q);
    hide Opens, StreamList, Packets, Written, CounterOf;
    assert [p, q][1..] == [q] && [q][1..] == [];
    var seen := Counters(map[], Packets(p));
    assert Joins(map[], [], p);
    hide Joins, Counters;
    assert AllJoin(seen, StreamList(p.m), [q])
        == (Joins(seen, StreamList(p.m), q) && AllJoin(Counters(seen, Packets(q)), StreamList(q.m), [q][1..]));
  }

  lemma LastSentSeen(p: Piece, pid: nat)
    requires Opens(p)
    ensures pid in Counters(map[], Packets(p)) <==> Written(p, pid)
    ensures Written(p, pid) ==> LastSent(p, pid) == Counters(map[], Packets(p))[pid] && LastSent(p, pid) < 16
  {
    hide Counters, Packets, Written;
    SentIsWritten(p, pid);
    OpensValid(p);
    CountersSmall(map[], Packets(p), pid);
  }

  /**
   The last counter sent is the muxer's own, less one: a PID ends on 15 exactly if its
   counter has come to a multiple of 16.
   */
  lemma LastSentIsBehind(p: Piece, pid: nat)
    requires Opens(p) && Written(p, pid)
    ensures Valid(p.m)
    ensures LastSent(p, pid) == (CounterOf(RT.Run(p.m, p.calls).state, pid) + 15) % 16
  {
    hide R.FeedAll, Counters, Written, Opens, R.Delivered, RT.Expected, RT.Run, RT.InStep, CounterOf, StreamList,
      LastSent;
    OpensValid(p);
    LastSentSeen(p, pid);
    ReadBehind(p, pid);
    OneLess(CounterOf(RT.Run(p.m, p.calls).state, pid), LastSent(p, pid));
  }

  /** A reader started on the first byte holds the last counter sent. */
  lemma ReadBehind(p: Piece, pid: nat)
    requires Opens(p) && Written(p, pid) && Valid(p.m) && pid in Counters(map[], Packets(p))
    ensures CounterOf(RT.Run(p.m, p.calls).state, pid) % 16 == (Counters(map[], Packets(p))[pid] + 1) % 16
  {
    hide R.FeedAll, Counters, Written, Opens, R.Delivered, RT.Expected, RT.Run, RT.InStep, CounterOf, StreamList,
      LastSent;
    FreshInStep(p.m);
    InStepReads(p, R.FRESH, 0);
    CountersRead(R.FRESH, Packets(p));
    var m := RT.Run(p.m, p.calls).state;
    WrittenIsTrack(p, pid);
    RunLists(p.m, p.calls);
    SameTracks(p.m, m);
    FitsOn(m, R.FeedAll(R.FRESH, Packets(p)).value, pid);
  }

  lemma OneLess(c: nat, last: nat)
    requires last < 16 && c % 16 == (last + 1) % 16
    ensures last == (c + 15) % 16
  {
    if last == 15 {
      assert c % 16 == 0;
    } else {
      assert c % 16 == last + 1;
    }
  }

  lemma FitsOn(m: State, r: R.Reader, pid: nat)
    requires Valid(m) && RT.InStep(m, r)
    requires pid == PAT_PID || pid == PMT_PID || FIRST_ES_PID <= pid < FIRST_ES_PID + |m.tracks|
    ensures CounterFits(r, pid, CounterOf(m, pid))
  {
    if FIRST_ES_PID <= pid < FIRST_ES_PID + |m.tracks| {
      assert m.tracks[pid - FIRST_ES_PID].pid == pid;
    }
  }

  lemma FreshInStep(m: State)
    ensures RT.InStep(m, R.FRESH)
  {
  }

  lemma WrittenIsTrack(p: Piece, pid: nat)
    requires Opens(p) && Written(p, pid)
    ensures pid == PAT_PID || pid == PMT_PID || FIRST_ES_PID <= pid < FIRST_ES_PID + |p.m.tracks|
  {
  }

  lemma SameTracks(m: State, n: State)
    requires StreamList(m) == StreamList(n)
    ensures |m.tracks| == |n.tracks|
  {
    assert |StreamList(m)| == |m.tracks|;
    assert |StreamList(n)| == |n.tracks|;
  }

  /** The same streams, and a last counter of 15 on every PID both write. */
  ghost predicate Seamless(p: Piece, q: Piece)
    requires Opens(p) && Valid(q.m)
  {
    && StreamList(p.m) == StreamList(q.m)
    && forall pid :: Written(p, pid) && Written(q, pid) ==> LastSent(p, pid) == 15
  }

  lemma JoinsFromZero(p: Piece, q: Piece)
    requires Opens(p) && Valid(q.m) && (forall pid :: CounterOf(q.m, pid) == 0)
    ensures Valid(p.m)
    ensures Joins(Counters(map[], Packets(p)), StreamList(p.m), q) <==> Seamless(p, q)
  {
    hide Opens, StreamList, Packets, Written, CounterOf, Counters, LastSent;
    OpensValid(p);
    StreamsNotEmpty(p);
    var seen := Counters(map[], Packets(p));
    forall pid
      ensures pid in seen <==> Written(p, pid)
      ensures Written(p, pid) ==> LastSent(p, pid) == seen[pid] && seen[pid] < 16
    {
      LastSentSeen(p, pid);
    }
  }

  /**
   The seam between a muxer and a new one, exactly: a reader goes on across it if and only
   if both announce the same streams and, on every PID both write, the first one's last
   counter happened to be 15.
   */
  lemma SeamIff(p: Piece, kinds: seq<StreamType>, calls: seq<RT.Call>)
    requires |kinds| <= MAX_TRACKS && Opens(p) && Opens(Piece(Initial(kinds), calls))
    ensures var q := Piece(Initial(kinds), calls);
      && AllOpen([p, q])
      && (R.FeedAll(R.FRESH, AllPackets([p, q])).Some? <==> Seamless(p, q))
      && (AllJoin(map[], [], [p, q]) <==> Seamless(p, q))
  {
    hide Packets, R.FeedAll, Counters, StreamList, Written, Opens, Initial, CounterOf, AllJoin, AllPackets, Joins,
      Seamless;
    var q := Piece(Initial(kinds), calls);
    TwoPieces(p, q);
    ChainReads([p, q], R.FRESH, 0);
    OpensValid(q);
    forall pid
      ensures CounterOf(q.m, pid) == 0
    {
      NewStartsAtZero(kinds, pid);
    }
    JoinsFromZero(p, q);
  }

  lemma {:induction false} CountersSmall(seen: map<nat, nat>, ps: seq<Packet>, pid: nat)
    requires AllSendable(ps) && (forall q :: q in seen ==> seen[q] < 16)
    ensures pid in Counters(seen, ps) ==> Counters(seen, ps)[pid] < 16
    decreases |ps|
  {
    if ps != [] {
      CountersSmall(seen[ps[0].pid := ps[0].counter], ps[1..], pid);
    }
  }

  lemma StreamsNotEmpty(p: Piece)
    requires Opens(p)
    ensures StreamList(p.m) != []
  {
    assert RT.Produces(p.calls[0], |p.m.tracks|);
  }

  /** Two new muxers announce the same streams only if they were made for the same kinds. */
  lemma SameStreamsSameKinds(a: seq<StreamType>, b: seq<StreamType>)
    requires |a| <= MAX_TRACKS && |b| <= MAX_TRACKS
    ensures StreamList(Initial(a)) == StreamList(Initial(b)) <==> a == b
  {
    var x, y := StreamList(Initial(a)), StreamList(Initial(b));
    if x == y {
      forall i | 0 <= i < |a|
        ensures i < |b| && a[i] == b[i]
      {
        assert x[i] == (FIRST_ES_PID + i, a[i].Id());
        assert y[i] == (FIRST_ES_PID + i, b[i].Id());
      }
      assert |x| == |a| && |y| == |b|;
    }
  }
}
