/**
 Muxing and reading back, for any interleaving of calls on any number of tracks:
 the strict reader accepts every byte, and returns per PID exactly the frames that
 were written, in order.
 */
module RoundTrip {
  import opened Wrappers
  import opened Bytes
  import opened TsPackets
  import opened TsMux
  import R = TsReader
  import opened PsiReading
  import opened FrameReading

  datatype Call = WriteFrame(track: nat, ptsUs: nat, randomAccess: bool, payload: seq<byte>) | WritePsi

  function Step(m: State, c: Call): (w: Written)
    requires Valid(m)
    ensures Valid(w.state) && AllSendable(w.packets) && |w.state.tracks| == |m.tracks|
  {
    match c
    case WritePsi => Written(Announced(m), Tables(m))
    case WriteFrame(track, ptsUs, randomAccess, payload) => TsMux.WriteFrame(m, track, ptsUs, randomAccess, payload)
  }

  function Run(m: State, calls: seq<Call>): (w: Written)
    requires Valid(m)
    ensures Valid(w.state) && AllSendable(w.packets)
    decreases |calls|
  {
    if calls == [] then Written(m, [])
    else
      var first := Step(m, calls[0]);
      var rest := Run(first.state, calls[1..]);
      Written(rest.state, first.packets + rest.packets)
  }

  /** A call that produces a chunk: a non-empty frame on a track that exists. */
  predicate Produces(c: Call, tracks: nat) {
    c.WriteFrame? && c.payload != [] && c.track < tracks
  }

  predicate IsKeyframe(c: Call) {
    c.WriteFrame? && c.randomAccess
  }

  predicate AllProduce(calls: seq<Call>, tracks: nat) {
    forall i :: 0 <= i < |calls| ==> Produces(calls[i], tracks)
  }

  // ------------------------------------------------------------ what should come back

  /** Whether the tables are (still) new to the reader when the call's frame starts. */
  function FreshAfter(m: State, pending: bool, c: Call): bool
    requires Valid(m)
  {
    match c
    case WritePsi => true
    case WriteFrame(track, ptsUs, randomAccess, payload) =>
      if payload == [] then pending
      else if track < |m.tracks| then false
      else pending || PsiDue(m, Clock(ptsUs), randomAccess)
  }

  /** The frame a call puts on `pid`. */
  function FrameOn(m: State, pending: bool, c: Call, pid: nat): seq<R.Frame>
    requires Valid(m)
  {
    if c.WriteFrame? && c.payload != [] && c.track < |m.tracks| && pid == FIRST_ES_PID + c.track
    then [R.Frame(pid, Pts(c.ptsUs), c.payload, c.randomAccess, DeclaredLength(|c.payload|),
                  pending || PsiDue(m, Clock(c.ptsUs), c.randomAccess))]
    else []
  }

  /** Every frame a run of calls puts on `pid`, in order. */
  function Expected(m: State, pending: bool, calls: seq<Call>, pid: nat): seq<R.Frame>
    requires Valid(m)
    decreases |calls|
  {
    if calls == [] then []
    else FrameOn(m, pending, calls[0], pid)
         + Expected(Step(m, calls[0]).state, FreshAfter(m, pending, calls[0]), calls[1..], pid)
  }

  /** The clock values that go out: one per frame on the PCR track. */
  function ExpectedClocks(m: State, calls: seq<Call>): seq<nat>
    requires Valid(m)
    decreases |calls|
  {
    if calls == [] then []
    else ClockOf(m, calls[0]) + ExpectedClocks(Step(m, calls[0]).state, calls[1..])
  }

  function ClockOf(m: State, c: Call): seq<nat> {
    if c.WriteFrame? && c.payload != [] && m.pcrTrack == Some(c.track) then [Clock(c.ptsUs)] else []
  }

  function ClocksRead(pcrs: seq<(nat, nat)>): seq<nat> {
    seq(|pcrs|, i requires 0 <= i < |pcrs| => pcrs[i].1)
  }

  // ------------------------------------------------------------ muxer and reader in step

  /** Every counter the reader holds is one behind the muxer's. */
  predicate InStep(m: State, r: R.Reader) {
    && CounterFits(r, PAT_PID, m.patContinuity)
    && CounterFits(r, PMT_PID, m.pmtContinuity)
    && forall i :: 0 <= i < |m.tracks| ==> CounterFits(r, m.tracks[i].pid, m.tracks[i].continuity)
  }

  /** The reader knows this muxer's program. */
  predicate Knows(m: State, r: R.Reader) {
    r.pmtPid == PMT_PID && r.streams == StreamList(m)
  }

  /** It knows the program, or the muxer is about to announce it. */
  predicate Ready(m: State, r: R.Reader) {
    Knows(m, r) || (r.streams == [] && m.lastPsi.None?)
  }

  lemma TrackListed(m: State, r: R.Reader, track: nat)
    requires Valid(m) && Knows(m, r) && track < |m.tracks|
    ensures R.Listed(r, FIRST_ES_PID + track)
  {
    assert r.streams[track].0 == FIRST_ES_PID + track;
  }

  /** What the reader has gained, seen from one side of a step. */
  predicate Gained(r: R.Reader, r': R.Reader, clocks: seq<nat>, pid: nat, frames: seq<R.Frame>) {
    && R.Delivered(r', pid) == R.Delivered(r, pid) + frames
    && ClocksRead(r'.pcrs) == ClocksRead(r.pcrs) + clocks
  }

  lemma TablesStep(m: State, r: R.Reader, pid: nat)
    requires Valid(m) && InStep(m, r)
    requires r.streams == [] || r.streams == StreamList(m)
    ensures R.FeedAll(r, Tables(m)) == Some(AfterTables(r, m))
    ensures var r' := AfterTables(r, m);
      InStep(Announced(m), r') && Knows(Announced(m), r') && r'.freshPsi && Gained(r, r', [], pid, [])
  {
    hide R.FeedAll, Tables, AfterTables, InStep, Knows, Gained;
    InStepOnTables(m, r);
    TablesRead(m, r);
    TablesKeepStep(m, r);
    TablesGain(m, r, pid);
  }

  lemma InStepOnTables(m: State, r: R.Reader)
    requires InStep(m, r)
    ensures CounterFits(r, PAT_PID, m.patContinuity) && CounterFits(r, PMT_PID, m.pmtContinuity)
  {
  }

  lemma TablesKeepStep(m: State, r: R.Reader)
    requires Valid(m) && InStep(m, r)
    ensures InStep(Announced(m), AfterTables(r, m))
    ensures Knows(Announced(m), AfterTables(r, m)) && AfterTables(r, m).freshPsi
  {
    hide PcrPid;
    assert Listing(Announced(m).tracks) == Listing(m.tracks);
    LastIsOneBehind(m.patContinuity, 1);
    LastIsOneBehind(m.pmtContinuity, 1);
  }

  /** The tables deliver nothing and carry no clock. */
  lemma TablesGain(m: State, r: R.Reader, pid: nat)
    requires Valid(m)
    ensures Gained(r, AfterTables(r, m), [], pid, [])
  {
    hide PcrPid, R.OnPid;
    assert R.Delivered(AfterTables(r, m), pid) == R.Delivered(r, pid);
  }

  lemma FrameStep(m: State, r: R.Reader, c: Call, pid: nat)
    requires Valid(m) && InStep(m, r) && Knows(m, r)
    requires c.WriteFrame? && c.track < |m.tracks| && c.payload != []
    ensures var ps := FramePackets(m, c.track, c.ptsUs, c.randomAccess, c.payload);
      && R.FeedAll(r, ps).Some?
      && var r' := R.FeedAll(r, ps).value;
      && InStep(Advance(m, c.track, |ps|), r')
      && Knows(Advance(m, c.track, |ps|), r')
      && !r'.freshPsi
      && Gained(r, r', ClockOf(m, c), pid,
                if pid == FIRST_ES_PID + c.track
                then [R.Frame(pid, Pts(c.ptsUs), c.payload, c.randomAccess, DeclaredLength(|c.payload|), r.freshPsi)]
                else [])
  {
    var t := m.tracks[c.track];
    var f := R.Frame(t.pid, Pts(c.ptsUs), c.payload, c.randomAccess, DeclaredLength(|c.payload|), r.freshPsi);
    var pcr := if m.pcrTrack == Some(c.track) then Some(Clock(c.ptsUs)) else None;
    var ps := FramePackets(m, c.track, c.ptsUs, c.randomAccess, c.payload);
    TrackListed(m, r, c.track);
    hide R.FeedAll, TsMux.Split, TsMux.PesHeader, Pts, Clock, DeclaredLength;
    WholeFrameRead(r, f, t.kind, t.continuity, pcr);
    var r' := FrameRead(r, f, pcr, LastCounter(t.continuity, |ps|), |ps|);
    FrameDelivers(r, f, pcr, LastCounter(t.continuity, |ps|), |ps|, pid);
    FrameKeepsStep(m, r, f, pcr, c.track, |ps|);
  }

  lemma OnPidAppend(frames: seq<R.Frame>, f: R.Frame, pid: nat)
    ensures R.OnPid(frames + [f], pid) == R.OnPid(frames, pid) + if pid == f.pid then [f] else []
  {
    assert (frames + [f])[..|frames|] == frames;
  }

  /** A frame that starts on an idle builder adds itself, closed or still open. */
  lemma FinishedDelivers(r: R.Reader, f: R.Frame, counter: nat, n: nat, pid: nat)
    requires !R.Builder(r, f.pid).open
    ensures R.Delivered(Finished(r, f.pid, Begun(f, f.payload), f.payload, counter, n), pid)
         == R.Delivered(r, pid) + if pid == f.pid then [f] else []
  {
    hide R.OnPid;
    assert R.AsFrame(f.pid, Begun(f, f.payload)) == f;
    OnPidAppend(r.frames, f, pid);
    assert r.frames + [] == r.frames;
  }

  lemma FrameDelivers(r: R.Reader, f: R.Frame, pcr: Option<nat>, counter: nat, n: nat, pid: nat)
    ensures Gained(r, FrameRead(r, f, pcr, counter, n), if pcr.Some? then [pcr.value] else [], pid,
                   if pid == f.pid then [f] else [])
  {
    R.FlushDelivers(r, f.pid, pid);
    var clocks := if pcr.Some? then [(r.index, pcr.value)] else [];
    var flushed := R.Flush(r, f.pid).(freshPsi := false, pcrs := r.pcrs + clocks);
    FinishedDelivers(flushed, f, counter, n, pid);
    assert R.Delivered(flushed, pid) == R.Delivered(r, pid);
    hide R.Delivered, R.Flush;
  }

  lemma FrameKeepsStep(m: State, r: R.Reader, f: R.Frame, pcr: Option<nat>, track: nat, n: nat)
    requires Valid(m) && InStep(m, r) && Knows(m, r) && track < |m.tracks| && n > 0
    requires f.pid == m.tracks[track].pid
    ensures var r' := FrameRead(r, f, pcr, LastCounter(m.tracks[track].continuity, n), n);
      && InStep(Advance(m, track, n), r')
      && Knows(Advance(m, track, n), r')
      && !r'.freshPsi
  {
    var r' := FrameRead(r, f, pcr, LastCounter(m.tracks[track].continuity, n), n);
    var m' := Advance(m, track, n);
    LastIsOneBehind(m.tracks[track].continuity, n);
    assert r'.continuity == r.continuity[f.pid := LastCounter(m.tracks[track].continuity, n)];
    assert Listing(m'.tracks) == Listing(m.tracks);
  }

  lemma LastIsOneBehind(c: nat, n: nat)
    requires n > 0
    ensures (c + n) % 256 % 16 == (LastCounter(c, n) + 1) % 16
  {
    var x := c + n;
    assert x == 16 * (16 * (x / 256) + x % 256 / 16) + x % 256 % 16;
    assert x + 15 == 16 * ((x + 15) / 16) + LastCounter(c, n);
  }

  // ------------------------------------------------------------ one call, any call

  /** What any call leaves true between muxer and reader. */
  lemma CallRead(m: State, r: R.Reader, c: Call, pid: nat)
    requires Valid(m) && InStep(m, r) && Ready(m, r)
    ensures var w := Step(m, c);
      && R.FeedAll(r, w.packets).Some?
      && var r' := R.FeedAll(r, w.packets).value;
      && InStep(w.state, r') && Ready(w.state, r')
      && (Knows(m, r) || w.packets != [] ==> Knows(w.state, r'))
      && r'.freshPsi == FreshAfter(m, r.freshPsi, c)
      && Gained(r, r', ClockOf(m, c), pid, FrameOn(m, r.freshPsi, c, pid))
  {
    hide R.FeedAll, Tables, FramePackets, R.Delivered, ClocksRead;
    R.FeedAllEnd(r);
    match c {
      case WritePsi =>
        TablesStep(m, r, pid);
      case WriteFrame(track, ptsUs, randomAccess, payload) =>
        if payload != [] {
          FrameCallRead(m, r, c, pid);
        }
    }
  }

  /** A frame, when the reader knows the program or the tables come in front of it. */
  lemma FrameCallRead(m: State, r: R.Reader, c: Call, pid: nat)
    requires Valid(m) && InStep(m, r)
    requires c.WriteFrame? && c.payload != []
    requires Knows(m, r) ||
      ((r.streams == [] || r.streams == StreamList(m)) && PsiDue(m, Clock(c.ptsUs), c.randomAccess))
    ensures var w := Step(m, c);
      && R.FeedAll(r, w.packets).Some?
      && var r' := R.FeedAll(r, w.packets).value;
      && InStep(w.state, r') && Knows(w.state, r')
      && r'.freshPsi == FreshAfter(m, r.freshPsi, c)
      && Gained(r, r', ClockOf(m, c), pid, FrameOn(m, r.freshPsi, c, pid))
  {
    hide R.FeedAll, Tables, FramePackets, R.Delivered, ClocksRead, AfterTables;
    R.FeedAllEnd(r);
    var clock := Clock(c.ptsUs);
    var due := PsiDue(m, clock, c.randomAccess);
    var tables := WriteTables(m, clock, c.randomAccess);
    if due {
      TablesStep(m, r, pid);
    }
    var r1 := if due then AfterTables(r, m) else r;
    assert R.FeedAll(r, tables.packets) == Some(r1);
    assert InStep(tables.state, r1) && Knows(tables.state, r1);
    assert Gained(r, r1, [], pid, []);
    assert r1.freshPsi == (r.freshPsi || due);
    if c.track < |m.tracks| {
      var frame := FramePackets(tables.state, c.track, c.ptsUs, c.randomAccess, c.payload);
      FrameStep(tables.state, r1, c, pid);
      R.FeedAllConcat(r, tables.packets, frame);
    }
  }

  // ------------------------------------------------------------ any run of calls

  /** From any pair in step, a run of calls reads back as exactly its frames. */
  lemma {:induction false} RunRead(m: State, r: R.Reader, calls: seq<Call>, pid: nat)
    requires Valid(m) && InStep(m, r) && Ready(m, r)
    ensures var w := Run(m, calls);
      && R.FeedAll(r, w.packets).Some?
      && var r' := R.FeedAll(r, w.packets).value;
      && InStep(w.state, r') && Ready(w.state, r')
      && (Knows(m, r) || w.packets != [] ==> Knows(w.state, r'))
      && Gained(r, r', ExpectedClocks(m, calls), pid, Expected(m, r.freshPsi, calls, pid))
    decreases |calls|
  {
    hide R.FeedAll, Step, R.Delivered, ClocksRead, InStep, Ready, FrameOn, ClockOf, FreshAfter;
    if calls == [] {
      R.FeedAllEnd(r);
    } else {
      var first := Step(m, calls[0]);
      CallRead(m, r, calls[0], pid);
      var r1 := R.FeedAll(r, first.packets).value;
      RunRead(first.state, r1, calls[1..], pid);
      R.FeedAllConcat(r, first.packets, Run(first.state, calls[1..]).packets);
    }
  }

  /** Reading bytes is reading the packets they encode. */
  lemma {:induction false} BytesAreBuilt(r: R.Reader, ps: seq<Packet>)
    requires AllSendable(ps)
    ensures R.FeedBytes(r, EncodeAll(ps)) == R.FeedAll(r, ps)
    decreases |ps|
  {
    hide R.Feed, Encode, Decode, EncodeAll;
    if ps == [] {
      EncodeAllNone();
    } else {
      EncodeAllFirst(ps);
      DecodeEncode(ps[0]);
      var e := EncodeAll(ps);
      assert e[..TS_PACKET_SIZE] == Encode(ps[0]) && e[TS_PACKET_SIZE..] == EncodeAll(ps[1..]);
      if R.Feed(r, ps[0]).Some? {
        BytesAreBuilt(R.Feed(r, ps[0]).value, ps[1..]);
      }
    }
  }

  /** The bytes a new muxer writes over a run of calls. */
  function Output(kinds: seq<StreamType>, calls: seq<Call>): seq<byte>
    requires |kinds| <= MAX_TRACKS
  {
    EncodeAll(Run(Initial(kinds), calls).packets)
  }

  /** A reader that has read nothing is in step with a new muxer. */
  lemma FreshIsReady(kinds: seq<StreamType>)
    requires |kinds| <= MAX_TRACKS
    ensures InStep(Initial(kinds), R.FRESH) && Ready(Initial(kinds), R.FRESH)
  {
  }

  lemma NothingFound(pid: nat)
    ensures R.Delivered(R.FRESH, pid) == [] && ClocksRead(R.FRESH.pcrs) == []
  {
  }

  /**
   The round trip. For any track list that fits a PMT and any interleaving of calls,
   a reader started on the first byte accepts the whole output, continuity check
   included, and has on every PID exactly the frames written to it.
   */
  lemma MuxerRoundTrip(kinds: seq<StreamType>, calls: seq<Call>)
    requires |kinds| <= MAX_TRACKS
    ensures R.FeedBytes(R.FRESH, Output(kinds, calls)).Some?
    ensures var read := R.FeedBytes(R.FRESH, Output(kinds, calls)).value;
      && (forall pid :: R.Delivered(read, pid) == Expected(Initial(kinds), false, calls, pid))
      && ClocksRead(read.pcrs) == ExpectedClocks(Initial(kinds), calls)
  {
    hide R.FeedAll, R.FeedBytes, Run, Expected, ExpectedClocks, EncodeAll, Initial, InStep, Ready, R.Delivered,
      ClocksRead;
    var m := Initial(kinds);
    var w := Run(m, calls);
    BytesAreBuilt(R.FRESH, w.packets);
    FreshIsReady(kinds);
    RunRead(m, R.FRESH, calls, 0);
    var read := R.FeedAll(R.FRESH, w.packets).value;
    NothingFound(0);
    forall pid
      ensures R.Delivered(read, pid) == Expected(m, false, calls, pid)
    {
      RunRead(m, R.FRESH, calls, pid);
      NothingFound(pid);
    }
  }
}
