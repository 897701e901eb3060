/**
 The packer: camera frames to fanout chunks. It owns the muxer and the clock, and it is
 what makes every pushed chunk exactly one non-empty `WriteFrame`, with the keyframes
 as resync points.
 */
module Packer {
  import opened Wrappers
  import opened Bytes
  import opened TsPackets
  import opened TsMux
  import M = TsMuxer
  import T = Timestamps
  import Adpcm
  import opened Fanout
  import FR = FanoutRuns
  import RT = RoundTrip
  import E = EndToEnd
  import B = Backlog

  datatype AudioPlan = PassAac | AdpcmToAlaw | Silent {
    function Kind(): Option<StreamType> {
      match this
      case PassAac => Some(Aac)
      case AdpcmToAlaw => Some(Pcma)
      case Silent => None
    }
  }

  /** A camera frame. An audio frame's duration is read from its own header. */
  datatype Media =
    | Iframe(camera: nat, data: seq<byte>)
    | Pframe(camera: nat, data: seq<byte>)
    | AacFrame(durationUs: nat, data: seq<byte>)
    | AdpcmFrame(durationUs: nat, data: seq<byte>)
    | Info

  /** A-law encoding, sample by sample; which byte a sample becomes is left open. */
  type Alaw = int -> byte

  predicate FromCamera(x: Media) {
    (x.Iframe? || x.Pframe?) ==> x.camera < T.CLOCK_WRAP
  }

  predicate AllFromCamera(xs: seq<Media>) {
    forall i :: 0 <= i < |xs| ==> FromCamera(xs[i])
  }

  function Kinds(video: StreamType, plan: AudioPlan): (kinds: seq<StreamType>)
    ensures 1 <= |kinds| <= 2 && (plan.Silent? <==> |kinds| == 1)
  {
    [video] + if plan.Kind().Some? then [plan.Kind().value] else []
  }

  /** The tracks are found where they were declared: video first, audio behind it. */
  predicate Tracked(m: State, plan: AudioPlan) {
    |m.tracks| == if plan.Silent? then 1 else 2
  }

  function Encoded(alaw: Alaw, samples: seq<int>): seq<byte> {
    seq(|samples|, i requires 0 <= i < |samples| => alaw(samples[i]))
  }

  // ------------------------------------------------------------ one frame

  /** The clock after a frame. An ADPCM block is timed even when it turns out undecodable. */
  function Timed(t: T.Tracker, plan: AudioPlan, x: Media): T.Tracker {
    match x
    case Iframe(camera, _) => T.AfterVideo(t, camera)
    case Pframe(camera, _) => T.AfterVideo(t, camera)
    case AacFrame(d, _) => if plan.PassAac? then T.AfterAudio(t, d) else t
    case AdpcmFrame(d, _) => if plan.AdpcmToAlaw? then T.AfterAudio(t, d) else t
    case Info => t
  }

  /** The access unit a frame is muxed as, if it is one for this plan. */
  function CallOf(t: T.Tracker, plan: AudioPlan, alaw: Alaw, x: Media): Option<RT.Call> {
    match x
    case Iframe(camera, data) => Some(RT.WriteFrame(0, T.AfterVideo(t, camera).lastVideoUs, true, data))
    case Pframe(camera, data) => Some(RT.WriteFrame(0, T.AfterVideo(t, camera).lastVideoUs, false, data))
    case AacFrame(_, data) => if plan.PassAac? then Some(RT.WriteFrame(1, T.AudioPts(t), false, data)) else None
    case AdpcmFrame(_, data) =>
      var samples := Adpcm.Decode(data);
      if plan.AdpcmToAlaw? && samples.Success?
      then Some(RT.WriteFrame(1, T.AudioPts(t), false, Encoded(alaw, samples.value)))
      else None
    case Info => None
  }

  /** What a frame puts on the wire: nothing for one without an access unit or with an empty one. */
  function Emitted(t: T.Tracker, plan: AudioPlan, alaw: Alaw, x: Media): (cs: seq<RT.Call>)
    ensures |cs| <= 1
  {
    var c := CallOf(t, plan, alaw, x);
    if c.Some? && c.value.payload != [] then [c.value] else []
  }

  lemma EmittedProduces(m: State, t: T.Tracker, plan: AudioPlan, alaw: Alaw, x: Media)
    requires Tracked(m, plan)
    ensures RT.AllProduce(Emitted(t, plan, alaw, x), |m.tracks|)
  {
  }

  /** A non-empty access unit never muxes to nothing. */
  lemma NeverNothing(m: State, c: RT.Call)
    requires Valid(m) && RT.Produces(c, |m.tracks|)
    ensures EncodeAll(RT.Step(m, c).packets) != []
  {
    hide EncodeAll, Encode, Split, PesHeader;
    var tables := WriteTables(m, Clock(c.ptsUs), c.randomAccess);
    var t := tables.state.tracks[c.track];
    var pcr := if tables.state.pcrTrack == Some(c.track) then Some(Clock(c.ptsUs)) else None;
    SplitStep(t.pid, t.continuity, PesHeader(t.kind, |c.payload|, Pts(c.ptsUs)) + c.payload, pcr, c.randomAccess, true);
    var ps := RT.Step(m, c).packets;
    assert ps != [];
    EncodeAllFirst(ps);
    EncodeSize(ps[0]);
  }

  lemma EncodeSize(p: Packet)
    requires Sendable(p)
    ensures Encode(p) != []
  {
  }

  // ------------------------------------------------------------ in place

  datatype Format = MpegTs | Annexb

  class Packer {
    const format: Format
    const plan: AudioPlan
    const alaw: Alaw
    const muxer: M.TsMuxer
    const tracker: T.TimestampTracker
    const video: nat
    const audio: Option<nat>
    var staging: seq<byte>

    ghost predicate Ready()
      reads this, muxer, tracker
    {
      && T.Valid(tracker.Model())
      && Valid(muxer.Model())
      && Tracked(muxer.Model(), plan)
      && video == 0
      && audio == if plan.Silent? then None else Some(1)
    }

    constructor (videoType: StreamType, plan: AudioPlan, format: Format, alaw: Alaw)
      requires videoType.IsVideo()
      ensures Ready() && fresh(muxer) && fresh(tracker)
      ensures this.format == format && this.plan == plan && this.alaw == alaw
      ensures muxer.Model() == Initial(Kinds(videoType, plan))
      ensures tracker.Model() == T.NEW_TRACKER
    {
      var kinds := Kinds(videoType, plan);
      var m := new M.TsMuxer(kinds);
      var clock := new T.TimestampTracker();
      var first := m.TrackOf(videoType);
      var second: Option<nat> := None;
      if plan.Kind().Some? {
        second := m.TrackOf(plan.Kind().value);
      }
      assert m.tracks[0].kind == videoType;
      assert |kinds| == 2 ==> m.tracks[1].kind == plan.Kind().value && m.tracks[1].kind != videoType;
      this.format := format;
      this.plan := plan;
      this.alaw := alaw;
      muxer := m;
      tracker := clock;
      video := if first.Some? then first.value else 0;
      audio := second;
      staging := [];
    }

    /** The access unit of one frame, timed. */
    method TimeFrame(x: Media) returns (c: Option<RT.Call>)
      requires Ready() && FromCamera(x)
      modifies tracker
      ensures Ready()
      ensures tracker.Model() == Timed(old(tracker.Model()), plan, x)
      ensures c == CallOf(old(tracker.Model()), plan, alaw, x)
      ensures c.Some? ==> c.value.ptsUs <= MAX_U64
    {
      hide T.AfterVideo, T.AfterAudio, Adpcm.Decode;
      match x {
        case Iframe(camera, data) =>
          var pts := tracker.NextVideoUs(camera);
          return Some(RT.WriteFrame(video, pts, true, data));
        case Pframe(camera, data) =>
          var pts := tracker.NextVideoUs(camera);
          return Some(RT.WriteFrame(video, pts, false, data));
        case AacFrame(d, data) =>
          if plan != PassAac {
            return None;
          }
          var pts := tracker.NextAudioUs(d);
          return Some(RT.WriteFrame(audio.value, pts, false, data));
        case AdpcmFrame(d, data) =>
          if plan != AdpcmToAlaw {
            return None;
          }
          var pts := tracker.NextAudioUs(d);
          var samples := Adpcm.DecodeBlock(data);
          if samples.Failure? {
            return None;
          }
          return Some(RT.WriteFrame(audio.value, pts, false, Encoded(alaw, samples.value)));
        case Info =>
          return None;
      }
    }

    /** Pack one frame of an MPEG-TS stream: nothing, or exactly the chunk of one muxed access unit. */
    method FrameTs(x: Media) returns (r: Option<Chunk>)
      requires Ready() && FromCamera(x) && format == MpegTs
      modifies this, muxer, tracker
      ensures Ready()
      ensures tracker.Model() == Timed(old(tracker.Model()), plan, x)
      ensures var emitted := Emitted(old(tracker.Model()), plan, alaw, x);
        && RT.AllProduce(emitted, |old(muxer.Model()).tracks|)
        && muxer.Model() == RT.Run(old(muxer.Model()), emitted).state
        && (if r.Some? then [r.value] else []) == E.Produced(old(muxer.Model()), emitted)
    {
      hide EncodeAll, TsMux.WriteFrame, RT.Run, E.Produced, CallOf;
      ghost var m := muxer.Model();
      EmittedProduces(m, tracker.Model(), plan, alaw, x);
      NoneMuxed(m);
      EncodeAllNone();
      staging := [];
      var c := TimeFrame(x);
      if c.None? {
        return None;
      }
      NothingToMux(m, c.value);
      CallShape(m, old(tracker.Model()), plan, alaw, x);
      staging := muxer.WriteFrame(c.value.track, c.value.ptsUs, c.value.randomAccess, c.value.payload, staging);
      assert staging == EncodeAll(RT.Step(m, c.value).packets);
      if c.value.payload != [] {
        NeverNothing(m, c.value);
        OneMuxed(m, c.value);
      }
      if staging == [] {
        return None;
      }
      r := Some(Chunk(staging, c.value.randomAccess, c.value.ptsUs));
      staging := [];
    }

    /** Pack one frame of a bare elementary stream: video only, as it comes. */
    method FrameAnnexb(x: Media) returns (r: Option<Chunk>)
      requires Ready() && FromCamera(x) && format == Annexb
      modifies this, tracker
      ensures Ready()
      ensures (x.Iframe? || x.Pframe?) ==> tracker.Model() == T.AfterVideo(old(tracker.Model()), x.camera)
      ensures !(x.Iframe? || x.Pframe?) ==> tracker.Model() == old(tracker.Model())
      ensures r.Some? <==> (x.Iframe? || x.Pframe?) && x.data != []
      ensures r.Some? ==> r.value == Chunk(x.data, x.Iframe?, tracker.lastVideoUs)
    {
      hide T.AfterVideo;
      staging := [];
      if !(x.Iframe? || x.Pframe?) {
        return None;
      }
      staging := staging + x.data;
      var pts := tracker.NextVideoUs(x.camera);
      if staging == [] {
        return None;
      }
      r := Some(Chunk(staging, x.Iframe?, pts));
      staging := [];
    }
  }

  lemma NothingToMux(m: State, c: RT.Call)
    requires Valid(m)
    ensures c.WriteFrame? && c.payload == [] ==> RT.Step(m, c) == Written(m, [])
  {
  }

  lemma CallShape(m: State, t: T.Tracker, plan: AudioPlan, alaw: Alaw, x: Media)
    requires Tracked(m, plan) && CallOf(t, plan, alaw, x).Some?
    ensures var c := CallOf(t, plan, alaw, x).value;
      c.WriteFrame? && (c.payload != [] ==> RT.Produces(c, |m.tracks|))
  {
  }

  lemma NoneMuxed(m: State)
    requires Valid(m)
    ensures RT.Run(m, []) == Written(m, []) && E.Produced(m, []) == []
  {
  }

  lemma OneMuxed(m: State, c: RT.Call)
    requires Valid(m) && RT.Produces(c, |m.tracks|)
    ensures RT.Run(m, [c]).state == RT.Step(m, c).state
    ensures E.Produced(m, [c]) == [E.ChunkOf(m, c)]
  {
    hide RT.Step, E.ChunkOf;
    assert [c][1..] == [];
  }

  // ------------------------------------------------------------ runs

  /** Every access unit a run of frames is muxed as. */
  function Calls(t: T.Tracker, plan: AudioPlan, alaw: Alaw, xs: seq<Media>): seq<RT.Call>
    decreases |xs|
  {
    if xs == [] then []
    else Emitted(t, plan, alaw, xs[0]) + Calls(Timed(t, plan, xs[0]), plan, alaw, xs[1..])
  }

  /** Everything the packer hands to the fanout for a run of frames, frame by frame. */
  function Packed(m: State, t: T.Tracker, plan: AudioPlan, alaw: Alaw, xs: seq<Media>): seq<Chunk>
    requires Valid(m) && Tracked(m, plan)
    decreases |xs|
  {
    if xs == [] then []
    else
      EmittedProduces(m, t, plan, alaw, xs[0]);
      var emitted := Emitted(t, plan, alaw, xs[0]);
      StaysTracked(m, emitted);
      E.Produced(m, emitted) + Packed(RT.Run(m, emitted).state, Timed(t, plan, xs[0]), plan, alaw, xs[1..])
  }

  lemma {:induction false} StaysTracked(m: State, calls: seq<RT.Call>)
    requires Valid(m)
    ensures |RT.Run(m, calls).state.tracks| == |m.tracks|
    decreases |calls|
  {
    hide RT.Step;
    if calls != [] {
      StaysTracked(RT.Step(m, calls[0]).state, calls[1..]);
    }
  }

  lemma {:induction false} CallsProduce(m: State, t: T.Tracker, plan: AudioPlan, alaw: Alaw, xs: seq<Media>)
    requires Tracked(m, plan)
    ensures RT.AllProduce(Calls(t, plan, alaw, xs), |m.tracks|)
    decreases |xs|
  {
    hide Emitted, Timed;
    if xs != [] {
      EmittedProduces(m, t, plan, alaw, xs[0]);
      CallsProduce(m, Timed(t, plan, xs[0]), plan, alaw, xs[1..]);
    }
  }

  lemma {:induction false} ProducedConcat(m: State, a: seq<RT.Call>, b: seq<RT.Call>)
    requires Valid(m) && RT.AllProduce(a, |m.tracks|) && RT.AllProduce(b, |m.tracks|)
    ensures |RT.Run(m, a).state.tracks| == |m.tracks|
    ensures RT.AllProduce(a + b, |m.tracks|)
    ensures E.Produced(m, a + b) == E.Produced(m, a) + E.Produced(RT.Run(m, a).state, b)
    decreases |a|
  {
    hide RT.Step, RT.Run, E.Produced, E.ChunkOf, RT.AllProduce;
    StaysTracked(m, a);
    BothProduce(a, b, |m.tracks|);
    if a == [] {
      assert a + b == b;
      NoneMuxed(m);
    } else {
      var m' := RT.Step(m, a[0]).state;
      ProducedConcat(m', a[1..], b);
      assert (a + b)[1..] == a[1..] + b;
      FirstMuxed(m, a);
      FirstMuxed(m, a + b);
    }
  }

  lemma BothProduce(a: seq<RT.Call>, b: seq<RT.Call>, tracks: nat)
    requires RT.AllProduce(a, tracks) && RT.AllProduce(b, tracks)
    ensures RT.AllProduce(a + b, tracks)
    ensures a != [] ==> RT.AllProduce(a[1..], tracks) && RT.Produces(a[0], tracks)
  {
  }

  lemma FirstMuxed(m: State, calls: seq<RT.Call>)
    requires Valid(m) && RT.AllProduce(calls, |m.tracks|) && calls != []
    ensures RT.Run(m, calls).state == RT.Run(RT.Step(m, calls[0]).state, calls[1..]).state
    ensures E.Produced(m, calls)
         == [E.ChunkOf(m, calls[0])] + E.Produced(RT.Step(m, calls[0]).state, calls[1..])
  {
    hide RT.Step, E.ChunkOf;
  }

  /**
   What the packer pushes is one chunk per non-empty access unit, with the keyframes as
   resync points: the form the end-to-end theorems take the history in.
   */
  lemma {:induction false} PackedIsProduced(m: State, t: T.Tracker, plan: AudioPlan, alaw: Alaw, xs: seq<Media>)
    requires Valid(m) && Tracked(m, plan)
    ensures RT.AllProduce(Calls(t, plan, alaw, xs), |m.tracks|)
    ensures Packed(m, t, plan, alaw, xs) == E.Produced(m, Calls(t, plan, alaw, xs))
    decreases |xs|
  {
    hide RT.Run, E.Produced, Emitted, Timed;
    CallsProduce(m, t, plan, alaw, xs);
    if xs == [] {
      NoneMuxed(m);
    } else {
      var emitted := Emitted(t, plan, alaw, xs[0]);
      var t' := Timed(t, plan, xs[0]);
      EmittedProduces(m, t, plan, alaw, xs[0]);
      StaysTracked(m, emitted);
      CallsProduce(m, t', plan, alaw, xs[1..]);
      PackedIsProduced(RT.Run(m, emitted).state, t', plan, alaw, xs[1..]);
      ProducedConcat(m, emitted, Calls(t', plan, alaw, xs[1..]));
    }
  }

  /** What one packer pushes over its life. */
  function History(f: Feed, alaw: Alaw): seq<Chunk> {
    Packed(Initial(Kinds(f.video, f.plan)), T.NEW_TRACKER, f.plan, alaw, f.xs)
  }

  // ------------------------------------------------------------ one fanout, many packers

  /** One camera session: what was learned of the stream, and the frames that came. */
  datatype Feed = Feed(video: StreamType, plan: AudioPlan, xs: seq<Media>)

  function SessionOf(f: Feed, alaw: Alaw): E.Session {
    E.Session(Kinds(f.video, f.plan), Calls(T.NEW_TRACKER, f.plan, alaw, f.xs))
  }

  function SessionsOf(fs: seq<Feed>, alaw: Alaw): (ss: seq<E.Session>)
    ensures |ss| == |fs|
  {
    if fs == [] then [] else [SessionOf(fs[0], alaw)] + SessionsOf(fs[1..], alaw)
  }

  /** The history of a fanout: a packer for every session, one after the other. */
  function Histories(fs: seq<Feed>, alaw: Alaw): seq<Chunk> {
    if fs == [] then [] else History(fs[0], alaw) + Histories(fs[1..], alaw)
  }

  lemma SessionIsLawful(f: Feed, alaw: Alaw)
    ensures E.Lawful(SessionOf(f, alaw))
    ensures History(f, alaw) == E.Produced(Initial(SessionOf(f, alaw).kinds), SessionOf(f, alaw).calls)
  {
    hide RT.AllProduce, E.Produced, Packed, Calls;
    PackedIsProduced(Initial(Kinds(f.video, f.plan)), T.NEW_TRACKER, f.plan, alaw, f.xs);
  }

  /** Whatever the cameras send, the history is one the end-to-end theorems speak of. */
  lemma {:induction false} HistoriesAreFed(fs: seq<Feed>, alaw: Alaw)
    ensures E.AllLawful(SessionsOf(fs, alaw))
    ensures Histories(fs, alaw) == E.Fed(SessionsOf(fs, alaw))
  {
    hide History, SessionOf, E.Produced;
    if fs == [] {
      E.NothingFed();
    } else {
      SessionIsLawful(fs[0], alaw);
      HistoriesAreFed(fs[1..], alaw);
      var ss := SessionsOf(fs, alaw);
      assert ss[0] == SessionOf(fs[0], alaw) && ss[1..] == SessionsOf(fs[1..], alaw);
    }
  }

  /**
   From cameras to reader: whatever the camera sent over any number of sessions and
   whatever the readers did, every gap-free stretch a consumer was handed from a keyframe
   on is accepted exactly if the sessions in it join on, and then reads back as the access
   units the packers made of it.
   */
  lemma CameraToReader(fs: seq<Feed>, alaw: Alaw, limit: Option<nat>, es: seq<FR.Event>, id: nat, i: nat, j: nat)
    requires FR.Run(limit, es).history == Histories(fs, alaw)
    requires id in FR.Run(limit, es).consumers
    requires i < j <= |FR.Kept(FR.Run(limit, es).consumers[id])|
    ensures var ss := SessionsOf(fs, alaw);
      var kept := FR.Kept(FR.Run(limit, es).consumers[id]);
      && E.AllLawful(ss)
      && E.Within(kept, |E.AllCalls(ss)|)
      && (E.Gapless(kept, i, j) && E.Fed(ss)[kept[i]].resyncPoint ==>
            && kept[i] + (j - i) <= |E.AllCalls(ss)|
            && E.SegmentReads(ss, kept[i], kept[i] + (j - i), E.Handed(E.Fed(ss), kept, i, j)))
  {
    hide FR.Run, E.SegmentReads, Histories, SessionsOf, E.Fed, E.AllLawful, E.Gapless;
    HistoriesAreFed(fs, alaw);
    E.EveryConsumerReads(SessionsOf(fs, alaw), limit, es, id, i, j);
  }

  // ------------------------------------------------------------ when chunk times are ordered

  lemma {:induction false} SilentPtsOrdered(m: State, t: T.Tracker, alaw: Alaw, xs: seq<Media>)
    requires Valid(m) && Tracked(m, Silent) && T.Valid(t) && AllFromCamera(xs)
    ensures forall c :: c in Packed(m, t, Silent, alaw, xs) ==> c.ptsUs >= t.lastVideoUs
    ensures B.Disorder(Packed(m, t, Silent, alaw, xs), 0)
    decreases |xs|
  {
    hide RT.Run, RT.Step, EncodeAll;
    if xs != [] {
      var x := xs[0];
      var emitted := Emitted(t, Silent, alaw, x);
      var t' := Timed(t, Silent, x);
      VideoAdvances(t, x);
      EmittedProduces(m, t, Silent, alaw, x);
      StaysTracked(m, emitted);
      SilentPtsOrdered(RT.Run(m, emitted).state, t', alaw, xs[1..]);
      OneChunk(m, t, alaw, x);
    }
  }

  lemma VideoAdvances(t: T.Tracker, x: Media)
    requires T.Valid(t) && FromCamera(x)
    ensures T.Valid(Timed(t, Silent, x))
    ensures t.lastVideoUs <= Timed(t, Silent, x).lastVideoUs
  {
  }

  lemma OneChunk(m: State, t: T.Tracker, alaw: Alaw, x: Media)
    requires Valid(m) && Tracked(m, Silent)
    ensures var emitted := Emitted(t, Silent, alaw, x);
      && RT.AllProduce(emitted, |m.tracks|)
      && |E.Produced(m, emitted)| <= 1
      && forall c :: c in E.Produced(m, emitted) ==> c.ptsUs == Timed(t, Silent, x).lastVideoUs
  {
    hide RT.Step, EncodeAll, T.AfterVideo;
    EmittedProduces(m, t, Silent, alaw, x);
  }

  predicate Quiet(f: Feed) {
    f.plan.Silent? && AllFromCamera(f.xs)
  }

  lemma QuietIsOrdered(f: Feed, alaw: Alaw)
    requires Quiet(f)
    ensures B.Disorder(History(f, alaw), 0)
  {
    hide B.Disorder, Packed;
    SilentPtsOrdered(Initial(Kinds(f.video, Silent)), T.NEW_TRACKER, alaw, f.xs);
  }

  /**
   Without audio the limit bounds the backlog of every reader that attached during the
   session going on, whatever the camera sends and whatever sessions there were before.
   */
  lemma SilentBacklogBounded(
      before: seq<Feed>, f: Feed, alaw: Alaw, limit: nat, es: seq<FR.Event>, id: nat)
    requires Quiet(f)
    requires FR.Run(Some(limit), es).history == Histories(before, alaw) + History(f, alaw)
    requires id in FR.Run(Some(limit), es).consumers
    requires B.Joined(Some(limit), es, id) >= |Histories(before, alaw)|
    ensures B.Bounded(FR.Run(Some(limit), es).consumers[id].queue, limit)
  {
    hide FR.Run, B.Disorder, B.Joined, Histories, History, B.Bounded;
    QuietIsOrdered(f, alaw);
    var h := FR.Run(Some(limit), es).history;
    var from := B.Joined(Some(limit), es, id);
    B.JoinedWithin(Some(limit), es, id);
    B.DisorderAfter(History(f, alaw), from - |Histories(before, alaw)|, 0);
    assert h[from..] == History(f, alaw)[from - |Histories(before, alaw)|..];
    B.BacklogBounded(limit, es, id, 0);
  }

  lemma QuietDisorder(before: seq<Chunk>, f: Feed, alaw: Alaw, d: nat)
    requires Quiet(f) && forall c :: c in before ==> c.ptsUs <= d
    ensures B.Disorder(before + History(f, alaw), d)
  {
    hide History, Quiet;
    QuietIsOrdered(f, alaw);
    var h := before + History(f, alaw);
    forall i, j | 0 <= i < j < |h|
      ensures h[i].ptsUs <= h[j].ptsUs + d
    {
      if i < |before| {
        assert h[i] in before;
      } else {
        assert h[i] == History(f, alaw)[i - |before|] && h[j] == History(f, alaw)[j - |before|];
      }
    }
  }

  /**
   A reader kept on from earlier sessions, whose times start again from zero at every
   seam, can fall behind by no more than the latest time those sessions reached beside it.
   */
  lemma SilentSessionsBounded(before: seq<Feed>, f: Feed, alaw: Alaw, limit: nat, es: seq<FR.Event>, d: nat)
    requires Quiet(f)
    requires FR.Run(Some(limit), es).history == Histories(before, alaw) + History(f, alaw)
    requires forall c :: c in Histories(before, alaw) ==> c.ptsUs <= d
    ensures B.AllBounded(FR.Run(Some(limit), es), limit + d)
  {
    hide FR.Run, B.AllBounded, B.Disorder, Histories, History, Quiet;
    QuietDisorder(Histories(before, alaw), f, alaw, d);
    B.AllBacklogsBounded(limit, es, d);
  }

  // ------------------------------------------------------------ where the limit is outgrown

  /** The clock and the access units, one frame at a time. */
  lemma CallsStep(t: T.Tracker, plan: AudioPlan, alaw: Alaw, x: Media, rest: seq<Media>)
    ensures Calls(t, plan, alaw, [x] + rest) == Emitted(t, plan, alaw, x) + Calls(Timed(t, plan, x), plan, alaw, rest)
  {
    hide Emitted, Timed;
    assert ([x] + rest)[1..] == rest;
  }

  /** A keyframe, two audio frames that outrun the video clock, and two video frames behind and ahead of them. */
  function Outrun(data: byte): seq<Media> {
    [Iframe(0, [data]), AacFrame(100, [data]), AacFrame(100, [data]), Pframe(50, [data]), Pframe(160, [data])]
  }

  /** Chunk times with audio step back: the two audio frames come at 0 and 100, the video frame after them at 50. */
  lemma AudioOutrunsVideo(alaw: Alaw, data: byte)
    ensures Calls(T.NEW_TRACKER, PassAac, alaw, Outrun(data))
         == [RT.WriteFrame(0, 0, true, [data]), RT.WriteFrame(1, 0, false, [data]),
             RT.WriteFrame(1, 100, false, [data]), RT.WriteFrame(0, 50, false, [data]),
             RT.WriteFrame(0, 160, false, [data])]
  {
    var i, a, p, q := Iframe(0, [data]), AacFrame(100, [data]), Pframe(50, [data]), Pframe(160, [data]);
    var t0, t1 := T.Tracker(Some(0), 0, 0, false, 0), T.Tracker(Some(0), 0, 100, true, 0);
    var t2 := T.Tracker(Some(0), 0, 200, true, 0);
    var t3, t4 := T.Tracker(Some(50), 50, 200, true, 0), T.Tracker(Some(160), 160, 200, true, 0);
    OutrunTimes(data);
    hide Calls, Timed, Emitted;
    CallsStep(T.NEW_TRACKER, PassAac, alaw, i, [a, a, p, q]);
    CallsStep(t0, PassAac, alaw, a, [a, p, q]);
    CallsStep(t1, PassAac, alaw, a, [p, q]);
    CallsStep(t2, PassAac, alaw, p, [q]);
    CallsStep(t3, PassAac, alaw, q, []);
    NoCallsLeft(t4, PassAac, alaw);
    OutrunEmits(alaw, data);
    assert [i] + [a, a, p, q] == Outrun(data) && [a] + [a, p, q] == [a, a, p, q] && [a] + [p, q] == [a, p, q];
    assert [p] + [q] == [p, q] && [q] + [] == [q];
  }

  lemma NoCallsLeft(t: T.Tracker, plan: AudioPlan, alaw: Alaw)
    ensures Calls(t, plan, alaw, []) == []
  {
  }

  lemma OutrunTimes(data: byte)
    ensures Timed(T.NEW_TRACKER, PassAac, Iframe(0, [data])) == T.Tracker(Some(0), 0, 0, false, 0)
    ensures Timed(T.Tracker(Some(0), 0, 0, false, 0), PassAac, AacFrame(100, [data]))
         == T.Tracker(Some(0), 0, 100, true, 0)
    ensures Timed(T.Tracker(Some(0), 0, 100, true, 0), PassAac, AacFrame(100, [data]))
         == T.Tracker(Some(0), 0, 200, true, 0)
    ensures Timed(T.Tracker(Some(0), 0, 200, true, 0), PassAac, Pframe(50, [data]))
         == T.Tracker(Some(50), 50, 200, true, 0)
    ensures Timed(T.Tracker(Some(50), 50, 200, true, 0), PassAac, Pframe(160, [data]))
         == T.Tracker(Some(160), 160, 200, true, 0)
  {
  }

  lemma OutrunEmits(alaw: Alaw, data: byte)
    ensures Emitted(T.NEW_TRACKER, PassAac, alaw, Iframe(0, [data])) == [RT.WriteFrame(0, 0, true, [data])]
    ensures Emitted(T.Tracker(Some(0), 0, 0, false, 0), PassAac, alaw, AacFrame(100, [data]))
         == [RT.WriteFrame(1, 0, false, [data])]
    ensures Emitted(T.Tracker(Some(0), 0, 100, true, 0), PassAac, alaw, AacFrame(100, [data]))
         == [RT.WriteFrame(1, 100, false, [data])]
    ensures Emitted(T.Tracker(Some(0), 0, 200, true, 0), PassAac, alaw, Pframe(50, [data]))
         == [RT.WriteFrame(0, 50, false, [data])]
    ensures Emitted(T.Tracker(Some(50), 50, 200, true, 0), PassAac, alaw, Pframe(160, [data]))
         == [RT.WriteFrame(0, 160, false, [data])]
  {
  }

  /** The times and the first flag of a history decide whether it is smooth. */
  lemma RoughHistory(ss: seq<E.Session>, limit: nat, i: nat, j: nat, k: nat)
    requires E.AllLawful(ss) && i < j < k < |E.AllCalls(ss)| && E.KeyframeAt(ss, 0)
    requires forall m :: 0 <= m < |E.AllCalls(ss)| ==> E.AllCalls(ss)[m].WriteFrame?
    requires forall m :: i < m <= k ==> E.AllCalls(ss)[m].ptsUs <= E.AllCalls(ss)[i].ptsUs + limit
    requires E.AllCalls(ss)[k].ptsUs > E.AllCalls(ss)[j].ptsUs + limit
    ensures !B.AlwaysBounded(E.Fed(ss), limit)
  {
    hide E.AllLawful, E.Fed, E.AllCalls, B.AlwaysBounded;
    var h := E.Fed(ss);
    forall m | 0 <= m < |h|
      ensures h[m].ptsUs == E.AllCalls(ss)[m].ptsUs && h[m].resyncPoint == E.AllCalls(ss)[m].randomAccess
    {
      E.FedCarries(ss, m);
    }
    assert B.Reached(h, i + 1) by {
      assert h[0].resyncPoint;
    }
    assert B.Near(h, limit, i, k);
    assert !B.Level(h, limit, j, k);
    B.BoundedIff(h, limit);
  }

  /**
   With audio the limit alone is no bound: over what the packer makes of these five frames
   some reader ends up with more than 100 us queued under a limit of 100.
   */
  lemma AudioOutgrowsLimit(video: StreamType, alaw: Alaw, data: byte)
    ensures !B.AlwaysBounded(Histories([Feed(video, PassAac, Outrun(data))], alaw), 100)
  {
    hide B.AlwaysBounded, Calls, E.Fed, Outrun, Histories;
    var fs := [Feed(video, PassAac, Outrun(data))];
    HistoriesAreFed(fs, alaw);
    AudioOutrunsVideo(alaw, data);
    assert fs[1..] == [];
    var ss := SessionsOf(fs, alaw);
    assert ss == [SessionOf(fs[0], alaw)] && ss[1..] == [];
    assert E.AllCalls(ss) == ss[0].calls + [] == ss[0].calls;
    RoughHistory(ss, 100, 2, 3, 4);
  }

  /** Without audio a seam can do it: the new session's times start from zero behind the old one's last chunk. */
  lemma SeamOutgrowsLimit(video: StreamType, alaw: Alaw, data: byte)
    ensures var a := Feed(video, Silent, [Iframe(0, [data]), Pframe(1_000, [data])]);
      var b := Feed(video, Silent, [Iframe(0, [data]), Pframe(1_050, [data])]);
      Quiet(a) && Quiet(b) && !B.AlwaysBounded(Histories([a, b], alaw), 100)
  {
    hide B.AlwaysBounded, Calls, E.Fed, Histories;
    var a := Feed(video, Silent, [Iframe(0, [data]), Pframe(1_000, [data])]);
    var b := Feed(video, Silent, [Iframe(0, [data]), Pframe(1_050, [data])]);
    HistoriesAreFed([a, b], alaw);
    TwoFrames(alaw, 1_000, data);
    TwoFrames(alaw, 1_050, data);
    var ss := SessionsOf([a, b], alaw);
    assert [a, b][1..] == [b] && [b][1..] == [];
    assert SessionsOf([b], alaw) == [SessionOf(b, alaw)];
    assert ss == [SessionOf(a, alaw), SessionOf(b, alaw)] && ss[1..] == [SessionOf(b, alaw)] && ss[1..][1..] == [];
    assert E.AllCalls(ss[1..]) == ss[1].calls + [] == ss[1].calls;
    assert E.AllCalls(ss) == ss[0].calls + ss[1].calls;
    RoughHistory(ss, 100, 1, 2, 3);
  }

  lemma TwoFrames(alaw: Alaw, camera: nat, data: byte)
    requires 0 < camera <= T.MAX_FORWARD_JUMP_US
    ensures Calls(T.NEW_TRACKER, Silent, alaw, [Iframe(0, [data]), Pframe(camera, [data])])
         == [RT.WriteFrame(0, 0, true, [data]), RT.WriteFrame(0, camera, false, [data])]
  {
    var i, p := Iframe(0, [data]), Pframe(camera, [data]);
    var t := T.Tracker(Some(0), 0, 0, false, 0);
    TwoTimes(alaw, camera, data);
    hide Calls, Timed, Emitted;
    CallsStep(T.NEW_TRACKER, Silent, alaw, i, [p]);
    CallsStep(t, Silent, alaw, p, []);
    NoCallsLeft(Timed(t, Silent, p), Silent, alaw);
    assert [i] + [p] == [i, p] && [p] + [] == [p];
  }

  lemma TwoTimes(alaw: Alaw, camera: nat, data: byte)
    requires 0 < camera <= T.MAX_FORWARD_JUMP_US
    ensures Timed(T.NEW_TRACKER, Silent, Iframe(0, [data])) == T.Tracker(Some(0), 0, 0, false, 0)
    ensures Emitted(T.NEW_TRACKER, Silent, alaw, Iframe(0, [data])) == [RT.WriteFrame(0, 0, true, [data])]
    ensures Emitted(T.Tracker(Some(0), 0, 0, false, 0), Silent, alaw, Pframe(camera, [data]))
         == [RT.WriteFrame(0, camera, false, [data])]
  {
    T.WrapDelta(0, camera);
  }
}
