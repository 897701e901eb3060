/**
 The GOP-aligned token bucket behind `max_fps`, and the relay that feeds it: every
 video frame goes through the timestamp tracker first, and only then through the
 limiter.
 */
module GopLimit {
  import opened Wrappers
  import Timestamps

  const BURST_CAP_US: nat := 5_000_000
  const MAX_I64: nat := 0x7FFF_FFFF_FFFF_FFFF
  const SECOND_US: nat := 1_000_000

  datatype Frame = Frame(pts: nat, key: bool)

  datatype Limiter = Limiter(intervalUs: int, lastPts: Option<nat>, creditUs: int, chainIntact: bool)

  function ForConfig(maxFps: Option<nat>): Option<Limiter> {
    if maxFps.None? || maxFps.value == 0 then None
    else Some(Limiter(SECOND_US / maxFps.value, None, 0, false))
  }

  /** The allowance once the time since the previous frame has been banked. */
  function Accrued(l: Limiter, pts: nat): int {
    if l.lastPts.None? then l.creditUs
    else
      var elapsed := Min(Max(pts - l.lastPts.value, 0), MAX_I64);
      Min(Min(l.creditUs + elapsed, MAX_I64), BURST_CAP_US)
  }

  /** Whether the limiter lets a frame through. */
  predicate Admits(l: Limiter, f: Frame) {
    f.key || (l.chainIntact && Accrued(l, f.pts) >= l.intervalUs)
  }

  function After(l: Limiter, f: Frame): Limiter {
    var credit := Accrued(l, f.pts);
    Limiter(
      l.intervalUs,
      Some(f.pts),
      if f.key then Max(credit - l.intervalUs, 0) else if Admits(l, f) then credit - l.intervalUs else credit,
      Admits(l, f))
  }

  predicate Valid(l: Limiter) {
    0 <= l.intervalUs <= SECOND_US && 0 <= l.creditUs <= BURST_CAP_US
  }

  // ------------------------------------------------------------ in place

  class GopLimiter {
    const intervalUs: int
    var lastPts: Option<nat>
    var creditUs: int
    var chainIntact: bool

    ghost function Model(): Limiter
      reads this
    {
      Limiter(intervalUs, lastPts, creditUs, chainIntact)
    }

    constructor (maxFps: nat)
      requires maxFps > 0
      ensures Valid(Model())
      ensures ForConfig(Some(maxFps)) == Some(Model())
    {
      intervalUs := SECOND_US / maxFps;
      lastPts := None;
      creditUs := 0;
      chainIntact := false;
      new;
      IntervalIsRate(maxFps);
    }

    method Admit(pts: nat, isKeyframe: bool) returns (send: bool)
      requires Valid(Model())
      modifies this
      ensures Valid(Model())
      ensures send == Admits(old(Model()), Frame(pts, isKeyframe))
      ensures Model() == After(old(Model()), Frame(pts, isKeyframe))
    {
      if lastPts.Some? {
        var elapsed := Min(Max(pts - lastPts.value, 0), MAX_I64);
        creditUs := Min(Min(creditUs + elapsed, MAX_I64), BURST_CAP_US);
      }
      lastPts := Some(pts);
      if isKeyframe {
        chainIntact := true;
        creditUs := Max(creditUs - intervalUs, 0);
        return true;
      }
      if !chainIntact {
        return false;
      }
      if creditUs >= intervalUs {
        creditUs := creditUs - intervalUs;
        send := true;
      } else {
        chainIntact := false;
        send := false;
      }
    }
  }

  /** The optional limiter a client gets: none at all for an unset or zero rate. */
  method NewLimiter(maxFps: Option<nat>) returns (limiter: GopLimiter?)
    ensures limiter == null <==> ForConfig(maxFps).None?
    ensures limiter != null ==> fresh(limiter) && Valid(limiter.Model()) && ForConfig(maxFps) == Some(limiter.Model())
  {
    if maxFps.None? || maxFps.value == 0 {
      return null;
    }
    limiter := new GopLimiter(maxFps.value);
  }

  /** The charge per frame is the frame interval of the configured rate, rounded down. */
  lemma IntervalIsRate(maxFps: nat)
    requires maxFps > 0
    ensures var interval := SECOND_US / maxFps;
      0 <= interval <= SECOND_US && interval * maxFps <= SECOND_US < (interval + 1) * maxFps
  {
    var interval := SECOND_US / maxFps;
    var rest := SECOND_US % maxFps;
    assert SECOND_US == maxFps * interval + rest;
    assert (interval + 1) * maxFps == maxFps * interval + maxFps;
  }

  // ------------------------------------------------------------ runs

  function Run(l: Limiter, fs: seq<Frame>): Limiter {
    if fs == [] then l else After(Run(l, fs[..|fs| - 1]), fs[|fs| - 1])
  }

  /** Whether frame `k` of a run is forwarded. */
  predicate Sent(l: Limiter, fs: seq<Frame>, k: nat)
    requires k < |fs|
  {
    Admits(Run(l, fs[..k]), fs[k])
  }

  predicate NoKey(fs: seq<Frame>, from: nat, upto: nat)
    requires upto <= |fs|
  {
    forall k :: from <= k < upto ==> !fs[k].key
  }

  predicate Ordered(fs: seq<Frame>) {
    forall i, j :: 0 <= i < j < |fs| ==> fs[i].pts <= fs[j].pts
  }

  /** How many P-frames of a run are forwarded. */
  function SentDeltas(l: Limiter, fs: seq<Frame>): nat {
    if fs == [] then 0
    else
      var n := |fs| - 1;
      SentDeltas(l, fs[..n]) + if !fs[n].key && Sent(l, fs, n) then 1 else 0
  }

  lemma {:induction false} RunAppend(l: Limiter, a: seq<Frame>, b: seq<Frame>)
    ensures Run(l, a + b) == Run(Run(l, a), b)
  {
    if b == [] {
      assert a + b == a;
    } else {
      assert (a + b)[..|a + b| - 1] == a + b[..|b| - 1];
      RunAppend(l, a, b[..|b| - 1]);
    }
  }

  /** The allowance never goes negative and never exceeds the cap, after any frames at all. */
  lemma {:induction false} CreditBounded(l: Limiter, fs: seq<Frame>)
    requires Valid(l)
    ensures Valid(Run(l, fs))
    ensures Run(l, fs).intervalUs == l.intervalUs
    ensures fs != [] ==> Run(l, fs).lastPts == Some(fs[|fs| - 1].pts)
  {
    if fs != [] {
      CreditBounded(l, fs[..|fs| - 1]);
    }
  }

  /** One frame: what it is charged plus what is left never exceeds what was there. */
  lemma Charge(l: Limiter, f: Frame)
    requires Valid(l)
    ensures (if !f.key && Admits(l, f) then l.intervalUs else 0) + After(l, f).creditUs <= Accrued(l, f.pts)
  {
  }

  lemma Times(a: nat, b: nat, c: nat)
    ensures a * (b + c) == a * b + a * c
  {
  }

  /**
   The bucket's ledger, from any reachable state on: what the forwarded P-frames cost
   plus what is still banked is at most the cap plus the time the frames span.
   */
  lemma {:induction false} Ledger(l: Limiter, fs: seq<Frame>)
    requires Valid(l) && Ordered(fs) && fs != []
    ensures l.intervalUs * SentDeltas(l, fs) + Run(l, fs).creditUs
         <= BURST_CAP_US + (fs[|fs| - 1].pts - fs[0].pts)
  {
    hide After, Admits;
    var n := |fs| - 1;
    var before := Run(l, fs[..n]);
    CreditBounded(l, fs[..n]);
    Charge(before, fs[n]);
    Times(l.intervalUs, SentDeltas(l, fs[..n]), if !fs[n].key && Sent(l, fs, n) then 1 else 0);
    if n > 0 {
      Ledger(l, fs[..n]);
      assert fs[..n][n - 1].pts <= fs[n].pts;
    } else {
      assert SentDeltas(l, fs[..0]) == 0;
    }
  }

  /**
   The rate bound, over any window of any run: forwarded P-frames times the frame
   interval never exceed the burst cap plus the window's own duration, whatever was
   banked or stalled before it.
   */
  lemma WindowBound(l: Limiter, fs: seq<Frame>, first: nat, end: nat)
    requires Valid(l) && Ordered(fs) && first < end <= |fs|
    ensures l.intervalUs * SentDeltas(Run(l, fs[..first]), fs[first..end])
         <= BURST_CAP_US + (fs[end - 1].pts - fs[first].pts)
  {
    hide After, Admits, Run, SentDeltas;
    var w := fs[first..end];
    CreditBounded(l, fs[..first]);
    CreditBounded(Run(l, fs[..first]), w);
    Ledger(Run(l, fs[..first]), w);
    assert w[0] == fs[first] && w[|w| - 1] == fs[end - 1];
  }

  /** A window counts exactly the frames of the run it covers. */
  lemma {:induction false} WindowCounts(l: Limiter, fs: seq<Frame>, first: nat, end: nat)
    requires first <= end <= |fs|
    ensures SentDeltas(Run(l, fs[..first]), fs[first..end]) == SentDeltas(l, fs[..end]) - SentDeltas(l, fs[..first])
    decreases end
  {
    hide After, Admits, Run, SentDeltas;
    if first < end {
      var w := fs[first..end];
      var m := |w| - 1;
      WindowCounts(l, fs, first, end - 1);
      assert w[..m] == fs[first..end - 1];
      assert fs[..end - 1] == fs[..first] + w[..m];
      RunAppend(l, fs[..first], w[..m]);
      SentLast(Run(l, fs[..first]), w);
      SentLast(l, fs[..end]);
      assert fs[..end][..end - 1] == fs[..end - 1];
    } else {
      assert fs[first..end] == [];
      NoneSent(Run(l, fs[..first]));
    }
  }

  lemma SentLast(l: Limiter, fs: seq<Frame>)
    requires fs != []
    ensures var n := |fs| - 1;
      SentDeltas(l, fs) == SentDeltas(l, fs[..n]) + if !fs[n].key && Admits(Run(l, fs[..n]), fs[n]) then 1 else 0
  {
  }

  lemma NoneSent(l: Limiter)
    ensures SentDeltas(l, []) == 0
  {
  }

  // ------------------------------------------------------------ whole GOP prefixes

  /** Until the first keyframe the chain is broken, so nothing goes out. */
  lemma {:induction false} NothingBeforeKeyframe(l: Limiter, fs: seq<Frame>, k: nat)
    requires !l.chainIntact && k < |fs| && NoKey(fs, 0, k + 1)
    ensures !Sent(l, fs, k)
    ensures !Run(l, fs[..k]).chainIntact
  {
    if k > 0 {
      NothingBeforeKeyframe(l, fs, k - 1);
      assert fs[..k][..k - 1] == fs[..k - 1];
    }
  }

  /** Once a frame is withheld, so is everything up to the next keyframe. */
  lemma {:induction false} WithheldToNextKeyframe(l: Limiter, fs: seq<Frame>, i: nat, j: nat)
    requires i <= j < |fs| && NoKey(fs, i + 1, j + 1)
    requires !Sent(l, fs, i)
    ensures !Sent(l, fs, j)
    decreases j
  {
    if i < j {
      WithheldToNextKeyframe(l, fs, i, j - 1);
      assert fs[..j][..j - 1] == fs[..j - 1];
    }
  }

  /** The keyframe the GOP of frame `k` opens with, if there is one. */
  function GopStart(fs: seq<Frame>, k: nat): (start: Option<nat>)
    requires k < |fs|
    ensures start.Some? ==> start.value <= k && fs[start.value].key && NoKey(fs, start.value + 1, k + 1)
    ensures start.None? ==> NoKey(fs, 0, k + 1)
  {
    if fs[k].key then Some(k) else if k == 0 then None else GopStart(fs, k - 1)
  }

  /**
   Decodable: a frame is forwarded only if its GOP opened with a keyframe and that
   keyframe and everything since went out too. So what is forwarded of each GOP is a
   prefix of it, and only suffixes are ever dropped.
   */
  lemma SentIsDecodable(l: Limiter, fs: seq<Frame>, k: nat)
    requires !l.chainIntact && k < |fs| && Sent(l, fs, k)
    ensures GopStart(fs, k).Some?
    ensures forall i :: GopStart(fs, k).value <= i <= k ==> Sent(l, fs, i)
  {
    if GopStart(fs, k).None? {
      NothingBeforeKeyframe(l, fs, k);
    } else {
      forall i | GopStart(fs, k).value <= i <= k
        ensures Sent(l, fs, i)
      {
        if !Sent(l, fs, i) {
          WithheldToNextKeyframe(l, fs, i, k);
        }
      }
    }
  }

  /** A stream that opens on a keyframe and never runs faster than the rate loses nothing. */
  lemma {:induction false} LosslessBelowRate(l: Limiter, fs: seq<Frame>, k: nat)
    requires Valid(l) && k < |fs| && fs[0].key
    requires forall i :: 0 < i < |fs| ==> fs[i].pts - fs[i - 1].pts >= l.intervalUs
    ensures Sent(l, fs, k)
    ensures Run(l, fs[..k + 1]).chainIntact
    ensures Run(l, fs[..k + 1]).lastPts == Some(fs[k].pts)
  {
    assert fs[..k + 1][..k] == fs[..k];
    CreditBounded(l, fs[..k]);
    if k > 0 {
      LosslessBelowRate(l, fs, k - 1);
      assert fs[k].pts - fs[k - 1].pts >= l.intervalUs;
    }
  }

  /**
   The rate is the exact threshold for the frame after a fresh limiter's first keyframe:
   it goes out if and only if the gap is at least the interval.
   */
  lemma FirstGapDecides(maxFps: nat, first: nat, second: nat)
    requires maxFps > 0 && first <= second
    ensures var l := ForConfig(Some(maxFps)).value;
      Sent(l, [Frame(first, true), Frame(second, false)], 1) <==> second - first >= l.intervalUs
  {
    var l := ForConfig(Some(maxFps)).value;
    var fs := [Frame(first, true), Frame(second, false)];
    IntervalIsRate(maxFps);
    assert fs[..1] == [Frame(first, true)];
    assert fs[..1][..0] == [];
    assert Run(l, fs[..1]) == After(l, fs[0]);
  }

  // ------------------------------------------------------------ the relay

  datatype Media = Video(camera: nat, key: bool) | Audio(durationUs: nat) | Info

  datatype Sink = VideoSink | AudioSink

  /** A buffer handed to one of the two app sources; only P-frames are marked droppable. */
  datatype Buffer = Buffer(sink: Sink, pts: nat, droppable: bool)

  datatype Relay = Relay(tracker: Timestamps.Tracker, limiter: Option<Limiter>)

  predicate Camera(xs: seq<Media>) {
    forall i :: 0 <= i < |xs| && xs[i].Video? ==> xs[i].camera < Timestamps.CLOCK_WRAP
  }

  /** The relay after one frame: the tracker sees it whether or not it is forwarded. */
  function Step(r: Relay, x: Media): Relay {
    match x
    case Info => r
    case Audio(d) => r.(tracker := Timestamps.AfterAudio(r.tracker, d))
    case Video(camera, key) =>
      var t := Timestamps.AfterVideo(r.tracker, camera);
      Relay(t, if r.limiter.None? then None else Some(After(r.limiter.value, Frame(t.lastVideoUs, key))))
  }

  function Forwarded(r: Relay, x: Media, hasVideo: bool, hasAudio: bool): Option<Buffer> {
    match x
    case Info => None
    case Audio(d) => if hasAudio then Some(Buffer(AudioSink, Timestamps.AudioPts(r.tracker), false)) else None
    case Video(camera, key) =>
      var pts := Timestamps.AfterVideo(r.tracker, camera).lastVideoUs;
      var send := r.limiter.None? || Admits(r.limiter.value, Frame(pts, key));
      if send && hasVideo then Some(Buffer(VideoSink, pts, !key)) else None
  }

  method SendToSources(data: Media, hasVideo: bool, hasAudio: bool,
                       tracker: Timestamps.TimestampTracker, limiter: GopLimiter?) returns (sent: Option<Buffer>)
    requires Timestamps.Valid(tracker.Model())
    requires limiter != null ==> Valid(limiter.Model())
    requires data.Video? ==> data.camera < Timestamps.CLOCK_WRAP
    modifies tracker, limiter
    ensures Timestamps.Valid(tracker.Model())
    ensures limiter != null ==> Valid(limiter.Model())
    ensures var was := Relay(old(tracker.Model()), if limiter == null then None else Some(old(limiter.Model())));
      && Relay(tracker.Model(), if limiter == null then None else Some(limiter.Model())) == Step(was, data)
      && sent == Forwarded(was, data, hasVideo, hasAudio)
  {
    hide Timestamps.AfterVideo, Timestamps.AfterAudio, After, Admits;
    sent := None;
    match data {
      case Audio(d) =>
        var pts := tracker.NextAudioUs(d);
        if hasAudio {
          sent := Some(Buffer(AudioSink, pts, false));
        }
      case Video(camera, key) =>
        var pts := tracker.NextVideoUs(camera);
        var send := true;
        if limiter != null {
          send := limiter.Admit(pts, key);
        }
        if send && hasVideo {
          sent := Some(Buffer(VideoSink, pts, !key));
        }
      case Info =>
    }
  }

  function RelayRun(r: Relay, xs: seq<Media>): Relay {
    if xs == [] then r else Step(RelayRun(r, xs[..|xs| - 1]), xs[|xs| - 1])
  }

  /** What the limiter is shown of a run: every video frame, under the tracker's PTS. */
  function Shown(r: Relay, xs: seq<Media>): seq<Frame> {
    if xs == [] then []
    else
      var n := |xs| - 1;
      Shown(r, xs[..n])
      + if xs[n].Video? then [Frame(RelayRun(r, xs).tracker.lastVideoUs, xs[n].key)] else []
  }

  /** Only videos are shown, in order and under increasing PTS, whatever the camera's clock does. */
  lemma {:induction false} ShownIsOrdered(r: Relay, xs: seq<Media>)
    requires Timestamps.Valid(r.tracker) && Camera(xs)
    ensures Timestamps.Valid(RelayRun(r, xs).tracker)
    ensures Ordered(Shown(r, xs))
    ensures forall f :: f in Shown(r, xs) ==> f.pts <= RelayRun(r, xs).tracker.lastVideoUs
  {
    hide After;
    if xs != [] {
      ShownIsOrdered(r, xs[..|xs| - 1]);
    }
  }

  lemma {:induction false} LimiterSeesShown(r: Relay, xs: seq<Media>)
    requires r.limiter.Some?
    ensures RelayRun(r, xs).limiter == Some(Run(r.limiter.value, Shown(r, xs)))
  {
    hide After, Timestamps.AfterVideo, Timestamps.AfterAudio;
    if xs != [] {
      var n := |xs| - 1;
      LimiterSeesShown(r, xs[..n]);
      var fs := Shown(r, xs[..n]);
      if xs[n].Video? {
        assert Shown(r, xs)[..|fs|] == fs;
      } else {
        assert fs + [] == fs;
      }
    }
  }

  /**
   Which buffers leave the relay: with the `k`-th video frame arriving after `xs`, it is
   forwarded under the tracker's PTS exactly if the limiter admits it in that run.
   */
  lemma RelayForwards(r: Relay, xs: seq<Media>, camera: nat, key: bool)
    requires r.limiter.Some?
    ensures var fs := Shown(r, xs + [Video(camera, key)]);
      && |fs| == |Shown(r, xs)| + 1
      && var sent := Forwarded(RelayRun(r, xs), Video(camera, key), true, true);
      && (sent.Some? <==> Sent(r.limiter.value, fs, |fs| - 1))
      && (sent.Some? ==> sent.value == Buffer(VideoSink, fs[|fs| - 1].pts, !key))
  {
    hide Timestamps.AfterVideo;
    var ys := xs + [Video(camera, key)];
    assert ys[..|ys| - 1] == xs;
    LimiterSeesShown(r, xs);
    var fs := Shown(r, ys);
    assert fs[..|fs| - 1] == Shown(r, xs);
  }

  /** The rate bound for whatever frames and timestamps a camera sends, over any window. */
  lemma RelayWindowBound(maxFps: nat, xs: seq<Media>, first: nat, end: nat)
    requires maxFps > 0 && Camera(xs)
    requires first < end <= |Shown(Relay(Timestamps.NEW_TRACKER, ForConfig(Some(maxFps))), xs)|
    ensures var l := ForConfig(Some(maxFps)).value;
      var fs := Shown(Relay(Timestamps.NEW_TRACKER, Some(l)), xs);
      && Ordered(fs)
      && fs[first].pts <= fs[end - 1].pts
      && (SECOND_US / maxFps) * (SentDeltas(l, fs[..end]) - SentDeltas(l, fs[..first]))
         <= BURST_CAP_US + (fs[end - 1].pts - fs[first].pts)
  {
    hide After, Admits, Run, SentDeltas, Step, Shown, RelayRun;
    var l := ForConfig(Some(maxFps)).value;
    var r := Relay(Timestamps.NEW_TRACKER, Some(l));
    var fs := Shown(r, xs);
    IntervalIsRate(maxFps);
    ShownIsOrdered(r, xs);
    WindowBound(l, fs, first, end);
    WindowCounts(l, fs, first, end);
  }
}
