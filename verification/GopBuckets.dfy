/**
 What the bucket behind `max_fps` charges for: every forwarded frame, keyframes
 included. The ledger is exact as long as nothing is forgiven and nothing spills over.
 */
module GopBuckets {
  import opened Wrappers
  import opened GopLimit
  import Timestamps

  /** What is banked when frame `k` of a run comes to be decided. */
  function Banked(l: Limiter, fs: seq<Frame>, k: nat): int
    requires k < |fs|
  {
    Accrued(Run(l, fs[..k]), fs[k].pts)
  }

  /** Time gone by is banked, up to five seconds in all; time that steps back banks nothing. */
  lemma BanksElapsed(l: Limiter, fs: seq<Frame>, k: nat)
    requires Valid(l) && 0 < k < |fs|
    ensures var before := Run(l, fs[..k]).creditUs;
      var gap := if fs[k].pts >= fs[k - 1].pts then fs[k].pts - fs[k - 1].pts else 0;
      0 <= before <= 5_000_000
      && Banked(l, fs, k) == if before + gap <= 5_000_000 then before + gap else 5_000_000
  {
    CreditBounded(l, fs[..k]);
    assert fs[..k][|fs[..k]| - 1] == fs[k - 1];
  }

  /** How many frames of a run are forwarded, keyframes and all. */
  function SentAll(l: Limiter, fs: seq<Frame>): nat {
    if fs == [] then 0
    else
      var n := |fs| - 1;
      SentAll(l, fs[..n]) + if Sent(l, fs, n) then 1 else 0
  }

  /** Every keyframe found at least one interval banked, so none of it was forgiven. */
  predicate KeysPaid(l: Limiter, fs: seq<Frame>) {
    forall k :: 0 <= k < |fs| && fs[k].key ==> Banked(l, fs, k) >= l.intervalUs
  }

  lemma KeysPaidBefore(l: Limiter, fs: seq<Frame>, n: nat)
    requires KeysPaid(l, fs) && n <= |fs|
    ensures KeysPaid(l, fs[..n])
  {
    forall k | 0 <= k < n && fs[..n][k].key
      ensures Banked(l, fs[..n], k) >= l.intervalUs
    {
      assert fs[..n][..k] == fs[..k];
    }
  }

  /** One frame that is not short: it costs the interval exactly if it is forwarded. */
  lemma Costs(l: Limiter, f: Frame)
    requires Valid(l) && (f.key ==> Accrued(l, f.pts) >= l.intervalUs)
    ensures After(l, f).creditUs == Accrued(l, f.pts) - if Admits(l, f) then l.intervalUs else 0
  {
  }

  lemma {:induction false} PaidLedger(l: Limiter, fs: seq<Frame>)
    requires Valid(l) && Ordered(fs) && fs != [] && KeysPaid(l, fs)
    ensures l.intervalUs * SentAll(l, fs) + Run(l, fs).creditUs <= 5_000_000 + (fs[|fs| - 1].pts - fs[0].pts)
  {
    hide After, Admits;
    var n := |fs| - 1;
    var before := Run(l, fs[..n]);
    CreditBounded(l, fs[..n]);
    assert Banked(l, fs, n) == Accrued(before, fs[n].pts);
    Costs(before, fs[n]);
    Times(l.intervalUs, SentAll(l, fs[..n]), if Sent(l, fs, n) then 1 else 0);
    if n > 0 {
      KeysPaidBefore(l, fs, n);
      PaidLedger(l, fs[..n]);
      assert fs[..n][n - 1].pts <= fs[n].pts;
    } else {
      assert SentAll(l, fs[..0]) == 0;
    }
  }

  /**
   The rate bound with keyframes counted: over any window of any run in which every
   keyframe found an interval banked, all the frames forwarded, times the interval, are at
   most five seconds plus the window's duration.
   */
  lemma WindowBoundAll(l: Limiter, fs: seq<Frame>, first: nat, end: nat)
    requires Valid(l) && Ordered(fs) && first < end <= |fs|
    requires forall k :: first <= k < end && fs[k].key ==> Banked(l, fs, k) >= l.intervalUs
    ensures l.intervalUs * SentAll(Run(l, fs[..first]), fs[first..end])
         <= 5_000_000 + (fs[end - 1].pts - fs[first].pts)
  {
    hide After, Admits, Run, SentAll;
    var w := fs[first..end];
    CreditBounded(l, fs[..first]);
    var from := Run(l, fs[..first]);
    forall k | 0 <= k < |w| && w[k].key
      ensures Banked(from, w, k) >= from.intervalUs
    {
      RunAppend(l, fs[..first], w[..k]);
      assert fs[..first] + w[..k] == fs[..first + k];
      assert Banked(l, fs, first + k) >= l.intervalUs;
    }
    assert KeysPaid(from, w);
    PaidLedger(from, w);
    assert from.intervalUs == l.intervalUs && from.intervalUs * SentAll(from, w) == l.intervalUs * SentAll(from, w);
    CreditBounded(from, w);
    assert w[0] == fs[first] && w[|w| - 1] == fs[end - 1];
  }

  /** Nothing spilled over the cap when frame `k` was timed. */
  predicate NoSpill(l: Limiter, fs: seq<Frame>, k: nat)
    requires k < |fs|
  {
    var before := Run(l, fs[..k]);
    before.lastPts.Some? ==> before.creditUs + (fs[k].pts - before.lastPts.value) <= 5_000_000
  }

  /**
   The ledger is exact: from any state with a frame behind it, as long as nothing spills
   over and no keyframe is short, what is banked at the end is what was banked before, plus
   the time gone by, less one interval for each frame forwarded, no more and no less.
   */
  lemma {:induction false} ExactLedger(l: Limiter, fs: seq<Frame>)
    requires Valid(l) && l.lastPts.Some? && fs != []
    requires l.lastPts.value <= fs[0].pts && Ordered(fs) && KeysPaid(l, fs)
    requires forall k :: 0 <= k < |fs| ==> NoSpill(l, fs, k)
    ensures Run(l, fs).creditUs
         == l.creditUs + (fs[|fs| - 1].pts - l.lastPts.value) - l.intervalUs * SentAll(l, fs)
    decreases |fs|
  {
    hide After, Admits;
    var n := |fs| - 1;
    var before := Run(l, fs[..n]);
    CreditBounded(l, fs[..n]);
    assert Banked(l, fs, n) == Accrued(before, fs[n].pts);
    assert NoSpill(l, fs, n);
    Costs(before, fs[n]);
    Times(l.intervalUs, SentAll(l, fs[..n]), if Sent(l, fs, n) then 1 else 0);
    if n > 0 {
      KeysPaidBefore(l, fs, n);
      forall k | 0 <= k < n
        ensures NoSpill(l, fs[..n], k)
      {
        assert NoSpill(l, fs, k) && fs[..n][..k] == fs[..k];
      }
      ExactLedger(l, fs[..n]);
      assert before.lastPts == Some(fs[n - 1].pts) && fs[n - 1].pts <= fs[n].pts;
    } else {
      assert fs[..0] == [] && SentAll(l, []) == 0 && before == l;
    }
  }

  /**
   What decides over a frame: a keyframe always goes out, and any other exactly if the one
   before it did and an interval is banked.
   */
  lemma SentIff(l: Limiter, fs: seq<Frame>, k: nat)
    requires k < |fs| && !l.chainIntact
    ensures Sent(l, fs, k) <==> fs[k].key || (k > 0 && Sent(l, fs, k - 1) && Banked(l, fs, k) >= l.intervalUs)
  {
    IntervalStays(l, fs[..k]);
    if k > 0 {
      assert fs[..k][..k - 1] == fs[..k - 1];
      assert Run(l, fs[..k]) == After(Run(l, fs[..k - 1]), fs[k - 1]);
    } else {
      assert fs[..0] == [];
    }
  }

  lemma {:induction false} IntervalStays(l: Limiter, fs: seq<Frame>)
    ensures Run(l, fs).intervalUs == l.intervalUs
  {
    if fs != [] {
      IntervalStays(l, fs[..|fs| - 1]);
    }
  }

  // ------------------------------------------------------------ keyframes only

  /** What keyframes at these gaps leave of an empty bucket, each charged what there is, up to the interval. */
  function Left(interval: nat, gaps: seq<nat>): (left: nat)
    ensures left <= 5_000_000
  {
    if gaps == [] then 0
    else
      var banked := Min(Left(interval, gaps[..|gaps| - 1]) + gaps[|gaps| - 1], 5_000_000);
      if banked >= interval then banked - interval else 0
  }

  /** Keyframes, the first at `first` and then at these gaps. */
  function Keyframes(first: nat, gaps: seq<nat>): (fs: seq<Frame>)
    ensures |fs| == |gaps| + 1 && fs[|gaps|].key
  {
    if gaps == [] then [Frame(first, true)]
    else
      var before := Keyframes(first, gaps[..|gaps| - 1]);
      before + [Frame(before[|before| - 1].pts + gaps[|gaps| - 1], true)]
  }

  lemma {:induction false} KeyframesLeave(maxFps: nat, first: nat, gaps: seq<nat>)
    requires maxFps > 0
    ensures var l := ForConfig(Some(maxFps)).value;
      var fs := Keyframes(first, gaps);
      Run(l, fs) == Limiter(1_000_000 / maxFps, Some(fs[|gaps|].pts), Left(1_000_000 / maxFps, gaps), true)
  {
    var l := ForConfig(Some(maxFps)).value;
    var fs := Keyframes(first, gaps);
    IntervalIsRate(maxFps);
    if gaps == [] {
      assert fs[..0] == [];
    } else {
      var n := |gaps| - 1;
      KeyframesLeave(maxFps, first, gaps[..n]);
      assert fs[..n + 1] == Keyframes(first, gaps[..n]);
    }
  }

  /**
   The keyframes' charge, exactly: after keyframes at any gaps, a P-frame `gap` behind the
   last one goes out if and only if what their charges left, and the gap, reach the interval.
   */
  lemma KeyframesDecide(maxFps: nat, first: nat, gaps: seq<nat>, gap: nat)
    requires maxFps > 0
    ensures var l := ForConfig(Some(maxFps)).value;
      var keys := Keyframes(first, gaps);
      var fs := keys + [Frame(keys[|gaps|].pts + gap, false)];
      Sent(l, fs, |keys|) <==> Min(Left(1_000_000 / maxFps, gaps) + gap, 5_000_000) >= 1_000_000 / maxFps
  {
    hide Keyframes, Left, Run;
    KeyframesLeave(maxFps, first, gaps);
    var keys := Keyframes(first, gaps);
    var fs := keys + [Frame(keys[|gaps|].pts + gap, false)];
    assert fs[..|keys|] == keys;
  }

  /** At one frame a second two keyframes a second apart leave nothing for the P-frame behind them. */
  lemma SecondKeyframeIsCharged()
    ensures var l := ForConfig(Some(1)).value;
      !Sent(l, [Frame(0, true), Frame(1_000_000, true), Frame(1_033_333, false)], 2)
  {
    KeyframesDecide(1, 0, [1_000_000], 33_333);
    assert [1_000_000 as nat][..0] == [];
    assert Keyframes(0, []) == [Frame(0, true)];
    assert Keyframes(0, [1_000_000]) == [Frame(0, true), Frame(1_000_000, true)];
    assert Left(1_000_000, []) == 0;
    assert Keyframes(0, [1_000_000]) + [Frame(1_033_333, false)]
        == [Frame(0, true), Frame(1_000_000, true), Frame(1_033_333, false)];
  }

  /** A new limiter withholds everything up to the first keyframe, and has nothing banked by then. */
  lemma NewWithholds(maxFps: nat, fs: seq<Frame>, k: nat)
    requires maxFps > 0 && k < |fs|
    ensures var l := ForConfig(Some(maxFps)).value;
      && (NoKey(fs, 0, k + 1) ==> !Sent(l, fs, k))
      && (fs[k].key ==> Sent(l, fs, k))
      && (k == 0 ==> Banked(l, fs, k) == 0)
  {
    var l := ForConfig(Some(maxFps)).value;
    if NoKey(fs, 0, k + 1) {
      NothingBeforeKeyframe(l, fs, k);
    }
    assert fs[..0] == [];
  }

  // ------------------------------------------------------------ audio in the relay

  /** What the tracker makes of what the relay is given. */
  function Timed(xs: seq<Media>): seq<Timestamps.Media> {
    if xs == [] then []
    else
      var before := Timed(xs[..|xs| - 1]);
      match xs[|xs| - 1]
      case Video(camera, _) => before + [Timestamps.Video(camera)]
      case Audio(d) => before + [Timestamps.Audio(d)]
      case Info => before
  }

  lemma {:induction false} TrackerSeesAll(r: Relay, xs: seq<Media>)
    ensures RelayRun(r, xs).tracker == Timestamps.Run(r.tracker, Timed(xs))
  {
    hide Timestamps.AfterVideo, Timestamps.AfterAudio, After, Admits;
    if xs != [] {
      var n := |xs| - 1;
      TrackerSeesAll(r, xs[..n]);
      var before := Timed(xs[..n]);
      if !xs[n].Info? {
        assert Timed(xs)[..|before|] == before;
      }
    }
  }

  lemma {:induction false} RelayAppend(r: Relay, a: seq<Media>, b: seq<Media>)
    ensures RelayRun(r, a + b) == RelayRun(RelayRun(r, a), b)
  {
    hide Step;
    if b == [] {
      assert a + b == a;
    } else {
      assert (a + b)[..|a + b| - 1] == a + b[..|b| - 1];
      RelayAppend(r, a, b[..|b| - 1]);
    }
  }

  lemma {:induction false} Unanchored(r: Relay, xs: seq<Media>)
    requires !r.tracker.audioAnchored && forall i :: 0 <= i < |xs| ==> !xs[i].Audio?
    ensures !RelayRun(r, xs).tracker.audioAnchored
  {
    if xs != [] {
      Unanchored(r, xs[..|xs| - 1]);
    }
  }

  /**
   Audio is never limited: every audio frame goes to the audio sink if there is one, the
   first one at the time of the last video frame and every later one behind the durations
   of those before it, whatever became of the video.
   */
  lemma AudioRelayed(r: Relay, before: seq<Media>, first: nat, more: seq<Media>, last: nat, hasVideo: bool)
    requires Timestamps.Valid(r.tracker) && Camera(before) && !r.tracker.audioAnchored
    requires forall i :: 0 <= i < |before| ==> !before[i].Audio?
    ensures var start := RelayRun(r, before);
      var end := RelayRun(r, before + [Audio(first)] + more);
      var span := Max(first, 1) + Timestamps.AudioSpan(Timed(more));
      && Forwarded(start, Audio(first), hasVideo, true) == Some(Buffer(AudioSink, start.tracker.lastVideoUs, false))
      && Forwarded(end, Audio(last), hasVideo, true)
         == Some(Buffer(AudioSink, Min(start.tracker.lastVideoUs + span, 18_446_744_073_709_551_615), false))
  {
    hide Timestamps.AfterVideo, Timestamps.AfterAudio, Timestamps.Run, Timestamps.AudioSpan, RelayRun, Timed, Step;
    ShownIsOrdered(r, before);
    Unanchored(r, before);
    var start := RelayRun(r, before);
    TrackerBehind(r, before, first, more);
    Timestamps.AudioRunsOnDurations(start.tracker, first, Timed(more));
    AudioForwarded(start, first, hasVideo);
    AudioForwarded(RelayRun(r, before + [Audio(first)] + more), last, hasVideo);
  }

  lemma AudioForwarded(r: Relay, d: nat, hasVideo: bool)
    ensures Forwarded(r, Audio(d), hasVideo, true) == Some(Buffer(AudioSink, Timestamps.AudioPts(r.tracker), false))
  {
  }

  lemma TrackerBehind(r: Relay, before: seq<Media>, first: nat, more: seq<Media>)
    ensures RelayRun(r, before + [Audio(first)] + more).tracker
         == Timestamps.Run(Timestamps.AfterAudio(RelayRun(r, before).tracker, first), Timed(more))
  {
    hide Timestamps.AfterVideo, Timestamps.AfterAudio, RelayRun;
    RelayAppend(r, before + [Audio(first)], more);
    RelayAppend(r, before, [Audio(first)]);
    OneAudio(RelayRun(r, before), first);
    TrackerSeesAll(RelayRun(RelayRun(r, before), [Audio(first)]), more);
  }

  lemma OneAudio(r: Relay, d: nat)
    ensures RelayRun(r, [Audio(d)]).tracker == Timestamps.AfterAudio(r.tracker, d)
  {
    assert [Audio(d)][..0] == [];
    assert RelayRun(r, []) == r;
  }

  /** Without a limiter every video frame goes out, under the tracker's time. */
  lemma UnlimitedRelayed(r: Relay, camera: nat, key: bool, hasAudio: bool)
    requires r.limiter.None?
    ensures Forwarded(r, Video(camera, key), true, hasAudio)
         == Some(Buffer(VideoSink, Step(r, Video(camera, key)).tracker.lastVideoUs, !key))
    ensures Forwarded(r, Video(camera, key), false, hasAudio).None?
    ensures Forwarded(r, Info, true, hasAudio).None? && Step(r, Info) == r
  {
  }
}
