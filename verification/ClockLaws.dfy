/**
 The tracker in plain times: what each frame does to the timeline as a signed difference
 of clock times, in microseconds written out, and how the timeline runs on after any
 frame that set a new baseline, a restart and a stall among them.
 */
module ClockLaws {
  import opened Wrappers
  import opened Timestamps

  const U32: nat := 4_294_967_296
  const LAST_U64: nat := 18_446_744_073_709_551_615

  /** What a frame moves the timeline by, given how its time compares with the last accepted one. */
  function Moved(d: int, again: bool): nat {
    if d == 0 then 1
    else if d < 0 then (if again then 100_000 else 1)
    else if d <= 5_000_000 then d
    else 100_000
  }

  /** Whether its time becomes the one to compare with. */
  predicate Accepted(d: int, again: bool) {
    d > 0 || (d < 0 && again)
  }

  /**
   One video frame, sent at `now` by a clock whose last accepted frame was at `last`, less
   than half a wrap away either way: the step, the new baseline and whether another step
   back would be a restart. `again` is that a step back came before, with nothing but
   duplicates since (Timestamps.RestartIff).
   */
  lemma StepByClock(t: Tracker, last: nat, now: nat)
    requires Valid(t) && t.lastCamera == Some(last % U32)
    requires -2_147_483_648 <= now - last < 2_147_483_648
    ensures var d := now - last;
      var again := t.consecutiveBackward > 0;
      var after := AfterVideo(t, now % U32);
      && after.lastVideoUs == Min(t.lastVideoUs + Moved(d, again), LAST_U64)
      && after.lastCamera == Some((if Accepted(d, again) then now else last) % U32)
      && (after.consecutiveBackward > 0 <==> if d == 0 then again else d < 0 && !again)
      && after.lastAudioUs == t.lastAudioUs && after.audioAnchored == t.audioAnchored
  {
    SignedDelta(last, now);
  }

  /** The first frame ever is at zero. */
  lemma FirstAtZero(camera: nat)
    ensures AfterVideo(NEW_TRACKER, camera) == NEW_TRACKER.(lastCamera := Some(camera))
    ensures NEW_TRACKER.lastVideoUs == 0 && NEW_TRACKER.lastAudioUs == 0
  {
  }

  lemma SignedDelta(last: nat, now: nat)
    requires -2_147_483_648 <= now - last < 2_147_483_648
    ensures WrappingSub(now % U32, last % U32) == if now >= last then now - last else now - last + U32
  {
    if now >= last {
      WrapDelta(last, now - last);
    } else {
      WrapDelta(now, last - now);
      var a, b := now % U32, last % U32;
      assert (b - a) % U32 == last - now;
      Negated(b - a, last - now);
    }
  }

  lemma Negated(x: int, d: nat)
    requires 0 < d < U32 && x % U32 == d
    ensures (-x) % U32 == U32 - d
  {
    assert x == U32 * (x / U32) + d;
    assert -x == U32 * (-(x / U32) - 1) + (U32 - d);
  }

  // ------------------------------------------------------------ after a new baseline

  /** The frame's own time became the baseline. */
  predicate SetsBaseline(t: Tracker, camera: nat) {
    var v := Judge(t, camera);
    v.First? || v.Forward? || v.Restart? || v.Stall?
  }

  /**
   The timeline after any frame that set a baseline, be it a restart, a stall or just the
   next one: if the clock then ticks on by 1 to 5,000,000 us a frame, the PTS is that
   frame's own plus the clock time elapsed since, up to saturation.
   */
  lemma {:induction false} UnwrapsOn(t: Tracker, clock: seq<nat>)
    requires Valid(t) && clock != [] && Ticking(clock) && SetsBaseline(t, clock[0] % U32)
    ensures var start := AfterVideo(t, clock[0] % U32).lastVideoUs;
      var end := Run(t, Sent(clock));
      && end.lastVideoUs == (if start + clock[|clock| - 1] - clock[0] <= LAST_U64
                             then start + clock[|clock| - 1] - clock[0] else LAST_U64)
      && end.lastCamera == Some(clock[|clock| - 1] % U32)
  {
    hide AfterVideo, Judge;
    var n := |clock| - 1;
    assert Sent(clock)[..n] == Sent(clock[..n]);
    if n == 0 {
      assert Run(t, Sent(clock)[..0]) == t;
      Baseline(t, clock[0] % U32);
    } else {
      ClockGrows(clock, n);
      UnwrapsOn(t, clock[..n]);
      var s := Run(t, Sent(clock[..n]));
      SentFrames(clock[..n]);
      RunValid(t, Sent(clock[..n]));
      StepByClock(s, clock[n - 1], clock[n]);
    }
  }

  lemma SentFrames(clock: seq<nat>)
    ensures Frames(Sent(clock))
  {
  }

  lemma Baseline(t: Tracker, camera: nat)
    requires Valid(t) && camera < U32 && SetsBaseline(t, camera)
    ensures var after := AfterVideo(t, camera);
      && after.lastCamera == Some(camera)
      && after.lastVideoUs <= LAST_U64
  {
  }

  /** A camera that rebooted: ten seconds in its clock starts over, and after the second frame back all is well. */
  lemma RebootedCamera()
    ensures var xs := [Video(10_000_000), Video(0), Video(33_000), Video(66_000), Video(99_000)];
      && Run(NEW_TRACKER, xs[..1]).lastVideoUs == 0
      && Run(NEW_TRACKER, xs[..2]).lastVideoUs == 1
      && Run(NEW_TRACKER, xs[..3]).lastVideoUs == 100_001
      && Run(NEW_TRACKER, xs[..4]).lastVideoUs == 133_001
      && Run(NEW_TRACKER, xs).lastVideoUs == 166_001
  {
    var xs := [Video(10_000_000), Video(0), Video(33_000), Video(66_000), Video(99_000)];
    assert xs[..1][..0] == [] && xs[..2][..1] == xs[..1] && xs[..3][..2] == xs[..2];
    assert xs[..4][..3] == xs[..3] && xs == xs[..5] && xs[..5][..4] == xs[..4];
    assert Run(NEW_TRACKER, []) == NEW_TRACKER;
    var t1 := Run(NEW_TRACKER, xs[..1]);
    assert t1 == Tracker(Some(10_000_000), 0, 0, false, 0);
    var t2 := Run(NEW_TRACKER, xs[..2]);
    assert t2 == Tracker(Some(10_000_000), 1, 0, false, 1);
    var t3 := Run(NEW_TRACKER, xs[..3]);
    assert t3 == Tracker(Some(33_000), 100_001, 0, false, 0);
    var t4 := Run(NEW_TRACKER, xs[..4]);
    assert t4 == Tracker(Some(66_000), 133_001, 0, false, 0);
  }
}
