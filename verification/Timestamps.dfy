/**
 Turning a camera's 32-bit microsecond clock into a monotonic 64-bit one: the value
 of a tracker, the class that updates it, and what holds over whole runs.
 */
module Timestamps {
  import opened Wrappers
  import opened Bytes

  const CLOCK_WRAP: nat := 0x1_0000_0000
  /** Half the wrap distance: beyond it a forward delta counts as a step back. */
  const BACKWARD_THRESHOLD: nat := 0x8000_0000
  const MAX_FORWARD_JUMP_US: nat := 5_000_000
  const RESTART_ADVANCE_US: nat := 100_000
  const TIE_BREAKER_US: nat := 1
  const RESTART_DETECT_COUNT: nat := 2

  datatype Tracker = Tracker(
    lastCamera: Option<nat>,
    lastVideoUs: nat,
    lastAudioUs: nat,
    audioAnchored: bool,
    consecutiveBackward: nat)

  const NEW_TRACKER: Tracker := Tracker(None, 0, 0, false, 0)

  /** `u64::saturating_add`. */
  function SaturatingAdd(a: nat, b: nat): nat {
    Min(a + b, MAX_U64)
  }

  /** `u32::wrapping_sub`. */
  function WrappingSub(a: nat, b: nat): nat {
    (a - b) % CLOCK_WRAP
  }

  /** What a camera timestamp is taken for. */
  datatype Verdict = First | Duplicate | Reorder | Restart | Forward(delta: nat) | Stall

  function Judge(t: Tracker, camera: nat): Verdict {
    if t.lastCamera.None? then First
    else
      var fwd := WrappingSub(camera, t.lastCamera.value);
      if fwd == 0 then Duplicate
      else if fwd >= BACKWARD_THRESHOLD then
        if t.consecutiveBackward + 1 >= RESTART_DETECT_COUNT then Restart else Reorder
      else if fwd <= MAX_FORWARD_JUMP_US then Forward(fwd)
      else Stall
  }

  /** How far a verdict moves the timeline. */
  function Advance(v: Verdict): nat {
    match v
    case First => 0
    case Duplicate => TIE_BREAKER_US
    case Reorder => TIE_BREAKER_US
    case Restart => RESTART_ADVANCE_US
    case Forward(delta) => delta
    case Stall => RESTART_ADVANCE_US
  }

  /** The tracker after one video frame; its PTS is then `lastVideoUs`. */
  function AfterVideo(t: Tracker, camera: nat): Tracker {
    var v := Judge(t, camera);
    t.(lastVideoUs := SaturatingAdd(t.lastVideoUs, Advance(v)),
       lastCamera := if v.Duplicate? || v.Reorder? then t.lastCamera else Some(camera),
       consecutiveBackward :=
         if v.First? || v.Duplicate? then t.consecutiveBackward
         else if v.Reorder? then t.consecutiveBackward + 1 else 0)
  }

  function AudioPts(t: Tracker): nat {
    if t.audioAnchored then t.lastAudioUs else t.lastVideoUs
  }

  function AfterAudio(t: Tracker, durationUs: nat): Tracker {
    t.(audioAnchored := true, lastAudioUs := SaturatingAdd(AudioPts(t), Max(durationUs, TIE_BREAKER_US)))
  }

  predicate Valid(t: Tracker) {
    && (t.lastCamera.Some? ==> t.lastCamera.value < CLOCK_WRAP)
    && (t.lastCamera.None? ==> t.lastVideoUs == 0)
    && t.lastVideoUs <= MAX_U64
    && t.lastAudioUs <= MAX_U64
    && t.consecutiveBackward < RESTART_DETECT_COUNT
  }

  // ------------------------------------------------------------ in place

  class TimestampTracker {
    var lastCamera: Option<nat>
    var lastVideoUs: nat
    var lastAudioUs: nat
    var audioAnchored: bool
    var consecutiveBackward: nat

    ghost function Model(): Tracker
      reads this
    {
      Tracker(lastCamera, lastVideoUs, lastAudioUs, audioAnchored, consecutiveBackward)
    }

    constructor ()
      ensures Model() == NEW_TRACKER && Valid(Model())
    {
      lastCamera := None;
      lastVideoUs := 0;
      lastAudioUs := 0;
      audioAnchored := false;
      consecutiveBackward := 0;
    }

    method NextVideoUs(camera: nat) returns (pts: nat)
      requires Valid(Model()) && camera < CLOCK_WRAP
      modifies this
      ensures Valid(Model())
      ensures Model() == AfterVideo(old(Model()), camera)
      ensures pts == lastVideoUs
    {
      if lastCamera.None? {
        lastCamera := Some(camera);
        return 0;
      }
      var last := lastCamera.value;
      var fwd := WrappingSub(camera, last);
      if fwd == 0 {
        lastVideoUs := SaturatingAdd(lastVideoUs, TIE_BREAKER_US);
        return lastVideoUs;
      }
      if fwd >= BACKWARD_THRESHOLD {
        consecutiveBackward := consecutiveBackward + 1;
        if consecutiveBackward >= RESTART_DETECT_COUNT {
          lastCamera := Some(camera);
          consecutiveBackward := 0;
          lastVideoUs := SaturatingAdd(lastVideoUs, RESTART_ADVANCE_US);
          return lastVideoUs;
        }
        lastVideoUs := SaturatingAdd(lastVideoUs, TIE_BREAKER_US);
        return lastVideoUs;
      }
      consecutiveBackward := 0;
      var advance := if fwd <= MAX_FORWARD_JUMP_US then fwd else RESTART_ADVANCE_US;
      lastCamera := Some(camera);
      lastVideoUs := SaturatingAdd(lastVideoUs, advance);
      return lastVideoUs;
    }

    method NextAudioUs(durationUs: nat) returns (pts: nat)
      requires Valid(Model())
      modifies this
      ensures Valid(Model())
      ensures Model() == AfterAudio(old(Model()), durationUs)
      ensures pts == AudioPts(old(Model()))
    {
      if !audioAnchored {
        lastAudioUs := lastVideoUs;
        audioAnchored := true;
      }
      pts := lastAudioUs;
      var advance := Max(durationUs, TIE_BREAKER_US);
      lastAudioUs := SaturatingAdd(lastAudioUs, advance);
    }
  }

  // ------------------------------------------------------------ runs

  datatype Media = Video(camera: nat) | Audio(durationUs: nat)

  function AfterMedia(t: Tracker, x: Media): Tracker {
    match x
    case Video(camera) => AfterVideo(t, camera)
    case Audio(durationUs) => AfterAudio(t, durationUs)
  }

  predicate Frames(xs: seq<Media>) {
    forall i :: 0 <= i < |xs| && xs[i].Video? ==> xs[i].camera < CLOCK_WRAP
  }

  function Run(t: Tracker, xs: seq<Media>): Tracker {
    if xs == [] then t else AfterMedia(Run(t, xs[..|xs| - 1]), xs[|xs| - 1])
  }

  lemma {:induction false} RunValid(t: Tracker, xs: seq<Media>)
    requires Valid(t) && Frames(xs)
    ensures Valid(Run(t, xs))
  {
    if xs != [] {
      RunValid(t, xs[..|xs| - 1]);
    }
  }

  /** A capture clock that ticks by 1 to 5,000,000 us a frame. */
  predicate Ticking(clock: seq<nat>) {
    forall i :: 0 <= i < |clock| - 1 ==> 1 <= clock[i + 1] - clock[i] <= MAX_FORWARD_JUMP_US
  }

  /** What the camera sends of a capture clock: its low 32 bits. */
  function Sent(clock: seq<nat>): seq<Media> {
    seq(|clock|, i requires 0 <= i < |clock| => Video(clock[i] % CLOCK_WRAP))
  }

  lemma WrapDelta(a: nat, d: nat)
    requires d < CLOCK_WRAP
    ensures WrappingSub((a + d) % CLOCK_WRAP, a % CLOCK_WRAP) == d
  {
    var q := a / CLOCK_WRAP;
    var r := a % CLOCK_WRAP;
    assert a == CLOCK_WRAP * q + r;
    if r + d < CLOCK_WRAP {
      assert (a + d) % CLOCK_WRAP == r + d;
    } else {
      assert a + d == CLOCK_WRAP * (q + 1) + (r + d - CLOCK_WRAP);
      assert (a + d) % CLOCK_WRAP == r + d - CLOCK_WRAP;
      assert (d - CLOCK_WRAP) % CLOCK_WRAP == d;
    }
  }

  lemma {:induction false} ClockGrows(clock: seq<nat>, i: nat)
    requires Ticking(clock) && i < |clock|
    ensures clock[0] <= clock[i]
    ensures i > 0 ==> clock[0] <= clock[i - 1] < clock[i]
  {
    if i > 0 {
      ClockGrows(clock, i - 1);
    }
  }

  /**
   Unwrapping. Whatever the capture clock starts at and however often its low 32 bits
   wrap, the PTS is exactly the time elapsed since the first frame.
   */
  lemma {:induction false} Unwraps(clock: seq<nat>)
    requires clock != [] && Ticking(clock)
    requires clock[|clock| - 1] - clock[0] <= MAX_U64
    ensures clock[0] + Run(NEW_TRACKER, Sent(clock)).lastVideoUs == clock[|clock| - 1]
    ensures Run(NEW_TRACKER, Sent(clock)).lastCamera == Some(clock[|clock| - 1] % CLOCK_WRAP)
    ensures Run(NEW_TRACKER, Sent(clock)).consecutiveBackward == 0
  {
    var n := |clock| - 1;
    assert Sent(clock)[..n] == Sent(clock[..n]);
    if n == 0 {
      assert Run(NEW_TRACKER, Sent(clock)[..0]) == NEW_TRACKER;
    } else {
      ClockGrows(clock, n);
      Unwraps(clock[..n]);
      var d := clock[n] - clock[n - 1];
      WrapDelta(clock[n - 1], d);
      var t := Run(NEW_TRACKER, Sent(clock[..n]));
      assert Judge(t, clock[n] % CLOCK_WRAP) == Forward(d);
    }
  }

  // ------------------------------------------------------------ the ledger

  /** Everything that has moved the video timeline. */
  datatype Ledger = Ledger(accepted: nat, ties: nat, restarts: nat, stalls: nat) {
    function Total(): nat {
      accepted + TIE_BREAKER_US * ties + RESTART_ADVANCE_US * (restarts + stalls)
    }

    function Enter(v: Verdict): Ledger {
      match v
      case First => this
      case Duplicate => this.(ties := ties + 1)
      case Reorder => this.(ties := ties + 1)
      case Restart => this.(restarts := restarts + 1)
      case Forward(delta) => this.(accepted := accepted + delta)
      case Stall => this.(stalls := stalls + 1)
    }
  }

  function LedgerOf(t: Tracker, xs: seq<Media>): Ledger {
    if xs == [] then Ledger(0, 0, 0, 0)
    else
      var before := LedgerOf(t, xs[..|xs| - 1]);
      var x := xs[|xs| - 1];
      if x.Video? then before.Enter(Judge(Run(t, xs[..|xs| - 1]), x.camera)) else before
  }

  /** For any input at all, the PTS is what the ledger adds up to, up to saturation. */
  lemma {:induction false} PtsIsLedger(xs: seq<Media>)
    ensures Run(NEW_TRACKER, xs).lastVideoUs == Min(LedgerOf(NEW_TRACKER, xs).Total(), MAX_U64)
  {
    if xs != [] {
      PtsIsLedger(xs[..|xs| - 1]);
      var x := xs[|xs| - 1];
      if x.Video? {
        var t := Run(NEW_TRACKER, xs[..|xs| - 1]);
        var l := LedgerOf(NEW_TRACKER, xs[..|xs| - 1]);
        EnterAdds(l, Judge(t, x.camera));
      }
    }
  }

  lemma EnterAdds(l: Ledger, v: Verdict)
    ensures l.Enter(v).Total() == l.Total() + Advance(v)
  {
  }

  /**
   Every frame after the first moves the timeline by 1 to 5,000,000 us, and so strictly
   forward exactly as long as it has not saturated.
   */
  lemma StepsForward(t: Tracker, camera: nat)
    requires Valid(t) && t.lastCamera.Some? && camera < CLOCK_WRAP
    ensures var after := AfterVideo(t, camera);
      && 1 <= Advance(Judge(t, camera)) <= MAX_FORWARD_JUMP_US
      && after.lastVideoUs == Min(t.lastVideoUs + Advance(Judge(t, camera)), MAX_U64)
      && (after.lastVideoUs > t.lastVideoUs <==> t.lastVideoUs < MAX_U64)
  {
  }

  /** A single reordered frame leaves the baseline alone: the next good frame lands where it would have. */
  lemma ReorderIsForgotten(t: Tracker, stray: nat, next: nat)
    requires Valid(t) && stray < CLOCK_WRAP && next < CLOCK_WRAP
    requires Judge(t, stray).Reorder? && Judge(t, next).Forward?
    requires t.lastVideoUs + Advance(Judge(t, next)) + TIE_BREAKER_US <= MAX_U64
    ensures var after := AfterVideo(AfterVideo(t, stray), next);
      && after.lastVideoUs == AfterVideo(t, next).lastVideoUs + TIE_BREAKER_US
      && after.lastCamera == AfterVideo(t, next).lastCamera
      && after.consecutiveBackward == 0
  {
  }

  // ------------------------------------------------------------ when a restart is declared

  /** What the video frames of a run were taken for, in order. */
  function Verdicts(t: Tracker, xs: seq<Media>): seq<Verdict> {
    if xs == [] then []
    else
      var n := |xs| - 1;
      Verdicts(t, xs[..n]) + if xs[n].Video? then [Judge(Run(t, xs[..n]), xs[n].camera)] else []
  }

  /** The last verdict that was not a duplicate. */
  function LastTelling(vs: seq<Verdict>): Option<Verdict> {
    if vs == [] then None
    else if vs[|vs| - 1].Duplicate? then LastTelling(vs[..|vs| - 1])
    else Some(vs[|vs| - 1])
  }

  /** A camera time from before the last accepted one. */
  predicate Backward(t: Tracker, camera: nat) {
    t.lastCamera.Some? && WrappingSub(camera, t.lastCamera.value) >= BACKWARD_THRESHOLD
  }

  lemma LastTellingSnoc(vs: seq<Verdict>, v: Verdict)
    ensures LastTelling(vs + [v]) == if v.Duplicate? then LastTelling(vs) else Some(v)
  {
    assert (vs + [v])[..|vs|] == vs;
  }

  lemma {:induction false} BackwardCount(xs: seq<Media>)
    ensures Run(NEW_TRACKER, xs).consecutiveBackward
         == if LastTelling(Verdicts(NEW_TRACKER, xs)) == Some(Reorder) then 1 else 0
    ensures Run(NEW_TRACKER, xs).lastCamera.None? <==> Verdicts(NEW_TRACKER, xs) == []
  {
    hide LastTelling;
    NothingTold();
    if xs != [] {
      var n := |xs| - 1;
      BackwardCount(xs[..n]);
      var vs := Verdicts(NEW_TRACKER, xs[..n]);
      if xs[n].Video? {
        LastTellingSnoc(vs, Judge(Run(NEW_TRACKER, xs[..n]), xs[n].camera));
      } else {
        assert vs + [] == vs;
      }
    }
  }

  lemma NothingTold()
    ensures LastTelling([]).None?
  {
  }

  /**
   Exactly when a restart is declared, after any run: on a backward frame, if and only if
   the last video frame that was not a duplicate was itself taken for a reorder.
   */
  lemma RestartIff(xs: seq<Media>, camera: nat)
    ensures var t := Run(NEW_TRACKER, xs);
      Judge(t, camera).Restart? <==>
        Backward(t, camera) && LastTelling(Verdicts(NEW_TRACKER, xs)) == Some(Reorder)
  {
    hide Run, LastTelling, Verdicts;
    BackwardCount(xs);
  }

  /**
   So a restart is two backward frames in a row exactly if no duplicate came right before
   it: the frame before is then the other backward one, and otherwise a duplicate.
   */
  lemma InARowIff(xs: seq<Media>, camera: nat)
    requires Judge(Run(NEW_TRACKER, xs), camera).Restart?
    ensures var vs := Verdicts(NEW_TRACKER, xs);
      && vs != []
      && (vs[|vs| - 1].Reorder? <==> !vs[|vs| - 1].Duplicate?)
      && exists k :: 0 <= k < |vs| && vs[k].Reorder? && forall m :: k < m < |vs| ==> vs[m].Duplicate?
  {
    hide Run, Verdicts;
    RestartIff(xs, camera);
    TellingAt(Verdicts(NEW_TRACKER, xs));
  }

  lemma {:induction false} TellingAt(vs: seq<Verdict>)
    requires LastTelling(vs).Some?
    ensures exists k :: 0 <= k < |vs| && vs[k] == LastTelling(vs).value && forall m :: k < m < |vs| ==> vs[m].Duplicate?
    ensures vs != [] && (!vs[|vs| - 1].Duplicate? ==> vs[|vs| - 1] == LastTelling(vs).value)
  {
    var n := |vs| - 1;
    if vs[n].Duplicate? {
      TellingAt(vs[..n]);
      var k :| 0 <= k < n && vs[..n][k] == LastTelling(vs).value && forall m :: k < m < n ==> vs[..n][m].Duplicate?;
      assert forall m :: k < m < n ==> vs[m] == vs[..n][m];
      assert vs[k] == LastTelling(vs).value;
    }
  }

  /**
   "Consecutive" ignores duplicates: back, duplicate, back is already taken for a
   restart, though the two backward frames are not next to each other.
   */
  lemma DuplicateDoesNotClear()
    ensures var t := AfterVideo(NEW_TRACKER, 1_000);
      var back := AfterVideo(t, 500);
      && Judge(t, 500).Reorder?
      && Judge(back, 1_000).Duplicate?
      && Judge(AfterVideo(back, 1_000), 500).Restart?
  {
  }

  // ------------------------------------------------------------ audio beside video

  function VideoOnly(xs: seq<Media>): seq<Media> {
    if xs == [] then []
    else VideoOnly(xs[..|xs| - 1]) + if xs[|xs| - 1].Video? then [xs[|xs| - 1]] else []
  }

  predicate SameVideo(a: Tracker, b: Tracker) {
    a.lastCamera == b.lastCamera && a.lastVideoUs == b.lastVideoUs && a.consecutiveBackward == b.consecutiveBackward
  }

  lemma SameVideoSteps(a: Tracker, b: Tracker, camera: nat)
    requires SameVideo(a, b)
    ensures SameVideo(AfterVideo(a, camera), AfterVideo(b, camera))
  {
  }

  /** Audio frames never move the video timeline. */
  lemma {:induction false} AudioLeavesVideoAlone(t: Tracker, xs: seq<Media>)
    ensures SameVideo(Run(t, xs), Run(t, VideoOnly(xs)))
  {
    hide AfterVideo, Judge, Advance;
    if xs != [] {
      var n := |xs| - 1;
      AudioLeavesVideoAlone(t, xs[..n]);
      if xs[n].Video? {
        SameVideoSteps(Run(t, xs[..n]), Run(t, VideoOnly(xs[..n])), xs[n].camera);
      }
      var vs := VideoOnly(xs[..n]);
      assert (vs + [xs[n]])[..|vs|] == vs;
      assert vs + [] == vs;
    }
  }

  /** The durations of the audio frames, each at least one microsecond. */
  function AudioSpan(xs: seq<Media>): nat {
    if xs == [] then 0
    else AudioSpan(xs[..|xs| - 1]) + if xs[|xs| - 1].Audio? then Max(xs[|xs| - 1].durationUs, 1) else 0
  }

  /**
   Once anchored to the video PTS, audio runs on its own durations, whatever video does;
   two audio frames never share a PTS below saturation.
   */
  lemma {:induction false} AudioRunsOnDurations(t: Tracker, first: nat, xs: seq<Media>)
    requires Valid(t) && !t.audioAnchored
    ensures AudioPts(t) == t.lastVideoUs
    ensures AudioPts(Run(AfterAudio(t, first), xs)) == Min(t.lastVideoUs + Max(first, 1) + AudioSpan(xs), MAX_U64)
    ensures Run(AfterAudio(t, first), xs).audioAnchored
  {
    if xs != [] {
      AudioRunsOnDurations(t, first, xs[..|xs| - 1]);
    }
  }
}
