/** What the packer makes of each kind of frame, and how it keeps audio time. */
module PackerLaws {
  import opened Wrappers
  import opened TsMux
  import T = Timestamps
  import Adpcm
  import RT = RoundTrip
  import opened Packer

  /** The tracks of a plan: video, and behind it AAC, A-law or nothing. */
  lemma DeclaredKinds(video: StreamType)
    ensures Kinds(video, PassAac) == [video, Aac]
    ensures Kinds(video, AdpcmToAlaw) == [video, Pcma]
    ensures Kinds(video, Silent) == [video]
  {
  }

  /** A muxed access unit: these bytes on this track. */
  predicate IsUnit(c: Option<RT.Call>, track: nat, ptsUs: nat, key: bool, size: nat) {
    && c.Some? && c.value.WriteFrame?
    && c.value.track == track && c.value.ptsUs == ptsUs && c.value.randomAccess == key
    && |c.value.payload| == size
  }

  /**
   Frame by frame: video goes to track 0 as it is, under its new PTS, and only an I-frame is
   a keyframe; AAC goes to track 1 as it is, if that is the plan; an ADPCM block goes there
   as one A-law byte for each sample, two for each byte behind its header, if that is the
   plan and there are any; and nothing else goes anywhere.
   */
  lemma UnitOfFrame(t: T.Tracker, plan: AudioPlan, alaw: Alaw, x: Media)
    ensures var c := CallOf(t, plan, alaw, x);
      && (x.Iframe? ==>
            IsUnit(c, 0, T.AfterVideo(t, x.camera).lastVideoUs, true, |x.data|) && c.value.payload == x.data)
      && (x.Pframe? ==>
            IsUnit(c, 0, T.AfterVideo(t, x.camera).lastVideoUs, false, |x.data|) && c.value.payload == x.data)
      && (x.AacFrame? ==>
            if plan.PassAac?
            then IsUnit(c, 1, T.AudioPts(t), false, |x.data|) && c.value.payload == x.data
            else c.None?)
      && (x.AdpcmFrame? ==>
            if plan.AdpcmToAlaw? && |x.data| > 4
            then
              && IsUnit(c, 1, T.AudioPts(t), false, 2 * (|x.data| - 4))
              && Adpcm.Decode(x.data).Success?
              && forall k :: 0 <= k < |c.value.payload| ==> c.value.payload[k] == alaw(Adpcm.Decode(x.data).value[k])
            else c.None?)
      && (x.Info? ==> c.None?)
  {
    hide T.AfterVideo, T.AudioPts, Adpcm.Samples, Adpcm.Nibbles;
  }

  // ------------------------------------------------------------ audio time

  /** What of a frame the clock is shown: audio only in the form the plan takes, decodable or not. */
  function Shown(plan: AudioPlan, xs: seq<Media>): seq<T.Media> {
    if xs == [] then []
    else
      var before := Shown(plan, xs[..|xs| - 1]);
      var x := xs[|xs| - 1];
      if x.Iframe? || x.Pframe? then before + [T.Video(x.camera)]
      else if (x.AacFrame? && plan == PassAac) || (x.AdpcmFrame? && plan == AdpcmToAlaw)
      then before + [T.Audio(x.durationUs)]
      else before
  }

  function TimedRun(t: T.Tracker, plan: AudioPlan, xs: seq<Media>): T.Tracker {
    if xs == [] then t else Timed(TimedRun(t, plan, xs[..|xs| - 1]), plan, xs[|xs| - 1])
  }

  lemma {:induction false} ClockShown(t: T.Tracker, plan: AudioPlan, xs: seq<Media>)
    ensures TimedRun(t, plan, xs) == T.Run(t, Shown(plan, xs))
  {
    hide T.AfterVideo, T.AfterAudio;
    if xs != [] {
      var n := |xs| - 1;
      ClockShown(t, plan, xs[..n]);
      var before := Shown(plan, xs[..n]);
      if Shown(plan, xs) != before {
        assert Shown(plan, xs)[..|before|] == before;
      }
    }
  }

  /**
   Audio keeps its own time: from its first frame on, at the PTS of the last video frame, it
   runs on the durations of all audio frames of the plan, whether or not they decode and
   whatever else the camera sends.
   */
  lemma AudioKeepsTime(t: T.Tracker, plan: AudioPlan, x: Media, xs: seq<Media>)
    requires T.Valid(t) && !t.audioAnchored
    requires (x.AacFrame? && plan == PassAac) || (x.AdpcmFrame? && plan == AdpcmToAlaw)
    ensures T.AudioPts(t) == t.lastVideoUs
    ensures T.AudioPts(TimedRun(Timed(t, plan, x), plan, xs))
         == Min(t.lastVideoUs + Max(x.durationUs, 1) + T.AudioSpan(Shown(plan, xs)), 18_446_744_073_709_551_615)
  {
    hide T.AfterVideo, T.AfterAudio, T.Run, T.AudioSpan, Shown, TimedRun;
    ClockShown(T.AfterAudio(t, x.durationUs), plan, xs);
    T.AudioRunsOnDurations(t, x.durationUs, Shown(plan, xs));
  }
}
