/** What the muxer promises about packets, clocks and table repetition. */
module MuxProperties {
  import opened Wrappers
  import opened Bytes
  import opened TsPackets
  import opened TsMux
  import opened RoundTrip
  import R = TsReader

  // ------------------------------------------------------------ packetisation

  function Bodies(ps: seq<Packet>): seq<byte> {
    if ps == [] then [] else ps[0].body + Bodies(ps[1..])
  }

  /** Flags and PCR ride on the first packet only; the counter steps by one, modulo 16. */
  predicate WellCut(ps: seq<Packet>, pid: nat, continuity: nat, pcr: Option<nat>, randomAccess: bool, start: bool) {
    forall k :: 0 <= k < |ps| ==>
      && ps[k].pid == pid
      && ps[k].hasPayload
      && ps[k].body != []
      && ps[k].counter == (continuity + k) % 16
      && ps[k].start == (start && k == 0)
      && ps[k].randomAccess == (randomAccess && k == 0)
      && ps[k].pcr == (if k == 0 then pcr else None)
      && (k + 1 < |ps| ==> |ps[k].body| + Reserved(ps[k].randomAccess, ps[k].pcr) == TS_PAYLOAD_SIZE)
  }

  lemma Mod16(a: nat, q: nat)
    ensures (a + 16 * q) % 16 == a % 16
  {
  }

  lemma CounterShift(c: nat, k: nat)
    ensures ((c + 1) % 256 + k) % 16 == (c + (k + 1)) % 16
  {
    Mod16((c + 1) % 256 + k, 16 * ((c + 1) / 256));
  }

  lemma WellCutStep(p: Packet, tail: seq<Packet>, pid: nat, c: nat, pcr: Option<nat>, randomAccess: bool, start: bool)
    requires p.hasPayload && p.pid == pid && p.body != [] && p.counter == c % 16
    requires p.start == start && p.randomAccess == randomAccess && p.pcr == pcr
    requires tail != [] ==> |p.body| + Reserved(randomAccess, pcr) == TS_PAYLOAD_SIZE
    requires WellCut(tail, pid, (c + 1) % 256, None, false, false)
    ensures WellCut([p] + tail, pid, c, pcr, randomAccess, start)
  {
    var ps := [p] + tail;
    forall k | 0 <= k < |ps|
      ensures ps[k].counter == (c + k) % 16 && (k > 0 ==> ps[k] == tail[k - 1])
    {
      if k > 0 {
        CounterShift(c, k - 1);
      }
    }
  }

  lemma {:induction false} SplitWellCut(
      pid: nat, continuity: nat, data: seq<byte>, pcr: Option<nat>, randomAccess: bool, start: bool)
    requires pid < 0x2000
    requires pcr.Some? ==> pcr.value < TIMESTAMP_WRAP
    ensures var ps := Split(pid, continuity, data, pcr, randomAccess, start);
      Bodies(ps) == data && WellCut(ps, pid, continuity, pcr, randomAccess, start)
    decreases |data|
  {
    hide WellCut, Split;
    if data == [] {
      SplitEnd(pid, continuity, pcr, randomAccess, start);
      NothingCut(pid, continuity, pcr, randomAccess, start);
    } else {
      SplitStep(pid, continuity, data, pcr, randomAccess, start);
      var n := Share(|data|, randomAccess, pcr);
      var p := Packet(pid, start, continuity % 16, true, randomAccess, pcr, data[..n]);
      var tail := Split(pid, (continuity + 1) % 256, data[n..], None, false, false);
      SplitWellCut(pid, (continuity + 1) % 256, data[n..], None, false, false);
      assert ([p] + tail)[1..] == tail;
      assert data == data[..n] + data[n..];
      if n == |data| {
        SplitEnd(pid, (continuity + 1) % 256, None, false, false);
        assert data[n..] == [];
      }
      WellCutStep(p, tail, pid, continuity, pcr, randomAccess, start);
    }
  }

  lemma NothingCut(pid: nat, continuity: nat, pcr: Option<nat>, randomAccess: bool, start: bool)
    ensures WellCut([], pid, continuity, pcr, randomAccess, start)
  {
  }

  /**
   Splitting a PES packet loses and reorders nothing, fills every packet but the
   last, and never lets a flag fall into the one-byte adaptation field: every packet
   is 188 bytes that read back with all their flags.
   */
  lemma Packetisation(pid: nat, continuity: nat, data: seq<byte>, pcr: Option<nat>, randomAccess: bool, start: bool)
    requires pid < 0x2000
    requires pcr.Some? ==> pcr.value < TIMESTAMP_WRAP
    ensures var ps := Split(pid, continuity, data, pcr, randomAccess, start);
      && Bodies(ps) == data
      && WellCut(ps, pid, continuity, pcr, randomAccess, start)
      && forall k :: 0 <= k < |ps| ==> |Encode(ps[k])| == 188 && Decode(Encode(ps[k])) == Some(ps[k])
  {
    hide Encode, Decode, Split, WellCut;
    SplitWellCut(pid, continuity, data, pcr, randomAccess, start);
    var ps := Split(pid, continuity, data, pcr, randomAccess, start);
    forall k | 0 <= k < |ps|
      ensures |Encode(ps[k])| == 188 && Decode(Encode(ps[k])) == Some(ps[k])
    {
      DecodeEncode(ps[k]);
    }
  }

  // ------------------------------------------------------------ the clock

  /** The last presentation time whose tick count is exact. */
  const LAST_EXACT_US: nat := 2_049_638_230_412_172_411

  /**
   Ticks are the exact floor of 9/100 of the microseconds precisely up to
   `LAST_EXACT_US`; past it the saturating multiplication freezes them.
   */
  lemma TicksExactIff(ptsUs: nat)
    ensures Ticks(ptsUs) == 9 * ptsUs / 100 <==> ptsUs <= LAST_EXACT_US
  {
    if ptsUs <= LAST_EXACT_US {
      if 9 * ptsUs > MAX_U64 {
        assert 9 * ptsUs / 100 == MAX_U64 / 100;
      }
    } else {
      assert 9 * ptsUs >= 9 * (LAST_EXACT_US + 1);
      assert 9 * ptsUs / 100 >= 9 * (LAST_EXACT_US + 1) / 100 > MAX_U64 / 100;
    }
  }

  /** Two instants past the limit a second apart, given one and the same tick. */
  lemma TicksFreeze()
    ensures Ticks(LAST_EXACT_US + 1) == Ticks(LAST_EXACT_US + 1_000_001)
    ensures Pts(LAST_EXACT_US + 1) == Pts(LAST_EXACT_US + 1_000_001)
  {
  }

  /** Rounding down never accumulates: over any stretch the error stays under one tick. */
  lemma NoDrift(fromUs: nat, toUs: nat)
    requires fromUs <= toUs <= LAST_EXACT_US
    ensures -100 < 100 * (Ticks(toUs) - Ticks(fromUs)) - 9 * (toUs - fromUs) < 100
  {
    TicksExactIff(fromUs);
    TicksExactIff(toUs);
  }

  /** PTS runs ahead of PCR by the same lead on every frame, the 33-bit wrap included. */
  lemma PtsLeadsPcr(ptsUs: nat)
    ensures (Pts(ptsUs) - Clock(ptsUs)) % 8_589_934_592 == 18_000
  {
  }

  // ------------------------------------------------------------ the tables

  /** Whatever a muxer that has announced nothing writes, it writes the program first. */
  lemma {:induction false} ProgramComesFirst(m: State, calls: seq<Call>)
    requires Valid(m) && m.lastPsi.None?
    ensures var ps := Run(m, calls).packets;
      ps != [] ==> |ps| >= 2 && ps[..2] == Tables(m)
    decreases |calls|
  {
    hide FramePackets, Tables, PsiPacket;
    if calls != [] {
      var first := Step(m, calls[0]);
      TwoTables(m);
      if first.packets == [] {
        assert first.state == m;
        ProgramComesFirst(m, calls[1..]);
      } else {
        assert first.packets[..2] == Tables(m);
      }
    }
  }

  lemma TwoTables(m: State)
    requires Valid(m)
    ensures |Tables(m)| == 2 && Tables(m)[0].pid == PAT_PID && Tables(m)[1].pid == PMT_PID
  {
  }

  /** Keyframes always get the tables in front of them. */
  lemma TablesBeforeKeyframe(m: State, track: nat, ptsUs: nat, payload: seq<byte>)
    requires Valid(m) && payload != []
    ensures var ps := TsMux.WriteFrame(m, track, ptsUs, true, payload).packets;
      |ps| >= 2 && ps[..2] == Tables(m)
  {
    hide FramePackets, Tables;
    TwoTables(m);
  }

  /** After any frame the last tables are less than one interval old. */
  lemma TablesNeverStale(m: State, track: nat, ptsUs: nat, randomAccess: bool, payload: seq<byte>)
    requires Valid(m) && payload != []
    ensures var w := TsMux.WriteFrame(m, track, ptsUs, randomAccess, payload);
      && w.state.lastPsi.Some?
      && (Clock(ptsUs) - w.state.lastPsi.value) % 8_589_934_592 < 9_000
      && (w.state.lastPsi != m.lastPsi ==> |w.packets| >= 2 && w.packets[..2] == Tables(m))
  {
    hide FramePackets, Tables;
    TwoTables(m);
  }

  // ------------------------------------------------------------ the frames, plainly

  /** The calls that put a frame on a track, in order. */
  function OnTrack(calls: seq<Call>, track: nat): seq<Call> {
    if calls == [] then []
    else (if calls[0].WriteFrame? && calls[0].track == track && calls[0].payload != [] then [calls[0]] else [])
         + OnTrack(calls[1..], track)
  }

  predicate Carries(f: R.Frame, c: Call) {
    && c.WriteFrame?
    && f.pid == 0x100 + c.track
    && f.payload == c.payload
    && f.randomAccess == c.randomAccess
    && f.pts == (Ticks(c.ptsUs) + 18_000) % 8_589_934_592
    && f.declaredLength == (if |c.payload| + 8 <= 65_535 then |c.payload| + 8 else 0)
    && (c.randomAccess ==> f.precededByPsi)
  }

  /** What a reader is expected to find on a PID is, call by call, what was written to its track. */
  lemma {:induction false} ExpectedIsWritten(m: State, pending: bool, calls: seq<Call>, track: nat)
    requires Valid(m) && track < |m.tracks|
    ensures var found := Expected(m, pending, calls, FIRST_ES_PID + track);
      var sent := OnTrack(calls, track);
      && |found| == |sent|
      && forall k :: 0 <= k < |found| ==> Carries(found[k], sent[k])
    decreases |calls|
  {
    hide Step, FrameOn, FreshAfter, Carries;
    if calls != [] {
      var m' := Step(m, calls[0]).state;
      var pid := FIRST_ES_PID + track;
      ExpectedIsWritten(m', FreshAfter(m, pending, calls[0]), calls[1..], track);
      FrameIsCall(m, pending, calls[0], track);
      CarriedBehind(FrameOn(m, pending, calls[0], pid), if Puts(calls[0], track) then [calls[0]] else [],
                    Expected(m', FreshAfter(m, pending, calls[0]), calls[1..], pid), OnTrack(calls[1..], track));
    }
  }

  lemma CarriedBehind(f: seq<R.Frame>, s: seq<Call>, found: seq<R.Frame>, sent: seq<Call>)
    requires |f| == |s| && |found| == |sent|
    requires forall k :: 0 <= k < |f| ==> Carries(f[k], s[k])
    requires forall k :: 0 <= k < |found| ==> Carries(found[k], sent[k])
    ensures |f + found| == |s + sent|
    ensures forall k :: 0 <= k < |f + found| ==> Carries((f + found)[k], (s + sent)[k])
  {
    hide Carries;
  }

  predicate Puts(c: Call, track: nat) {
    c.WriteFrame? && c.track == track && c.payload != []
  }

  lemma FrameIsCall(m: State, pending: bool, c: Call, track: nat)
    requires Valid(m) && track < |m.tracks|
    ensures var found := FrameOn(m, pending, c, FIRST_ES_PID + track);
      if Puts(c, track) then |found| == 1 && Carries(found[0], c) else found == []
  {
    hide Clock;
    if c.WriteFrame? {
      PtsOnce(c.ptsUs);
    }
  }

  lemma PtsOnce(ptsUs: nat)
    ensures Pts(ptsUs) == (Ticks(ptsUs) + PTS_LEAD) % TIMESTAMP_WRAP
  {
    var t := Ticks(ptsUs);
    assert t == TIMESTAMP_WRAP * (t / TIMESTAMP_WRAP) + t % TIMESTAMP_WRAP;
  }

  /** The round trip, read as a statement about the calls alone. */
  lemma RoundTripIsTheCalls(kinds: seq<StreamType>, calls: seq<Call>, track: nat)
    requires |kinds| <= MAX_TRACKS && track < |kinds|
    ensures R.FeedBytes(R.FRESH, Output(kinds, calls)).Some?
    ensures var found := R.Delivered(R.FeedBytes(R.FRESH, Output(kinds, calls)).value, FIRST_ES_PID + track);
      var sent := OnTrack(calls, track);
      && |found| == |sent|
      && forall k :: 0 <= k < |found| ==> Carries(found[k], sent[k])
  {
    hide R.FeedBytes, Output, Expected, R.Delivered;
    MuxerRoundTrip(kinds, calls);
    ExpectedIsWritten(Initial(kinds), false, calls, track);
  }
}
