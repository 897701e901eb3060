/**
 From the muxer through the fanout to a reader. A fanout outlives its producers: it is
 fed by one camera session after another, each with a muxer of its own and one chunk per
 frame. What a consumer was handed without a gap, from any resync point on, reads back
 exactly as far as each session joins on to the one before it.
 */
module EndToEnd {
  import opened Wrappers
  import opened Bytes
  import opened TsPackets
  import opened TsMux
  import R = TsReader
  import RT = RoundTrip
  import PSI = PsiReading
  import opened Seams
  import MP = MuxProperties
  import opened Fanout
  import opened FanoutRuns

  /** The chunk one frame becomes; keyframes are the resync points. */
  function ChunkOf(m: State, c: RT.Call): (chunk: Chunk)
    requires Valid(m) && RT.Produces(c, |m.tracks|)
    ensures c.WriteFrame? && chunk.resyncPoint == c.randomAccess && chunk.ptsUs == c.ptsUs
  {
    hide RT.Step, EncodeAll;
    Chunk(EncodeAll(RT.Step(m, c).packets), c.randomAccess, c.ptsUs)
  }

  /** Flag and time of every frame are those of its chunk. */
  predicate Mirrors(cs: seq<Chunk>, calls: seq<RT.Call>) {
    && |cs| == |calls|
    && forall i :: 0 <= i < |cs| ==>
      calls[i].WriteFrame? && cs[i].resyncPoint == calls[i].randomAccess && cs[i].ptsUs == calls[i].ptsUs
  }

  lemma MirrorsNone()
    ensures Mirrors([], [])
  {
  }

  lemma MirrorsFirst(c: Chunk, cs: seq<Chunk>, calls: seq<RT.Call>)
    requires calls != [] && Mirrors(cs, calls[1..])
    requires calls[0].WriteFrame? && c.resyncPoint == calls[0].randomAccess && c.ptsUs == calls[0].ptsUs
    ensures Mirrors([c] + cs, calls)
  {
  }

  /** The chunks a run of frames is pushed as. */
  function Produced(m: State, calls: seq<RT.Call>): (cs: seq<Chunk>)
    requires Valid(m) && RT.AllProduce(calls, |m.tracks|)
    ensures |cs| == |calls| && Mirrors(cs, calls)
    decreases |calls|
  {
    hide RT.Step, RT.Produces, Valid, ChunkOf, Mirrors;
    if calls == [] then MirrorsNone(); []
    else
      assert RT.Produces(calls[0], |m.tracks|);
      var chunk := ChunkOf(m, calls[0]);
      var rest := Produced(RT.Step(m, calls[0]).state, calls[1..]);
      MirrorsFirst(chunk, rest, calls);
      [chunk] + rest
  }

  function BytesOf(cs: seq<Chunk>): seq<byte> {
    if cs == [] then [] else cs[0].bytes + BytesOf(cs[1..])
  }

  /** The muxer after the first `n` calls. */
  function StateAfter(m: State, calls: seq<RT.Call>, n: nat): (s: State)
    requires Valid(m) && n <= |calls|
    ensures Valid(s) && |s.tracks| == |m.tracks|
    decreases n
  {
    if n == 0 then m else StateAfter(RT.Step(m, calls[0]).state, calls[1..], n - 1)
  }

  lemma {:induction false} ProducedBytes(m: State, calls: seq<RT.Call>)
    requires Valid(m) && RT.AllProduce(calls, |m.tracks|)
    ensures BytesOf(Produced(m, calls)) == EncodeAll(RT.Run(m, calls).packets)
    decreases |calls|
  {
    hide EncodeAll, RT.Step;
    if calls == [] {
      EncodeAllNone();
    } else {
      var first := RT.Step(m, calls[0]);
      ProducedBytes(first.state, calls[1..]);
      EncodeAllConcat(first.packets, RT.Run(first.state, calls[1..]).packets);
      assert Produced(m, calls)[1..] == Produced(first.state, calls[1..]);
    }
  }

  /** A stretch of the history is what the muxer writes from its state at that point. */
  lemma {:induction false} ProducedFrom(m: State, calls: seq<RT.Call>, from: nat)
    requires Valid(m) && RT.AllProduce(calls, |m.tracks|) && from <= |calls|
    ensures Produced(m, calls)[from..] == Produced(StateAfter(m, calls, from), calls[from..])
    decreases from
  {
    hide RT.Step, ChunkOf;
    if from == 0 {
      assert calls[0..] == calls;
    } else {
      var m' := RT.Step(m, calls[0]).state;
      ProducedFrom(m', calls[1..], from - 1);
      assert calls[1..][from - 1..] == calls[from..];
      assert Produced(m, calls)[from..] == Produced(m', calls[1..])[from - 1..];
    }
  }

  lemma FirstProduced(m: State, calls: seq<RT.Call>)
    requires Valid(m) && RT.AllProduce(calls, |m.tracks|) && calls != []
    ensures var m' := RT.Step(m, calls[0]).state;
      && RT.AllProduce(calls[1..], |m'.tracks|)
      && Produced(m, calls) == [ChunkOf(m, calls[0])] + Produced(m', calls[1..])
  {
    hide RT.Step, ChunkOf;
  }

  lemma NoneProduced(m: State, calls: seq<RT.Call>)
    requires Valid(m) && RT.AllProduce(calls, |m.tracks|)
    ensures Produced(m, calls)[..0] == [] && Produced(m, calls[..0]) == []
  {
  }

  lemma {:induction false} ProducedUpTo(m: State, calls: seq<RT.Call>, n: nat)
    requires Valid(m) && RT.AllProduce(calls, |m.tracks|) && n <= |calls|
    ensures RT.AllProduce(calls[..n], |m.tracks|)
    ensures Produced(m, calls)[..n] == Produced(m, calls[..n])
    decreases n
  {
    hide RT.Step, ChunkOf, Produced, RT.AllProduce;
    AllProducePart(calls, |m.tracks|, 0, n);
    assert calls[0..n] == calls[..n];
    if n == 0 {
      NoneProduced(m, calls);
    } else {
      FirstProduced(m, calls);
      FirstProduced(m, calls[..n]);
      var m' := RT.Step(m, calls[0]).state;
      ProducedUpTo(m', calls[1..], n - 1);
      assert calls[..n][1..] == calls[1..][..n - 1];
      SliceFirst(Produced(m, calls), Produced(m', calls[1..]), n);
    }
  }

  lemma SliceFirst(all: seq<Chunk>, rest: seq<Chunk>, n: nat)
    requires 0 < n <= |all| && all == [all[0]] + rest
    ensures all[..n] == [all[0]] + rest[..n - 1]
  {
  }

  lemma ProducedSlice(m: State, calls: seq<RT.Call>, from: nat, to: nat)
    requires Valid(m) && RT.AllProduce(calls, |m.tracks|) && from <= to <= |calls|
    ensures RT.AllProduce(calls[from..to], |m.tracks|)
    ensures Produced(m, calls)[from..to] == Produced(StateAfter(m, calls, from), calls[from..to])
  {
    hide Produced, StateAfter, RT.AllProduce;
    ProducedFrom(m, calls, from);
    AllProducePart(calls, |m.tracks|, from, to);
    ProducedUpTo(StateAfter(m, calls, from), calls[from..], to - from);
    assert calls[from..][..to - from] == calls[from..to];
    assert Produced(m, calls)[from..][..to - from] == Produced(m, calls)[from..to];
  }

  lemma AllProducePart(calls: seq<RT.Call>, tracks: nat, from: nat, to: nat)
    requires RT.AllProduce(calls, tracks) && from <= to <= |calls|
    ensures RT.AllProduce(calls[from..], tracks) && RT.AllProduce(calls[from..to], tracks)
  {
  }

  // ------------------------------------------------------------ starting in the middle

  /**
   A reader started on a keyframe in the middle of a stream, knowing nothing, accepts
   everything from there on and finds exactly the frames written from there on.
   */
  lemma JoinedAtKeyframe(m: State, calls: seq<RT.Call>, pid: nat)
    requires Valid(m) && RT.AllProduce(calls, |m.tracks|)
    requires calls != [] && RT.IsKeyframe(calls[0])
    ensures R.FeedAll(R.FRESH, RT.Run(m, calls).packets).Some?
    ensures R.Delivered(R.FeedAll(R.FRESH, RT.Run(m, calls).packets).value, pid) == RT.Expected(m, false, calls, pid)
  {
    hide R.FeedAll, RT.Step, R.Delivered, RT.InStep, RT.FrameOn, RT.FreshAfter, RT.ClocksRead;
    var c := calls[0];
    FreshReader(m, pid);
    RT.FrameCallRead(m, R.FRESH, c, pid);
    var first := RT.Step(m, c);
    var r := R.FeedAll(R.FRESH, first.packets).value;
    RT.RunRead(first.state, r, calls[1..], pid);
    R.FeedAllConcat(R.FRESH, first.packets, RT.Run(first.state, calls[1..]).packets);
    assert r.freshPsi == RT.FreshAfter(m, false, c);
  }

  lemma FreshReader(m: State, pid: nat)
    ensures R.Delivered(R.FRESH, pid) == []
    ensures RT.InStep(m, R.FRESH)
  {
  }

  // ------------------------------------------------------------ through the fanout

  /** The bytes handed to consumer for the kept positions `i` to `j`. */
  function Handed(history: seq<Chunk>, kept: seq<nat>, i: nat, j: nat): seq<byte>
    requires i <= j <= |kept|
    requires forall k :: 0 <= k < |kept| ==> kept[k] < |history|
  {
    BytesOf(Chunks(history, kept)[i..j])
  }

  /** Consecutive positions: nothing missing between them. */
  predicate Gapless(kept: seq<nat>, i: nat, j: nat)
    requires i < j <= |kept|
  {
    forall k :: i <= k < j ==> kept[k] == kept[i] + (k - i)
  }

  predicate Within(kept: seq<nat>, n: nat) {
    forall k :: 0 <= k < |kept| ==> kept[k] < n
  }

  lemma RangeChunks(history: seq<Chunk>, kept: seq<nat>, i: nat, j: nat)
    requires i < j <= |kept| && Within(kept, |history|) && Gapless(kept, i, j)
    ensures kept[i] + (j - i) <= |history|
    ensures Chunks(history, kept)[i..j] == history[kept[i]..kept[i] + (j - i)]
  {
    assert kept[j - 1] == kept[i] + (j - 1 - i);
  }

  lemma SoundWithin(history: seq<Chunk>, r: Reading, limit: Option<nat>)
    requires Sound(history, r, limit)
    ensures Within(Kept(r), |history|)
  {
  }

  /** An increasing run through exactly the positions of an interval is the interval. */
  lemma {:induction false} IncreasingIsRange(ps: seq<nat>, from: nat, end: nat)
    requires from <= end && Increasing(ps)
    requires forall p :: p in ps <==> from <= p < end
    ensures |ps| == end - from
    ensures forall k :: 0 <= k < |ps| ==> ps[k] == from + k
    decreases end - from
  {
    assert ps != [] ==> ps[0] in ps;
    if from < end {
      var n := |ps| - 1;
      assert end - 1 in ps;
      var at :| 0 <= at < |ps| && ps[at] == end - 1;
      assert ps[n] in ps;
      assert ps[n] == end - 1;
      forall p
        ensures p in ps[..n] <==> from <= p < end - 1
      {
        if from <= p < end - 1 {
          assert p in ps;
        }
        if p in ps[..n] {
          var k :| 0 <= k < n && ps[k] == p;
          assert p in ps;
        }
      }
      IncreasingIsRange(ps[..n], from, end - 1);
    }
  }

  // ------------------------------------------------------------ sessions

  /** One camera session: a new muxer for `kinds`, and the frames it was given. */
  datatype Session = Session(kinds: seq<StreamType>, calls: seq<RT.Call>)

  predicate Lawful(s: Session) {
    |s.kinds| <= MAX_TRACKS && RT.AllProduce(s.calls, |s.kinds|)
  }

  predicate AllLawful(ss: seq<Session>) {
    forall i :: 0 <= i < |ss| ==> Lawful(ss[i])
  }

  function AllCalls(ss: seq<Session>): seq<RT.Call> {
    if ss == [] then [] else ss[0].calls + AllCalls(ss[1..])
  }

  /** Everything pushed over a list of sessions. */
  function Fed(ss: seq<Session>): (cs: seq<Chunk>)
    requires AllLawful(ss)
    ensures |cs| == |AllCalls(ss)|
  {
    if ss == [] then [] else Produced(Initial(ss[0].kinds), ss[0].calls) + Fed(ss[1..])
  }

  /** A chunk of the history carries the flag and the time of its frame. */
  lemma {:induction false} FedCarries(ss: seq<Session>, k: nat)
    requires AllLawful(ss) && k < |AllCalls(ss)|
    ensures var c := AllCalls(ss)[k];
      && c.WriteFrame?
      && Fed(ss)[k].resyncPoint == c.randomAccess
      && Fed(ss)[k].ptsUs == c.ptsUs
  {
    hide Produced;
    var n := |ss[0].calls|;
    if k < n {
      assert RT.Produces(ss[0].calls[k], |ss[0].kinds|);
    } else {
      FedCarries(ss[1..], k - n);
    }
  }

  /** A stretch of one session. */
  function PieceOf(s: Session, from: nat, end: nat): (p: Piece)
    requires Lawful(s) && from <= end <= |s.calls|
    ensures p.calls == s.calls[from..end]
  {
    Piece(StateAfter(Initial(s.kinds), s.calls, from), s.calls[from..end])
  }

  /** The stretches of each session that a stretch of the history is made of. */
  function PiecesOf(ss: seq<Session>, from: nat, end: nat): seq<Piece>
    requires AllLawful(ss) && from <= end <= |AllCalls(ss)|
    decreases |ss|
  {
    if ss == [] || from == end then []
    else
      var n := |ss[0].calls|;
      if from >= n then PiecesOf(ss[1..], from - n, end - n)
      else
        [PieceOf(ss[0], from, Min(end, n))]
        + if end <= n then [] else PiecesOf(ss[1..], 0, end - n)
  }

  predicate KeyframeAt(ss: seq<Session>, from: nat) {
    from < |AllCalls(ss)| && RT.IsKeyframe(AllCalls(ss)[from])
  }

  lemma Regroup(a: seq<byte>, b: seq<byte>, c: seq<byte>)
    ensures a + (b + c) == (a + b) + c
  {
  }

  lemma {:induction false} BytesConcat(a: seq<Chunk>, b: seq<Chunk>)
    ensures BytesOf(a + b) == BytesOf(a) + BytesOf(b)
  {
    if a == [] {
      assert a + b == b;
    } else {
      BytesConcat(a[1..], b);
      assert (a + b)[0] == a[0] && (a + b)[1..] == a[1..] + b;
      Regroup(a[0].bytes, BytesOf(a[1..]), BytesOf(b));
    }
  }

  /** The first piece opens, at a keyframe or with its muxer still new, and muxes to its own chunks. */
  lemma FirstStretch(s: Session, from: nat, end: nat)
    requires Lawful(s) && from < end <= |s.calls|
    requires from == 0 || RT.IsKeyframe(s.calls[from])
    ensures var p := Piece(StateAfter(Initial(s.kinds), s.calls, from), s.calls[from..end]);
      && Opens(p)
      && BytesOf(Produced(Initial(s.kinds), s.calls)[from..end]) == EncodeAll(Packets(p))
  {
    hide Produced, RT.Run, EncodeAll;
    var m := Initial(s.kinds);
    ProducedSlice(m, s.calls, from, end);
    ProducedBytes(StateAfter(m, s.calls, from), s.calls[from..end]);
    NothingAnnounced(s.kinds);
  }

  lemma NothingAnnounced(kinds: seq<StreamType>)
    requires |kinds| <= MAX_TRACKS
    ensures Initial(kinds).lastPsi.None? && |Initial(kinds).tracks| == |kinds|
  {
  }

  lemma SliceAcross<T>(a: seq<T>, b: seq<T>, from: nat, end: nat)
    requires from <= end <= |a| + |b|
    ensures from >= |a| ==> (a + b)[from..end] == b[from - |a|..end - |a|]
    ensures end <= |a| ==> (a + b)[from..end] == a[from..end]
    ensures from <= |a| <= end ==> (a + b)[from..end] == a[from..|a|] + b[0..end - |a|]
  {
  }

  lemma FirstSession(ss: seq<Session>)
    requires AllLawful(ss) && ss != []
    ensures Lawful(ss[0]) && AllLawful(ss[1..])
    ensures Fed(ss) == Produced(Initial(ss[0].kinds), ss[0].calls) + Fed(ss[1..])
    ensures AllCalls(ss) == ss[0].calls + AllCalls(ss[1..])
  {
    hide Produced;
  }

  /** A stretch of the history is the output of its pieces, and every piece opens. */
  lemma {:induction false} StretchIsPieces(ss: seq<Session>, from: nat, end: nat)
    requires AllLawful(ss) && from <= end <= |AllCalls(ss)|
    requires from == 0 || from == end || KeyframeAt(ss, from)
    ensures AllOpen(PiecesOf(ss, from, end))
    ensures BytesOf(Fed(ss)[from..end]) == EncodeAll(AllPackets(PiecesOf(ss, from, end)))
    decreases |ss|
  {
    hide Produced, Initial, StateAfter, Opens, Packets, EncodeAll, RT.IsKeyframe, RT.AllProduce, AllLawful, BytesOf,
      Fed, AllCalls, AllOpen, AllPackets;
    if ss != [] && from < end {
      var s, rest := ss[0], ss[1..];
      FirstSession(ss);
      NothingAnnounced(s.kinds);
      var first := Produced(Initial(s.kinds), s.calls);
      var n := |s.calls|;
      SliceAcross(first, Fed(rest), from, end);
      if from >= n {
        StretchIsPieces(rest, from - n, end - n);
      } else {
        var cut := Min(end, n);
        FirstStretch(s, from, cut);
        var p := Piece(StateAfter(Initial(s.kinds), s.calls, from), s.calls[from..cut]);
        if end <= n {
          OnePiece(p);
        } else {
          var more := PiecesOf(rest, 0, end - n);
          StretchIsPieces(rest, 0, end - n);
          BytesConcat(first[from..n], Fed(rest)[0..end - n]);
          MorePieces(p, more);
        }
      }
    } else {
      NoPieces(ss, from, end);
    }
  }

  lemma NoPieces(ss: seq<Session>, from: nat, end: nat)
    requires AllLawful(ss) && from <= end <= |AllCalls(ss)| && (ss == [] || from == end)
    ensures PiecesOf(ss, from, end) == [] && AllOpen([])
    ensures BytesOf(Fed(ss)[from..end]) == EncodeAll(AllPackets([]))
  {
    EncodeAllNone();
    assert Fed(ss)[from..end] == [];
  }

  lemma OnePiece(p: Piece)
    requires Opens(p)
    ensures Valid(p.m) && AllOpen([p]) && EncodeAll(AllPackets([p])) == EncodeAll(Packets(p))
    ensures [p] + [] == [p]
  {
    hide Opens, Packets, EncodeAll;
    OpensValid(p);
    FirstPiece([p]);
    assert [p][1..] == [];
    assert Packets(p) + [] == Packets(p);
  }

  lemma MorePieces(p: Piece, more: seq<Piece>)
    requires Opens(p) && AllOpen(more)
    ensures Valid(p.m) && AllOpen([p] + more)
    ensures EncodeAll(AllPackets([p] + more)) == EncodeAll(Packets(p)) + EncodeAll(AllPackets(more))
  {
    hide Opens, Packets, EncodeAll;
    OpensValid(p);
    FirstPiece([p] + more);
    assert ([p] + more)[1..] == more;
    EncodeAllConcat(Packets(p), AllPackets(more));
  }

  // ------------------------------------------------------------ what a stretch reads as

  /**
   A reader started on the first byte of a stretch accepts it if and only if every session
   in it joins on to the ones before, and then finds exactly the frames of its pieces.
   */
  ghost predicate SegmentReads(ss: seq<Session>, from: nat, end: nat, bytes: seq<byte>)
    requires AllLawful(ss) && from <= end <= |AllCalls(ss)|
  {
    var ps := PiecesOf(ss, from, end);
    && AllOpen(ps)
    && (R.FeedBytes(R.FRESH, bytes).Some? <==> AllJoin(map[], [], ps))
    && (R.FeedBytes(R.FRESH, bytes).Some? ==>
          forall pid :: R.Delivered(R.FeedBytes(R.FRESH, bytes).value, pid) == AllExpected(ps, pid))
  }

  /** The bytes of any stretch of the history that opens with a keyframe. */
  lemma StretchReads(ss: seq<Session>, from: nat, end: nat)
    requires AllLawful(ss) && from < end <= |AllCalls(ss)| && KeyframeAt(ss, from)
    ensures SegmentReads(ss, from, end, BytesOf(Fed(ss)[from..end]))
  {
    hide R.FeedAll, R.FeedBytes, R.Delivered, AllOpen, AllJoin, AllExpected, AllPackets, PiecesOf, EncodeAll, BytesOf,
      AllLawful, KeyframeAt, AllSendable;
    StretchIsPieces(ss, from, end);
    var ps := PiecesOf(ss, from, end);
    RT.BytesAreBuilt(R.FRESH, AllPackets(ps));
    ChainReads(ps, R.FRESH, 0);
    forall pid
      ensures R.FeedAll(R.FRESH, AllPackets(ps)).Some? ==>
        R.Delivered(R.FeedAll(R.FRESH, AllPackets(ps)).value, pid) == AllExpected(ps, pid)
    {
      ChainReads(ps, R.FRESH, pid);
      NothingDelivered(pid);
    }
  }

  lemma NothingDelivered(pid: nat)
    ensures R.Delivered(R.FRESH, pid) == []
  {
  }

  // ------------------------------------------------------------ stretches within one session

  /** How much was pushed before a session. */
  function Offset(ss: seq<Session>, k: nat): nat
    requires k <= |ss|
  {
    if k == 0 then 0 else |ss[0].calls| + Offset(ss[1..], k - 1)
  }

  lemma {:induction false} OffsetWithin(ss: seq<Session>, k: nat)
    requires k < |ss|
    ensures Offset(ss, k) + |ss[k].calls| <= |AllCalls(ss)|
  {
    if k > 0 {
      OffsetWithin(ss[1..], k - 1);
    }
  }

  /** Within one session there is one piece. */
  lemma {:induction false} InOneSession(ss: seq<Session>, k: nat, from: nat, end: nat)
    requires AllLawful(ss) && k < |ss|
    requires Offset(ss, k) <= from < end <= Offset(ss, k) + |ss[k].calls|
    ensures end <= |AllCalls(ss)|
    ensures var s := ss[k];
      var o := Offset(ss, k);
      && RT.AllProduce(s.calls, |s.kinds|)
      && PiecesOf(ss, from, end)
      == [Piece(StateAfter(Initial(s.kinds), s.calls, from - o), s.calls[from - o..end - o])]
  {
    hide StateAfter, RT.AllProduce;
    OffsetWithin(ss, k);
    assert Lawful(ss[k]);
    if k > 0 {
      InOneSession(ss[1..], k - 1, from - |ss[0].calls|, end - |ss[0].calls|);
    }
  }

  /**
   Within one session nothing can go wrong: any stretch of it from a keyframe on is
   accepted, continuity check included, and yields exactly its frames.
   */
  lemma SessionReads(ss: seq<Session>, k: nat, from: nat, end: nat)
    requires AllLawful(ss) && k < |ss| && KeyframeAt(ss, from)
    requires Offset(ss, k) <= from < end <= Offset(ss, k) + |ss[k].calls|
    ensures end <= |AllCalls(ss)|
    ensures var s := ss[k];
      var o := Offset(ss, k);
      var bytes := BytesOf(Fed(ss)[from..end]);
      && Lawful(s)
      && R.FeedBytes(R.FRESH, bytes).Some?
      && forall pid :: R.Delivered(R.FeedBytes(R.FRESH, bytes).value, pid)
                    == RT.Expected(StateAfter(Initial(s.kinds), s.calls, from - o), false,
                                   s.calls[from - o..end - o], pid)
  {
    hide R.FeedBytes, R.Delivered, BytesOf, PiecesOf, StateAfter, RT.Expected, KeyframeAt, Fed, SegmentReads, Initial;
    InOneSession(ss, k, from, end);
    StretchReads(ss, from, end);
    assert Lawful(ss[k]);
    var o := Offset(ss, k);
    var p := Piece(StateAfter(Initial(ss[k].kinds), ss[k].calls, from - o), ss[k].calls[from - o..end - o]);
    OneSegment(ss, from, end, BytesOf(Fed(ss)[from..end]), p);
  }

  lemma OneSegment(ss: seq<Session>, from: nat, end: nat, bytes: seq<byte>, p: Piece)
    requires AllLawful(ss) && from <= end <= |AllCalls(ss)|
    requires SegmentReads(ss, from, end, bytes) && PiecesOf(ss, from, end) == [p]
    ensures Valid(p.m)
    ensures R.FeedBytes(R.FRESH, bytes).Some?
    ensures forall pid ::
      R.Delivered(R.FeedBytes(R.FRESH, bytes).value, pid) == RT.Expected(p.m, false, p.calls, pid)
  {
    hide R.FeedBytes, R.Delivered, PiecesOf, RT.Expected, Opens, AllJoin, AllLawful, AllCalls, AllExpected;
    assert Opens(p) by {
      assert [p][0] == p;
    }
    OpensValid(p);
    OnePieceJoins(p);
    forall pid
      ensures AllExpected([p], pid) == RT.Expected(p.m, false, p.calls, pid)
    {
      OneExpected(p, pid);
    }
  }

  lemma OneExpected(p: Piece, pid: nat)
    requires Opens(p)
    ensures AllOpen([p]) && Valid(p.m) && AllExpected([p], pid) == RT.Expected(p.m, false, p.calls, pid)
  {
    hide Opens, RT.Expected;
    OpensValid(p);
    assert [p][1..] == [];
    assert RT.Expected(p.m, false, p.calls, pid) + [] == RT.Expected(p.m, false, p.calls, pid);
  }

  // ------------------------------------------------------------ across one seam

  /** A stretch over the end of one session and the start of the next: read exactly if the seam is clean. */
  lemma AcrossOneSeam(a: Session, b: Session, from: nat, end: nat)
    requires Lawful(a) && Lawful(b) && from < |a.calls| < end <= |a.calls| + |b.calls|
    requires RT.IsKeyframe(a.calls[from])
    ensures AllLawful([a, b]) && |AllCalls([a, b])| == |a.calls| + |b.calls|
    ensures var p := Piece(StateAfter(Initial(a.kinds), a.calls, from), a.calls[from..]);
      var q := Piece(Initial(b.kinds), b.calls[..end - |a.calls|]);
      && Opens(p) && Opens(q)
      && (R.FeedBytes(R.FRESH, BytesOf(Fed([a, b])[from..end])).Some? <==> Seamless(p, q))
  {
    hide R.FeedBytes, BytesOf, Fed, Seamless, RT.IsKeyframe, AllJoin, Opens, AllOpen, Initial, StateAfter, PiecesOf,
      AllExpected, R.Delivered, Produced, Packets;
    TwoSessions(a, b, from, end);
    TwoOpen(a, b, from, end);
    StretchReads([a, b], from, end);
    SeamIff(Piece(StateAfter(Initial(a.kinds), a.calls, from), a.calls[from..]), b.kinds, b.calls[..end - |a.calls|]);
  }

  lemma TwoOpen(a: Session, b: Session, from: nat, end: nat)
    requires Lawful(a) && Lawful(b) && from < |a.calls| < end <= |a.calls| + |b.calls|
    requires RT.IsKeyframe(a.calls[from])
    ensures Opens(Piece(StateAfter(Initial(a.kinds), a.calls, from), a.calls[from..]))
    ensures Opens(Piece(Initial(b.kinds), b.calls[..end - |a.calls|]))
  {
    hide Produced, Packets, EncodeAll, Opens, StateAfter, Initial, BytesOf, RT.AllProduce, RT.IsKeyframe;
    var n := |a.calls|;
    FirstStretch(a, from, n);
    FirstStretch(b, 0, end - n);
    assert a.calls[from..n] == a.calls[from..] && b.calls[0..end - n] == b.calls[..end - n];
    NothingAnnounced(b.kinds);
    NoneYet(Initial(b.kinds), b.calls);
  }

  lemma TwoSessions(a: Session, b: Session, from: nat, end: nat)
    requires Lawful(a) && Lawful(b) && from < |a.calls| < end <= |a.calls| + |b.calls|
    requires RT.IsKeyframe(a.calls[from])
    ensures AllLawful([a, b]) && AllCalls([a, b]) == a.calls + b.calls
    ensures KeyframeAt([a, b], from)
    ensures PiecesOf([a, b], from, end)
         == [Piece(StateAfter(Initial(a.kinds), a.calls, from), a.calls[from..]),
             Piece(Initial(b.kinds), b.calls[..end - |a.calls|])]
  {
    hide RT.AllProduce;
    var n := |a.calls|;
    assert [a, b][1..] == [b] && [b][1..] == [];
    assert AllCalls([b]) == b.calls + [] == b.calls;
    assert AllCalls([a, b]) == a.calls + AllCalls([b]);
    assert a.calls[from..n] == a.calls[from..] && b.calls[0..end - n] == b.calls[..end - n];
    assert StateAfter(Initial(b.kinds), b.calls, 0) == Initial(b.kinds);
    assert PiecesOf([b], 0, end - n) == [Piece(Initial(b.kinds), b.calls[..end - n])];
  }

  // ------------------------------------------------------------ over every run

  /**
   End to end, over every run of the fanout, for every consumer, with any number of
   sessions behind it: any gap-free stretch it was handed from a resync point on, live or
   out of the GOP cache, is accepted by a reader started on its first byte if and only if
   its sessions join on to each other, and then yields exactly its frames.
   */
  lemma EveryConsumerReads(
      ss: seq<Session>, limit: Option<nat>, es: seq<Event>, id: nat, i: nat, j: nat)
    requires AllLawful(ss) && FanoutRuns.Run(limit, es).history == Fed(ss)
    requires id in FanoutRuns.Run(limit, es).consumers
    requires i < j <= |Kept(FanoutRuns.Run(limit, es).consumers[id])|
    ensures var kept := Kept(FanoutRuns.Run(limit, es).consumers[id]);
      && Within(kept, |AllCalls(ss)|)
      && (Gapless(kept, i, j) && Fed(ss)[kept[i]].resyncPoint ==>
            && kept[i] + (j - i) <= |AllCalls(ss)|
            && SegmentReads(ss, kept[i], kept[i] + (j - i), Handed(Fed(ss), kept, i, j)))
  {
    hide FanoutRuns.Run, Sound, SegmentReads, BytesOf, Fed, AllLawful;
    EveryRunSound(limit, es);
    var w := FanoutRuns.Run(limit, es);
    var kept := Kept(w.consumers[id]);
    SoundWithin(w.history, w.consumers[id], limit);
    if Gapless(kept, i, j) && Fed(ss)[kept[i]].resyncPoint {
      RangeChunks(Fed(ss), kept, i, j);
      FedCarries(ss, kept[i]);
      StretchReads(ss, kept[i], kept[i] + (j - i));
    }
  }

  /** Within one session, then, every such stretch reads back whole. */
  lemma ConsumerReadsSession(
      ss: seq<Session>, limit: Option<nat>, es: seq<Event>, id: nat, i: nat, j: nat, k: nat)
    requires AllLawful(ss) && FanoutRuns.Run(limit, es).history == Fed(ss)
    requires id in FanoutRuns.Run(limit, es).consumers
    requires i < j <= |Kept(FanoutRuns.Run(limit, es).consumers[id])| && k < |ss|
    requires Gapless(Kept(FanoutRuns.Run(limit, es).consumers[id]), i, j)
    requires var at := Kept(FanoutRuns.Run(limit, es).consumers[id])[i];
      && Offset(ss, k) <= at && at + (j - i) <= Offset(ss, k) + |ss[k].calls|
      && at < |AllCalls(ss)| && Fed(ss)[at].resyncPoint
    ensures var kept := Kept(FanoutRuns.Run(limit, es).consumers[id]);
      && Within(kept, |AllCalls(ss)|)
      && Lawful(ss[k])
      && var s := ss[k];
      var from := kept[i] - Offset(ss, k);
      var bytes := Handed(Fed(ss), kept, i, j);
      && R.FeedBytes(R.FRESH, bytes).Some?
      && forall pid :: R.Delivered(R.FeedBytes(R.FRESH, bytes).value, pid)
                    == RT.Expected(StateAfter(Initial(s.kinds), s.calls, from), false,
                                   s.calls[from..from + (j - i)], pid)
  {
    hide FanoutRuns.Run, Sound, R.FeedBytes, R.Delivered, BytesOf, Fed, StateAfter, RT.Expected;
    EveryRunSound(limit, es);
    var w := FanoutRuns.Run(limit, es);
    var kept := Kept(w.consumers[id]);
    SoundWithin(w.history, w.consumers[id], limit);
    RangeChunks(Fed(ss), kept, i, j);
    FedCarries(ss, kept[i]);
    SessionReads(ss, k, kept[i], kept[i] + (j - i));
  }

  /**
   A consumer that never overran has one single segment: everything it was ever handed or
   has queued, from its first chunk to the last one pushed to it.
   */
  lemma NeverOverrunReadsWhole(ss: seq<Session>, limit: Option<nat>, es: seq<Event>, id: nat)
    requires AllLawful(ss) && FanoutRuns.Run(limit, es).history == Fed(ss)
    requires id in FanoutRuns.Run(limit, es).consumers
    requires FanoutRuns.Run(limit, es).consumers[id].start.Some?
    requires FanoutRuns.Run(limit, es).consumers[id].queue.overruns == 0
    ensures var r := FanoutRuns.Run(limit, es).consumers[id];
      && r.start.value < r.seen <= |AllCalls(ss)|
      && Within(Kept(r), |AllCalls(ss)|)
      && SegmentReads(ss, r.start.value, r.seen, Handed(Fed(ss), Kept(r), 0, |Kept(r)|))
  {
    hide FanoutRuns.Run, Sound, SegmentReads, BytesOf, Fed, AllLawful;
    EveryRunSound(limit, es);
    var w := FanoutRuns.Run(limit, es);
    SoundWithoutGap(w.history, w.consumers[id], limit);
    EveryConsumerReads(ss, limit, es, id, 0, |Kept(w.consumers[id])|);
  }

  lemma SoundWithoutGap(history: seq<Chunk>, r: Reading, limit: Option<nat>)
    requires Sound(history, r, limit) && r.start.Some? && r.queue.overruns == 0
    ensures r.start.value < r.seen <= |history|
    ensures var kept := Kept(r);
      && |kept| == r.seen - r.start.value
      && kept[0] == r.start.value
      && Gapless(kept, 0, |kept|)
      && history[kept[0]].resyncPoint
  {
    IncreasingIsRange(Kept(r), r.start.value, r.seen);
  }

  // ------------------------------------------------------------ the frames, plainly

  function CallsOver(ps: seq<Piece>): seq<RT.Call> {
    if ps == [] then [] else ps[0].calls + CallsOver(ps[1..])
  }

  lemma PiecesUnfold(ss: seq<Session>, from: nat, end: nat)
    requires AllLawful(ss) && ss != [] && from < end <= |AllCalls(ss)|
    ensures Lawful(ss[0]) && AllLawful(ss[1..]) && AllCalls(ss) == ss[0].calls + AllCalls(ss[1..])
    ensures var n := |ss[0].calls|;
      PiecesOf(ss, from, end)
      == if from >= n then PiecesOf(ss[1..], from - n, end - n)
         else [PieceOf(ss[0], from, Min(end, n))] + if end <= n then [] else PiecesOf(ss[1..], 0, end - n)
  {
    hide PieceOf, Fed;
    FirstSession(ss);
  }

  lemma {:induction false} PiecesAreCalls(ss: seq<Session>, from: nat, end: nat)
    requires AllLawful(ss) && from <= end <= |AllCalls(ss)|
    ensures CallsOver(PiecesOf(ss, from, end)) == AllCalls(ss)[from..end]
    decreases |ss|
  {
    hide AllLawful, Lawful, AllCalls, PiecesOf, PieceOf, CallsOver;
    if ss != [] && from < end {
      PiecesUnfold(ss, from, end);
      var n := |ss[0].calls|;
      SliceAcross(ss[0].calls, AllCalls(ss[1..]), from, end);
      if from >= n {
        PiecesAreCalls(ss[1..], from - n, end - n);
      } else {
        var p := PieceOf(ss[0], from, Min(end, n));
        if end > n {
          PiecesAreCalls(ss[1..], 0, end - n);
          CallsFirst(p, PiecesOf(ss[1..], 0, end - n));
        } else {
          CallsFirst(p, []);
        }
      }
    } else {
      NothingCalled(ss, from, end);
    }
  }

  lemma NothingCalled(ss: seq<Session>, from: nat, end: nat)
    requires AllLawful(ss) && from <= end <= |AllCalls(ss)| && (ss == [] || from == end)
    ensures CallsOver(PiecesOf(ss, from, end)) == AllCalls(ss)[from..end]
  {
    assert AllCalls(ss)[from..end] == [];
  }

  lemma CallsFirst(p: Piece, more: seq<Piece>)
    ensures CallsOver([p] + more) == p.calls + CallsOver(more)
    ensures more == [] ==> CallsOver([p] + more) == p.calls
  {
    assert ([p] + more)[1..] == more;
  }

  lemma OnTrackFirst(c: RT.Call, rest: seq<RT.Call>, track: nat)
    ensures MP.OnTrack([c] + rest, track) == MP.OnTrack([c], track) + MP.OnTrack(rest, track)
  {
    assert ([c] + rest)[1..] == rest && [c][1..] == [];
  }

  lemma {:induction false} OnTrackConcat(a: seq<RT.Call>, b: seq<RT.Call>, track: nat)
    ensures MP.OnTrack(a + b, track) == MP.OnTrack(a, track) + MP.OnTrack(b, track)
  {
    hide MP.OnTrack;
    if a == [] {
      assert a + b == b;
      OnTrackNone(track);
    } else {
      var c, rest := a[0], a[1..];
      OnTrackConcat(rest, b, track);
      assert a == [c] + rest && a + b == [c] + (rest + b);
      OnTrackFirst(c, rest, track);
      OnTrackFirst(c, rest + b, track);
    }
  }

  lemma OnTrackNone(track: nat)
    ensures MP.OnTrack([], track) == []
  {
  }

  predicate Matches(found: seq<R.Frame>, sent: seq<RT.Call>) {
    |found| == |sent| && forall k :: 0 <= k < |found| ==> MP.Carries(found[k], sent[k])
  }

  lemma MatchesConcat(f: seq<R.Frame>, g: seq<R.Frame>, s: seq<RT.Call>, t: seq<RT.Call>)
    requires Matches(f, s) && Matches(g, t)
    ensures Matches(f + g, s + t)
  {
    hide MP.Carries;
  }

  /** Pieces that join on announce the same streams, so they have the same tracks. */
  lemma {:induction false} JoinedTracks(seen: map<nat, nat>, streams: seq<(nat, byte)>, ps: seq<Piece>)
    requires AllOpen(ps) && AllJoin(seen, streams, ps) && streams != []
    ensures forall i :: 0 <= i < |ps| ==> |ps[i].m.tracks| == |streams|
    decreases |ps|
  {
    hide Opens, Counters, Packets, Seams.Written, CounterOf;
    if ps != [] {
      OpensValid(ps[0]);
      StreamsNotEmpty(ps[0]);
      JoinedTracks(Counters(seen, Packets(ps[0])), PSI.StreamList(ps[0].m), ps[1..]);
      forall i | 0 <= i < |ps|
        ensures |ps[i].m.tracks| == |streams|
      {
        if i > 0 {
          assert ps[i] == ps[1..][i - 1];
        }
      }
    }
  }

  lemma {:induction false} AllExpectedIsWritten(ps: seq<Piece>, track: nat)
    requires AllOpen(ps) && forall i :: 0 <= i < |ps| ==> track < |ps[i].m.tracks|
    ensures Matches(AllExpected(ps, FIRST_ES_PID + track), MP.OnTrack(CallsOver(ps), track))
    decreases |ps|
  {
    hide Opens, RT.Expected, MP.OnTrack, MP.Carries, Matches;
    if ps == [] {
      NothingMatches(track);
    } else {
      OpensValid(ps[0]);
      AllExpectedIsWritten(ps[1..], track);
      PieceMatches(ps[0], track);
      OnTrackConcat(ps[0].calls, CallsOver(ps[1..]), track);
      MatchesConcat(RT.Expected(ps[0].m, false, ps[0].calls, FIRST_ES_PID + track),
                    AllExpected(ps[1..], FIRST_ES_PID + track),
                    MP.OnTrack(ps[0].calls, track), MP.OnTrack(CallsOver(ps[1..]), track));
    }
  }

  lemma NothingMatches(track: nat)
    ensures Matches([], MP.OnTrack([], track))
  {
  }

  lemma PieceMatches(p: Piece, track: nat)
    requires Valid(p.m) && track < |p.m.tracks|
    ensures Matches(RT.Expected(p.m, false, p.calls, FIRST_ES_PID + track), MP.OnTrack(p.calls, track))
  {
    hide RT.Expected, MP.OnTrack, MP.Carries;
    MP.ExpectedIsWritten(p.m, false, p.calls, track);
  }

  /**
   A stretch that is accepted, as a statement about what was written: on every track the
   frames of the stretch come back in order with payload, PTS and flag, whichever sessions
   they came from, and with the tables in front of every keyframe.
   */
  lemma StretchIsTheCalls(ss: seq<Session>, from: nat, end: nat, bytes: seq<byte>, track: nat)
    requires AllLawful(ss) && from < end <= |AllCalls(ss)|
    requires SegmentReads(ss, from, end, bytes) && R.FeedBytes(R.FRESH, bytes).Some?
    requires PiecesOf(ss, from, end) != [] && track < |PiecesOf(ss, from, end)[0].m.tracks|
    ensures Matches(R.Delivered(R.FeedBytes(R.FRESH, bytes).value, FIRST_ES_PID + track),
                    MP.OnTrack(AllCalls(ss)[from..end], track))
  {
    hide R.FeedBytes, R.Delivered, PiecesOf, AllExpected, MP.OnTrack, Matches, Opens, AllLawful, AllCalls;
    var ps := PiecesOf(ss, from, end);
    PiecesAreCalls(ss, from, end);
    FirstTracks(ps);
    AllExpectedIsWritten(ps, track);
  }

  lemma FirstTracks(ps: seq<Piece>)
    requires AllOpen(ps) && ps != [] && AllJoin(map[], [], ps)
    ensures forall i :: 0 <= i < |ps| ==> |ps[i].m.tracks| == |ps[0].m.tracks|
  {
    hide Opens, Counters, Packets, Seams.Written, CounterOf;
    OpensValid(ps[0]);
    StreamsNotEmpty(ps[0]);
    JoinedTracks(Counters(map[], Packets(ps[0])), PSI.StreamList(ps[0].m), ps[1..]);
    forall i | 0 <= i < |ps|
      ensures |ps[i].m.tracks| == |ps[0].m.tracks|
    {
      if i > 0 {
        assert ps[i] == ps[1..][i - 1];
      }
    }
  }

  // ------------------------------------------------------------ a seam out of the cache

  /** A session of one keyframe. */
  predicate Single(s: Session) {
    Lawful(s) && |s.calls| == 1 && RT.IsKeyframe(s.calls[0])
  }

  /** Its one chunk. */
  function OnlyChunk(s: Session): (c: Chunk)
    requires Single(s)
    ensures c.resyncPoint
  {
    NothingAnnounced(s.kinds);
    ChunkOf(Initial(s.kinds), s.calls[0])
  }

  /** The last reader leaves, the next one comes, and the camera is connected anew. */
  function Handover(a: Session, b: Session): seq<Event>
    requires Single(a) && Single(b)
  {
    [Attach(1), Push(OnlyChunk(a)), Drop(1), Attach(0), Push(OnlyChunk(b))]
  }

  lemma HandoverRuns(x: Chunk, y: Chunk)
    requires x.resyncPoint && y.resyncPoint && |x.bytes| <= GOP_CACHE_LIMIT
    ensures var w := FanoutRuns.Run(None, [Attach(1), Push(x), Drop(1), Attach(0), Push(y)]);
      && w.history == [x, y]
      && 0 in w.consumers
      && w.consumers[0].start == Some(0)
      && w.consumers[0].queue.overruns == 0
      && Kept(w.consumers[0]) == [0, 1]
  {
    var e1, e2, e3 := [Attach(1)], [Attach(1), Push(x)], [Attach(1), Push(x), Drop(1)];
    var e4 := [Attach(1), Push(x), Drop(1), Attach(0)];
    assert e1 == [] + [Attach(1)] && e2 == e1 + [Push(x)] && e3 == e2 + [Drop(1)] && e4 == e3 + [Attach(0)];
    RunSnoc(None, [], Attach(1));
    RunSnoc(None, e1, Push(x));
    RunSnoc(None, e2, Drop(1));
    RunSnoc(None, e3, Attach(0));
    RunSnoc(None, e4, Push(y));
    assert e4 + [Push(y)] == [Attach(1), Push(x), Drop(1), Attach(0), Push(y)];
    RunNone(None);
    hide FanoutRuns.Run, Step;
    HandoverSteps(x, y);
  }

  lemma HandoverSteps(x: Chunk, y: Chunk)
    requires x.resyncPoint && y.resyncPoint && |x.bytes| <= GOP_CACHE_LIMIT
    ensures var w3 := Step(Step(Step(NOTHING_YET, None, Attach(1)), None, Push(x)), None, Drop(1));
      var w := Step(Step(w3, None, Attach(0)), None, Push(y));
      && w.history == [x, y]
      && 0 in w.consumers
      && w.consumers[0].start == Some(0)
      && w.consumers[0].queue.overruns == 0
      && Kept(w.consumers[0]) == [0, 1]
  {
    var w1 := Step(NOTHING_YET, None, Attach(1));
    var w2 := Step(w1, None, Push(x));
    var w3 := Step(w2, None, Drop(1));
    assert w2.history == [x] && w2.gop == Gop([x], |x.bytes|, true) && w2.consumers.Keys == {1};
    assert w3.history == [x] && w3.gop == w2.gop && w3.consumers.Keys == {1};
    SeededSteps(w3, x, y);
  }

  lemma SeededSteps(w: World, x: Chunk, y: Chunk)
    requires w.history == [x] && w.gop == Gop([x], |x.bytes|, true) && 0 !in w.consumers
    ensures var z := Step(Step(w, None, Attach(0)), None, Push(y));
      && z.history == [x, y]
      && 0 in z.consumers
      && z.consumers[0].start == Some(0)
      && z.consumers[0].queue.overruns == 0
      && Kept(z.consumers[0]) == [0, 1]
  {
    var z := Step(w, None, Attach(0));
    assert Range(0, 1) == [0];
    assert z.consumers[0].queue == Queue([x], false, 1, false, 0);
  }

  /** One keyframe announces the program once, so its PAT counter is at 1 and its last PAT went out as 0. */
  lemma OnceAnnounced(s: Session)
    requires Single(s)
    ensures Opens(Piece(Initial(s.kinds), s.calls))
    ensures LastSent(Piece(Initial(s.kinds), s.calls), PAT_PID) == 0
  {
    hide Counters, FramePackets, Tables, LastSent, R.FeedAll;
    NothingAnnounced(s.kinds);
    var p := Piece(Initial(s.kinds), s.calls);
    TablesWritten(p);
    LastSentIsBehind(p, PAT_PID);
    assert s.calls[1..] == [];
    assert RT.Run(p.m, s.calls).state == RT.Step(p.m, s.calls[0]).state;
  }

  /**
   A seam that does not read: the reader attached after the last one left is handed the
   old session's keyframe out of the cache and the new session's behind it, without a gap
   and without an overrun, and a strict reader refuses it at the second PAT.
   */
  lemma CachedSeamRefused(a: Session, b: Session)
    requires Single(a) && Single(b) && |OnlyChunk(a).bytes| <= GOP_CACHE_LIMIT
    ensures AllLawful([a, b])
    ensures var bytes := BytesOf(Fed([a, b]));
      && FanoutRuns.Run(None, Handover(a, b)).history == Fed([a, b])
      && HandedBoth(FanoutRuns.Run(None, Handover(a, b)), bytes)
      && R.FeedBytes(R.FRESH, bytes).None?
  {
    hide R.FeedBytes, BytesOf, OnlyChunk, FanoutRuns.Run, Fed, Single, AllLawful, HandedBoth;
    var x, y := OnlyChunk(a), OnlyChunk(b);
    HandoverRuns(x, y);
    BothHanded(FanoutRuns.Run(None, [Attach(1), Push(x), Drop(1), Attach(0), Push(y)]), x, y);
    FedSingles(a, b);
    SinglesRefused(a, b);
    assert [x, y][0..2] == [x, y];
  }

  /** The late reader was handed both chunks, from a resync point on and without a gap: these bytes. */
  ghost predicate HandedBoth(w: World, bytes: seq<byte>) {
    && |w.history| == 2 && w.history[0].resyncPoint
    && 0 in w.consumers
    && w.consumers[0].queue.overruns == 0
    && Kept(w.consumers[0]) == [0, 1]
    && Gapless([0, 1], 0, 2)
    && Handed(w.history, [0, 1], 0, 2) == bytes
  }

  lemma BothHanded(w: World, x: Chunk, y: Chunk)
    requires w.history == [x, y] && x.resyncPoint && 0 in w.consumers
    requires w.consumers[0].queue.overruns == 0 && Kept(w.consumers[0]) == [0, 1]
    ensures HandedBoth(w, BytesOf([x, y]))
  {
    hide BytesOf;
    assert Chunks([x, y], [0, 1])[0..2] == [x, y];
  }

  lemma SinglesRefused(a: Session, b: Session)
    requires Single(a) && Single(b)
    ensures AllLawful([a, b]) && |AllCalls([a, b])| == 2
    ensures R.FeedBytes(R.FRESH, BytesOf(Fed([a, b])[0..2])).None?
  {
    hide R.FeedBytes, BytesOf, Fed, StateAfter, Initial, Packets, Counters, LastSent, RT.AllProduce;
    NothingAnnounced(a.kinds);
    assert Lawful(a) && Lawful(b);
    NoneYet(Initial(a.kinds), a.calls);
    assert a.calls[0..] == a.calls && b.calls[..1] == b.calls;
    AcrossOneSeam(a, b, 0, 2);
    OnceAnnounced(a);
    var p, q := Piece(Initial(a.kinds), a.calls), Piece(Initial(b.kinds), b.calls);
    TablesWritten(p);
    TablesWritten(q);
    assert !Seamless(p, q);
  }

  lemma NoneYet(m: State, calls: seq<RT.Call>)
    requires Valid(m)
    ensures StateAfter(m, calls, 0) == m
  {
  }

  lemma FedSingles(a: Session, b: Session)
    requires Single(a) && Single(b)
    ensures AllLawful([a, b]) && Fed([a, b]) == [OnlyChunk(a), OnlyChunk(b)]
  {
    hide ChunkOf, Produced, Fed, Initial, RT.AllProduce, OnlyChunk;
    assert Lawful(a) && Lawful(b);
    assert [a, b][1..] == [b] && [b][1..] == [];
    FirstSession([a, b]);
    FirstSession([b]);
    OneProduced(a);
    OneProduced(b);
    NothingFed();
  }

  lemma NothingFed()
    ensures AllLawful([]) && Fed([]) == []
  {
  }

  lemma OneProduced(s: Session)
    requires Single(s)
    ensures RT.AllProduce(s.calls, |Initial(s.kinds).tracks|)
    ensures Produced(Initial(s.kinds), s.calls) == [OnlyChunk(s)]
  {
    hide ChunkOf, RT.Step;
    NothingAnnounced(s.kinds);
    FirstProduced(Initial(s.kinds), s.calls);
    assert s.calls[1..] == [];
  }
}
