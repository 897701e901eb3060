/**
 How much stream time a backlog can hold: a bound for whatever disorder there is in the
 presentation times, and the exact histories for which the limit alone is a bound.
 */
module Backlog {
  import opened Wrappers
  import opened Fanout
  import opened FanoutRuns

  /** The live part of a queue spans at most `limit` of stream time. */
  predicate Bounded(q: Queue, limit: nat) {
    q.seeded < |q.chunks| ==> q.chunks[|q.chunks| - 1].ptsUs <= q.chunks[q.seeded].ptsUs + limit
  }

  ghost predicate AllBounded(w: World, limit: nat) {
    forall id :: id in w.consumers ==> Bounded(w.consumers[id].queue, limit)
  }

  /** No chunk is stamped more than `d` before one pushed ahead of it. */
  predicate Disorder(history: seq<Chunk>, d: nat) {
    forall i, j :: 0 <= i < j < |history| ==> history[i].ptsUs <= history[j].ptsUs + d
  }

  /** How much had been pushed when a consumer attached: what comes after is live to it. */
  function Joined(limit: Option<nat>, es: seq<Event>, id: nat): (n: nat) {
    if es == [] then 0
    else
      var w := Run(limit, es[..|es| - 1]);
      if id in w.consumers then Joined(limit, es[..|es| - 1], id) else |w.history|
  }

  lemma {:induction false} JoinedWithin(limit: Option<nat>, es: seq<Event>, id: nat)
    ensures Joined(limit, es, id) <= |Run(limit, es).history|
  {
    if es != [] {
      JoinedWithin(limit, es[..|es| - 1], id);
    }
  }

  // ------------------------------------------------------------ what a consumer keeps

  /** The live chunks came after `from`, and none is more than `bound` older than the last. */
  predicate LiveWithin(r: Reading, from: nat, bound: nat) {
    && |r.queued| == |r.queue.chunks|
    && (forall j :: r.queue.seeded <= j < |r.queued| ==> r.queued[j] >= from)
    && (forall j :: r.queue.seeded <= j < |r.queued| ==>
          r.queue.chunks[|r.queued| - 1].ptsUs <= r.queue.chunks[j].ptsUs + bound)
  }

  /** What the bound needs of a reading beside its queue. */
  predicate Kempt(history: seq<Chunk>, r: Reading) {
    && Mirrors(history, r)
    && r.queue.seeded <= |r.queue.chunks|
    && r.seen <= |history|
    && Increasing(r.queued)
    && forall k :: 0 <= k < |r.queued| ==> r.queued[k] < r.seen
  }

  lemma SoundIsKempt(history: seq<Chunk>, r: Reading, limit: Option<nat>)
    requires Sound(history, r, limit)
    ensures Kempt(history, r)
  {
    hide Decodable;
    IncreasingParts(r.delivered, r.queued);
    AllSeen(r);
    assert forall k :: 0 <= k < |r.queued| ==> r.queued[k] in Kept(r) by {
      assert forall k :: 0 <= k < |r.queued| ==> Kept(r)[|r.delivered| + k] == r.queued[k];
    }
  }

  lemma OfferWithin(history: seq<Chunk>, r: Reading, limit: nat, c: Chunk, from: nat, d: nat)
    requires Kempt(history, r) && r.seen == |history| && from <= |history|
    requires LiveWithin(r, from, limit + d)
    requires Disorder(history[from..], d)
    ensures LiveWithin(Offer(r, Some(limit), c), from, limit + d)
  {
    var q := r.queue;
    if !Skips(q, c) && !Overruns(q, Some(limit), c) && q.seeded < |q.chunks| {
      var front := r.queued[q.seeded];
      forall j | q.seeded <= j < |r.queued|
        ensures c.ptsUs <= q.chunks[j].ptsUs + limit + d
      {
        assert history[from..][front - from] == q.chunks[q.seeded];
        assert history[from..][r.queued[j] - from] == q.chunks[j];
      }
    }
  }

  lemma TakeWithin(r: Reading, from: nat, bound: nat)
    requires LiveWithin(r, from, bound) && r.queue.seeded <= |r.queue.chunks|
    ensures LiveWithin(Take(r), from, bound)
  {
  }

  lemma JoinWithin(history: seq<Chunk>, from: nat, bound: nat)
    requires from <= |history|
    ensures LiveWithin(Join(history, CacheOf(history)), from, bound)
  {
    SinceResyncIsSuffix(history);
  }

  /** Disorder is a matter of the pairs, so an earlier history has no more of it. */
  lemma DisorderBefore(history: seq<Chunk>, c: Chunk, from: nat, d: nat)
    requires from <= |history| && Disorder((history + [c])[from..], d)
    ensures Disorder(history[from..], d)
  {
    var all := (history + [c])[from..];
    forall i, j | 0 <= i < j < |history[from..]|
      ensures history[from..][i].ptsUs <= history[from..][j].ptsUs + d
    {
      assert history[from..][i] == all[i] && history[from..][j] == all[j];
    }
  }

  lemma StepWithin(w: World, limit: nat, e: Event, id: nat, from: nat, d: nat)
    requires WorldSound(w, Some(limit)) && id in w.consumers && from <= |w.history|
    requires LiveWithin(w.consumers[id], from, limit + d)
    requires Disorder(w.history[from..], d)
    ensures LiveWithin(Step(w, Some(limit), e).consumers[id], from, limit + d)
  {
    hide Sound, Disorder, Offer, Take, Join;
    var r := w.consumers[id];
    SoundIsKempt(w.history, r, Some(limit));
    match e
    case Push(c) =>
      if r.listed && r.held {
        OfferWithin(w.history, r, limit, c, from, d);
      }
    case Next(_) =>
      TakeWithin(r, from, limit + d);
    case _ =>
  }

  lemma {:induction false} LiveSince(limit: nat, es: seq<Event>, id: nat, d: nat)
    requires id in Run(Some(limit), es).consumers
    requires Joined(Some(limit), es, id) <= |Run(Some(limit), es).history|
    requires Disorder(Run(Some(limit), es).history[Joined(Some(limit), es, id)..], d)
    ensures LiveWithin(Run(Some(limit), es).consumers[id], Joined(Some(limit), es, id), limit + d)
  {
    hide LiveWithin, Disorder, Join, WorldSound;
    var n := |es| - 1;
    var w := Run(Some(limit), es[..n]);
    var from := Joined(Some(limit), es, id);
    if id in w.consumers {
      JoinedWithin(Some(limit), es[..n], id);
      if es[n].Push? {
        DisorderBefore(w.history, es[n].chunk, from, d);
      }
      LiveSince(limit, es[..n], id, d);
      EveryRunSound(Some(limit), es[..n]);
      StepWithin(w, limit, es[n], id, from, d);
    } else {
      CacheIsHistorySuffix(Some(limit), es[..n]);
      JoinWithin(w.history, |w.history|, limit + d);
    }
  }

  /**
   The backlog bound. Whatever disorder `d` there is among the chunks pushed since a
   consumer attached, its live queue spans at most the limit and `d` more.
   */
  lemma BacklogBounded(limit: nat, es: seq<Event>, id: nat, d: nat)
    requires id in Run(Some(limit), es).consumers
    requires Joined(Some(limit), es, id) <= |Run(Some(limit), es).history|
    requires Disorder(Run(Some(limit), es).history[Joined(Some(limit), es, id)..], d)
    ensures Bounded(Run(Some(limit), es).consumers[id].queue, limit + d)
  {
    hide Run, Disorder;
    LiveSince(limit, es, id, d);
  }

  /** For the whole history at once; ordered times (`d` of zero) give the limit itself. */
  lemma AllBacklogsBounded(limit: nat, es: seq<Event>, d: nat)
    requires Disorder(Run(Some(limit), es).history, d)
    ensures AllBounded(Run(Some(limit), es), limit + d)
  {
    hide Run, Bounded;
    var w := Run(Some(limit), es);
    forall id | id in w.consumers
      ensures Bounded(w.consumers[id].queue, limit + d)
    {
      JoinedWithin(Some(limit), es, id);
      DisorderAfter(w.history, Joined(Some(limit), es, id), d);
      BacklogBounded(limit, es, id, d);
    }
  }

  lemma DisorderAfter(history: seq<Chunk>, from: nat, d: nat)
    requires Disorder(history, d) && from <= |history|
    ensures Disorder(history[from..], d)
  {
  }

  /**
   An overrun is never the catch-up burst's doing: whenever a push adds to a consumer's
   overruns, a chunk pushed after it attached is still queued, and more than the limit old.
   */
  lemma OverrunNeedsLive(limit: nat, es: seq<Event>, id: nat, c: Chunk)
    requires id in Run(Some(limit), es).consumers
    requires Run(Some(limit), es + [Push(c)]).consumers[id].queue.overruns
          != Run(Some(limit), es).consumers[id].queue.overruns
    ensures var r := Run(Some(limit), es).consumers[id];
      && r.queue.seeded < |r.queued|
      && Joined(Some(limit), es, id) <= r.queued[r.queue.seeded] < |Run(Some(limit), es).history|
      && c.ptsUs > Run(Some(limit), es).history[r.queued[r.queue.seeded]].ptsUs + limit
  {
    hide Run, Joined, WorldSound;
    RunSnoc(Some(limit), es, Push(c));
    EveryRunSound(Some(limit), es);
    OverrunStep(Run(Some(limit), es), limit, id, c);
    JoinedWithin(Some(limit), es, id);
    LiveIsLate(limit, es, id);
  }

  lemma OverrunStep(w: World, limit: nat, id: nat, c: Chunk)
    requires WorldSound(w, Some(limit)) && id in w.consumers
    requires Step(w, Some(limit), Push(c)).consumers[id].queue.overruns != w.consumers[id].queue.overruns
    ensures var r := w.consumers[id];
      && r.queue.seeded < |r.queued|
      && r.queued[r.queue.seeded] < |w.history|
      && c.ptsUs > w.history[r.queued[r.queue.seeded]].ptsUs + limit
  {
    hide Sound;
    SoundIsKempt(w.history, w.consumers[id], Some(limit));
  }

  lemma {:induction false} LiveIsLate(limit: nat, es: seq<Event>, id: nat)
    requires id in Run(Some(limit), es).consumers
    ensures LiveFrom(Run(Some(limit), es).consumers[id], Joined(Some(limit), es, id))
  {
    hide Join, WorldSound, Sound, Offer, Take, LiveFrom;
    var n := |es| - 1;
    var w := Run(Some(limit), es[..n]);
    if id in w.consumers {
      LiveIsLate(limit, es[..n], id);
      JoinedWithin(Some(limit), es[..n], id);
      EveryRunSound(Some(limit), es[..n]);
      StepLate(w, limit, es[n], id, Joined(Some(limit), es[..n], id));
    } else {
      CacheIsHistorySuffix(Some(limit), es[..n]);
      JoinLate(w.history);
    }
  }

  predicate LiveFrom(r: Reading, from: nat) {
    |r.queued| == |r.queue.chunks| && forall j :: r.queue.seeded <= j < |r.queued| ==> r.queued[j] >= from
  }

  lemma JoinLate(history: seq<Chunk>)
    ensures LiveFrom(Join(history, CacheOf(history)), |history|)
  {
    SinceResyncIsSuffix(history);
  }

  lemma StepLate(w: World, limit: nat, e: Event, id: nat, from: nat)
    requires WorldSound(w, Some(limit)) && id in w.consumers && from <= |w.history|
    requires LiveFrom(w.consumers[id], from)
    ensures LiveFrom(Step(w, Some(limit), e).consumers[id], from)
  {
    hide Sound, Join;
    SoundIsKempt(w.history, w.consumers[id], Some(limit));
  }

  // ------------------------------------------------------------ exactly when the limit is a bound

  /** A consumer can hold chunk `i`: some resync point lets it start there or before. */
  predicate Reached(h: seq<Chunk>, i: nat)
    requires i <= |h|
  {
    exists r :: 0 <= r < i && h[r].resyncPoint
  }

  /** With `i` at the front, nothing up to `k` is an overrun. */
  predicate Near(h: seq<Chunk>, limit: nat, i: nat, k: nat)
    requires i <= k < |h|
  {
    forall m :: i < m <= k ==> h[m].ptsUs <= h[i].ptsUs + limit
  }

  predicate Level(h: seq<Chunk>, limit: nat, j: nat, k: nat)
    requires j < |h| && k < |h|
  {
    h[k].ptsUs <= h[j].ptsUs + limit
  }

  /** Whatever fits behind `i` without an overrun also fits behind everything after `i`. */
  predicate Smooth(h: seq<Chunk>, limit: nat) {
    forall i: nat, j: nat, k: nat :: i < j < k < |h| && Reached(h, i + 1) && Near(h, limit, i, k) ==>
      Level(h, limit, j, k)
  }

  /** No two live chunks are further apart than the limit, the later one ahead. */
  predicate Pairwise(r: Reading, limit: nat) {
    && |r.queued| == |r.queue.chunks|
    && forall a, b :: r.queue.seeded <= a < b < |r.queued| ==>
         r.queue.chunks[b].ptsUs <= r.queue.chunks[a].ptsUs + limit
  }

  lemma DroppedFirst(dropped: seq<nat>, queued: seq<nat>, p: nat, a: nat)
    requires Increasing(dropped + queued) && p in dropped && a < |queued|
    ensures p < queued[a]
  {
    var d :| 0 <= d < |dropped| && dropped[d] == p;
    var all := dropped + queued;
    assert all[d] == p && all[|dropped| + a] == queued[a];
  }

  /** A queue has no gaps: every position between two queued ones is queued. */
  lemma BetweenIsQueued(history: seq<Chunk>, r: Reading, limit: Option<nat>, a: nat, p: nat)
    requires Sound(history, r, limit) && a < |r.queued| && r.queued[a] < p < r.seen
    ensures exists b :: a < b < |r.queued| && r.queued[b] == p
  {
    hide Decodable, Mirrors;
    var first := r.queued[a];
    assert Kept(r)[|r.delivered| + a] == first;
    assert p in Kept(r) || p in r.dropped by {
      assert first in Kept(r);
    }
    if p in r.dropped {
      DroppedFirst(r.dropped, r.queued, p, a);
    }
    var k :| 0 <= k < |Kept(r)| && Kept(r)[k] == p;
    assert k > |r.delivered| + a;
    assert r.queued[k - |r.delivered|] == p;
  }

  lemma KeptIsReached(history: seq<Chunk>, r: Reading, limit: Option<nat>, a: nat)
    requires Sound(history, r, limit) && a < |r.queued|
    ensures r.queued[a] < |history| && Reached(history, r.queued[a] + 1)
  {
    hide Decodable;
    assert Kept(r)[|r.delivered| + a] == r.queued[a];
    assert r.queued[a] in Kept(r);
    assert r.start.Some? && r.start.value <= r.queued[a];
  }

  /** What is queued behind the front was not an overrun there. */
  lemma FrontIsNear(history: seq<Chunk>, r: Reading, limit: nat, c: Chunk)
    requires Sound(history, r, Some(limit)) && r.seen == |history| && Pairwise(r, limit)
    requires r.queue.seeded < |r.queued| && !Overruns(r.queue, Some(limit), c)
    ensures r.queued[r.queue.seeded] < |history|
    ensures Near(history + [c], limit, r.queued[r.queue.seeded], |history|)
  {
    SoundIsKempt(history, r, Some(limit));
    hide Sound;
    var h := history + [c];
    var front := r.queue.seeded;
    assert r.queue.chunks[front] == h[r.queued[front]];
    forall m | r.queued[front] < m <= |history|
      ensures h[m].ptsUs <= h[r.queued[front]].ptsUs + limit
    {
      if m < |history| {
        BetweenIsQueued(history, r, Some(limit), front, m);
        var b :| front < b < |r.queued| && r.queued[b] == m;
        assert r.queue.chunks[b] == h[m];
      }
    }
  }

  /** Smoothness is what lets a push keep every live pair within the limit. */
  lemma AppendPairwise(history: seq<Chunk>, r: Reading, limit: nat, c: Chunk, a: nat)
    requires Sound(history, r, Some(limit)) && r.seen == |history| && Pairwise(r, limit)
    requires Smooth(history + [c], limit) && !Overruns(r.queue, Some(limit), c)
    requires r.queue.seeded <= a < |r.queued|
    ensures c.ptsUs <= r.queue.chunks[a].ptsUs + limit
  {
    SoundIsKempt(history, r, Some(limit));
    KeptIsReached(history, r, Some(limit), r.queue.seeded);
    FrontIsNear(history, r, limit, c);
    hide Sound, Near, Reached, Pairwise;
    var h := history + [c];
    var i := r.queued[r.queue.seeded];
    ReachedGrows(history, c, i + 1);
    assert r.queue.chunks[a] == h[r.queued[a]];
    if a > r.queue.seeded {
      assert i < r.queued[a] < |history|;
      assert Level(h, limit, r.queued[a], |history|);
    }
  }

  lemma OfferPairwise(history: seq<Chunk>, r: Reading, limit: nat, c: Chunk)
    requires Sound(history, r, Some(limit)) && r.seen == |history| && Pairwise(r, limit)
    requires Smooth(history + [c], limit)
    ensures Pairwise(Offer(r, Some(limit), c), limit)
  {
    hide Sound, Smooth;
    if !Skips(r.queue, c) && !Overruns(r.queue, Some(limit), c) {
      forall a | r.queue.seeded <= a < |r.queued|
        ensures c.ptsUs <= r.queue.chunks[a].ptsUs + limit
      {
        AppendPairwise(history, r, limit, c, a);
      }
    }
  }

  lemma ReachedGrows(history: seq<Chunk>, c: Chunk, i: nat)
    requires i <= |history| && Reached(history, i)
    ensures Reached(history + [c], i)
  {
    var r :| 0 <= r < i && history[r].resyncPoint;
    assert (history + [c])[r].resyncPoint;
  }

  lemma TakePairwise(r: Reading, limit: nat)
    requires Pairwise(r, limit) && r.queue.seeded <= |r.queue.chunks|
    ensures Pairwise(Take(r), limit)
  {
  }

  lemma JoinPairwise(history: seq<Chunk>, limit: nat)
    ensures Pairwise(Join(history, CacheOf(history)), limit)
  {
    SinceResyncIsSuffix(history);
  }

  lemma SmoothBefore(h: seq<Chunk>, limit: nat, n: nat)
    requires Smooth(h, limit) && n <= |h|
    ensures Smooth(h[..n], limit)
  {
    var g := h[..n];
    forall i: nat, j: nat, k: nat | i < j < k < |g| && Reached(g, i + 1) && Near(g, limit, i, k)
      ensures Level(g, limit, j, k)
    {
      var r :| 0 <= r < i + 1 && g[r].resyncPoint;
      assert h[r].resyncPoint;
      assert forall m :: i < m <= k ==> g[m] == h[m];
      assert Near(h, limit, i, k);
      assert Level(h, limit, j, k);
    }
  }

  ghost predicate AllPairwise(w: World, limit: nat) {
    forall id :: id in w.consumers ==> Pairwise(w.consumers[id], limit)
  }

  lemma StepPairwise(w: World, limit: nat, e: Event, id: nat)
    requires WorldSound(w, Some(limit)) && AllPairwise(w, limit) && w.gop == CacheOf(w.history)
    requires Smooth(Step(w, Some(limit), e).history, limit)
    requires id in Step(w, Some(limit), e).consumers
    ensures Pairwise(Step(w, Some(limit), e).consumers[id], limit)
  {
    hide Smooth, Sound, Pairwise, Offer, Take, Join, CacheOf;
    if id in w.consumers {
      var r := w.consumers[id];
      SoundIsKempt(w.history, r, Some(limit));
      Unlisted(r, limit);
      match e
      case Push(c) =>
        if r.listed && r.held {
          OfferPairwise(w.history, r, limit, c);
        }
      case Next(_) =>
        TakePairwise(r, limit);
      case _ =>
    } else {
      JoinPairwise(w.history, limit);
    }
  }

  lemma Unlisted(r: Reading, limit: nat)
    requires Pairwise(r, limit)
    ensures Pairwise(r.(listed := false), limit) && Pairwise(r.(held := false), limit)
    ensures Pairwise(r.(listed := false, queue := r.queue.(closed := true)), limit)
  {
  }

  lemma {:induction false} SmoothRuns(limit: nat, es: seq<Event>)
    requires Smooth(Run(Some(limit), es).history, limit)
    ensures AllPairwise(Run(Some(limit), es), limit)
  {
    hide Smooth, Pairwise, WorldSound, CacheOf;
    if es != [] {
      var n := |es| - 1;
      var w := Run(Some(limit), es[..n]);
      var w' := Run(Some(limit), es);
      if es[n].Push? {
        assert w'.history[..|w.history|] == w.history;
        SmoothBefore(w'.history, limit, |w.history|);
      }
      SmoothRuns(limit, es[..n]);
      EveryRunSound(Some(limit), es[..n]);
      CacheIsHistorySuffix(Some(limit), es[..n]);
      forall id | id in w'.consumers
        ensures Pairwise(w'.consumers[id], limit)
      {
        StepPairwise(w, limit, es[n], id);
      }
    }
  }

  // ------------------------------------------------------------ a run for every rough spot

  /** One reader from the start, taking each chunk as it comes. */
  function Follow(h: seq<Chunk>, n: nat): seq<Event>
    requires n <= |h|
  {
    if n == 0 then [Attach(0)] else Follow(h, n - 1) + [Push(h[n - 1])] + [Next(0)]
  }

  /** It then stalls with chunk `i` at the front of its queue. */
  function Stall(h: seq<Chunk>, i: nat, n: nat): seq<Event>
    requires i <= n <= |h|
  {
    if n == i then Follow(h, i) else Stall(h, i, n - 1) + [Push(h[n - 1])]
  }

  /** And wakes up to take `t` of them. */
  function Resume(h: seq<Chunk>, i: nat, n: nat, t: nat): seq<Event>
    requires i <= n <= |h|
  {
    if t == 0 then Stall(h, i, n) else Resume(h, i, n, t - 1) + [Next(0)]
  }

  predicate Holds(w: World, history: seq<Chunk>, chunks: seq<Chunk>, awaiting: bool) {
    && w.history == history
    && 0 in w.consumers
    && w.consumers[0].listed && w.consumers[0].held
    && w.consumers[0].queue == Queue(chunks, awaiting, 0, false, 0)
  }

  lemma PushHolds(w: World, limit: nat, history: seq<Chunk>, chunks: seq<Chunk>, awaiting: bool, c: Chunk)
    requires Holds(w, history, chunks, awaiting) && (awaiting ==> chunks == [])
    requires chunks != [] ==> c.ptsUs <= chunks[0].ptsUs + limit
    ensures var skipped := awaiting && !c.resyncPoint;
      Holds(Step(w, Some(limit), Push(c)), history + [c], if skipped then chunks else chunks + [c], skipped)
  {
  }

  lemma NextHolds(w: World, limit: nat, history: seq<Chunk>, chunks: seq<Chunk>, awaiting: bool)
    requires Holds(w, history, chunks, awaiting) && WorldSound(w, Some(limit))
    ensures Holds(Step(w, Some(limit), Next(0)), history, if chunks == [] then [] else chunks[1..], awaiting)
  {
    assert Sound(w.history, w.consumers[0], Some(limit));
  }

  lemma {:induction false} FollowHolds(h: seq<Chunk>, limit: nat, n: nat)
    requires n <= |h|
    ensures Holds(Run(Some(limit), Follow(h, n)), h[..n], [], !Reached(h, n))
  {
    hide Run, Holds, WorldSound;
    var L := Some(limit);
    if n == 0 {
      RunNone(L);
      RunSnoc(L, [], Attach(0));
      assert [] + [Attach(0)] == [Attach(0)];
      FirstAttach(limit);
      assert h[..0] == [];
    } else {
      var before := Follow(h, n - 1);
      FollowHolds(h, limit, n - 1);
      RunSnoc(L, before, Push(h[n - 1]));
      RunSnoc(L, before + [Push(h[n - 1])], Next(0));
      EveryRunSound(L, before + [Push(h[n - 1])]);
      FollowStep(h, limit, n, Run(L, before));
    }
  }

  /** One chunk comes and is taken, or passes by a reader still waiting for a resync point. */
  lemma FollowStep(h: seq<Chunk>, limit: nat, n: nat, w: World)
    requires 0 < n <= |h| && Holds(w, h[..n - 1], [], !Reached(h, n - 1))
    requires WorldSound(Step(w, Some(limit), Push(h[n - 1])), Some(limit))
    ensures Holds(Step(Step(w, Some(limit), Push(h[n - 1])), Some(limit), Next(0)), h[..n], [], !Reached(h, n))
  {
    hide Holds, WorldSound, Step;
    var c := h[n - 1];
    var skipped := !Reached(h, n - 1) && !c.resyncPoint;
    PushHolds(w, limit, h[..n - 1], [], !Reached(h, n - 1), c);
    assert h[..n] == h[..n - 1] + [c];
    NextHolds(Step(w, Some(limit), Push(c)), limit, h[..n], if skipped then [] else [] + [c], skipped);
    assert skipped <==> !Reached(h, n);
    assert ([] + [c])[1..] == [];
  }

  lemma FirstAttach(limit: nat)
    ensures Holds(Step(NOTHING_YET, Some(limit), Attach(0)), [], [], true)
  {
  }

  lemma {:induction false} StallHolds(h: seq<Chunk>, limit: nat, i: nat, n: nat)
    requires i < n <= |h| && Reached(h, i + 1) && Near(h, limit, i, n - 1)
    ensures Holds(Run(Some(limit), Stall(h, i, n)), h[..n], h[i..n], false)
    decreases n
  {
    hide Run, Holds;
    var c := h[n - 1];
    RunSnoc(Some(limit), Stall(h, i, n - 1), Push(c));
    assert h[..n] == h[..n - 1] + [c];
    if n == i + 1 {
      FollowHolds(h, limit, i);
      PushHolds(Run(Some(limit), Follow(h, i)), limit, h[..i], [], !Reached(h, i), c);
      assert [] + [c] == h[i..n];
      assert Reached(h, i) || c.resyncPoint;
    } else {
      StallHolds(h, limit, i, n - 1);
      PushHolds(Run(Some(limit), Stall(h, i, n - 1)), limit, h[..n - 1], h[i..n - 1], false, c);
      assert h[i..n] == h[i..n - 1] + [c];
    }
  }

  lemma {:induction false} ResumeHolds(h: seq<Chunk>, limit: nat, i: nat, n: nat, t: nat)
    requires i < n <= |h| && i + t <= n && Reached(h, i + 1) && Near(h, limit, i, n - 1)
    ensures Holds(Run(Some(limit), Resume(h, i, n, t)), h[..n], h[i + t..n], false)
  {
    hide Run, Holds, WorldSound;
    if t == 0 {
      StallHolds(h, limit, i, n);
    } else {
      var before := Resume(h, i, n, t - 1);
      ResumeHolds(h, limit, i, n, t - 1);
      RunSnoc(Some(limit), before, Next(0));
      EveryRunSound(Some(limit), before);
      NextHolds(Run(Some(limit), before), limit, h[..n], h[i + t - 1..n], false);
      assert h[i + t - 1..n][1..] == h[i + t..n];
    }
  }

  /** A rough spot gives a run whose queue outgrows the limit. */
  lemma RoughRuns(h: seq<Chunk>, limit: nat, i: nat, j: nat, k: nat)
    requires i < j < k < |h| && Reached(h, i + 1) && Near(h, limit, i, k) && !Level(h, limit, j, k)
    ensures Run(Some(limit), Resume(h, i, k + 1, j - i)).history <= h
    ensures !AllBounded(Run(Some(limit), Resume(h, i, k + 1, j - i)), limit)
  {
    hide Run;
    ResumeHolds(h, limit, i, k + 1, j - i);
    var w := Run(Some(limit), Resume(h, i, k + 1, j - i));
    assert w.consumers[0].queue.chunks == h[j..k + 1];
    assert !Bounded(w.consumers[0].queue, limit);
  }

  lemma PairwiseBounded(w: World, limit: nat)
    requires AllPairwise(w, limit)
    ensures AllBounded(w, limit)
  {
    forall id | id in w.consumers
      ensures Bounded(w.consumers[id].queue, limit)
    {
      assert Pairwise(w.consumers[id], limit);
    }
  }

  ghost predicate AlwaysBounded(h: seq<Chunk>, limit: nat) {
    forall es :: Run(Some(limit), es).history <= h ==> AllBounded(Run(Some(limit), es), limit)
  }

  /**
   The exact condition on a history: the limit bounds every backlog in every run over it
   if and only if, wherever a reader can stall, what fits behind the front of its queue
   without an overrun also fits behind every chunk after the front.
   */
  lemma BoundedIff(h: seq<Chunk>, limit: nat)
    ensures AlwaysBounded(h, limit) <==> Smooth(h, limit)
  {
    hide Run, AllBounded, AllPairwise, Reached, Near, Level;
    if Smooth(h, limit) {
      forall es | Run(Some(limit), es).history <= h
        ensures AllBounded(Run(Some(limit), es), limit)
      {
        var g := Run(Some(limit), es).history;
        SmoothBefore(h, limit, |g|);
        assert h[..|g|] == g;
        SmoothRuns(limit, es);
        PairwiseBounded(Run(Some(limit), es), limit);
      }
    } else {
      var i: nat, j: nat, k: nat :|
        i < j < k < |h| && Reached(h, i + 1) && Near(h, limit, i, k) && !Level(h, limit, j, k);
      RoughRuns(h, limit, i, j, k);
    }
  }

  /**
   What a caller can check, first: with times that never step back the limit bounds every
   backlog, whatever the limit is.
   */
  lemma OrderedIsBounded(h: seq<Chunk>, limit: nat)
    requires Disorder(h, 0)
    ensures AlwaysBounded(h, limit)
  {
    hide AlwaysBounded, Smooth;
    OrderedIsSmooth(h, limit);
    BoundedIff(h, limit);
  }

  lemma OrderedIsSmooth(h: seq<Chunk>, limit: nat)
    requires Disorder(h, 0)
    ensures Smooth(h, limit)
  {
    forall i: nat, j: nat, k: nat | i < j < k < |h| && Reached(h, i + 1) && Near(h, limit, i, k)
      ensures Level(h, limit, j, k)
    {
      assert h[i].ptsUs <= h[j].ptsUs + 0;
      assert h[k].ptsUs <= h[i].ptsUs + limit;
    }
  }

  /** Second, in any order at all: times that lie within one limit of each other. */
  lemma CloseIsBounded(h: seq<Chunk>, limit: nat, base: nat)
    requires forall i :: 0 <= i < |h| ==> base <= h[i].ptsUs <= base + limit
    ensures AlwaysBounded(h, limit)
  {
    hide AlwaysBounded;
    BoundedIff(h, limit);
  }
}
