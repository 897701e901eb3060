/**
 What a push does to a reader, over all runs and in terms of the history alone: when a
 chunk is passed over, when it overruns, and what is left then.
 */
module FanoutLaws {
  import opened Wrappers
  import opened Fanout
  import opened FanoutRuns

  /** The first chunk queued behind the seeded ones is older than the limit allows. */
  predicate TooFarBehind(w: World, r: Reading, limit: Option<nat>, c: Chunk) {
    && limit.Some?
    && r.queue.seeded < |r.queued| && r.queued[r.queue.seeded] < |w.history|
    && c.ptsUs > w.history[r.queued[r.queue.seeded]].ptsUs + limit.value
  }

  /** How a reader that is still there takes a chunk: `p` is its position. */
  predicate Took(r: Reading, o: Reading, c: Chunk, p: nat, late: bool) {
    && o.delivered == r.delivered
    && o.queue.closed == r.queue.closed
    && (r.queue.awaitingResync && !c.resyncPoint ==> o.queue == r.queue && o.queued == r.queued)
    && (c.resyncPoint ==> o.queued != [] && o.queued[|o.queued| - 1] == p && !o.queue.awaitingResync)
    && (!r.queue.awaitingResync || c.resyncPoint ==>
          if late then
            && o.queued == (if c.resyncPoint then [p] else [])
            && o.dropped == r.dropped + r.queued + (if c.resyncPoint then [] else [p])
            && o.queue.awaitingResync == !c.resyncPoint
            && o.queue.seeded == 0
            && o.queue.overruns == r.queue.overruns + 1
          else
            && o.queued == r.queued + [p]
            && o.dropped == r.dropped
            && !o.queue.awaitingResync
            && o.queue.seeded == r.queue.seeded
            && o.queue.overruns == r.queue.overruns)
  }

  /**
   One push, after any run, for every reader still attached: a reader waiting for a resync
   point passes over everything else; one that is too far behind loses its whole queue and
   restarts on the chunk itself if that is a resync point, and waits for one if not; and
   everybody else gets the chunk behind what is queued.
   */
  lemma PushTakes(limit: Option<nat>, es: seq<Event>, id: nat, c: Chunk)
    requires id in Run(limit, es).consumers
    requires Run(limit, es).consumers[id].listed && Run(limit, es).consumers[id].held
    ensures var w := Run(limit, es);
      var w' := Run(limit, es + [Push(c)]);
      && id in w'.consumers && w'.consumers[id].listed && w'.consumers[id].held
      && Took(w.consumers[id], w'.consumers[id], c, |w.history|, TooFarBehind(w, w.consumers[id], limit, c))
      && Mirrors(w'.history, w'.consumers[id])
  {
    hide Run, Step, Sound, Took, Mirrors, TooFarBehind;
    RunSnoc(limit, es, Push(c));
    var w := Run(limit, es);
    StillThere(w, limit, id, c);
    EveryRunSound(limit, es);
    OfferTakes(w, w.consumers[id], limit, c);
    QueueShape(limit, es + [Push(c)], id);
  }

  lemma StillThere(w: World, limit: Option<nat>, id: nat, c: Chunk)
    requires id in w.consumers && w.consumers[id].listed && w.consumers[id].held
    ensures var w' := Step(w, limit, Push(c));
      && id in w'.consumers && w'.consumers[id] == Offer(w.consumers[id], limit, c)
      && w'.consumers[id].listed && w'.consumers[id].held
  {
  }

  lemma OfferTakes(w: World, r: Reading, limit: Option<nat>, c: Chunk)
    requires Sound(w.history, r, limit) && r.seen == |w.history|
    ensures Took(r, Offer(r, limit, c), c, |w.history|, TooFarBehind(w, r, limit, c))
  {
    hide Decodable, Conserved;
    if r.queue.awaitingResync {
      assert r.queued == [];
    }
  }

  // ------------------------------------------------------------ resync points reach their readers

  /** It was handed over, is queued, or an overrun came after. */
  predicate Survives(r: Reading, p: nat, overruns: nat) {
    p in r.delivered || p in r.queued || r.queue.overruns > overruns
  }

  lemma OfferSurvives(r: Reading, limit: Option<nat>, c: Chunk, p: nat, overruns: nat)
    requires Survives(r, p, overruns) && r.queue.overruns >= overruns
    ensures Survives(Offer(r, limit, c), p, overruns) && Offer(r, limit, c).queue.overruns >= overruns
  {
  }

  lemma TakeSurvives(r: Reading, p: nat, overruns: nat)
    requires Survives(r, p, overruns) && r.queue.overruns >= overruns
    ensures Survives(Take(r), p, overruns) && Take(r).queue.overruns >= overruns
  {
    if p in r.queued && Take(r) != r {
      assert r.queued == [r.queued[0]] + r.queued[1..];
    }
  }

  lemma StepSurvives(w: World, limit: Option<nat>, e: Event, id: nat, p: nat, overruns: nat)
    requires id in w.consumers && w.consumers[id].queue.overruns >= overruns
    requires Survives(w.consumers[id], p, overruns)
    ensures var w' := Step(w, limit, e);
      id in w'.consumers && w'.consumers[id].queue.overruns >= overruns && Survives(w'.consumers[id], p, overruns)
  {
    hide Offer, Take, Join;
    match e {
      case Push(c) => OfferSurvives(w.consumers[id], limit, c, p, overruns);
      case Next(_) => TakeSurvives(w.consumers[id], p, overruns);
      case _ =>
    }
  }

  lemma {:induction false} RunSurvives(
      limit: Option<nat>, es: seq<Event>, fs: seq<Event>, id: nat, p: nat, overruns: nat)
    requires id in Run(limit, es).consumers && Run(limit, es).consumers[id].queue.overruns >= overruns
    requires Survives(Run(limit, es).consumers[id], p, overruns)
    ensures var w := Run(limit, es + fs);
      id in w.consumers && w.consumers[id].queue.overruns >= overruns && Survives(w.consumers[id], p, overruns)
  {
    hide Step, Survives;
    if fs == [] {
      assert es + fs == es;
    } else {
      var n := |fs| - 1;
      RunSurvives(limit, es, fs[..n], id, p, overruns);
      assert es + fs == es + fs[..n] + [fs[n]];
      RunSnoc(limit, es + fs[..n], fs[n]);
      StepSurvives(Run(limit, es + fs[..n]), limit, fs[n], id, p, overruns);
    }
  }

  /**
   A resync point that is pushed while a reader is attached reaches it: whatever happens
   afterwards, it is dropped only by a later overrun.
   */
  lemma ResyncLostOnlyToOverrun(limit: Option<nat>, es: seq<Event>, c: Chunk, fs: seq<Event>, id: nat)
    requires c.resyncPoint && id in Run(limit, es).consumers
    requires Run(limit, es).consumers[id].listed && Run(limit, es).consumers[id].held
    ensures var before := Run(limit, es + [Push(c)]);
      var after := Run(limit, es + [Push(c)] + fs);
      var p := |Run(limit, es).history|;
      && id in before.consumers && id in after.consumers
      && p in before.consumers[id].queued
      && (p in after.consumers[id].dropped ==>
            after.consumers[id].queue.overruns > before.consumers[id].queue.overruns)
  {
    hide Run;
    PushTakes(limit, es, id, c);
    var before := Run(limit, es + [Push(c)]);
    var p := |Run(limit, es).history|;
    RunSurvives(limit, es + [Push(c)], fs, id, p, before.consumers[id].queue.overruns);
    NothingElseLost(limit, es + [Push(c)] + fs, id, p);
  }

  // ------------------------------------------------------------ what a late reader starts from

  /**
   After any run the cache is everything since the last resync point if that is at most
   16 MiB, and nothing at all otherwise; and that is what a reader attaching now is given.
   */
  lemma LateReaderStarts(limit: Option<nat>, es: seq<Event>, id: nat)
    requires id !in Run(limit, es).consumers
    ensures var w := Run(limit, es);
      var gop := SinceResync(w.history);
      var whole := gop.Some? && TotalBytes(gop.value) <= 16_777_216;
      var r := Run(limit, es + [Attach(id)]).consumers[id];
      && id in Run(limit, es + [Attach(id)]).consumers
      && (w.gop.whole <==> whole)
      && r.queue.chunks == (if whole then gop.value else [])
      && r.queue.awaitingResync == !whole
      && r.queue.seeded == |r.queue.chunks|
      && !r.queue.closed && r.queue.overruns == 0 && r.held && r.listed
  {
    hide Run, SinceResync, TotalBytes;
    CacheIsHistorySuffix(limit, es);
    SinceResyncIsSuffix(Run(limit, es).history);
    RunSnoc(limit, es, Attach(id));
  }

  // ------------------------------------------------------------ the end of the stream

  /** Nothing is queued, and nothing will be: the next look at the queue says so. */
  predicate AtEnd(r: Reading) {
    r.queue.chunks == [] && r.queue.closed
  }

  /**
   After a close every reader attached at the time is at the end of its stream as soon as it
   has taken what was queued for it: nothing is lost, nothing comes on top, and it never
   has to wait again.
   */
  lemma ClosedDrains(limit: Option<nat>, es: seq<Event>, id: nat)
    requires id in Run(limit, es).consumers
    requires Run(limit, es).consumers[id].listed && Run(limit, es).consumers[id].held
    ensures var r := Run(limit, es).consumers[id];
      var n := |r.queue.chunks|;
      var end := Run(limit, es + [Close] + seq(n, _ => Next(id)));
      && id in end.consumers && AtEnd(end.consumers[id])
      && end.consumers[id].delivered == r.delivered + r.queued
      && end.consumers[id].dropped == r.dropped
  {
    EveryRunSound(limit, es);
    var w := Run(limit, es);
    assert Sound(w.history, w.consumers[id], limit);
    RunSnoc(limit, es, Close);
    hide Sound;
    Drains(limit, es + [Close], id);
  }

  lemma {:induction false} Drains(limit: Option<nat>, es: seq<Event>, id: nat)
    requires id in Run(limit, es).consumers
    requires Run(limit, es).consumers[id].held && Run(limit, es).consumers[id].queue.closed
    requires |Run(limit, es).consumers[id].queued| == |Run(limit, es).consumers[id].queue.chunks|
    ensures var r := Run(limit, es).consumers[id];
      var n := |r.queue.chunks|;
      var end := Run(limit, es + seq(n, _ => Next(id)));
      && id in end.consumers && AtEnd(end.consumers[id])
      && end.consumers[id].delivered == r.delivered + r.queued
      && end.consumers[id].dropped == r.dropped
    decreases |Run(limit, es).consumers[id].queue.chunks|
  {
    var r := Run(limit, es).consumers[id];
    var n := |r.queue.chunks|;
    if n == 0 {
      assert es + seq(0, _ => Next(id)) == es;
    } else {
      RunSnoc(limit, es, Next(id));
      var t := Run(limit, es + [Next(id)]).consumers[id];
      assert t == Take(r);
      Drains(limit, es + [Next(id)], id);
      assert es + [Next(id)] + seq(n - 1, _ => Next(id)) == es + seq(n, _ => Next(id));
      assert r.delivered + [r.queued[0]] + r.queued[1..] == r.delivered + r.queued;
    }
  }
}
