/**
 Every run of a fanout: attach, push, next, drop and close in any order. Each
 consumer carries, beside its queue, the positions in the pushed history of what it
 was delivered, what is queued for it and what was thrown away.
 */
module FanoutRuns {
  import opened Wrappers
  import opened Fanout

  datatype Event = Attach(id: nat) | Push(chunk: Chunk) | Next(id: nat) | Drop(id: nat) | Close

  /**
   `start` is the position of the first chunk the consumer was given, `seen` how much
   of the history it has been offered.
   */
  datatype Reading = Reading(
    queue: Queue,
    held: bool,
    listed: bool,
    start: Option<nat>,
    seen: nat,
    delivered: seq<nat>,
    queued: seq<nat>,
    dropped: seq<nat>)

  datatype World = World(history: seq<Chunk>, gop: Gop, consumers: map<nat, Reading>)

  const NOTHING_YET: World := World([], EMPTY_GOP, map[])

  function Range(from: nat, to: nat): seq<nat>
    requires from <= to
  {
    seq(to - from, i requires 0 <= i < to - from => from + i)
  }

  // ------------------------------------------------------------ steps

  function Join(history: seq<Chunk>, g: Gop): Reading {
    var q := SeedQueue(g);
    var n := |history|;
    if 0 < |q.chunks| <= n
    then Reading(q, true, true, Some(n - |q.chunks|), n, [], Range(n - |q.chunks|, n), [])
    else Reading(q, true, true, None, n, [], [], [])
  }

  /** A push, as one listed consumer sees it. */
  function Offer(r: Reading, limit: Option<nat>, c: Chunk): Reading {
    var q := PushQueue(r.queue, limit, c);
    var p := r.seen;
    if Skips(r.queue, c) then
      r.(queue := q, seen := p + 1, dropped := if r.start.Some? then r.dropped + [p] else [])
    else
      var begun := r.(queue := q, seen := p + 1, start := if r.start.Some? then r.start else Some(p));
      if !Overruns(r.queue, limit, c) then begun.(queued := r.queued + [p])
      else if c.resyncPoint then begun.(queued := [p], dropped := r.dropped + r.queued)
      else begun.(queued := [], dropped := r.dropped + r.queued + [p])
  }

  function Take(r: Reading): Reading {
    if r.held && r.queue.chunks != [] && r.queued != []
    then r.(queue := PopQueue(r.queue), delivered := r.delivered + [r.queued[0]], queued := r.queued[1..])
    else r
  }

  function Hear(r: Reading, limit: Option<nat>, c: Chunk): Reading {
    if !r.listed then r else if r.held then Offer(r, limit, c) else r.(listed := false)
  }

  function End(r: Reading): Reading {
    if r.listed && r.held then r.(listed := false, queue := r.queue.(closed := true)) else r.(listed := false)
  }

  function Step(w: World, limit: Option<nat>, e: Event): World {
    match e
    case Attach(id) =>
      if id in w.consumers then w else w.(consumers := w.consumers[id := Join(w.history, w.gop)])
    case Push(c) =>
      World(w.history + [c], PushGop(w.gop, c), map id | id in w.consumers :: Hear(w.consumers[id], limit, c))
    case Next(id) =>
      if id in w.consumers then w.(consumers := w.consumers[id := Take(w.consumers[id])]) else w
    case Drop(id) =>
      if id in w.consumers then w.(consumers := w.consumers[id := w.consumers[id].(held := false)]) else w
    case Close =>
      w.(consumers := map id | id in w.consumers :: End(w.consumers[id]))
  }

  function Run(limit: Option<nat>, es: seq<Event>): World {
    if es == [] then NOTHING_YET else Step(Run(limit, es[..|es| - 1]), limit, es[|es| - 1])
  }

  lemma RunSnoc(limit: Option<nat>, es: seq<Event>, e: Event)
    ensures Run(limit, es + [e]) == Step(Run(limit, es), limit, e)
  {
    assert (es + [e])[..|es|] == es;
  }

  // ------------------------------------------------------------ the cache and the history

  function TotalBytes(cs: seq<Chunk>): nat {
    if cs == [] then 0 else TotalBytes(cs[..|cs| - 1]) + |cs[|cs| - 1].bytes|
  }

  /** Everything pushed since, and including, the last resync point. */
  function SinceResync(history: seq<Chunk>): Option<seq<Chunk>> {
    if history == [] then None
    else
      var last := history[|history| - 1];
      if last.resyncPoint then Some([last])
      else
        var before := SinceResync(history[..|history| - 1]);
        if before.None? then None else Some(before.value + [last])
  }

  /** A whole GOP that fits, or nothing at all. */
  function CacheOf(history: seq<Chunk>): Gop {
    var g := SinceResync(history);
    if g.Some? && TotalBytes(g.value) <= GOP_CACHE_LIMIT then Gop(g.value, TotalBytes(g.value), true) else EMPTY_GOP
  }

  lemma CacheStep(history: seq<Chunk>, c: Chunk)
    ensures CacheOf(history + [c]) == PushGop(CacheOf(history), c)
  {
    assert (history + [c])[..|history|] == history;
    assert [c][..0] == [];
    assert TotalBytes([c]) == |c.bytes|;
    var g := SinceResync(history);
    if g.Some? {
      assert (g.value + [c])[..|g.value|] == g.value;
    }
    assert [] + [c] == [c];
  }

  /** The cache agrees with the history, over all runs. */
  lemma {:induction false} CacheIsHistorySuffix(limit: Option<nat>, es: seq<Event>)
    ensures Run(limit, es).gop == CacheOf(Run(limit, es).history)
  {
    hide CacheOf, PushGop, Step;
    if es == [] {
      NothingCached();
    } else {
      var w := Run(limit, es[..|es| - 1]);
      CacheIsHistorySuffix(limit, es[..|es| - 1]);
      StepGop(w, limit, es[|es| - 1]);
      if es[|es| - 1].Push? {
        CacheStep(w.history, es[|es| - 1].chunk);
      }
    }
  }

  lemma NothingCached()
    ensures CacheOf([]) == EMPTY_GOP
  {
  }

  lemma StepGop(w: World, limit: Option<nat>, e: Event)
    ensures Step(w, limit, e).gop == if e.Push? then PushGop(w.gop, e.chunk) else w.gop
    ensures Step(w, limit, e).history == if e.Push? then w.history + [e.chunk] else w.history
  {
    hide PushGop, Hear, Join, Take, End;
  }

  /** What the cache holds is a suffix of the history that opens with a resync point. */
  lemma {:induction false} SinceResyncIsSuffix(history: seq<Chunk>)
    ensures var g := SinceResync(history);
      g.Some? ==> 0 < |g.value| <= |history| && g.value == history[|history| - |g.value|..] && g.value[0].resyncPoint
  {
    if history != [] && !history[|history| - 1].resyncPoint {
      SinceResyncIsSuffix(history[..|history| - 1]);
    }
  }

  // ------------------------------------------------------------ what every run keeps

  /** Delivered and queued, in order. */
  function Kept(r: Reading): seq<nat> {
    r.delivered + r.queued
  }

  predicate Increasing(ps: seq<nat>) {
    forall i, j :: 0 <= i < j < |ps| ==> ps[i] < ps[j]
  }

  /** The chunk opens a slice, or directly follows the one before it. */
  predicate Follows(history: seq<Chunk>, ps: seq<nat>, k: nat)
    requires k < |ps| && ps[k] < |history|
  {
    history[ps[k]].resyncPoint || (k > 0 && ps[k - 1] + 1 == ps[k])
  }

  /** Contiguous slices of the history, each opening with a resync point. */
  predicate Decodable(history: seq<Chunk>, ps: seq<nat>) {
    forall k :: 0 <= k < |ps| ==> ps[k] < |history| && Follows(history, ps, k)
  }

  /** The queue holds the chunks at the queued positions. */
  predicate Mirrors(history: seq<Chunk>, r: Reading) {
    && |r.queued| == |r.queue.chunks|
    && forall k :: 0 <= k < |r.queued| ==> r.queued[k] < |history| && r.queue.chunks[k] == history[r.queued[k]]
  }

  /**
   From the first chunk on, every position is delivered, queued or dropped, and
   only one of them; what was dropped lies before everything still queued.
   */
  ghost predicate Conserved(r: Reading) {
    && (r.start.Some? ==> forall p :: r.start.value <= p < r.seen <==> p in Kept(r) || p in r.dropped)
    && (r.start.None? ==> Kept(r) == [] && r.dropped == [])
    && Increasing(Kept(r))
    && Increasing(r.dropped + r.queued)
    && forall p :: p in r.dropped ==> p !in Kept(r)
  }

  predicate Steady(r: Reading, limit: Option<nat>) {
    && r.queue.seeded <= |r.queue.chunks|
    && (r.queue.awaitingResync ==> r.queue.chunks == [])
    && (!r.queue.awaitingResync ==> Kept(r) != [] && Kept(r)[|Kept(r)| - 1] == r.seen - 1)
    && (r.start.None? ==> r.queue.awaitingResync)
    && (r.start.Some? && r.queue.awaitingResync ==> r.queue.overruns > 0)
    && (r.dropped == [] <==> r.queue.overruns == 0)
    && (limit.None? ==> r.queue.overruns == 0)
  }

  ghost predicate Sound(history: seq<Chunk>, r: Reading, limit: Option<nat>) {
    && r.seen <= |history|
    && (r.start.Some? ==> r.start.value < r.seen && history[r.start.value].resyncPoint)
    && Mirrors(history, r)
    && Decodable(history, Kept(r))
    && Conserved(r)
    && Steady(r, limit)
  }

  // ------------------------------------------------------------ each step keeps it

  lemma HistoryGrows(history: seq<Chunk>, c: Chunk, r: Reading, limit: Option<nat>)
    requires Sound(history, r, limit)
    ensures Sound(history + [c], r, limit)
  {
  }

  lemma RangeMembers(from: nat, to: nat)
    requires from <= to
    ensures forall p :: p in Range(from, to) <==> from <= p < to
  {
    forall p | from <= p < to
      ensures p in Range(from, to)
    {
      assert Range(from, to)[p - from] == p;
    }
  }

  /** A suffix of the history that opens with a resync point is one decodable slice. */
  lemma SuffixDecodable(history: seq<Chunk>, from: nat)
    requires from < |history| && history[from].resyncPoint
    ensures Decodable(history, Range(from, |history|)) && Increasing(Range(from, |history|))
  {
  }

  lemma JoinSound(history: seq<Chunk>, limit: Option<nat>)
    ensures Sound(history, Join(history, CacheOf(history)), limit)
  {
    hide SinceResync, TotalBytes, Decodable, Increasing, Conserved;
    SinceResyncIsSuffix(history);
    var g := CacheOf(history);
    var r := Join(history, g);
    var n := |history|;
    if g.whole {
      var from := n - |g.chunks|;
      SuffixDecodable(history, from);
      WholeConserved(r, from, n);
      assert Kept(r) == Range(from, n);
    } else {
      NothingKept(history, r);
    }
  }

  lemma WholeConserved(r: Reading, from: nat, to: nat)
    requires from < to && Increasing(Range(from, to))
    requires r.start == Some(from) && r.seen == to
    requires r.delivered == [] && r.queued == Range(from, to) && r.dropped == []
    ensures Conserved(r)
  {
    RangeMembers(from, to);
    assert Kept(r) == Range(from, to) && r.dropped + r.queued == Range(from, to);
  }

  lemma NothingKept(history: seq<Chunk>, r: Reading)
    requires r.delivered == [] && r.queued == [] && r.dropped == [] && r.start.None?
    ensures Kept(r) == [] && Decodable(history, Kept(r)) && Conserved(r)
  {
    assert r.dropped + r.queued == [];
  }

  predicate Below(ps: seq<nat>, p: nat) {
    forall i :: 0 <= i < |ps| ==> ps[i] < p
  }

  lemma AppendIncreasing(ps: seq<nat>, p: nat)
    requires Increasing(ps) && Below(ps, p)
    ensures Increasing(ps + [p]) && Below(ps + [p], p + 1)
  {
    var qs := ps + [p];
    forall i, j | 0 <= i < j < |qs|
      ensures qs[i] < qs[j]
    {
      assert qs[i] == ps[i];
    }
  }

  lemma IncreasingParts(ps: seq<nat>, qs: seq<nat>)
    requires Increasing(ps + qs)
    ensures Increasing(ps) && Increasing(qs)
  {
    var all := ps + qs;
    forall i, j | 0 <= i < j < |ps|
      ensures ps[i] < ps[j]
    {
      assert all[i] == ps[i] && all[j] == ps[j];
    }
    forall i, j | 0 <= i < j < |qs|
      ensures qs[i] < qs[j]
    {
      assert all[|ps| + i] == qs[i] && all[|ps| + j] == qs[j];
    }
  }

  lemma InConcat(ps: seq<nat>, qs: seq<nat>, p: nat)
    ensures p in ps + qs <==> p in ps || p in qs
  {
  }

  /** Everything recorded lies below what has been seen. */
  lemma AllSeen(r: Reading)
    requires Conserved(r)
    ensures Below(Kept(r), r.seen) && Below(r.dropped, r.seen) && Below(r.dropped + r.queued, r.seen)
    ensures Below(r.delivered, r.seen)
  {
    forall i | 0 <= i < |Kept(r)|
      ensures Kept(r)[i] < r.seen
    {
      assert Kept(r)[i] in Kept(r);
    }
    forall i | 0 <= i < |r.delivered|
      ensures r.delivered[i] < r.seen
    {
      assert r.delivered[i] == Kept(r)[i];
    }
    forall i | 0 <= i < |r.dropped|
      ensures r.dropped[i] < r.seen
    {
      assert r.dropped[i] in r.dropped;
    }
    forall i | 0 <= i < |r.queued|
      ensures r.queued[i] < r.seen
    {
      assert r.queued[i] == Kept(r)[|r.delivered| + i];
    }
  }

  lemma DecodableAppend(history: seq<Chunk>, ps: seq<nat>, c: Chunk)
    requires Decodable(history, ps)
    requires c.resyncPoint || (ps != [] && ps[|ps| - 1] == |history| - 1)
    ensures Decodable(history + [c], ps + [|history|])
  {
    DecodableGrows(history, ps, c);
    var qs := ps + [|history|];
    forall k | 0 <= k < |qs|
      ensures qs[k] < |history| + 1 && Follows(history + [c], qs, k)
    {
      if k < |ps| {
        assert Follows(history + [c], ps, k);
      }
    }
  }

  lemma DecodableGrows(history: seq<Chunk>, ps: seq<nat>, c: Chunk)
    requires Decodable(history, ps)
    ensures Decodable(history + [c], ps)
  {
    forall k | 0 <= k < |ps|
      ensures ps[k] < |history| && Follows(history + [c], ps, k)
    {
      assert Follows(history, ps, k);
    }
  }

  lemma DecodablePrefix(history: seq<Chunk>, ps: seq<nat>, qs: seq<nat>)
    requires Decodable(history, ps + qs)
    ensures Decodable(history, ps)
  {
    forall k | 0 <= k < |ps|
      ensures ps[k] < |history| && Follows(history, ps, k)
    {
      assert (ps + qs)[k] == ps[k] && Follows(history, ps + qs, k);
      if k > 0 {
        assert (ps + qs)[k - 1] == ps[k - 1];
      }
    }
  }

  /** Recording one more position, kept or dropped, conserves. */
  lemma ConservedStep(r: Reading, o: Reading)
    requires Conserved(r) && o.seen == r.seen + 1
    requires o.start == if r.start.Some? then r.start else Some(r.seen)
    requires r.start.Some? ==> r.start.value < r.seen
    requires o.delivered == r.delivered
    requires || (o.dropped == r.dropped && o.queued == r.queued + [r.seen])
             || (o.dropped == r.dropped + r.queued + [r.seen] && o.queued == [])
             || (o.dropped == r.dropped + r.queued && o.queued == [r.seen])
    ensures Conserved(o)
  {
    AllSeen(r);
    var p := r.seen;
    AppendIncreasing(r.dropped + r.queued, p);
    assert o.dropped + o.queued == r.dropped + r.queued + [p];
    IncreasingParts(r.delivered, r.queued);
    AppendIncreasing(Kept(r), p);
    AppendIncreasing(r.delivered, p);
    assert Kept(r) + [p] == r.delivered + (r.queued + [p]);
    assert Kept(o) == Kept(r) + [p] || Kept(o) == r.delivered || Kept(o) == r.delivered + [p];
    DeliveredApart(r);
    forall q: nat
      ensures q in Kept(o) || q in o.dropped <==> q in Kept(r) || q in r.dropped || q == p
      ensures q in o.dropped ==> q !in Kept(o)
    {
      InConcat(r.delivered, r.queued, q);
      InConcat(r.dropped, r.queued, q);
      InConcat(r.dropped + r.queued, [p], q);
      InConcat(o.delivered, o.queued, q);
      if q == p {
        assert p in [p];
        if p in Kept(r) || p in r.dropped {
          assert false;
        }
      }
    }
  }

  /** Delivered and queued never overlap. */
  lemma DeliveredApart(r: Reading)
    requires Increasing(Kept(r))
    ensures forall q :: q in r.queued ==> q !in r.delivered
  {
    forall i, j | 0 <= i < |r.delivered| && 0 <= j < |r.queued|
      ensures r.delivered[i] < r.queued[j]
    {
      assert Kept(r)[i] == r.delivered[i] && Kept(r)[|r.delivered| + j] == r.queued[j];
    }
  }

  lemma OfferSkipped(history: seq<Chunk>, r: Reading, limit: Option<nat>, c: Chunk)
    requires Sound(history, r, limit) && r.seen == |history| && Skips(r.queue, c)
    ensures Sound(history + [c], Offer(r, limit, c), limit)
  {
    var o := Offer(r, limit, c);
    assert r.queued == [];
    DecodableGrows(history, Kept(r), c);
    if r.start.Some? {
      assert o.dropped == r.dropped + r.queued + [r.seen];
      ConservedStep(r, o);
    } else {
      assert o.dropped + o.queued == [];
    }
    hide Conserved, Decodable;
  }

  lemma OfferQueued(history: seq<Chunk>, r: Reading, limit: Option<nat>, c: Chunk)
    requires Sound(history, r, limit) && r.seen == |history|
    requires !Skips(r.queue, c) && !Overruns(r.queue, limit, c)
    ensures Sound(history + [c], Offer(r, limit, c), limit)
  {
    hide Conserved, Decodable, Overruns;
    var o := Offer(r, limit, c);
    ConservedStep(r, o);
    assert Kept(o) == Kept(r) + [r.seen];
    DecodableAppend(history, Kept(r), c);
  }

  lemma OfferOverrun(history: seq<Chunk>, r: Reading, limit: Option<nat>, c: Chunk)
    requires Sound(history, r, limit) && r.seen == |history|
    requires !Skips(r.queue, c) && Overruns(r.queue, limit, c)
    ensures Sound(history + [c], Offer(r, limit, c), limit)
  {
    hide Conserved, Decodable;
    var o := Offer(r, limit, c);
    ConservedStep(r, o);
    DecodablePrefix(history, r.delivered, r.queued);
    DecodableGrows(history, r.delivered, c);
    if c.resyncPoint {
      DecodableAppend(history, r.delivered, c);
    } else {
      assert Kept(o) == r.delivered;
    }
  }

  lemma TakeSound(history: seq<Chunk>, r: Reading, limit: Option<nat>)
    requires Sound(history, r, limit)
    ensures Sound(history, Take(r), limit)
  {
    var t := Take(r);
    if t != r {
      assert Kept(t) == Kept(r);
      assert r.dropped + r.queued == (r.dropped + [r.queued[0]]) + t.queued;
      TakeIncreasing(r.dropped, r.queued);
      hide Decodable;
    }
  }

  lemma TakeIncreasing(ps: seq<nat>, qs: seq<nat>)
    requires qs != [] && Increasing(ps + qs)
    ensures Increasing(ps + qs[1..])
  {
    var all, less := ps + qs, ps + qs[1..];
    forall i, j | 0 <= i < j < |less|
      ensures less[i] < less[j]
    {
      assert less[i] == all[if i < |ps| then i else i + 1];
      assert less[j] == all[if j < |ps| then j else j + 1];
    }
  }

  // ------------------------------------------------------------ over all runs

  ghost predicate WorldSound(w: World, limit: Option<nat>) {
    forall id :: id in w.consumers ==>
      && Sound(w.history, w.consumers[id], limit)
      && (w.consumers[id].listed ==> w.consumers[id].seen == |w.history|)
  }

  lemma HearSound(history: seq<Chunk>, r: Reading, limit: Option<nat>, c: Chunk)
    requires Sound(history, r, limit) && (r.listed ==> r.seen == |history|)
    ensures var h := Hear(r, limit, c);
      Sound(history + [c], h, limit) && (h.listed ==> h.seen == |history + [c]|)
  {
    hide Sound;
    if !r.listed || !r.held {
      HistoryGrows(history, c, r, limit);
      Relabelled(history + [c], r, Hear(r, limit, c), limit);
    } else if Skips(r.queue, c) {
      OfferSkipped(history, r, limit, c);
    } else if Overruns(r.queue, limit, c) {
      OfferOverrun(history, r, limit, c);
    } else {
      OfferQueued(history, r, limit, c);
    }
  }

  /** Being held, listed or closed does not bear on what was recorded. */
  lemma Relabelled(history: seq<Chunk>, r: Reading, o: Reading, limit: Option<nat>)
    requires Sound(history, r, limit)
    requires o == r.(held := o.held, listed := o.listed, queue := r.queue.(closed := o.queue.closed))
    ensures Sound(history, o, limit)
  {
    hide Decodable;
    assert Kept(o) == Kept(r);
  }

  lemma StepSound(w: World, limit: Option<nat>, e: Event)
    requires WorldSound(w, limit) && w.gop == CacheOf(w.history)
    ensures WorldSound(Step(w, limit, e), limit)
  {
    hide Sound, CacheOf, Join, Offer;
    var w' := Step(w, limit, e);
    forall id | id in w'.consumers
      ensures Sound(w'.history, w'.consumers[id], limit)
      ensures w'.consumers[id].listed ==> w'.consumers[id].seen == |w'.history|
    {
      match e
      case Attach(_) =>
        if id !in w.consumers {
          JoinSound(w.history, limit);
          JoinSees(w.history, w.gop);
        }
      case Push(c) =>
        HearSound(w.history, w.consumers[id], limit, c);
      case Next(_) =>
        TakeSound(w.history, w.consumers[id], limit);
      case Drop(_) =>
        Relabelled(w.history, w.consumers[id], w'.consumers[id], limit);
      case Close =>
        Relabelled(w.history, w.consumers[id], w'.consumers[id], limit);
    }
  }

  lemma JoinSees(history: seq<Chunk>, g: Gop)
    ensures Join(history, g).seen == |history|
  {
  }

  /**
   Over every run, for every consumer: what it was delivered and what is queued for it
   are contiguous slices of the history, each opening with a resync point; and from its
   first chunk on nothing is lost except what an overrun dropped.
   */
  lemma {:induction false} EveryRunSound(limit: Option<nat>, es: seq<Event>)
    ensures WorldSound(Run(limit, es), limit)
  {
    hide WorldSound, Step, CacheOf;
    if es == [] {
      NobodyIsSound(limit);
    } else {
      EveryRunSound(limit, es[..|es| - 1]);
      CacheIsHistorySuffix(limit, es[..|es| - 1]);
      StepSound(Run(limit, es[..|es| - 1]), limit, es[|es| - 1]);
    }
  }

  lemma NobodyIsSound(limit: Option<nat>)
    ensures WorldSound(NOTHING_YET, limit)
  {
  }

  /** The chunks a consumer has been handed, in order. */
  function Chunks(history: seq<Chunk>, ps: seq<nat>): seq<Chunk>
    requires forall k :: 0 <= k < |ps| ==> ps[k] < |history|
  {
    seq(|ps|, k requires 0 <= k < |ps| => history[ps[k]])
  }

  /** Decodability, spelled out: a chunk that is not a resync point always follows its own predecessor. */
  lemma DeliveredDecodable(limit: Option<nat>, es: seq<Event>, id: nat, k: nat)
    requires id in Run(limit, es).consumers
    requires k < |Kept(Run(limit, es).consumers[id])|
    ensures var w := Run(limit, es);
      var kept := Kept(w.consumers[id]);
      && kept[k] < |w.history|
      && (k == 0 ==> w.history[kept[k]].resyncPoint)
      && (!w.history[kept[k]].resyncPoint ==> kept[k - 1] + 1 == kept[k])
      && (k > 0 ==> kept[k - 1] < kept[k])
  {
    hide Run, Sound;
    EveryRunSound(limit, es);
    var r := Run(limit, es).consumers[id];
    assert Sound(Run(limit, es).history, r, limit);
    SoundAt(Run(limit, es).history, r, limit, k);
  }

  lemma SoundAt(history: seq<Chunk>, r: Reading, limit: Option<nat>, k: nat)
    requires Sound(history, r, limit) && k < |Kept(r)|
    ensures Kept(r)[k] < |history|
    ensures history[Kept(r)[k]].resyncPoint || (k > 0 && Kept(r)[k - 1] + 1 == Kept(r)[k])
    ensures k > 0 ==> Kept(r)[k - 1] < Kept(r)[k]
  {
  }

  /** Conservation, spelled out: every position since the first is in exactly one place. */
  lemma NothingElseLost(limit: Option<nat>, es: seq<Event>, id: nat, p: nat)
    requires id in Run(limit, es).consumers
    ensures var r := Run(limit, es).consumers[id];
      && (r.start.Some? && r.start.value <= p < r.seen ==>
            || (p in r.delivered && p !in r.queued && p !in r.dropped)
            || (p !in r.delivered && p in r.queued && p !in r.dropped)
            || (p !in r.delivered && p !in r.queued && p in r.dropped))
      && (p in r.delivered || p in r.queued || p in r.dropped ==> r.start.Some? && r.start.value <= p < r.seen)
      && (r.dropped == [] <==> r.queue.overruns == 0)
      && (limit.None? ==> r.dropped == [])
  {
    hide Run;
    EveryRunSound(limit, es);
    var r := Run(limit, es).consumers[id];
    assert Sound(Run(limit, es).history, r, limit);
    DeliveredApart(r);
    InConcat(r.delivered, r.queued, p);
  }

  /** The queue itself, in every reachable state: what is seeded is queued, and a queue awaiting a resync is empty. */
  lemma QueueShape(limit: Option<nat>, es: seq<Event>, id: nat)
    requires id in Run(limit, es).consumers
    ensures var r := Run(limit, es).consumers[id];
      && r.queue.seeded <= |r.queue.chunks|
      && (r.queue.awaitingResync ==> r.queue.chunks == [])
      && (!r.queue.awaitingResync ==> Kept(r) != [] && Kept(r)[|Kept(r)| - 1] == r.seen - 1)
      && Mirrors(Run(limit, es).history, r)
  {
    hide Run;
    EveryRunSound(limit, es);
    assert Sound(Run(limit, es).history, Run(limit, es).consumers[id], limit);
  }

  lemma RunNone(limit: Option<nat>)
    ensures Run(limit, []) == NOTHING_YET
  {
  }

  // ------------------------------------------------------------ isolation

  /** The events one consumer can tell apart: pushes, close, and its own. */
  predicate Concerns(e: Event, id: nat) {
    match e
    case Attach(i) => i == id
    case Next(i) => i == id
    case Drop(i) => i == id
    case Push(_) => true
    case Close => true
  }

  function Only(es: seq<Event>, id: nat): seq<Event> {
    if es == [] then []
    else Only(es[..|es| - 1], id) + if Concerns(es[|es| - 1], id) then [es[|es| - 1]] else []
  }

  /** The same consumer, the same history, the same cache. */
  predicate SameFor(v: World, w: World, id: nat) {
    && v.history == w.history
    && v.gop == w.gop
    && (id in v.consumers <==> id in w.consumers)
    && (id in v.consumers ==> v.consumers[id] == w.consumers[id])
  }

  lemma StepSame(v: World, w: World, limit: Option<nat>, e: Event, id: nat)
    requires SameFor(v, w, id)
    ensures Concerns(e, id) ==> SameFor(Step(v, limit, e), Step(w, limit, e), id)
    ensures !Concerns(e, id) ==> SameFor(Step(v, limit, e), w, id)
  {
  }

  lemma SameNothing(id: nat)
    ensures SameFor(NOTHING_YET, NOTHING_YET, id)
  {
  }

  /**
   Isolation: whatever the other consumers do, a consumer ends in exactly the state it
   would reach if they did not exist.
   */
  lemma {:induction false} Isolated(limit: Option<nat>, es: seq<Event>, id: nat)
    ensures SameFor(Run(limit, es), Run(limit, Only(es, id)), id)
  {
    hide Step, Concerns, SameFor;
    if es == [] {
      SameNothing(id);
    } else {
      var n := |es| - 1;
      var e := es[n];
      Isolated(limit, es[..n], id);
      StepSame(Run(limit, es[..n]), Run(limit, Only(es[..n], id)), limit, e, id);
      RunSnoc(limit, Only(es[..n], id), e);
      assert Only(es[..n], id) + [] == Only(es[..n], id);
      assert Run(limit, es) == Step(Run(limit, es[..n]), limit, e);
    }
  }
}
