/**
 The classes of the fanout do what the step system says: performing an event on the
 objects takes whatever state they stand for to the state after that event.
 */
module FanoutRefines {
  import opened Wrappers
  import F = Fanout
  import R = FanoutRuns

  /** A consumer stands for a reading: its queue, whether it is held, and whether it is still listed. */
  ghost predicate Stands(c: F.Consumer, r: R.Reading, listed: bool)
    reads c
  {
    c.Model() == r.queue && c.held == r.held && (r.held ==> (r.listed <==> listed))
  }

  /** The consumers are different objects, and the fanout lists no others. */
  ghost predicate Apart(f: F.Fanout, cs: map<nat, F.Consumer>)
    reads f
  {
    && f.Valid()
    && (forall a, b :: a in cs && b in cs && a != b ==> cs[a] != cs[b])
    && (forall c :: c in f.consumers ==> c in cs.Values)
  }

  /** A fanout and the consumers it has handed out stand for a state of the step system. */
  ghost predicate Represents(f: F.Fanout, cs: map<nat, F.Consumer>, w: R.World)
    reads f, cs.Values
  {
    && Apart(f, cs)
    && f.Cache() == w.gop
    && cs.Keys == w.consumers.Keys
    && (forall id :: id in cs ==> Stands(cs[id], w.consumers[id], cs[id] in f.consumers))
  }

  method Begin(limit: Option<nat>) returns (f: F.Fanout, cs: map<nat, F.Consumer>)
    ensures fresh(f) && f.limitUs == limit && cs == map[]
    ensures Represents(f, cs, R.NOTHING_YET)
  {
    f := new F.Fanout(limit);
    cs := map[];
  }

  method Attach(f: F.Fanout, cs: map<nat, F.Consumer>, ghost w: R.World, id: nat) returns (cs': map<nat, F.Consumer>)
    requires Represents(f, cs, w)
    modifies f
    ensures Represents(f, cs', R.Step(w, f.limitUs, R.Attach(id)))
    ensures fresh(cs'.Values - cs.Values)
  {
    cs' := cs;
    if id !in cs {
      ghost var listed := f.consumers;
      var c := f.Attach();
      cs' := cs[id := c];
      JoinQueue(w.history, w.gop);
      hide R.Join;
      ghost var w' := R.Step(w, f.limitUs, R.Attach(id));
      forall x | x in cs'
        ensures Stands(cs'[x], w'.consumers[x], cs'[x] in f.consumers)
      {
        if x != id {
          assert Stands(cs[x], w.consumers[x], cs[x] in listed);
          assert cs[x] != c;
        }
      }
      Added(cs, id, c);
      assert Apart(f, cs');
    }
  }

  lemma Added(cs: map<nat, F.Consumer>, id: nat, c: F.Consumer)
    requires id !in cs
    ensures cs[id := c].Values == cs.Values + {c}
  {
    var cs' := cs[id := c];
    assert cs'[id] == c;
    forall x | x in cs.Values
      ensures x in cs'.Values
    {
      var k :| k in cs && cs[k] == x;
      assert cs'[k] == x;
    }
  }

  lemma JoinQueue(history: seq<F.Chunk>, g: F.Gop)
    ensures R.Join(history, g).queue == F.SeedQueue(g) && R.Join(history, g).held && R.Join(history, g).listed
  {
  }

  lemma HearQueue(r: R.Reading, limit: Option<nat>, c: F.Chunk)
    ensures R.Hear(r, limit, c).held == r.held
    ensures r.held ==> R.Hear(r, limit, c).listed == r.listed
    ensures R.Hear(r, limit, c).queue == if r.listed && r.held then F.PushQueue(r.queue, limit, c) else r.queue
  {
    hide F.PushQueue;
  }

  lemma AttachedAre(cs: seq<F.Consumer>, c: F.Consumer)
    ensures c in F.Attached(cs) <==> c in cs && c.held
  {
    if cs != [] {
      AttachedAre(cs[..|cs| - 1], c);
    }
  }

  lemma PushSteps(w: R.World, limit: Option<nat>, c: F.Chunk)
    ensures var w' := R.Step(w, limit, R.Push(c));
      && w'.gop == F.PushGop(w.gop, c)
      && w'.consumers.Keys == w.consumers.Keys
      && forall id :: id in w.consumers ==> w'.consumers[id] == R.Hear(w.consumers[id], limit, c)
  {
    hide R.Hear, F.PushGop;
  }

  method Push(f: F.Fanout, cs: map<nat, F.Consumer>, ghost w: R.World, chunk: F.Chunk)
    requires Represents(f, cs, w)
    modifies f, cs.Values
    ensures Represents(f, cs, R.Step(w, f.limitUs, R.Push(chunk)))
  {
    hide F.PushQueue, F.PushGop, R.Hear, R.Step;
    ghost var listed := f.consumers;
    ghost var w' := R.Step(w, f.limitUs, R.Push(chunk));
    PushSteps(w, f.limitUs, chunk);
    assert forall id :: id in cs ==> Stands(cs[id], w.consumers[id], cs[id] in listed);
    f.Push(chunk);
    forall id | id in cs
      ensures Stands(cs[id], w'.consumers[id], cs[id] in f.consumers)
    {
      HearQueue(w.consumers[id], f.limitUs, chunk);
      AttachedAre(listed, cs[id]);
    }
    forall c | c in f.consumers
      ensures c in cs.Values
    {
      AttachedAre(listed, c);
    }
  }

  /** A reader that has been dropped can no longer ask. */
  method Next(f: F.Fanout, cs: map<nat, F.Consumer>, ghost w: R.World, id: nat) returns (r: F.NextResult)
    requires Represents(f, cs, w) && R.WorldSound(w, f.limitUs)
    modifies cs.Values
    ensures Represents(f, cs, R.Step(w, f.limitUs, R.Next(id)))
    ensures id in cs && old(cs[id].held) && w.consumers[id].queue.chunks != [] ==>
      r == F.Ready(w.consumers[id].queue.chunks[0])
  {
    hide R.WorldSound, R.Take, F.PopQueue;
    r := F.Pending;
    if id in cs {
      ghost var w' := R.Step(w, f.limitUs, R.Next(id));
      TakeQueue(w.consumers[id]);
      TakeGuard(w, f.limitUs, id);
      assert forall x :: x in cs ==> Stands(cs[x], w.consumers[x], cs[x] in f.consumers);
      if cs[id].held {
        r := cs[id].Next();
      }
      forall x | x in cs
        ensures Stands(cs[x], w'.consumers[x], cs[x] in f.consumers)
      {
        if x != id {
          assert cs[x] != cs[id];
        }
      }
    }
  }

  lemma TakeQueue(r: R.Reading)
    ensures R.Take(r).held == r.held && R.Take(r).listed == r.listed
    ensures !r.held ==> R.Take(r) == r
    ensures r.held && (r.queue.chunks != [] <==> r.queued != []) ==>
      R.Take(r).queue == if r.queue.chunks != [] then F.PopQueue(r.queue) else r.queue
  {
  }

  /** The step system pops a position for every chunk popped: the two lists are never of different lengths. */
  lemma TakeGuard(w: R.World, limit: Option<nat>, id: nat)
    requires R.WorldSound(w, limit) && id in w.consumers
    ensures w.consumers[id].queue.chunks != [] <==> w.consumers[id].queued != []
  {
    assert R.Sound(w.history, w.consumers[id], limit);
  }

  method Drop(f: F.Fanout, cs: map<nat, F.Consumer>, ghost w: R.World, id: nat)
    requires Represents(f, cs, w)
    modifies cs.Values
    ensures Represents(f, cs, R.Step(w, f.limitUs, R.Drop(id)))
  {
    if id in cs {
      cs[id].Drop();
    }
  }

  method Close(f: F.Fanout, cs: map<nat, F.Consumer>, ghost w: R.World)
    requires Represents(f, cs, w)
    modifies f, cs.Values
    ensures Represents(f, cs, R.Step(w, f.limitUs, R.Close))
  {
    f.Close();
  }

  /** Counting prunes the list and changes nothing a reader can see. */
  method Count(f: F.Fanout, cs: map<nat, F.Consumer>, ghost w: R.World) returns (n: nat)
    requires Represents(f, cs, w)
    modifies f
    ensures Represents(f, cs, w)
  {
    ghost var listed := f.consumers;
    n := f.CountConsumers();
    forall c: F.Consumer
      ensures c in f.consumers <==> c in listed && c.held
    {
      AttachedAre(listed, c);
    }
  }

  /**
   Any list of events, performed on the objects one after the other, ends in objects that
   stand for the run of the step system over it.
   */
  method Perform(limit: Option<nat>, es: seq<R.Event>) returns (f: F.Fanout, cs: map<nat, F.Consumer>)
    ensures Represents(f, cs, R.Run(limit, es))
  {
    hide R.Step, Represents, R.WorldSound;
    f, cs := Begin(limit);
    R.RunNone(limit);
    for i := 0 to |es|
      invariant fresh(f) && fresh(cs.Values) && f.limitUs == limit
      invariant Represents(f, cs, R.Run(limit, es[..i]))
    {
      assert es[..i + 1][..i] == es[..i];
      ghost var w := R.Run(limit, es[..i]);
      R.EveryRunSound(limit, es[..i]);
      match es[i] {
        case Attach(id) => cs := Attach(f, cs, w, id);
        case Push(chunk) => Push(f, cs, w, chunk);
        case Next(id) => var _ := Next(f, cs, w, id);
        case Drop(id) => Drop(f, cs, w, id);
        case Close => Close(f, cs, w);
      }
    }
    assert es[..|es|] == es;
  }

  /** A new reader's positions are those of the cached GOP: it never holds more than was pushed. */
  lemma JoinGuard(limit: Option<nat>, es: seq<R.Event>)
    ensures var w := R.Run(limit, es);
      var seed := F.SeedQueue(w.gop).chunks;
      && |seed| <= |w.history|
      && (R.Join(w.history, w.gop).start.Some? <==> w.gop.whole)
      && |R.Join(w.history, w.gop).queued| == |seed|
  {
    hide R.Run;
    R.CacheIsHistorySuffix(limit, es);
    R.SinceResyncIsSuffix(R.Run(limit, es).history);
  }
}
