/**
 One producer, many readers. The value a queue and the GOP cache hold, what each
 operation makes of them, and the classes that do it in place. `Push` and `Attach`
 run under the state lock and `Next` under the queue lock, so each is one atomic step.
 */
module Fanout {
  import opened Wrappers
  import opened Bytes

  /** The bytes a frame became on the wire, whether a reader can start there, and its time. */
  datatype Chunk = Chunk(bytes: seq<byte>, resyncPoint: bool, ptsUs: nat)

  /** The queue behind one consumer. */
  datatype Queue = Queue(chunks: seq<Chunk>, awaitingResync: bool, seeded: nat, closed: bool, overruns: nat)

  /** The most recent GOP, kept for readers that join late. */
  datatype Gop = Gop(chunks: seq<Chunk>, bytes: nat, whole: bool)

  const GOP_CACHE_LIMIT: nat := 16 * 1024 * 1024

  const EMPTY_GOP: Gop := Gop([], 0, false)

  // ------------------------------------------------------------ the operations on values

  function PushGop(g: Gop, c: Chunk): Gop {
    var begun := if c.resyncPoint then Gop([], 0, true) else g;
    if !begun.whole then begun
    else if begun.bytes + |c.bytes| > GOP_CACHE_LIMIT then EMPTY_GOP
    else Gop(begun.chunks + [c], begun.bytes + |c.bytes|, true)
  }

  function SeedQueue(g: Gop): Queue {
    var seed := if g.whole then g.chunks else [];
    Queue(seed, seed == [], |seed|, false, 0)
  }

  function SaturatingSub(a: nat, b: nat): nat {
    if a >= b then a - b else 0
  }

  /** How far the first live chunk queued is behind the chunk being pushed. */
  function Behind(q: Queue, c: Chunk): nat {
    if q.seeded < |q.chunks| then SaturatingSub(c.ptsUs, q.chunks[q.seeded].ptsUs) else 0
  }

  predicate Overruns(q: Queue, limit: Option<nat>, c: Chunk) {
    limit.Some? && Behind(q, c) > limit.value
  }

  /** Waiting for a keyframe, and this is not one. */
  predicate Skips(q: Queue, c: Chunk) {
    q.awaitingResync && !c.resyncPoint
  }

  function PushQueue(q: Queue, limit: Option<nat>, c: Chunk): Queue {
    if Skips(q, c) then q
    else if Overruns(q, limit, c) then
      if c.resyncPoint
      then q.(chunks := [c], seeded := 0, overruns := q.overruns + 1, awaitingResync := false)
      else q.(chunks := [], seeded := 0, overruns := q.overruns + 1, awaitingResync := true)
    else q.(chunks := q.chunks + [c], awaitingResync := false)
  }

  function PopQueue(q: Queue): Queue
    requires q.chunks != []
  {
    q.(chunks := q.chunks[1..], seeded := SaturatingSub(q.seeded, 1))
  }

  // ------------------------------------------------------------ in place

  datatype NextResult = Ready(chunk: Chunk) | Finished | Pending

  /** A reader's end, and the queue it shares with the fanout. */
  class Consumer {
    var chunks: seq<Chunk>
    var awaitingResync: bool
    var seeded: nat
    var closed: bool
    var overruns: nat
    /** Whether the reader still holds its end; the fanout only has a weak reference. */
    var held: bool

    ghost function Model(): Queue
      reads this
    {
      Queue(chunks, awaitingResync, seeded, closed, overruns)
    }

    constructor (g: Gop)
      ensures Model() == SeedQueue(g) && held
    {
      chunks := if g.whole then g.chunks else [];
      awaitingResync := !g.whole || g.chunks == [];
      seeded := if g.whole then |g.chunks| else 0;
      closed := false;
      overruns := 0;
      held := true;
    }

    /** One look at the queue: `Pending` is where `next` parks. */
    method Next() returns (r: NextResult)
      modifies this
      ensures held == old(held)
      ensures old(chunks) != [] ==> r == Ready(old(chunks)[0]) && Model() == PopQueue(old(Model()))
      ensures old(chunks) == [] ==> Model() == old(Model()) && r == if closed then Finished else Pending
    {
      if chunks != [] {
        r := Ready(chunks[0]);
        chunks := chunks[1..];
        seeded := if seeded >= 1 then seeded - 1 else 0;
      } else if closed {
        r := Finished;
      } else {
        r := Pending;
      }
    }

    /** Dropping the reader's end detaches it; there is nothing to call. */
    method Drop()
      modifies `held
      ensures !held
    {
      held := false;
    }

    /** The fanout's side of a push. */
    method Receive(limit: Option<nat>, chunk: Chunk)
      modifies `chunks, `awaitingResync, `seeded, `overruns
      ensures Model() == PushQueue(old(Model()), limit, chunk)
    {
      if awaitingResync {
        if !chunk.resyncPoint {
          return;
        }
        awaitingResync := false;
      }
      if limit.Some? {
        var behind := if seeded < |chunks| then SaturatingSub(chunk.ptsUs, chunks[seeded].ptsUs) else 0;
        if behind > limit.value {
          chunks := [];
          seeded := 0;
          overruns := overruns + 1;
          if !chunk.resyncPoint {
            awaitingResync := true;
            return;
          }
        }
      }
      chunks := chunks + [chunk];
    }
  }

  ghost predicate Distinct(cs: seq<Consumer>) {
    forall i, j :: 0 <= i < j < |cs| ==> cs[i] != cs[j]
  }

  /** Readers that still hold their end, in order. */
  ghost function Attached(cs: seq<Consumer>): (a: seq<Consumer>)
    reads (set c | c in cs)`held
    ensures forall c :: c in a ==> c in cs
  {
    if cs == [] then []
    else Attached(cs[..|cs| - 1]) + if cs[|cs| - 1].held then [cs[|cs| - 1]] else []
  }

  /** The retain loop of a push: offer the chunk, keep who is still there. */
  method Deliver(list: seq<Consumer>, limit: Option<nat>, chunk: Chunk) returns (kept: seq<Consumer>)
    requires Distinct(list)
    modifies list
    ensures kept == Attached(list) && Distinct(kept)
    ensures forall c | c in list ::
      && c.held == old(c.held)
      && c.Model() == if c.held then PushQueue(old(c.Model()), limit, chunk) else old(c.Model())
  {
    hide PushQueue;
    kept := [];
    for i := 0 to |list|
      invariant kept == Attached(list[..i])
      invariant forall c | c in list :: c.held == old(c.held)
      invariant forall k :: 0 <= k < i ==>
        list[k].Model() == if list[k].held then PushQueue(old(list[k].Model()), limit, chunk) else old(list[k].Model())
      invariant forall k :: i <= k < |list| ==> list[k].Model() == old(list[k].Model())
    {
      assert list[..i + 1][..i] == list[..i];
      if list[i].held {
        list[i].Receive(limit, chunk);
        kept := kept + [list[i]];
      }
    }
    assert list[..|list|] == list;
    AttachedDistinct(list);
  }

  class Fanout {
    var consumers: seq<Consumer>
    var gopChunks: seq<Chunk>
    var gopBytes: nat
    var gopWhole: bool
    const limitUs: Option<nat>

    ghost predicate Valid()
      reads this
    {
      Distinct(consumers)
    }

    ghost function Cache(): Gop
      reads this
    {
      Gop(gopChunks, gopBytes, gopWhole)
    }

    constructor (limit: Option<nat>)
      ensures Valid() && Cache() == EMPTY_GOP && consumers == [] && limitUs == limit
    {
      consumers := [];
      gopChunks, gopBytes, gopWhole := [], 0, false;
      limitUs := limit;
    }

    /** Attach a reader: the GOP in progress if it is whole, else a wait for the next keyframe. */
    method Attach() returns (c: Consumer)
      requires Valid()
      modifies this`consumers
      ensures Valid() && fresh(c)
      ensures consumers == old(consumers) + [c]
      ensures c.held && c.Model() == SeedQueue(Cache())
    {
      c := new Consumer(Gop(gopChunks, gopBytes, gopWhole));
      consumers := consumers + [c];
    }

    method KeepGop(chunk: Chunk)
      modifies this`gopChunks, this`gopBytes, this`gopWhole
      ensures Cache() == PushGop(old(Cache()), chunk)
    {
      if chunk.resyncPoint {
        gopChunks := [];
        gopBytes := 0;
        gopWhole := true;
      }
      if gopWhole {
        gopBytes := gopBytes + |chunk.bytes|;
        if gopBytes > GOP_CACHE_LIMIT {
          gopChunks := [];
          gopBytes := 0;
          gopWhole := false;
        } else {
          gopChunks := gopChunks + [chunk];
        }
      }
    }

    /** One chunk for the cache and for everybody still reading; who has gone is struck off. */
    method Push(chunk: Chunk)
      requires Valid()
      modifies this, consumers
      ensures Valid()
      ensures Cache() == PushGop(old(Cache()), chunk)
      ensures consumers == Attached(old(consumers))
      ensures forall c | c in old(consumers) ::
        && c.held == old(c.held)
        && c.Model() == if c.held then PushQueue(old(c.Model()), limitUs, chunk) else old(c.Model())
    {
      hide PushQueue, PushGop;
      KeepGop(chunk);
      consumers := Deliver(consumers, limitUs, chunk);
    }

    /** How many readers are attached, forgetting any that have gone. */
    method CountConsumers() returns (n: nat)
      requires Valid()
      modifies this`consumers
      ensures Valid()
      ensures consumers == Attached(old(consumers)) && n == |consumers|
    {
      var kept := [];
      for i := 0 to |consumers|
        invariant consumers == old(consumers)
        invariant kept == Attached(consumers[..i])
      {
        assert consumers[..i + 1][..i] == consumers[..i];
        if consumers[i].held {
          kept := kept + [consumers[i]];
        }
      }
      assert consumers[..|consumers|] == consumers;
      AttachedDistinct(consumers);
      consumers := kept;
      n := |consumers|;
    }

    /** Tell every reader no more chunks are coming. */
    method Close()
      requires Valid()
      modifies this`consumers, consumers
      ensures Valid() && consumers == []
      ensures forall c | c in old(consumers) ::
        && c.held == old(c.held)
        && c.Model() == if c.held then old(c.Model()).(closed := true) else old(c.Model())
    {
      var drained := consumers;
      consumers := [];
      for i := 0 to |drained|
        invariant consumers == []
        invariant forall k :: 0 <= k < |drained| ==> drained[k].held == old(drained[k].held)
        invariant forall k :: 0 <= k < i ==>
          drained[k].Model()
          == if drained[k].held then old(drained[k].Model()).(closed := true) else old(drained[k].Model())
        invariant forall k :: i <= k < |drained| ==> drained[k].Model() == old(drained[k].Model())
      {
        if drained[i].held {
          drained[i].closed := true;
        }
      }
    }
  }

  lemma {:induction false} AttachedDistinct(cs: seq<Consumer>)
    requires Distinct(cs)
    ensures Distinct(Attached(cs))
  {
    if cs != [] {
      var n := |cs| - 1;
      AttachedDistinct(cs[..n]);
      var a := Attached(cs[..n]);
      forall i | 0 <= i < |a|
        ensures a[i] != cs[n]
      {
        assert a[i] in a;
        assert a[i] in cs[..n];
      }
      assert Attached(cs) == a + if cs[n].held then [cs[n]] else [];
    }
  }
}
