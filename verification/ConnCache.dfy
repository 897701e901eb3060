/**
 A cache whose entries live and die with a camera connection: in place, and over every
 interleaving of callers, reads and reconnects.
 */
module ConnCache {
  import opened Wrappers

  /** A weak reference to a connection: null, or the `n`-th connection ever made. */
  datatype Token = Null | Conn(n: nat)

  /** What a read ends in; `Fallback` is the neutral answer of a read that failed. */
  datatype Value = ReadOver(conn: nat) | Fallback

  type Slot = Option<(Token, Value)>

  /** Equal, and still alive: a null token matches nothing, not even another null. */
  predicate SameConnection(token: Token, now: Token, live: set<nat>) {
    token == now && token.Conn? && token.n in live
  }

  predicate Hits(slot: Slot, now: Token, live: set<nat>) {
    slot.Some? && SameConnection(slot.value.0, now, live)
  }

  class ConnScopedCache {
    var slot: Slot

    constructor ()
      ensures slot.None?
    {
      slot := None;
    }

    /** With `now` taken on entry; `answer` is what reading the camera would give. */
    method GetOrInit(now: Token, live: set<nat>, answer: Value) returns (value: Value, asked: bool)
      modifies this
      ensures asked <==> !Hits(old(slot), now, live)
      ensures !asked ==> value == old(slot).value.1 && slot == old(slot)
      ensures asked ==> value == answer && slot == Some((now, answer))
    {
      if slot.Some? {
        var (token, kept) := slot.value;
        if SameConnection(token, now, live) {
          return kept, false;
        }
      }
      value := answer;
      asked := true;
      slot := Some((now, value));
    }
  }

  // ------------------------------------------------------------ every interleaving

  /**
   Where a call is. `made` is how many connections had been made when it began, so
   connection `made - 1` is the newest it could have known of. `over` is the connection
   a read in progress is currently using.
   */
  datatype Call =
    | NotCalled
    | Waiting(now: Token, made: nat)
    | Reading(now: Token, made: nat, over: Option<nat>)
    | Returned(value: Value, now: Token, made: nat, asked: bool)

  datatype World = World(
    made: nat,
    published: Token,
    live: set<nat>,
    slot: Slot,
    lock: Option<nat>,
    calls: map<nat, Call>)

  const START: World := World(0, Null, {}, None, None, map[])

  datatype Event =
    | Connect
    | Disconnect
    | Free(n: nat)
    | Begin(id: nat)
    | Acquire(id: nat)
    | Use(id: nat)
    | Finish(id: nat)
    | Fail(id: nat)
    | Cancel(id: nat)

  function CallOf(w: World, id: nat): Call {
    if id in w.calls then w.calls[id] else NotCalled
  }

  function Put(w: World, id: nat, c: Call): World {
    w.(calls := w.calls[id := c])
  }

  /** A read ends: its value is stored under the token taken before it, and the lock is released. */
  function Store(w: World, id: nat, c: Call, v: Value): World
    requires c.Reading?
  {
    Put(w, id, Returned(v, c.now, c.made, true)).(slot := Some((c.now, v)), lock := None)
  }

  function Step(w: World, e: Event): World {
    match e
    case Connect => w.(made := w.made + 1, published := Conn(w.made), live := w.live + {w.made})
    case Disconnect => w.(published := Null)
    case Free(n) => w.(live := w.live - {n})
    case Begin(id) => if CallOf(w, id).NotCalled? then Put(w, id, Waiting(w.published, w.made)) else w
    case Acquire(id) =>
      var c := CallOf(w, id);
      if !c.Waiting? || w.lock.Some? then w
      else if Hits(w.slot, c.now, w.live) then Put(w, id, Returned(w.slot.value.1, c.now, c.made, false))
      else Put(w, id, Reading(c.now, c.made, None)).(lock := Some(id))
    case Use(id) =>
      // The read takes up the published connection, at first or after a reconnect.
      var c := CallOf(w, id);
      if c.Reading? && w.published.Conn? && w.published.n in w.live
      then Put(w, id, c.(over := Some(w.published.n))) else w
    case Finish(id) =>
      var c := CallOf(w, id);
      if c.Reading? && c.over.Some? then Store(w, id, c, ReadOver(c.over.value)) else w
    case Fail(id) => if CallOf(w, id).Reading? then Store(w, id, CallOf(w, id), Fallback) else w
    case Cancel(id) =>
      var c := CallOf(w, id);
      if c.Waiting? then Put(w, id, NotCalled)
      else if c.Reading? then Put(w, id, NotCalled).(lock := None)
      else w
  }

  function Run(es: seq<Event>): World {
    if es == [] then START else Step(Run(es[..|es| - 1]), es[|es| - 1])
  }

  predicate TokenSound(now: Token, made: nat) {
    now.Conn? ==> now.n + 1 == made
  }

  /** A call that began while disconnected can only meet connections made since. */
  predicate Offline(w: World, now: Token, made: nat) {
    now.Null? && w.published.Conn? ==> made < w.made
  }

  /**
   No older than the connection current when the call began; for a call that began while
   disconnected, newer than every connection there had been.
   */
  predicate FreshFor(v: Value, now: Token, made: nat) {
    v.ReadOver? ==> v.conn >= if now.Conn? then now.n else made
  }

  predicate CallSound(w: World, id: nat, c: Call) {
    match c
    case NotCalled => true
    case Waiting(now, made) => made <= w.made && TokenSound(now, made) && Offline(w, now, made)
    case Reading(now, made, over) =>
      && made <= w.made
      && TokenSound(now, made)
      && Offline(w, now, made)
      && w.lock == Some(id)
      && (over.Some? ==> over.value + 1 <= w.made && FreshFor(ReadOver(over.value), now, made))
    case Returned(v, now, made, asked) =>
      && TokenSound(now, made)
      && FreshFor(v, now, made)
      && (now.Null? ==> asked)
  }

  predicate SlotSound(w: World) {
    w.slot.Some? && w.slot.value.0.Conn? ==> FreshFor(w.slot.value.1, w.slot.value.0, 0)
  }

  ghost predicate Sound(w: World) {
    && TokenSound(w.published, w.made)
    && (forall n :: n in w.live ==> n < w.made)
    && SlotSound(w)
    && forall id :: id in w.calls ==> CallSound(w, id, w.calls[id])
  }

  lemma CallStays(w: World, e: Event, id: nat)
    requires Sound(w)
    ensures CallSound(Step(w, e), id, CallOf(Step(w, e), id))
  {
    assert id in w.calls ==> CallSound(w, id, w.calls[id]);
  }

  lemma SlotStays(w: World, e: Event)
    requires Sound(w)
    ensures var w' := Step(w, e);
      TokenSound(w'.published, w'.made) && SlotSound(w') && forall n :: n in w'.live ==> n < w'.made
  {
    if (e.Finish? || e.Fail?) && e.id in w.calls {
      assert CallSound(w, e.id, w.calls[e.id]);
    }
  }

  lemma StepSound(w: World, e: Event)
    requires Sound(w)
    ensures Sound(Step(w, e))
  {
    hide Step, CallSound, SlotSound, TokenSound;
    SlotStays(w, e);
    var w' := Step(w, e);
    forall id | id in w'.calls
      ensures CallSound(w', id, w'.calls[id])
    {
      CallStays(w, e, id);
    }
  }

  lemma {:induction false} EveryRunSound(es: seq<Event>)
    ensures Sound(Run(es))
  {
    if es != [] {
      EveryRunSound(es[..|es| - 1]);
      StepSound(Run(es[..|es| - 1]), es[|es| - 1]);
    }
  }

  /**
   Over every interleaving: a value a call returns was read over a connection no older
   than the one current when that call began, and if none was, over one made since, by
   the call itself.
   */
  lemma NeverStale(es: seq<Event>, id: nat)
    requires CallOf(Run(es), id).Returned?
    ensures var c := CallOf(Run(es), id);
      && (c.now.Conn? ==> c.now.n + 1 == c.made)
      && (c.value.ReadOver? && c.now.Conn? ==> c.value.conn >= c.now.n)
      && (c.value.ReadOver? && c.now.Null? ==> c.value.conn >= c.made)
      && (c.now.Null? ==> c.asked)
  {
    EveryRunSound(es);
  }

  /** Only one call reads at a time, and it is the one holding the lock. */
  lemma OneReader(es: seq<Event>, a: nat, b: nat)
    requires CallOf(Run(es), a).Reading? && CallOf(Run(es), b).Reading?
    ensures a == b && Run(es).lock == Some(a)
  {
    EveryRunSound(es);
  }

  /**
   Callers queueing behind one read share it: whoever waits under the token the read was
   stored under returns its value without asking, as long as the connection lives.
   */
  lemma WaitersShareTheRead(es: seq<Event>, reader: nat, waiter: nat)
    requires reader != waiter
    requires CallOf(Run(es), reader).Reading? && CallOf(Run(es), reader).over.Some?
    requires CallOf(Run(es), waiter).Waiting? && CallOf(Run(es), waiter).now == CallOf(Run(es), reader).now
    requires CallOf(Run(es), waiter).now.Conn? && CallOf(Run(es), waiter).now.n in Run(es).live
    ensures var w := Step(Step(Run(es), Finish(reader)), Acquire(waiter));
      && CallOf(w, waiter).Returned?
      && !CallOf(w, waiter).asked
      && CallOf(w, reader).Returned?
      && CallOf(w, waiter).value == CallOf(w, reader).value
      && w.lock.None?
  {
    EveryRunSound(es);
  }

  // ------------------------------------------------------------ the lock

  /** The lock is held by the call that is reading, and by nobody once that has ended, cancelled or not. */
  predicate LockTells(w: World) {
    && (w.lock.Some? ==> CallOf(w, w.lock.value).Reading?)
    && forall id :: id in w.calls && w.calls[id].Reading? ==> w.lock == Some(id)
  }

  lemma StepLockTells(w: World, e: Event)
    requires LockTells(w)
    ensures LockTells(Step(w, e))
  {
  }

  lemma {:induction false} LockIsReader(es: seq<Event>)
    ensures LockTells(Run(es))
  {
    hide Step, LockTells;
    if es == [] {
      NobodyReads();
    } else {
      LockIsReader(es[..|es| - 1]);
      StepLockTells(Run(es[..|es| - 1]), es[|es| - 1]);
    }
  }

  lemma NobodyReads()
    ensures LockTells(START)
  {
  }

  /**
   Nobody waits for a lock that will not come: after any run, cancelled readers included,
   once the reader there may be gives up a waiting call gets the lock, and with it an answer.
   */
  lemma NobodyStuck(es: seq<Event>, id: nat)
    requires CallOf(Run(es), id).Waiting?
    ensures var w := Run(es);
      var free := if w.lock.Some? then Step(w, Cancel(w.lock.value)) else w;
      && free.lock.None?
      && CallOf(Step(Step(free, Acquire(id)), Fail(id)), id).Returned?
  {
    hide Run;
    LockIsReader(es);
  }

  // ------------------------------------------------------------ where an answer comes from

  /** Some call read this answer under this token and returned it. */
  predicate Asked(w: World, now: Token, value: Value) {
    exists id :: id in w.calls && w.calls[id].Returned? && w.calls[id].asked
              && w.calls[id].now == now && w.calls[id].value == value
  }

  predicate SlotAsked(w: World) {
    w.slot.Some? ==> Asked(w, w.slot.value.0, w.slot.value.1)
  }

  lemma StepAsked(w: World, e: Event, now: Token, value: Value)
    requires Asked(w, now, value)
    ensures Asked(Step(w, e), now, value)
  {
    var id :| id in w.calls && w.calls[id].Returned? && w.calls[id].asked
           && w.calls[id].now == now && w.calls[id].value == value;
    assert Step(w, e).calls[id] == w.calls[id];
  }

  lemma StepSlotAsked(w: World, e: Event)
    requires SlotAsked(w)
    ensures SlotAsked(Step(w, e))
  {
    var w' := Step(w, e);
    if w.slot.Some? {
      StepAsked(w, e, w.slot.value.0, w.slot.value.1);
    }
    if w'.slot != w.slot {
      assert w'.calls[e.id].Returned? && w'.calls[e.id].asked;
    }
  }

  lemma {:induction false} AlwaysSlotAsked(es: seq<Event>)
    ensures SlotAsked(Run(es))
  {
    hide Step, SlotAsked;
    if es == [] {
      EmptySlot();
    } else {
      AlwaysSlotAsked(es[..|es| - 1]);
      StepSlotAsked(Run(es[..|es| - 1]), es[|es| - 1]);
    }
  }

  lemma EmptySlot()
    ensures SlotAsked(START)
  {
  }

  /** A call that found its answer: kept under its own token, with that connection alive, from a call that had asked. */
  ghost predicate Shared(w: World, now: Token, value: Value) {
    && w.lock.None?
    && w.slot == Some((now, value))
    && now.Conn? && now.n in w.live
    && Asked(w, now, value)
  }

  /**
   A call that returns without asking took the lock at a moment when the slot held, under
   the very token it had taken on entry and for a connection then still alive, an answer
   another call had read under that token.
   */
  lemma {:induction false} UnaskedIsShared(es: seq<Event>, id: nat)
    requires CallOf(Run(es), id).Returned? && !CallOf(Run(es), id).asked
    ensures var c := CallOf(Run(es), id);
      exists k :: 0 <= k < |es| && es[k] == Acquire(id) && Shared(Run(es[..k]), c.now, c.value)
  {
    hide Shared, Step;
    var n := |es| - 1;
    var w := Run(es[..n]);
    var c := CallOf(Run(es), id);
    StepKeeps(w, es[n], id);
    if CallOf(w, id).Returned? {
      UnaskedIsShared(es[..n], id);
      var k :| 0 <= k < n && es[..n][k] == Acquire(id) && Shared(Run(es[..n][..k]), c.now, c.value);
      assert es[..n][..k] == es[..k];
      assert es[k] == Acquire(id);
    } else {
      AlwaysSlotAsked(es[..n]);
      HitIsShared(w, es[n], id);
      assert es[n] == Acquire(id);
    }
  }

  lemma HitIsShared(w: World, e: Event, id: nat)
    requires SlotAsked(w) && !CallOf(w, id).Returned?
    requires CallOf(Step(w, e), id).Returned? && !CallOf(Step(w, e), id).asked
    ensures e == Acquire(id) && Shared(w, CallOf(Step(w, e), id).now, CallOf(Step(w, e), id).value)
  {
  }

  /** What if the slot were keyed by the token seen after the read. */
  function StoreLate(w: World, id: nat, c: Call, v: Value): World
    requires c.Reading?
  {
    Put(w, id, Returned(v, c.now, c.made, true)).(slot := Some((w.published, v)), lock := None)
  }

  /** Then a reconnect during a read pins the old connection's answer to the new one. */
  lemma LateKeyIsStale()
    ensures var reading := Run([Connect, Begin(0), Acquire(0), Use(0), Connect]);
      && CallOf(reading, 0).Reading?
      && var stored := StoreLate(reading, 0, CallOf(reading, 0), ReadOver(0));
      var c := CallOf(Step(Step(stored, Begin(1)), Acquire(1)), 1);
      c.Returned? && c.now == Conn(1) && c.value == ReadOver(0)
  {
    var e1, e2, e3 := [Connect], [Connect, Begin(0)], [Connect, Begin(0), Acquire(0)];
    var e4 := [Connect, Begin(0), Acquire(0), Use(0)];
    var e5 := [Connect, Begin(0), Acquire(0), Use(0), Connect];
    assert e1[..0] == [] && e2[..1] == e1 && e3[..2] == e2 && e4[..3] == e3 && e5[..4] == e4;
    assert Run(e1) == World(1, Conn(0), {} + {0}, None, None, map[]);
    assert CallOf(Run(e2), 0) == Waiting(Conn(0), 1);
    assert CallOf(Run(e3), 0) == Reading(Conn(0), 1, None);
    assert CallOf(Run(e4), 0) == Reading(Conn(0), 1, Some(0));
    assert CallOf(Run(e5), 0) == Reading(Conn(0), 1, Some(0));
    assert Run(e5).published == Conn(1) && 1 in Run(e5).live;
  }

  // ------------------------------------------------------------ how long an answer is kept

  function RunFrom(w: World, fs: seq<Event>): World {
    if fs == [] then w else Step(RunFrom(w, fs[..|fs| - 1]), fs[|fs| - 1])
  }

  /** The connection stays up. */
  predicate Undisturbed(fs: seq<Event>, n: nat) {
    forall i :: 0 <= i < |fs| ==> !fs[i].Connect? && !fs[i].Disconnect? && fs[i] != Free(n)
  }

  /** No call under another token is waiting or reading. */
  predicate NoStrangers(w: World, now: Token) {
    forall id :: id in w.calls && (w.calls[id].Waiting? || w.calls[id].Reading?) ==> w.calls[id].now == now
  }

  /** The answer is in the slot, its connection is up, and nobody holds the lock or reads. */
  predicate Stored(w: World, n: nat, v: Value) {
    && w.published == Conn(n) && n in w.live
    && w.slot == Some((Conn(n), v))
    && w.lock.None?
    && forall id :: id in w.calls ==> !w.calls[id].Reading?
  }

  /** And nobody is around to replace it. */
  predicate Settled(w: World, n: nat, v: Value) {
    Stored(w, n, v) && NoStrangers(w, Conn(n))
  }

  lemma SettledStays(w: World, e: Event, n: nat, v: Value)
    requires Settled(w, n, v) && !e.Connect? && !e.Disconnect? && e != Free(n)
    ensures Settled(Step(w, e), n, v)
    ensures forall id :: CallOf(Step(w, e), id).Returned? ==>
      CallOf(w, id).Returned? || (CallOf(Step(w, e), id).value == v && !CallOf(Step(w, e), id).asked)
  {
  }

  /**
   As long as the connection stays up and no call under another token was under way, every
   call that returns from then on gets the answer kept, without asking.
   */
  lemma {:induction false} KeptWhileUp(w: World, n: nat, v: Value, fs: seq<Event>, id: nat)
    requires Settled(w, n, v) && Undisturbed(fs, n)
    ensures Settled(RunFrom(w, fs), n, v)
    ensures CallOf(RunFrom(w, fs), id).Returned? && !CallOf(w, id).Returned? ==>
      CallOf(RunFrom(w, fs), id).value == v && !CallOf(RunFrom(w, fs), id).asked
  {
    hide Step, Settled;
    if fs != [] {
      var m := |fs| - 1;
      KeptWhileUp(w, n, v, fs[..m], id);
      SettledStays(RunFrom(w, fs[..m]), fs[m], n, v);
      ReturnedOnce(w, fs[..m], id);
      ReturnedOnce(RunFrom(w, fs[..m]), [fs[m]], id);
      StepKeeps(RunFrom(w, fs[..m]), fs[m], id);
    }
  }

  /** A call returns once and for all. */
  lemma StepKeeps(w: World, e: Event, id: nat)
    ensures CallOf(w, id).Returned? ==> CallOf(Step(w, e), id) == CallOf(w, id)
  {
  }

  lemma {:induction false} ReturnedOnce(w: World, fs: seq<Event>, id: nat)
    ensures CallOf(w, id).Returned? ==> CallOf(RunFrom(w, fs), id) == CallOf(w, id)
  {
    hide Step;
    if fs != [] {
      ReturnedOnce(w, fs[..|fs| - 1], id);
      StepKeeps(RunFrom(w, fs[..|fs| - 1]), fs[|fs| - 1], id);
    }
  }

  /**
   The answer is kept: over every continuation in which the connection stays up, every call
   of this connection that returns gets it without asking.
   */
  ghost predicate Kept(w: World, n: nat, v: Value) {
    forall fs, id :: Undisturbed(fs, n) ==> Served(w, RunFrom(w, fs), n, v, id)
  }

  /** If this call returned between the two states, under the connection, it was with the kept answer. */
  predicate Served(w: World, z: World, n: nat, v: Value, id: nat) {
    CallOf(z, id).Returned? && !CallOf(w, id).Returned? && CallOf(z, id).now == Conn(n) ==>
      CallOf(z, id).value == v && !CallOf(z, id).asked
  }

  /**
   The exact condition on a stored answer: it is kept for as long as its connection stays
   up if and only if no call under another token is waiting when it is stored.
   */
  lemma KeptIff(w: World, n: nat, v: Value)
    requires Stored(w, n, v)
    ensures Kept(w, n, v) <==> NoStrangers(w, Conn(n))
  {
    hide RunFrom, Stored;
    if NoStrangers(w, Conn(n)) {
      forall fs, id | Undisturbed(fs, n)
        ensures Served(w, RunFrom(w, fs), n, v, id)
      {
        KeptWhileUp(w, n, v, fs, id);
      }
    } else {
      var id, fs := AnyStrangerEvicts(w, n, v);
      AskedIsNotKept(w, n, v, id, fs);
    }
  }

  /** An identity no call has used. */
  lemma Unused(w: World) returns (id: nat)
    ensures id !in w.calls
  {
    id := AboveAll(w.calls.Keys);
  }

  lemma {:induction false} AboveAll(ids: set<nat>) returns (top: nat)
    ensures forall id :: id in ids ==> id < top
  {
    if ids == {} {
      top := 0;
    } else {
      var id :| id in ids;
      var rest := AboveAll(ids - {id});
      top := if id < rest then rest else id + 1;
      assert forall x :: x in ids ==> x == id || x in ids - {id};
    }
  }

  /** Whoever waits under another token can take the lock and overwrite the answer; the next caller has to ask. */
  lemma AnyStrangerEvicts(w: World, n: nat, v: Value) returns (id: nat, fs: seq<Event>)
    requires Stored(w, n, v) && !NoStrangers(w, Conn(n))
    ensures Undisturbed(fs, n) && AsksAgain(w, RunFrom(w, fs), n, id)
  {
    hide RunFrom;
    var st :| st in w.calls && (w.calls[st].Waiting? || w.calls[st].Reading?) && w.calls[st].now != Conn(n);
    TwoSteps(w, Acquire(st), Fail(st));
    var w' := Step(Step(w, Acquire(st)), Fail(st));
    assert w'.slot == Some((w.calls[st].now, Fallback)) && w'.lock.None?;
    var more: seq<Event>;
    id, more := NextAsks(w', n);
    fs := [Acquire(st), Fail(st)] + more;
    RunFromConcat(w, [Acquire(st), Fail(st)], more);
  }

  /** The connection is still up, and a call made since has had to ask over it. */
  predicate AsksAgain(w: World, z: World, n: nat, id: nat) {
    && z.published == Conn(n) && n in z.live
    && CallOf(w, id).NotCalled?
    && CallOf(z, id).Returned? && CallOf(z, id).now == Conn(n) && CallOf(z, id).asked
  }

  /** With nothing stored for the connection, the next caller asks. */
  lemma NextAsks(w: World, n: nat) returns (id: nat, fs: seq<Event>)
    requires w.published == Conn(n) && n in w.live && w.lock.None?
    requires w.slot.Some? ==> w.slot.value.0 != Conn(n)
    ensures id !in w.calls
    ensures Undisturbed(fs, n) && AsksAgain(w, RunFrom(w, fs), n, id)
  {
    hide RunFrom;
    id := Unused(w);
    fs := [Begin(id), Acquire(id), Fail(id)];
    ThreeSteps(w, Begin(id), Acquire(id), Fail(id));
  }

  lemma RunFromOne(w: World, e: Event)
    ensures RunFrom(w, [e]) == Step(w, e)
  {
    hide Step;
    assert [e][..0] == [];
    assert RunFrom(w, []) == w;
  }

  lemma TwoSteps(w: World, d: Event, e: Event)
    ensures RunFrom(w, [d, e]) == Step(Step(w, d), e)
  {
    hide Step, RunFrom;
    RunFromOne(w, d);
    RunFromOne(Step(w, d), e);
    RunFromConcat(w, [d], [e]);
    assert [d] + [e] == [d, e];
  }

  lemma ThreeSteps(w: World, d: Event, e: Event, f: Event)
    ensures RunFrom(w, [d, e, f]) == Step(Step(Step(w, d), e), f)
  {
    hide Step, RunFrom;
    TwoSteps(w, d, e);
    RunFromOne(Step(Step(w, d), e), f);
    RunFromConcat(w, [d, e], [f]);
    assert [d, e] + [f] == [d, e, f];
  }

  lemma {:induction false} RunFromConcat(w: World, fs: seq<Event>, gs: seq<Event>)
    ensures RunFrom(w, fs + gs) == RunFrom(RunFrom(w, fs), gs)
  {
    hide Step;
    if gs == [] {
      assert fs + gs == fs;
    } else {
      assert (fs + gs)[..|fs + gs| - 1] == fs + gs[..|gs| - 1];
      RunFromConcat(w, fs, gs[..|gs| - 1]);
    }
  }

  /** A read ends, in an answer or a failure, while a connection is up. */
  predicate Ends(w: World, reader: nat, e: Event) {
    && CallOf(w, reader).Reading?
    && w.published.Conn? && w.published.n in w.live
    && (e == Fail(reader) || (e == Finish(reader) && CallOf(w, reader).over.Some?))
  }

  function AnswerOf(w: World, reader: nat, e: Event): Value
    requires Ends(w, reader, e)
  {
    if e.Fail? then Fallback else ReadOver(CallOf(w, reader).over.value)
  }

  lemma ReadStores(w: World, reader: nat, e: Event)
    requires Sound(w) && Ends(w, reader, e)
    ensures CallOf(w, reader).now == w.published ==> Stored(Step(w, e), w.published.n, AnswerOf(w, reader, e))
    ensures CallOf(w, reader).now == w.published ==>
      (NoStrangers(Step(w, e), w.published) <==> NoStrangers(w, w.published))
  {
    var w' := Step(w, e);
    assert CallSound(w, reader, w.calls[reader]);
    forall id | id in w'.calls
      ensures !w'.calls[id].Reading?
    {
      if id != reader {
        assert CallSound(w, id, w.calls[id]);
      }
    }
    assert forall id :: id in w.calls && id != reader ==> w'.calls[id] == w.calls[id];
  }

  /**
   Over every run: what a read ends in is reused for as long as the connection that is up
   then lasts if and only if, when it ended, neither the reading call nor any waiting one
   had begun under another token.
   */
  lemma AnswerIsKeptIff(es: seq<Event>, reader: nat, e: Event)
    requires Ends(Run(es), reader, e)
    ensures var w := Run(es);
      Kept(Step(w, e), w.published.n, AnswerOf(w, reader, e)) <==> NoStrangers(w, w.published)
  {
    hide Run, Kept, Stored;
    EveryRunSound(es);
    var w := Run(es);
    ReadStores(w, reader, e);
    if CallOf(w, reader).now == w.published {
      KeptIff(Step(w, e), w.published.n, AnswerOf(w, reader, e));
    } else {
      var id, fs := NextAsks(Step(w, e), w.published.n);
      AskedIsNotKept(Step(w, e), w.published.n, AnswerOf(w, reader, e), id, fs);
    }
  }

  lemma AskedIsNotKept(w: World, n: nat, v: Value, id: nat, fs: seq<Event>)
    requires Undisturbed(fs, n) && AsksAgain(w, RunFrom(w, fs), n, id)
    ensures !Kept(w, n, v)
  {
    hide RunFrom;
    assert !Served(w, RunFrom(w, fs), n, v, id);
  }

  /** A failed read is kept like any other, and under the same condition: nobody asks the camera again. */
  lemma FailureIsKept(es: seq<Event>, reader: nat)
    requires CallOf(Run(es), reader).Reading?
    requires Run(es).published.Conn? && Run(es).published.n in Run(es).live
    ensures var w := Run(es);
      Kept(Step(w, Fail(reader)), w.published.n, Fallback) <==> NoStrangers(w, w.published)
  {
    hide Run, Kept, NoStrangers, Step;
    AnswerIsKeptIff(es, reader, Fail(reader));
  }

  /**
   Such a run from the start: a call that began while the camera was disconnected waits,
   overwrites the answer under its null token, and the next caller has to ask again though
   the connection never went away.
   */
  lemma StrangerEvicts()
    ensures var w := Run([Begin(5), Connect, Begin(0), Acquire(0), Fail(0), Acquire(5), Use(5), Finish(5), Begin(6),
                          Acquire(6)]);
      && w.published == Conn(0) && 0 in w.live
      && CallOf(w, 0) == Returned(Fallback, Conn(0), 1, true)
      && CallOf(w, 6) == Reading(Conn(0), 1, None)
  {
    hide Run, Step;
    var e3 := [Begin(5), Connect, Begin(0)];
    var e5 := e3 + [Acquire(0)] + [Fail(0)];
    var e8 := e5 + [Acquire(5)] + [Use(5)] + [Finish(5)];
    Runs([], Begin(5));
    Runs([Begin(5)], Connect);
    Runs([Begin(5), Connect], Begin(0));
    Runs(e3, Acquire(0));
    Runs(e3 + [Acquire(0)], Fail(0));
    Runs(e5, Acquire(5));
    Runs(e5 + [Acquire(5)], Use(5));
    Runs(e5 + [Acquire(5)] + [Use(5)], Finish(5));
    Runs(e8, Begin(6));
    Runs(e8 + [Begin(6)], Acquire(6));
    assert [] + [Begin(5)] == [Begin(5)] && [Begin(5)] + [Connect] == [Begin(5), Connect];
    assert [Begin(5), Connect] + [Begin(0)] == e3;
    assert e8 + [Begin(6)] + [Acquire(6)]
        == [Begin(5), Connect, Begin(0), Acquire(0), Fail(0), Acquire(5), Use(5), Finish(5), Begin(6), Acquire(6)];
    StrangerWaits();
    StrangerStores(Run(e5));
  }

  /** It has begun before the camera was connected, and waits while the first answer is stored. */
  predicate Waits(w: World) {
    && w.published == Conn(0) && w.live == {0} && w.made == 1
    && w.slot == Some((Conn(0), Fallback)) && w.lock.None?
    && CallOf(w, 0) == Returned(Fallback, Conn(0), 1, true)
    && CallOf(w, 5) == Waiting(Null, 0)
    && CallOf(w, 6).NotCalled?
  }

  lemma StrangerWaits()
    ensures Waits(Step(Step(Step(Step(Step(START, Begin(5)), Connect), Begin(0)), Acquire(0)), Fail(0)))
  {
  }

  lemma StrangerStores(w: World)
    requires Waits(w)
    ensures var z := Step(Step(Step(Step(Step(w, Acquire(5)), Use(5)), Finish(5)), Begin(6)), Acquire(6));
      && z.published == Conn(0) && 0 in z.live
      && CallOf(z, 0) == Returned(Fallback, Conn(0), 1, true)
      && CallOf(z, 6) == Reading(Conn(0), 1, None)
  {
  }

  lemma Runs(es: seq<Event>, e: Event)
    ensures Run(es + [e]) == Step(Run(es), e)
    ensures Run([]) == START
  {
    hide Step;
    assert (es + [e])[..|es|] == es;
  }
}
