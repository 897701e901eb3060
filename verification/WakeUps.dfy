/**
 Wake-ups: the two places the fanout parks a task, over every interleaving of the
 steps in between. Appending to a queue and waking its reader are separate steps, and
 so are joining the consumer list and announcing it.

 `Notify` is modelled by what it keeps: for `notify_one` a stored permit and the parked
 task, for `notify_waiters` a generation that a future remembers from its creation.
 */
module WakeUps {
  import opened Wrappers
  import opened Fanout

  // ------------------------------------------------------------ Consumer::next

  /**
   Where the one task reading a consumer is. `Looking` has made its future and not yet
   looked at the queue; `Empty` has found it empty and open; `Woken` was parked and has
   been notified, but has not run yet.
   */
  datatype Phase = Away | Looking | Empty | Parked | Woken

  /** `pending` counts the wake-ups still owed: queue already changed, `notify_one` to come. */
  datatype Reader = Reader(queue: Queue, phase: Phase, permit: bool, pending: nat, returned: nat)

  datatype Action =
    | Push(limit: Option<nat>, chunk: Chunk)
    | CloseQueue
    | Notify
    | Own
    | Cancel

  /** Whether a push appends, and so owes a wake-up. */
  predicate Appends(q: Queue, limit: Option<nat>, c: Chunk) {
    !Skips(q, c) && (Overruns(q, limit, c) ==> c.resyncPoint)
  }

  /** The reading task's next step on its own. */
  function OwnStep(r: Reader): Reader {
    match r.phase
    case Away => r.(phase := Looking)
    case Looking =>
      if r.queue.chunks != [] then r.(queue := PopQueue(r.queue), phase := Away, returned := r.returned + 1)
      else if r.queue.closed then r.(phase := Away, returned := r.returned + 1)
      else r.(phase := Empty)
    case Empty => if r.permit then r.(phase := Looking, permit := false) else r.(phase := Parked)
    case Parked => r
    case Woken => r.(phase := Looking)
  }

  function After(r: Reader, a: Action): Reader {
    match a
    case Push(limit, c) =>
      if r.queue.closed then r
      else r.(queue := PushQueue(r.queue, limit, c), pending := r.pending + if Appends(r.queue, limit, c) then 1 else 0)
    case CloseQueue => r.(queue := r.queue.(closed := true), pending := r.pending + 1)
    case Notify =>
      if r.pending == 0 then r
      else if r.phase.Parked? then r.(pending := r.pending - 1, phase := Woken)
      else r.(pending := r.pending - 1, permit := true)
    case Own => OwnStep(r)
    // A future dropped after being notified passes its notification on.
    case Cancel => r.(phase := Away, permit := r.permit || r.phase.Woken?)
  }

  function RunReader(q: Queue, actions: seq<Action>): Reader {
    if actions == [] then Reader(q, Away, false, 0, 0)
    else After(RunReader(q, actions[..|actions| - 1]), actions[|actions| - 1])
  }

  predicate NothingToRead(q: Queue) {
    q.chunks == [] && !q.closed
  }

  predicate NothingMissed(r: Reader) {
    && (r.phase.Parked? ==> !r.permit && (NothingToRead(r.queue) || r.pending > 0))
    && (r.phase.Empty? ==> NothingToRead(r.queue) || r.permit || r.pending > 0)
  }

  lemma NothingMissedStep(r: Reader, a: Action)
    requires NothingMissed(r)
    ensures NothingMissed(After(r, a))
  {
    if a.Push? && !r.queue.closed && !Appends(r.queue, a.limit, a.chunk) {
      DiscardOnly(r.queue, a.limit, a.chunk);
    }
  }

  /** A push that owes no wake-up leaves nothing new to read. */
  lemma DiscardOnly(q: Queue, limit: Option<nat>, c: Chunk)
    requires !Appends(q, limit, c)
    ensures var q' := PushQueue(q, limit, c);
      q'.closed == q.closed && (q'.chunks == q.chunks || q'.chunks == [])
  {
  }

  /**
   No lost wake-up: in every reachable interleaving, a reader parked in `next` has an
   empty, open queue or a wake-up still on its way.
   */
  lemma {:induction false} NoLostWakeUp(q: Queue, actions: seq<Action>)
    ensures NothingMissed(RunReader(q, actions))
  {
    if actions != [] {
      NoLostWakeUp(q, actions[..|actions| - 1]);
      NothingMissedStep(RunReader(q, actions[..|actions| - 1]), actions[|actions| - 1]);
    }
  }

  /**
   So once no wake-up is owed, a reader with something to read gets it within three of
   its own steps, wherever it was.
   */
  lemma ReadsWithinThree(q: Queue, actions: seq<Action>)
    requires RunReader(q, actions).pending == 0 && !NothingToRead(RunReader(q, actions).queue)
    ensures var r := RunReader(q, actions);
      || OwnStep(r).returned == r.returned + 1
      || OwnStep(OwnStep(r)).returned == r.returned + 1
      || OwnStep(OwnStep(OwnStep(r))).returned == r.returned + 1
  {
    NoLostWakeUp(q, actions);
  }

  /**
   The notification must come after the change: woken first and changed after, a reader
   parks beside a chunk with no wake-up left.
   */
  lemma NotifyFirstLoses(c: Chunk)
    ensures var parked := Reader(Queue([], false, 0, false, 0), Parked, false, 1, 0);
      var early := OwnStep(OwnStep(OwnStep(After(parked, Notify))));
      var late := early.(queue := PushQueue(early.queue, None, c));
      late.phase.Parked? && late.pending == 0 && !late.permit && late.queue.chunks == [c] && !NothingMissed(late)
  {
  }

  // ------------------------------------------------------------ Fanout::wait_for_consumer

  /**
   One task waiting for a consumer. `generation` is what its future remembers, `joins`
   how many consumers had joined when it registered, `found` when it looked.
   */
  datatype Waiter =
    | NotWaiting
    | Registered(generation: nat, joins: nat)
    | FoundNone(generation: nat, joins: nat, found: nat)
    | Sleeping(generation: nat, joins: nat, found: nat)
    | Roused

  /** `attached` is how many are listed now, `joins` how many ever joined, `owed` the announcements to come. */
  datatype Lobby = Lobby(attached: nat, joins: nat, owed: nat, generation: nat, waiters: map<nat, Waiter>)

  const EMPTY_LOBBY: Lobby := Lobby(0, 0, 0, 0, map[])

  datatype Move = Join | Announce | Leave | DrainList | Advance(id: nat) | GiveUp(id: nat)

  function Waiting(l: Lobby, id: nat): Waiter {
    if id in l.waiters then l.waiters[id] else NotWaiting
  }

  /** A waiting task's next step on its own. */
  function WaiterStep(l: Lobby, w: Waiter): Waiter {
    match w
    case NotWaiting => Registered(l.generation, l.joins)
    case Registered(g, j) => if l.attached > 0 then NotWaiting else FoundNone(g, j, l.joins)
    case FoundNone(g, j, f) => if g != l.generation then Registered(l.generation, l.joins) else Sleeping(g, j, f)
    case Sleeping(_, _, _) => w
    case Roused => Registered(l.generation, l.joins)
  }

  function Rouse(w: Waiter): Waiter {
    if w.Sleeping? then Roused else w
  }

  function Moved(l: Lobby, m: Move): Lobby {
    match m
    case Join => l.(attached := l.attached + 1, joins := l.joins + 1, owed := l.owed + 1)
    case Announce =>
      if l.owed == 0 then l
      else l.(owed := l.owed - 1, generation := l.generation + 1,
              waiters := map id | id in l.waiters :: Rouse(l.waiters[id]))
    case Leave => if l.attached == 0 then l else l.(attached := l.attached - 1)
    case DrainList => l.(attached := 0)
    case Advance(id) => l.(waiters := l.waiters[id := WaiterStep(l, Waiting(l, id))])
    case GiveUp(id) => l.(waiters := l.waiters[id := NotWaiting])
  }

  function RunLobby(moves: seq<Move>): Lobby {
    if moves == [] then EMPTY_LOBBY else Moved(RunLobby(moves[..|moves| - 1]), moves[|moves| - 1])
  }

  /** What a waiter that has looked, and not been outdated, can still be missing: only unannounced joins. */
  predicate WaiterSound(l: Lobby, w: Waiter) {
    match w
    case NotWaiting => true
    case Roused => true
    case Registered(g, j) => Current(l, g, j)
    case FoundNone(g, j, f) => Current(l, g, j) && Looked(l, g, j, f)
    case Sleeping(g, j, f) => g == l.generation && Current(l, g, j) && Looked(l, g, j, f)
  }

  predicate Current(l: Lobby, g: nat, j: nat) {
    g <= l.generation && j <= l.joins && (g == l.generation ==> l.joins - j <= l.owed)
  }

  predicate Looked(l: Lobby, g: nat, j: nat, f: nat) {
    && j <= f <= l.joins
    && l.attached <= l.joins - f
    && (g == l.generation ==> l.joins - f <= l.owed)
  }

  ghost predicate LobbySound(l: Lobby) {
    l.joins == l.generation + l.owed && forall id :: id in l.waiters ==> WaiterSound(l, l.waiters[id])
  }

  /** A waiter that does not move itself, through every change of the counts. */
  lemma OthersStay(l: Lobby, m: Move, w: Waiter)
    requires l.joins == l.generation + l.owed && WaiterSound(l, w)
    requires m.Join? || m.Leave? || m.DrainList?
    ensures WaiterSound(Moved(l, m), w)
  {
  }

  lemma AnnounceStays(l: Lobby, w: Waiter)
    requires l.joins == l.generation + l.owed && WaiterSound(l, w) && l.owed > 0
    ensures WaiterSound(l.(owed := l.owed - 1, generation := l.generation + 1), Rouse(w))
  {
  }

  /** Who else is waiting does not bear on a waiter. */
  lemma SameCounts(l: Lobby, k: Lobby, w: Waiter)
    requires l.attached == k.attached && l.joins == k.joins && l.owed == k.owed && l.generation == k.generation
    ensures WaiterSound(l, w) == WaiterSound(k, w)
  {
  }

  lemma WaiterStays(l: Lobby, m: Move, id: nat)
    requires LobbySound(l)
    ensures WaiterSound(Moved(l, m), Waiting(Moved(l, m), id))
  {
    var w := Waiting(l, id);
    assert WaiterSound(l, w);
    hide WaiterSound, WaiterStep;
    var k := Moved(l, m);
    if m.Join? || m.Leave? || m.DrainList? {
      OthersStay(l, m, w);
    } else if m.Announce? {
      if l.owed > 0 {
        AnnounceStays(l, w);
        SameCounts(l.(owed := l.owed - 1, generation := l.generation + 1), k, Rouse(w));
      }
    } else if m.id == id {
      AdvanceStays(l, w);
      SameCounts(l, k, Waiting(k, id));
      NotWaitingIsSound(k);
    } else {
      SameCounts(l, k, w);
    }
  }

  lemma NotWaitingIsSound(l: Lobby)
    ensures WaiterSound(l, NotWaiting)
  {
  }

  lemma AdvanceStays(l: Lobby, w: Waiter)
    requires l.joins == l.generation + l.owed && WaiterSound(l, w)
    ensures WaiterSound(l, WaiterStep(l, w))
  {
  }

  lemma LobbyStep(l: Lobby, m: Move)
    requires LobbySound(l)
    ensures LobbySound(Moved(l, m))
  {
    hide WaiterSound;
    forall id | id in Moved(l, m).waiters
      ensures WaiterSound(Moved(l, m), Moved(l, m).waiters[id])
    {
      WaiterStays(l, m, id);
    }
  }

  lemma {:induction false} LobbyAlwaysSound(moves: seq<Move>)
    ensures LobbySound(RunLobby(moves))
  {
    if moves != [] {
      LobbyAlwaysSound(moves[..|moves| - 1]);
      LobbyStep(RunLobby(moves[..|moves| - 1]), moves[|moves| - 1]);
    }
  }

  /**
   A task asleep in `wait_for_consumer` has missed nobody: every consumer that joined
   since it registered, and every one attached now, has its announcement still to come.
   With none owed, nobody has attached since it registered and nobody is attached.
   */
  lemma SleepingMissedNobody(moves: seq<Move>, id: nat)
    requires Waiting(RunLobby(moves), id).Sleeping?
    ensures var l := RunLobby(moves);
      var w := Waiting(l, id);
      && 0 <= l.joins - w.joins <= l.owed
      && l.attached <= l.owed
      && (l.owed == 0 ==> l.joins == w.joins && l.attached == 0)
  {
    LobbyAlwaysSound(moves);
  }

  /** With every announcement made, an attached consumer is noticed by every waiter within two of its own steps. */
  lemma AttachedIsNoticed(moves: seq<Move>, id: nat)
    requires RunLobby(moves).owed == 0 && RunLobby(moves).attached > 0
    ensures !Waiting(RunLobby(moves), id).Sleeping?
    ensures var l := RunLobby(moves);
      var w := Waiting(l, id);
      w.FoundNone? || w.Roused? ==> WaiterStep(l, WaiterStep(l, w)).NotWaiting?
    ensures var l := RunLobby(moves);
      var w := Waiting(l, id);
      w.Registered? ==> WaiterStep(l, w).NotWaiting?
  {
    LobbyAlwaysSound(moves);
  }
}
