/**
 The use counter: permits announce themselves on a bounded channel, one task counts.
 First the pieces as they run in place, then every interleaving of any number of
 permits, with the message of a dropped permit sent later by a task of its own.
 */
module UseCounter {
  import opened Wrappers

  const CHANNEL_CAPACITY: nat := 100

  // ------------------------------------------------------------ in place

  /** Ups minus downs. */
  function Balance(msgs: seq<bool>): int {
    if msgs == [] then 0 else Balance(msgs[..|msgs| - 1]) + Delta(msgs[|msgs| - 1])
  }

  function Delta(up: bool): int {
    if up then 1 else -1
  }

  /** No prefix takes more down than it put up. */
  predicate NeverNegative(msgs: seq<bool>) {
    forall k :: 0 <= k <= |msgs| ==> Balance(msgs[..k]) >= 0
  }

  /** The counting loop. The count is unsigned: the decrement is only defined above zero. */
  method CountUsers(msgs: seq<bool>) returns (value: nat)
    requires NeverNegative(msgs)
    ensures value == Balance(msgs)
  {
    value := 0;
    for i := 0 to |msgs|
      invariant value == Balance(msgs[..i])
    {
      assert msgs[..i + 1][..i] == msgs[..i];
      assert Balance(msgs[..i + 1]) >= 0;
      if msgs[i] {
        value := value + 1;
      } else {
        value := value - 1;
      }
    }
    assert msgs[..|msgs|] == msgs;
  }

  class Notifier {
    var sent: seq<bool>

    constructor ()
      ensures sent == []
    {
      sent := [];
    }

    method Send(up: bool)
      modifies this
      ensures sent == old(sent) + [up]
    {
      sent := sent + [up];
    }
  }

  /** A permit on its own: what it has sent alternates and ends in what it is. */
  class Permit {
    var isActive: bool
    const notifier: Notifier

    constructor (notifier: Notifier)
      ensures this.notifier == notifier && !isActive
    {
      this.notifier := notifier;
      isActive := false;
    }

    /** The messages turn it from `was` into what it is now, one change each. */
    ghost predicate Explains(was: bool, msgs: seq<bool>)
      reads this
    {
      Alternates(was, msgs, isActive)
    }

    method Activate()
      modifies this, notifier
      ensures isActive
      ensures notifier.sent == old(notifier.sent) + if old(isActive) then [] else [true]
      ensures forall was, msgs :: old(Explains(was, msgs)) ==>
        Explains(was, msgs + if old(isActive) then [] else [true])
    {
      Extends(isActive, true);
      if !isActive {
        isActive := true;
        notifier.Send(isActive);
      }
    }

    method Deactivate()
      modifies this, notifier
      ensures !isActive
      ensures notifier.sent == old(notifier.sent) + if old(isActive) then [false] else []
      ensures forall was, msgs :: old(Explains(was, msgs)) ==>
        Explains(was, msgs + if old(isActive) then [false] else [])
    {
      Extends(isActive, false);
      if isActive {
        isActive := false;
        notifier.Send(isActive);
      }
    }

    /** Dropping an active permit spawns a task; the message it will send is returned here. */
    method Drop() returns (spawned: Option<bool>)
      modifies this
      ensures !isActive
      ensures spawned == if old(isActive) then Some(false) else None
      ensures forall was, msgs :: old(Explains(was, msgs)) ==>
        Explains(was, msgs + if spawned.Some? then [spawned.value] else [])
    {
      Extends(isActive, false);
      spawned := None;
      if isActive {
        isActive := false;
        spawned := Some(isActive);
      }
    }
  }

  /** `msgs` turn `was` into `now`, each one a change. */
  predicate Alternates(was: bool, msgs: seq<bool>, now: bool)
    decreases |msgs|
  {
    if msgs == [] then was == now else msgs[0] == !was && Alternates(msgs[0], msgs[1..], now)
  }

  lemma {:induction false} AlternatesSnoc(was: bool, msgs: seq<bool>, now: bool)
    requires Alternates(was, msgs, now)
    ensures Alternates(was, msgs + [!now], !now)
    decreases |msgs|
  {
    if msgs == [] {
      assert [!now][1..] == [];
    } else {
      AlternatesSnoc(msgs[0], msgs[1..], now);
      assert (msgs + [!now])[1..] == msgs[1..] + [!now];
    }
  }

  lemma Extends(now: bool, next: bool)
    ensures forall was, msgs :: Alternates(was, msgs, now) ==>
      Alternates(was, msgs + if now == next then [] else [next], next)
  {
    forall was, msgs | Alternates(was, msgs, now)
      ensures Alternates(was, msgs + if now == next then [] else [next], next)
    {
      if now != next {
        AlternatesSnoc(was, msgs, now);
      } else {
        assert msgs + [] == msgs;
      }
    }
  }

  // ------------------------------------------------------------ every interleaving

  /**
   `inFlight` is a message decided but not yet in the channel: by an `activate` or
   `deactivate` still waiting for room, or by the sender a drop spawned. `counted` is the
   last message of this permit the counter has processed. `cancelledUps` and
   `cancelledDowns` count the calls that were dropped after marking their permit and before
   sending.
   */
  datatype Holder = Holder(active: bool, inFlight: Option<bool>, dropped: bool, counted: bool)

  datatype World = World(
    holders: map<nat, Holder>,
    channel: seq<(nat, bool)>,
    value: int,
    processed: seq<bool>,
    running: bool,
    cancelledUps: nat,
    cancelledDowns: nat)

  const EMPTY: World := World(map[], [], 0, [], true, 0, 0)

  datatype Event =
    | Create(id: nat)
    | Activate(id: nat)
    | Deactivate(id: nat)
    | Drop(id: nat)
    | Send(id: nat)
    | Cancel(id: nat)
    | Process
    | Shutdown

  /** A permit nobody is in the middle of a call on. */
  predicate Idle(w: World, id: nat) {
    id in w.holders && w.holders[id].inFlight.None? && !w.holders[id].dropped
  }

  function Turn(h: Holder, on: bool): Holder {
    if h.active == on then h else h.(active := on, inFlight := Some(on))
  }

  function Step(w: World, e: Event): World {
    match e
    case Create(id) => if id in w.holders then w else w.(holders := w.holders[id := Holder(false, None, false, false)])
    case Activate(id) => if Idle(w, id) then w.(holders := w.holders[id := Turn(w.holders[id], true)]) else w
    case Deactivate(id) => if Idle(w, id) then w.(holders := w.holders[id := Turn(w.holders[id], false)]) else w
    case Drop(id) =>
      if Idle(w, id) then w.(holders := w.holders[id := Turn(w.holders[id], false).(dropped := true)]) else w
    case Send(id) =>
      if id !in w.holders || w.holders[id].inFlight.None? || (w.running && |w.channel| >= CHANNEL_CAPACITY) then w
      else
        var landed := w.(holders := w.holders[id := w.holders[id].(inFlight := None)]);
        if w.running then landed.(channel := w.channel + [(id, w.holders[id].inFlight.value)]) else landed
    case Cancel(id) =>
      // A call dropped in the middle; the sender of a dropped permit cannot be.
      if id !in w.holders || w.holders[id].inFlight.None? || w.holders[id].dropped then w
      else
        var lost := w.(holders := w.holders[id := w.holders[id].(inFlight := None)]);
        if w.holders[id].inFlight.value then lost.(cancelledUps := w.cancelledUps + 1)
        else lost.(cancelledDowns := w.cancelledDowns + 1)
    case Process =>
      if !w.running || w.channel == [] || w.channel[0].0 !in w.holders then w
      else
        var (id, up) := w.channel[0];
        w.(channel := w.channel[1..], value := w.value + Delta(up), processed := w.processed + [up],
           holders := w.holders[id := w.holders[id].(counted := up)])
    case Shutdown => w.(running := false, channel := [])
  }

  function Run(es: seq<Event>): World {
    if es == [] then EMPTY else Step(Run(es[..|es| - 1]), es[|es| - 1])
  }

  /** One permit's messages in the channel, in order. */
  function Of(channel: seq<(nat, bool)>, id: nat): seq<bool> {
    if channel == [] then []
    else (if channel[0].0 == id then [channel[0].1] else []) + Of(channel[1..], id)
  }

  lemma {:induction false} OfSnoc(channel: seq<(nat, bool)>, m: (nat, bool), id: nat)
    ensures Of(channel + [m], id) == Of(channel, id) + if m.0 == id then [m.1] else []
  {
    if channel == [] {
      assert [m][1..] == [];
    } else {
      OfSnoc(channel[1..], m, id);
      assert (channel + [m])[1..] == channel[1..] + [m];
    }
  }

  /** Everything a permit has decided that is not counted yet, oldest first. */
  function Uncounted(h: Holder, channel: seq<(nat, bool)>, id: nat): seq<bool> {
    Of(channel, id) + if h.inFlight.Some? then [h.inFlight.value] else []
  }

  predicate InOrder(h: Holder, channel: seq<(nat, bool)>, id: nat) {
    Alternates(h.counted, Uncounted(h, channel, id), h.active)
  }

  ghost predicate Known(w: World) {
    forall k :: 0 <= k < |w.channel| ==> w.channel[k].0 in w.holders
  }

  ghost predicate AllInOrder(w: World) {
    forall id :: id in w.holders ==> InOrder(w.holders[id], w.channel, id)
  }

  function Up(w: World): set<nat> {
    set id | id in w.holders && w.holders[id].counted
  }

  function Active(w: World): set<nat> {
    set id | id in w.holders && w.holders[id].active
  }

  /** Every `activate` and `deactivate` so far ran to completion. */
  predicate Complete(w: World) {
    w.cancelledUps == 0 && w.cancelledDowns == 0
  }

  ghost predicate Exact(w: World) {
    && Known(w)
    && (w.running ==> AllInOrder(w))
    && (forall id :: id !in w.holders ==> Of(w.channel, id) == [])
    && w.value == |Up(w)|
    && w.value == Balance(w.processed)
  }

  ghost predicate Sound(w: World) {
    Complete(w) ==> Exact(w)
  }

  // ------------------------------------------------------------ one step

  lemma TurnInOrder(h: Holder, channel: seq<(nat, bool)>, id: nat, on: bool)
    requires h.inFlight.None? && InOrder(h, channel, id)
    ensures InOrder(Turn(h, on), channel, id)
  {
    assert Of(channel, id) + [] == Of(channel, id);
    if h.active != on {
      AlternatesSnoc(h.counted, Of(channel, id), h.active);
    }
  }

  lemma SendInOrder(w: World, id: nat, other: nat)
    requires id in w.holders && w.holders[id].inFlight.Some?
    requires other in w.holders && InOrder(w.holders[other], w.channel, other)
    ensures var channel := w.channel + [(id, w.holders[id].inFlight.value)];
      InOrder(if other == id then w.holders[id].(inFlight := None) else w.holders[other], channel, other)
  {
    var m := (id, w.holders[id].inFlight.value);
    OfSnoc(w.channel, m, other);
    assert Of(w.channel + [m], other) + [] == Of(w.channel + [m], other);
    assert Of(w.channel, other) + [] == Of(w.channel, other);
  }

  lemma ProcessInOrder(h: Holder, channel: seq<(nat, bool)>, id: nat)
    requires channel != [] && InOrder(h, channel, id)
    ensures channel[0].0 == id ==> channel[0].1 == !h.counted
    ensures InOrder(if channel[0].0 == id then h.(counted := channel[0].1) else h, channel[1..], id)
  {
    hide Of;
    OfFirst(channel, id);
    var rest := if h.inFlight.Some? then [h.inFlight.value] else [];
    if channel[0].0 == id {
      var msgs := Uncounted(h, channel, id);
      assert msgs[0] == channel[0].1;
      assert msgs[1..] == Of(channel[1..], id) + rest;
    }
  }

  lemma OfFirst(channel: seq<(nat, bool)>, id: nat)
    requires channel != []
    ensures Of(channel, id)
         == if channel[0].0 == id then [channel[0].1] + Of(channel[1..], id) else Of(channel[1..], id)
  {
    assert [] + Of(channel[1..], id) == Of(channel[1..], id);
  }

  lemma HoldersUpdated(w: World, id: nat, h: Holder)
    requires id in w.holders && h.counted == w.holders[id].counted
    ensures Up(w.(holders := w.holders[id := h])) == Up(w)
  {
  }

  lemma CountTurns(w: World, id: nat, up: bool)
    requires id in w.holders && w.holders[id].counted == !up
    ensures var w' := w.(holders := w.holders[id := w.holders[id].(counted := up)]);
      |Up(w')| == |Up(w)| + Delta(up)
  {
    var w' := w.(holders := w.holders[id := w.holders[id].(counted := up)]);
    if up {
      assert Up(w') == Up(w) + {id};
    } else {
      assert Up(w') == Up(w) - {id};
      assert id in Up(w);
    }
  }

  lemma BalanceSnoc(msgs: seq<bool>, up: bool)
    ensures Balance(msgs + [up]) == Balance(msgs) + Delta(up)
    ensures NeverNegative(msgs) && Balance(msgs) + Delta(up) >= 0 ==> NeverNegative(msgs + [up])
  {
    assert (msgs + [up])[..|msgs|] == msgs;
    if NeverNegative(msgs) && Balance(msgs) + Delta(up) >= 0 {
      forall k | 0 <= k <= |msgs| + 1
        ensures Balance((msgs + [up])[..k]) >= 0
      {
        if k <= |msgs| {
          assert (msgs + [up])[..k] == msgs[..k];
        } else {
          assert (msgs + [up])[..k] == msgs + [up];
        }
      }
    }
  }

  lemma TurnExact(w: World, id: nat, on: bool, dropped: bool)
    requires Exact(w) && Idle(w, id)
    ensures Exact(w.(holders := w.holders[id := Turn(w.holders[id], on).(dropped := dropped)]))
  {
    var h := Turn(w.holders[id], on).(dropped := dropped);
    var w' := w.(holders := w.holders[id := h]);
    HoldersUpdated(w, id, h);
    if w.running {
      assert InOrder(w.holders[id], w.channel, id);
      TurnInOrder(w.holders[id], w.channel, id, on);
      assert InOrder(h, w.channel, id);
    }
  }

  lemma CreateExact(w: World, id: nat)
    requires Exact(w) && id !in w.holders
    ensures Exact(Step(w, Create(id)))
  {
    var w' := Step(w, Create(id));
    assert Up(w') == Up(w);
    assert InOrder(w'.holders[id], w'.channel, id);
  }

  lemma SendExact(w: World, id: nat)
    requires Exact(w)
    ensures Exact(Step(w, Send(id)))
  {
    var w' := Step(w, Send(id));
    if w' != w {
      HoldersUpdated(w, id, w.holders[id].(inFlight := None));
      assert Up(w') == Up(w);
      if w.running {
        forall other | other in w'.holders
          ensures InOrder(w'.holders[other], w'.channel, other)
        {
          SendInOrder(w, id, other);
        }
        forall other | other !in w'.holders
          ensures Of(w'.channel, other) == []
        {
          OfSnoc(w.channel, (id, w.holders[id].inFlight.value), other);
        }
      }
    }
  }

  lemma ProcessExact(w: World)
    requires Exact(w) && w.running && w.channel != []
    ensures Exact(Step(w, Process))
    ensures w.channel[0].1 || w.value > 0
  {
    var w' := Step(w, Process);
    var (id, up) := w.channel[0];
    assert InOrder(w.holders[id], w.channel, id);
    ProcessInOrder(w.holders[id], w.channel, id);
    CountTurns(w, id, up);
    assert Up(w') == Up(w.(holders := w'.holders));
    BalanceSnoc(w.processed, up);
    forall other | other in w'.holders
      ensures InOrder(w'.holders[other], w'.channel, other)
    {
      assert InOrder(w.holders[other], w.channel, other);
      ProcessInOrder(w.holders[other], w.channel, other);
    }
    forall other | other !in w'.holders
      ensures Of(w'.channel, other) == []
    {
      assert Of(w.channel, other) == [];
    }
  }

  lemma StepSound(w: World, e: Event)
    requires Sound(w)
    ensures Sound(Step(w, e))
  {
    hide Exact;
    if Complete(Step(w, e)) {
      match e {
        case Create(id) =>
          if id !in w.holders {
            CreateExact(w, id);
          }
        case Activate(id) =>
          if Idle(w, id) {
            TurnExact(w, id, true, false);
          }
        case Deactivate(id) =>
          if Idle(w, id) {
            TurnExact(w, id, false, false);
          }
        case Drop(id) =>
          if Idle(w, id) {
            TurnExact(w, id, false, true);
          }
        case Send(id) => SendExact(w, id);
        case Cancel(_) =>
        case Process =>
          if w.running && w.channel != [] {
            ProcessExact(w);
          }
        case Shutdown => ShutdownExact(w);
      }
    }
  }

  lemma ShutdownExact(w: World)
    requires Exact(w)
    ensures Exact(Step(w, Shutdown))
  {
    assert Up(Step(w, Shutdown)) == Up(w);
  }

  lemma {:induction false} EveryRunSound(es: seq<Event>)
    ensures Sound(Run(es))
  {
    if es == [] {
      assert Up(EMPTY) == {};
    } else {
      EveryRunSound(es[..|es| - 1]);
      StepSound(Run(es[..|es| - 1]), es[|es| - 1]);
    }
  }
}
