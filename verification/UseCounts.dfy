/**
 What the use counter comes to over every run, with calls that run to completion and
 with calls that are cancelled between marking their permit and sending.
 */
module UseCounts {
  import opened Wrappers
  import opened UseCounter

  // ------------------------------------------------------------ complete calls

  lemma {:induction false} Within(a: set<nat>, b: set<nat>)
    requires a <= b
    ensures |a| <= |b|
    decreases a
  {
    if a != {} {
      var x :| x in a;
      Within(a - {x}, b - {x});
    }
  }

  /**
   Over every interleaving of calls that run to completion the counter is the number of
   permits whose last processed message was an activation, so it lies between zero and the
   number of permits.
   */
  lemma CounterIsLastCounted(es: seq<Event>)
    requires Complete(Run(es))
    ensures var w := Run(es);
      && w.value == |Up(w)|
      && 0 <= w.value <= |w.holders|
  {
    hide Run;
    EveryRunSound(es);
    var w := Run(es);
    Within(Up(w), w.holders.Keys);
  }

  /** While messages are out, the count is off by exactly the permits whose last message is not in yet. */
  lemma LagIsUncounted(es: seq<Event>, id: nat)
    requires Complete(Run(es)) && Run(es).running && id in Run(es).holders
    ensures var w := Run(es);
      var h := w.holders[id];
      && Alternates(h.counted, Uncounted(h, w.channel, id), h.active)
      && (h.counted != h.active <==> |Uncounted(h, w.channel, id)| % 2 == 1)
  {
    hide Run;
    EveryRunSound(es);
    var w := Run(es);
    assert InOrder(w.holders[id], w.channel, id);
    Parity(w.holders[id].counted, Uncounted(w.holders[id], w.channel, id), w.holders[id].active);
  }

  lemma {:induction false} Parity(was: bool, msgs: seq<bool>, now: bool)
    requires Alternates(was, msgs, now)
    ensures was != now <==> |msgs| % 2 == 1
    decreases |msgs|
  {
    if msgs != [] {
      Parity(msgs[0], msgs[1..], now);
    }
  }

  // ------------------------------------------------------------ the ledger, cancelled calls included

  /** Ups minus downs still in the channel. */
  function Queued(channel: seq<(nat, bool)>): int {
    if channel == [] then 0 else Delta(channel[0].1) + Queued(channel[1..])
  }

  lemma {:induction false} QueuedSnoc(channel: seq<(nat, bool)>, m: (nat, bool))
    ensures Queued(channel + [m]) == Queued(channel) + Delta(m.1)
  {
    if channel == [] {
      assert [m][1..] == [];
    } else {
      QueuedSnoc(channel[1..], m);
      assert (channel + [m])[1..] == channel[1..] + [m];
    }
  }

  /** Permits with a message of one kind decided and not yet in the channel. */
  function Sending(w: World, up: bool): set<nat> {
    set id | id in w.holders && w.holders[id].inFlight == Some(up)
  }

  /** The count and everything still on its way to it. */
  function Due(w: World): int {
    w.value + Queued(w.channel) + |Sending(w, true)| - |Sending(w, false)|
  }

  ghost predicate Balanced(w: World) {
    w.running ==> Due(w) == |Active(w)| + w.cancelledDowns - w.cancelledUps
  }

  function Put(w: World, id: nat, h: Holder): World {
    w.(holders := w.holders[id := h])
  }

  function One(b: bool): nat {
    if b then 1 else 0
  }

  /** One permit changed: every set gains or loses it. */
  lemma PutCounts(w: World, id: nat, h: Holder)
    requires id in w.holders
    ensures var o := w.holders[id];
      var w' := Put(w, id, h);
      && |Active(w')| == |Active(w)| + One(h.active) - One(o.active)
      && |Sending(w', true)| == |Sending(w, true)| + One(h.inFlight == Some(true)) - One(o.inFlight == Some(true))
      && |Sending(w', false)| == |Sending(w, false)| + One(h.inFlight == Some(false)) - One(o.inFlight == Some(false))
  {
    var w' := Put(w, id, h);
    var o := w.holders[id];
    Swapped(Active(w), Active(w'), id);
    Swapped(Sending(w, true), Sending(w', true), id);
    Swapped(Sending(w, false), Sending(w', false), id);
  }

  lemma Swapped(a: set<nat>, b: set<nat>, id: nat)
    requires forall x :: x != id ==> (x in a <==> x in b)
    ensures |b| == |a| + One(id in b) - One(id in a)
  {
    var rest := a - {id};
    assert rest == b - {id};
    assert id in a ==> a == rest + {id};
    assert id in b ==> b == rest + {id};
    assert id !in a ==> a == rest;
    assert id !in b ==> b == rest;
  }

  lemma StepBalanced(w: World, e: Event)
    requires Balanced(w)
    ensures Balanced(Step(w, e))
  {
    var w' := Step(w, e);
    match e {
      case Create(id) =>
        if id !in w.holders {
          assert Active(w') == Active(w);
          assert Sending(w', true) == Sending(w, true) && Sending(w', false) == Sending(w, false);
        }
      case Activate(id) =>
        if Idle(w, id) {
          PutCounts(w, id, Turn(w.holders[id], true));
        }
      case Deactivate(id) =>
        if Idle(w, id) {
          PutCounts(w, id, Turn(w.holders[id], false));
        }
      case Drop(id) =>
        if Idle(w, id) {
          PutCounts(w, id, Turn(w.holders[id], false).(dropped := true));
        }
      case Send(id) =>
        if w' != w {
          SendBalanced(w, id);
        }
      case Cancel(id) =>
        if w' != w {
          CancelBalanced(w, id);
        }
      case Process =>
        if w' != w {
          ProcessBalanced(w);
        }
      case Shutdown =>
    }
  }

  lemma SameCounts(v: World, w: World)
    requires v.holders == w.holders
    ensures Active(v) == Active(w) && Sending(v, true) == Sending(w, true) && Sending(v, false) == Sending(w, false)
  {
  }

  lemma SendBalanced(w: World, id: nat)
    requires Balanced(w) && Step(w, Send(id)) != w
    ensures Balanced(Step(w, Send(id)))
  {
    var h := w.holders[id].(inFlight := None);
    PutCounts(w, id, h);
    QueuedSnoc(w.channel, (id, w.holders[id].inFlight.value));
    SameCounts(Put(w, id, h), Step(w, Send(id)));
  }

  lemma CancelBalanced(w: World, id: nat)
    requires Balanced(w) && Step(w, Cancel(id)) != w
    ensures Balanced(Step(w, Cancel(id)))
  {
    var h := w.holders[id].(inFlight := None);
    PutCounts(w, id, h);
    SameCounts(Put(w, id, h), Step(w, Cancel(id)));
  }

  lemma ProcessBalanced(w: World)
    requires Balanced(w) && Step(w, Process) != w
    ensures Balanced(Step(w, Process))
  {
    var (id, up) := w.channel[0];
    var h := w.holders[id].(counted := up);
    PutCounts(w, id, h);
    SameCounts(Put(w, id, h), Step(w, Process));
  }

  /**
   The ledger over every run, cancelled calls and all: the count and everything on its way
   to it are the active permits, plus the deactivations and less the activations that were
   cancelled.
   */
  lemma {:induction false} LedgerHolds(es: seq<Event>)
    ensures Balanced(Run(es))
  {
    hide Balanced, Step;
    if es == [] {
      EmptyBalanced();
    } else {
      LedgerHolds(es[..|es| - 1]);
      StepBalanced(Run(es[..|es| - 1]), es[|es| - 1]);
    }
  }

  lemma EmptyBalanced()
    ensures Balanced(EMPTY)
  {
    assert Active(EMPTY) == {} && Sending(EMPTY, true) == {} && Sending(EMPTY, false) == {};
  }

  predicate Drained(w: World) {
    w.channel == [] && forall id :: id in w.holders ==> w.holders[id].inFlight.None?
  }

  /**
   Drained, the count is the active permits plus cancelled deactivations less cancelled
   activations: it is right if and only if as many of the one were cancelled as of the other.
   */
  lemma DrainedIsActiveIff(es: seq<Event>)
    requires Run(es).running && Drained(Run(es))
    ensures var w := Run(es);
      && w.value == |Active(w)| + w.cancelledDowns - w.cancelledUps
      && (w.value == |Active(w)| <==> w.cancelledUps == w.cancelledDowns)
    ensures forall id :: id in Active(Run(es)) ==> !Run(es).holders[id].dropped
  {
    hide Run;
    LedgerHolds(es);
    DroppedIsOff(es);
    NothingSending(Run(es));
  }

  lemma NothingSending(w: World)
    requires Drained(w)
    ensures Queued(w.channel) == 0 && Sending(w, true) == {} && Sending(w, false) == {}
  {
  }

  predicate DroppedOff(w: World) {
    forall id :: id in w.holders && w.holders[id].dropped ==> !w.holders[id].active
  }

  /** A dropped permit is off for good. */
  lemma {:induction false} DroppedIsOff(es: seq<Event>)
    ensures DroppedOff(Run(es))
  {
    hide Step, DroppedOff;
    if es == [] {
      NobodyDropped();
    } else {
      DroppedIsOff(es[..|es| - 1]);
      StaysOff(Run(es[..|es| - 1]), es[|es| - 1]);
    }
  }

  lemma NobodyDropped()
    ensures DroppedOff(EMPTY)
  {
  }

  lemma StaysOff(w: World, e: Event)
    requires DroppedOff(w)
    ensures DroppedOff(Step(w, e))
  {
  }

  // ------------------------------------------------------------ never below zero

  /** Every deactivation comes right behind an activation, and an active permit's last word was one. */
  predicate Paired(was: bool, msgs: seq<bool>, now: bool)
    decreases |msgs|
  {
    if msgs == [] then now ==> was else (msgs[0] || was) && Paired(msgs[0], msgs[1..], now)
  }

  lemma {:induction false} PairedSnoc(was: bool, msgs: seq<bool>, now: bool, next: bool)
    requires Paired(was, msgs, now) && next != now
    ensures Paired(was, msgs + [next], next)
    decreases |msgs|
  {
    if msgs == [] {
      assert [next][1..] == [];
    } else {
      PairedSnoc(msgs[0], msgs[1..], now, next);
      assert (msgs + [next])[1..] == msgs[1..] + [next];
    }
  }

  /** A deactivation that never goes out leaves the activation before it as the last word. */
  lemma {:induction false} PairedCut(was: bool, msgs: seq<bool>)
    requires Paired(was, msgs + [false], false)
    ensures Paired(was, msgs, false)
    decreases |msgs|
  {
    if msgs != [] {
      assert (msgs + [false])[1..] == msgs[1..] + [false];
      PairedCut(msgs[0], msgs[1..]);
    }
  }

  predicate HolderPaired(h: Holder, channel: seq<(nat, bool)>, id: nat) {
    && Paired(h.counted, Uncounted(h, channel, id), h.active)
    && (h.inFlight.Some? ==> h.inFlight.value == h.active)
  }

  ghost predicate Lenient(w: World) {
    w.cancelledUps == 0 ==>
      && Known(w)
      && (w.running ==> forall id :: id in w.holders ==> HolderPaired(w.holders[id], w.channel, id))
      && (forall id :: id !in w.holders ==> Of(w.channel, id) == [])
      && w.value >= |Up(w)|
      && w.value == Balance(w.processed)
      && NeverNegative(w.processed)
  }

  lemma TurnPaired(h: Holder, channel: seq<(nat, bool)>, id: nat, on: bool, dropped: bool)
    requires h.inFlight.None? && HolderPaired(h, channel, id)
    ensures HolderPaired(Turn(h, on).(dropped := dropped), channel, id)
  {
    assert Of(channel, id) + [] == Of(channel, id);
    if h.active != on {
      PairedSnoc(h.counted, Of(channel, id), h.active, on);
    }
  }

  lemma CancelPaired(h: Holder, channel: seq<(nat, bool)>, id: nat)
    requires h.inFlight == Some(false) && HolderPaired(h, channel, id)
    ensures HolderPaired(h.(inFlight := None), channel, id)
  {
    PairedCut(h.counted, Of(channel, id));
    assert Of(channel, id) + [] == Of(channel, id);
  }

  lemma SendPaired(w: World, id: nat, other: nat)
    requires id in w.holders && w.holders[id].inFlight.Some?
    requires other in w.holders && HolderPaired(w.holders[other], w.channel, other)
    ensures var channel := w.channel + [(id, w.holders[id].inFlight.value)];
      HolderPaired(if other == id then w.holders[id].(inFlight := None) else w.holders[other], channel, other)
  {
    var m := (id, w.holders[id].inFlight.value);
    OfSnoc(w.channel, m, other);
    assert Of(w.channel + [m], other) + [] == Of(w.channel + [m], other);
    assert Of(w.channel, other) + [] == Of(w.channel, other);
  }

  lemma ProcessPaired(h: Holder, channel: seq<(nat, bool)>, id: nat)
    requires channel != [] && HolderPaired(h, channel, id)
    ensures channel[0].0 == id ==> channel[0].1 || h.counted
    ensures HolderPaired(if channel[0].0 == id then h.(counted := channel[0].1) else h, channel[1..], id)
  {
    hide Of;
    OfFirst(channel, id);
    var rest := if h.inFlight.Some? then [h.inFlight.value] else [];
    if channel[0].0 == id {
      var msgs := Uncounted(h, channel, id);
      assert msgs[0] == channel[0].1;
      assert msgs[1..] == Of(channel[1..], id) + rest;
    }
  }

  lemma TurnLenient(w: World, id: nat, on: bool, dropped: bool)
    requires Lenient(w) && Idle(w, id)
    ensures Lenient(Put(w, id, Turn(w.holders[id], on).(dropped := dropped)))
  {
    var h := Turn(w.holders[id], on).(dropped := dropped);
    HoldersUpdated(w, id, h);
    if w.running && w.cancelledUps == 0 {
      assert HolderPaired(w.holders[id], w.channel, id);
      TurnPaired(w.holders[id], w.channel, id, on, dropped);
    }
  }

  lemma CreateLenient(w: World, id: nat)
    requires Lenient(w) && id !in w.holders
    ensures Lenient(Step(w, Create(id)))
  {
    var w' := Step(w, Create(id));
    assert Up(w') == Up(w);
    if w.running && w.cancelledUps == 0 {
      assert HolderPaired(w'.holders[id], w'.channel, id);
    }
  }

  lemma SendLenient(w: World, id: nat)
    requires Lenient(w) && Step(w, Send(id)) != w
    ensures Lenient(Step(w, Send(id)))
  {
    var w' := Step(w, Send(id));
    HoldersUpdated(w, id, w.holders[id].(inFlight := None));
    assert Up(w') == Up(w);
    if w.running && w.cancelledUps == 0 {
      forall other | other in w'.holders
        ensures HolderPaired(w'.holders[other], w'.channel, other)
      {
        SendPaired(w, id, other);
      }
      forall other | other !in w'.holders
        ensures Of(w'.channel, other) == []
      {
        OfSnoc(w.channel, (id, w.holders[id].inFlight.value), other);
      }
    }
  }

  lemma CancelLenient(w: World, id: nat)
    requires Lenient(w) && Step(w, Cancel(id)) != w
    ensures Lenient(Step(w, Cancel(id)))
  {
    var w' := Step(w, Cancel(id));
    HoldersUpdated(w, id, w.holders[id].(inFlight := None));
    assert Up(w') == Up(w);
    if w.running && w'.cancelledUps == 0 {
      assert HolderPaired(w.holders[id], w.channel, id);
      CancelPaired(w.holders[id], w.channel, id);
    }
  }

  lemma ProcessLenient(w: World)
    requires Lenient(w) && Step(w, Process) != w
    ensures Lenient(Step(w, Process))
  {
    var w' := Step(w, Process);
    var (id, up) := w.channel[0];
    if w.cancelledUps == 0 {
      assert HolderPaired(w.holders[id], w.channel, id);
      ProcessPaired(w.holders[id], w.channel, id);
      UpAfter(w, id, up);
      BalanceSnoc(w.processed, up);
      forall other | other in w'.holders
        ensures HolderPaired(w'.holders[other], w'.channel, other)
      {
        assert HolderPaired(w.holders[other], w.channel, other);
        ProcessPaired(w.holders[other], w.channel, other);
      }
      forall other | other !in w'.holders
        ensures Of(w'.channel, other) == []
      {
        assert Of(w.channel, other) == [];
      }
    }
  }

  lemma UpAfter(w: World, id: nat, up: bool)
    requires id in w.holders && (up || w.holders[id].counted)
    ensures var w' := Put(w, id, w.holders[id].(counted := up));
      |Up(w')| <= |Up(w)| + Delta(up)
  {
    var w' := Put(w, id, w.holders[id].(counted := up));
    Swapped(Up(w), Up(w'), id);
  }

  lemma ShutdownLenient(w: World)
    requires Lenient(w)
    ensures Lenient(Step(w, Shutdown))
  {
    assert Up(Step(w, Shutdown)) == Up(w);
  }

  lemma StepLenient(w: World, e: Event)
    requires Lenient(w)
    ensures Lenient(Step(w, e))
  {
    hide Lenient;
    if Step(w, e) != w {
      match e {
        case Create(id) => CreateLenient(w, id);
        case Activate(id) => TurnLenient(w, id, true, false);
        case Deactivate(id) => TurnLenient(w, id, false, false);
        case Drop(id) => TurnLenient(w, id, false, true);
        case Send(id) => SendLenient(w, id);
        case Cancel(id) => CancelLenient(w, id);
        case Process => ProcessLenient(w);
        case Shutdown => ShutdownLenient(w);
      }
    }
  }

  lemma {:induction false} AlwaysLenient(es: seq<Event>)
    ensures Lenient(Run(es))
  {
    hide Lenient, Step;
    if es == [] {
      EmptyLenient();
    } else {
      AlwaysLenient(es[..|es| - 1]);
      StepLenient(Run(es[..|es| - 1]), es[|es| - 1]);
    }
  }

  lemma EmptyLenient()
    ensures Lenient(EMPTY)
  {
    assert Up(EMPTY) == {};
  }

  /**
   As long as no activation has been cancelled the counter has never been below zero, with
   deactivations cancelled or not; so the decrement never underflows.
   */
  lemma NeverUnderflows(es: seq<Event>)
    requires Run(es).cancelledUps == 0
    ensures Run(es).value >= 0
    ensures NeverNegative(Run(es).processed) && Run(es).value == Balance(Run(es).processed)
    ensures Run(es).running && Run(es).channel != [] && !Run(es).channel[0].1 ==> Run(es).value > 0
  {
    hide Run;
    AlwaysLenient(es);
    var w := Run(es);
    if w.running && w.channel != [] && !w.channel[0].1 {
      var id := w.channel[0].0;
      assert HolderPaired(w.holders[id], w.channel, id);
      ProcessPaired(w.holders[id], w.channel, id);
      assert id in Up(w);
      Within({id}, Up(w));
    }
  }

  /** The channel never holds more than its hundred messages, so a sender finding it full waits. */
  lemma {:induction false} ChannelBounded(es: seq<Event>)
    ensures |Run(es).channel| <= 100
  {
    if es != [] {
      ChannelBounded(es[..|es| - 1]);
    }
  }

  /** And waits for no other reason: with fewer than a hundred in it the message goes in, behind the others. */
  lemma SendWaitsIff(w: World, id: nat)
    requires w.running && id in w.holders && w.holders[id].inFlight.Some?
    ensures var w' := Step(w, Send(id));
      if |w.channel| < 100
      then w'.channel == w.channel + [(id, w.holders[id].inFlight.value)] && w'.holders[id].inFlight.None?
      else w' == w
  {
  }

  // ------------------------------------------------------------ exactly when it can go below zero

  predicate NoCancel(fs: seq<Event>) {
    forall i :: 0 <= i < |fs| ==> !fs[i].Cancel?
  }

  function RunFrom(w: World, fs: seq<Event>): World {
    if fs == [] then w else Step(RunFrom(w, fs[..|fs| - 1]), fs[|fs| - 1])
  }

  lemma {:induction false} RunOn(es: seq<Event>, fs: seq<Event>)
    ensures Run(es + fs) == RunFrom(Run(es), fs)
  {
    hide Step;
    if fs == [] {
      assert es + fs == es;
    } else {
      assert (es + fs)[..|es + fs| - 1] == es + fs[..|fs| - 1];
      RunOn(es, fs[..|fs| - 1]);
    }
  }

  lemma {:induction false} RunFromConcat(w: World, fs: seq<Event>, gs: seq<Event>)
    ensures RunFrom(w, fs + gs) == RunFrom(RunFrom(w, fs), gs)
  {
    hide Step;
    if gs == [] {
      assert fs + gs == fs;
    } else {
      assert (fs + gs)[..|fs + gs| - 1] == fs + gs[..|gs| - 1];
      RunFromConcat(w, fs, gs[..|gs| - 1]);
    }
  }

  lemma RunFromOne(w: World, e: Event)
    ensures RunFrom(w, [e]) == Step(w, e) && RunFrom(w, []) == w
  {
    hide Step;
    assert [e][..0] == [];
    assert RunFrom(w, []) == w;
  }

  /** Without further cancellations the two counts stay as they are. */
  lemma {:induction false} CountsStay(w: World, fs: seq<Event>)
    requires NoCancel(fs)
    ensures RunFrom(w, fs).cancelledUps == w.cancelledUps && RunFrom(w, fs).cancelledDowns == w.cancelledDowns
  {
    if fs != [] {
      CountsStay(w, fs[..|fs| - 1]);
    }
  }

  /** What winding down keeps. */
  ghost predicate Winding(w: World) {
    w.running && Known(w) && DroppedOff(w)
  }

  /** Process everything in the channel. */
  lemma {:induction false} DrainChannel(w: World) returns (fs: seq<Event>)
    requires Winding(w)
    ensures NoCancel(fs)
    ensures var z := RunFrom(w, fs); Winding(z) && z.channel == []
    decreases |w.channel|
  {
    if w.channel == [] {
      fs := [];
    } else {
      var w' := Step(w, Process);
      assert Winding(w');
      var more := DrainChannel(w');
      fs := [Process] + more;
      RunFromOne(w, Process);
      RunFromConcat(w, [Process], more);
    }
  }

  predicate Retired(h: Holder) {
    !h.active && h.inFlight.None?
  }

  /** One permit is let go and all it still had to say counted. */
  lemma Retire(w: World, id: nat) returns (fs: seq<Event>)
    requires Winding(w) && w.channel == [] && id in w.holders
    ensures NoCancel(fs)
    ensures var z := RunFrom(w, fs);
      && Winding(z) && z.channel == [] && z.holders.Keys == w.holders.Keys
      && Retired(z.holders[id])
      && forall other :: other in w.holders && other != id ==> z.holders[other] == w.holders[other]
  {
    fs := [Send(id)] + ([Process] + ([Drop(id)] + ([Send(id)] + [Process])));
    var w1 := SendOne(w, id);
    var w2 := Step(w1, Drop(id));
    assert Winding(w2);
    var w3 := SendOne(w2, id);
    RunFromOne(w, Send(id));
    RunFromOne(Step(w, Send(id)), Process);
    RunFromOne(w1, Drop(id));
    RunFromOne(w2, Send(id));
    RunFromOne(Step(w2, Send(id)), Process);
    RunFromConcat(w2, [Send(id)], [Process]);
    RunFromConcat(w1, [Drop(id)], [Send(id)] + [Process]);
    RunFromConcat(Step(w, Send(id)), [Process], [Drop(id)] + ([Send(id)] + [Process]));
    RunFromConcat(w, [Send(id)], [Process] + ([Drop(id)] + ([Send(id)] + [Process])));
  }

  /** What one permit has in flight, if anything, is sent and counted. */
  lemma SendOne(w: World, id: nat) returns (z: World)
    requires Winding(w) && w.channel == [] && id in w.holders
    ensures z == Step(Step(w, Send(id)), Process)
    ensures Winding(z) && z.channel == [] && z.holders.Keys == w.holders.Keys
    ensures z.holders[id].inFlight.None?
    ensures z.holders[id].active == w.holders[id].active && z.holders[id].dropped == w.holders[id].dropped
    ensures forall other :: other in w.holders && other != id ==> z.holders[other] == w.holders[other]
  {
    z := Step(Step(w, Send(id)), Process);
  }

  /** And so for all of them. */
  lemma {:induction false} RetireAll(w: World, todo: set<nat>) returns (fs: seq<Event>)
    requires Winding(w) && w.channel == [] && todo <= w.holders.Keys
    requires forall id :: id in w.holders && id !in todo ==> Retired(w.holders[id])
    ensures NoCancel(fs)
    ensures var z := RunFrom(w, fs);
      Winding(z) && z.channel == [] && forall id :: id in z.holders ==> Retired(z.holders[id])
    decreases todo
  {
    hide Step, Winding, RunFrom;
    if todo == {} {
      fs := [];
      RunFromOne(w, Process);
    } else {
      var id :| id in todo;
      var first := Retire(w, id);
      var more := RetireAll(RunFrom(w, first), todo - {id});
      fs := first + more;
      RunFromConcat(w, first, more);
    }
  }

  /** Every run can be wound down: all permits let go, every message counted. */
  lemma WindDown(es: seq<Event>) returns (fs: seq<Event>)
    requires Run(es).running && Known(Run(es))
    ensures NoCancel(fs)
    ensures var z := Run(es + fs);
      z.running && z.channel == [] && forall id :: id in z.holders ==> Retired(z.holders[id])
  {
    hide Run, RunFrom;
    DroppedIsOff(es);
    var w := Run(es);
    var first := DrainChannel(w);
    var w1 := RunFrom(w, first);
    var more := RetireAll(w1, w1.holders.Keys);
    fs := first + more;
    RunFromConcat(w, first, more);
    RunOn(es, fs);
  }

  lemma {:induction false} AlwaysKnown(es: seq<Event>)
    ensures Known(Run(es))
  {
    if es != [] {
      AlwaysKnown(es[..|es| - 1]);
    }
  }

  /** Once more activations than deactivations have been cancelled, letting everybody go takes the count below zero. */
  lemma MoreUpsGoBelow(es: seq<Event>) returns (fs: seq<Event>)
    requires Run(es).running
    ensures NoCancel(fs)
    ensures Run(es + fs).value == Run(es).cancelledDowns - Run(es).cancelledUps
  {
    hide Run;
    AlwaysKnown(es);
    fs := WindDown(es);
    var z := Run(es + fs);
    LedgerHolds(es + fs);
    RunOn(es, fs);
    CountsStay(Run(es), fs);
    NothingSending(z);
    assert Active(z) == {};
  }

  ghost predicate CanGoBelow(es: seq<Event>) {
    exists fs :: NoCancel(fs) && Run(es + fs).value < 0
  }

  /** A permit's undelivered word is what it has become. */
  predicate Current(w: World) {
    forall id :: id in w.holders && w.holders[id].inFlight.Some? ==>
      w.holders[id].inFlight.value == w.holders[id].active
  }

  lemma {:induction false} AlwaysCurrent(es: seq<Event>)
    ensures Current(Run(es))
  {
    hide Step, Current;
    if es == [] {
      NobodySends();
    } else {
      AlwaysCurrent(es[..|es| - 1]);
      StaysCurrent(Run(es[..|es| - 1]), es[|es| - 1]);
    }
  }

  lemma NobodySends()
    ensures Current(EMPTY)
  {
  }

  lemma StaysCurrent(w: World, e: Event)
    requires Current(w)
    ensures Current(Step(w, e))
  {
  }

  /** Counting the messages in the channel, one by one, takes the count below zero on the way. */
  predicate Dips(w: World) {
    exists k :: 0 <= k <= |w.channel| && w.value + Queued(w.channel[..k]) < 0
  }

  /** What every step but a cancellation keeps: enough is owed, and the channel does not dip. */
  ghost predicate Afloat(w: World) {
    && Known(w) && Current(w) && Balanced(w)
    && (w.running ==> w.cancelledUps <= w.cancelledDowns)
    && !Dips(w)
  }

  lemma AtLeastZero(w: World)
    requires !Dips(w)
    ensures w.value >= 0
  {
    assert w.channel[..0] == [];
  }

  /** Whoever still has a deactivation to send is not among the active, so at least one is queued or counted for it. */
  lemma RoomForDown(w: World, id: nat)
    requires Afloat(w) && w.running && id in Sending(w, false)
    ensures w.value + Queued(w.channel) >= 1
  {
    assert Sending(w, true) <= Active(w);
    Within(Sending(w, true), Active(w));
    Within({id}, Sending(w, false));
  }

  lemma SendAfloat(w: World, id: nat)
    requires Afloat(w) && Step(w, Send(id)) != w
    ensures !Dips(Step(w, Send(id)))
  {
    hide Balanced, Current;
    var w' := Step(w, Send(id));
    if w.running {
      var m := (id, w.holders[id].inFlight.value);
      QueuedSnoc(w.channel, m);
      if !m.1 {
        RoomForDown(w, id);
      }
      forall k | 0 <= k <= |w'.channel|
        ensures w'.value + Queued(w'.channel[..k]) >= 0
      {
        if k <= |w.channel| {
          assert w'.channel[..k] == w.channel[..k];
        } else {
          assert w'.channel[..k] == w.channel + [m];
          assert w.channel[..|w.channel|] == w.channel;
        }
      }
    }
  }

  lemma ProcessAfloat(w: World)
    requires !Dips(w) && w.channel != []
    ensures !Dips(w.(channel := w.channel[1..], value := w.value + Delta(w.channel[0].1)))
  {
    var rest := w.channel[1..];
    forall k | 0 <= k <= |rest|
      ensures w.value + Delta(w.channel[0].1) + Queued(rest[..k]) >= 0
    {
      assert w.channel[..k + 1][1..] == rest[..k] && w.channel[..k + 1][0] == w.channel[0];
    }
  }

  lemma ShutdownAfloat(w: World)
    requires !Dips(w)
    ensures !Dips(Step(w, Shutdown))
  {
    AtLeastZero(w);
    var w' := Step(w, Shutdown);
    assert forall k :: 0 <= k <= |w'.channel| ==> w'.channel[..k] == [];
  }

  lemma StepAfloat(w: World, e: Event)
    requires Afloat(w) && !e.Cancel?
    ensures Afloat(Step(w, e))
  {
    var w' := Step(w, e);
    assert Known(w');
    hide Balanced, Current;
    StepBalanced(w, e);
    StaysCurrent(w, e);
    if w' != w {
      if e.Send? {
        SendAfloat(w, e.id);
      } else if e.Process? {
        ProcessAfloat(w);
        var z := w.(channel := w.channel[1..], value := w.value + Delta(w.channel[0].1));
        SameDips(z, w');
      } else if e.Shutdown? {
        ShutdownAfloat(w);
      } else {
        SameDips(w, w');
      }
    }
  }

  lemma SameDips(v: World, w: World)
    requires v.channel == w.channel && v.value == w.value
    ensures Dips(v) <==> Dips(w)
  {
  }

  lemma {:induction false} StaysAfloat(w: World, fs: seq<Event>)
    requires Afloat(w) && NoCancel(fs)
    ensures Afloat(RunFrom(w, fs))
  {
    hide Step, Afloat;
    if fs != [] {
      StaysAfloat(w, fs[..|fs| - 1]);
      StepAfloat(RunFrom(w, fs[..|fs| - 1]), fs[|fs| - 1]);
    }
  }

  /** The first `k` messages can be counted with nothing else happening. */
  lemma {:induction false} CountFirst(w: World, k: nat) returns (fs: seq<Event>)
    requires w.running && Known(w) && k <= |w.channel|
    ensures NoCancel(fs) && RunFrom(w, fs).value == w.value + Queued(w.channel[..k])
    decreases k
  {
    if k == 0 {
      fs := [];
    } else {
      var w' := Step(w, Process);
      assert Known(w');
      var more := CountFirst(w', k - 1);
      fs := [Process] + more;
      RunFromOne(w, Process);
      RunFromConcat(w, [Process], more);
      assert w.channel[..k][1..] == w'.channel[..k - 1] && w.channel[..k][0] == w.channel[0];
    }
  }

  lemma DipsGoBelow(es: seq<Event>)
    requires Run(es).running && Dips(Run(es))
    ensures CanGoBelow(es)
  {
    hide Run;
    AlwaysKnown(es);
    var w := Run(es);
    var k :| 0 <= k <= |w.channel| && w.value + Queued(w.channel[..k]) < 0;
    var fs := CountFirst(w, k);
    RunOn(es, fs);
    assert NoCancel(fs) && Run(es + fs).value < 0;
  }

  /**
   The exact condition: without any further cancellation the count can go below zero if and
   only if more activations than deactivations were cancelled, or counting what is in the
   channel already takes it there.
   */
  lemma UnderflowIff(es: seq<Event>)
    requires Run(es).running
    ensures CanGoBelow(es) <==> Run(es).cancelledUps > Run(es).cancelledDowns || Dips(Run(es))
  {
    hide Run, Dips, RunFrom, Balanced, Current;
    if Run(es).cancelledUps > Run(es).cancelledDowns {
      var fs := MoreUpsGoBelow(es);
      assert NoCancel(fs) && Run(es + fs).value < 0;
    } else if Dips(Run(es)) {
      DipsGoBelow(es);
    } else {
      AlwaysKnown(es);
      AlwaysCurrent(es);
      LedgerHolds(es);
      forall fs | NoCancel(fs)
        ensures Run(es + fs).value >= 0
      {
        RunOn(es, fs);
        StaysAfloat(Run(es), fs);
        AtLeastZero(RunFrom(Run(es), fs));
      }
    }
  }

  /**
   With no deactivation cancelled the state of the channel does not matter: the count can
   go below zero if and only if some activation was cancelled.
   */
  lemma UnderflowOnCancelledUp(es: seq<Event>)
    requires Run(es).running && Run(es).cancelledDowns == 0
    ensures CanGoBelow(es) <==> Run(es).cancelledUps > 0
  {
    hide Run, Dips;
    UnderflowIff(es);
    if Run(es).cancelledUps == 0 {
      forall fs | NoCancel(fs)
        ensures Run(es + fs).value >= 0
      {
        RunOn(es, fs);
        CountsStay(Run(es), fs);
        NeverUnderflows(es + fs);
      }
    }
  }

  /** The shortest way there: an activation cancelled before its message, and the permit's drop. */
  lemma CancelledActivateUnderflows()
    ensures Run([Create(0), Activate(0), Cancel(0), Drop(0), Send(0), Process]).value == -1
  {
    hide Step, Run;
    var e1, e2, e3 := [Create(0)], [Create(0), Activate(0)], [Create(0), Activate(0), Cancel(0)];
    var e4, e5 := e3 + [Drop(0)], e3 + [Drop(0)] + [Send(0)];
    assert e1 == [] + [Create(0)] && e2 == e1 + [Activate(0)] && e3 == e2 + [Cancel(0)];
    Runs([], Create(0));
    Runs(e1, Activate(0));
    Runs(e2, Cancel(0));
    Runs(e3, Drop(0));
    Runs(e4, Send(0));
    Runs(e5, Process);
    assert e5 + [Process] == [Create(0), Activate(0), Cancel(0), Drop(0), Send(0), Process];
    CancelledSteps();
  }

  lemma CancelledSteps()
    ensures var cancelled := Step(Step(Step(EMPTY, Create(0)), Activate(0)), Cancel(0));
      Step(Step(Step(cancelled, Drop(0)), Send(0)), Process).value == -1
  {
    var w1 := Step(EMPTY, Create(0));
    var w2 := Step(w1, Activate(0));
    var w3 := Step(w2, Cancel(0));
    var w4 := Step(w3, Drop(0));
    var w5 := Step(w4, Send(0));
    assert w1.holders[0] == Holder(false, None, false, false);
    assert w2.holders[0] == Holder(true, Some(true), false, false);
    assert w3.holders[0] == Holder(true, None, false, false);
    assert w4.holders[0] == Holder(false, Some(false), true, false);
    assert w5.channel == [(0, false)];
  }

  lemma Runs(es: seq<Event>, e: Event)
    ensures Run(es + [e]) == Step(Run(es), e)
    ensures Run([]) == EMPTY
  {
    hide Step;
    assert (es + [e])[..|es|] == es;
  }
}
