/**
 What the scanner finds, seen from the document's own tree: the operation's name and
 exactly its extent, at any depth and under any names, and precisely when it does not.
 */
module Envelope {
  import opened Wrappers
  import opened Soap

  datatype Node =
    | Element(tag: Tag, kids: seq<Node>, close: string)
    | Leaf(tag: Tag)
    | Words(text: string, raw: string)
    | Other(raw: string)

  /** The events a reader makes of a tree: document order, one end per start. */
  function NodeEvents(n: Node): (es: seq<Event>)
    decreases n
  {
    match n
    case Element(tag, kids, close) => [Start(tag)] + ForestEvents(kids) + [End(tag.name, close)]
    case Leaf(tag) => [Empty(tag)]
    case Words(text, raw) => [Text(text, raw)]
    case Other(raw) => [Skipped(raw)]
  }

  function ForestEvents(ns: seq<Node>): (es: seq<Event>)
    decreases ns
  {
    if ns == [] then [] else NodeEvents(ns[0]) + ForestEvents(ns[1..])
  }

  function Size(es: seq<Event>): nat {
    |Document(es)|
  }

  /** Neither an element nor an empty one: text, comments, declarations. */
  predicate Blank(n: Node) {
    n.Words? || n.Other?
  }

  predicate AllBlank(ns: seq<Node>) {
    forall i :: 0 <= i < |ns| ==> Blank(ns[i])
  }

  /** Start tags take up room. */
  predicate Tagged(n: Node)
    decreases n
  {
    match n
    case Element(tag, kids, _) => tag.raw != "" && AllTagged(kids)
    case Leaf(tag) => true
    case Words(_, _) => true
    case Other(_) => true
  }

  predicate AllTagged(ns: seq<Node>)
    decreases ns
  {
    ns == [] || (Tagged(ns[0]) && AllTagged(ns[1..]))
  }

  predicate NoElement(ns: seq<Node>) {
    forall i :: 0 <= i < |ns| ==> !ns[i].Element?
  }

  /** Nothing in front of the body that is locally named Body and holds an element with content. */
  predicate Harmless(n: Node)
    decreases n
  {
    n.Element? ==> if KindOf(n.tag.name).Body? then NoElement(n.kids) else AllHarmless(n.kids)
  }

  predicate AllHarmless(ns: seq<Node>)
    decreases ns
  {
    ns == [] || (Harmless(ns[0]) && AllHarmless(ns[1..]))
  }

  // ------------------------------------------------------------ running over pieces

  lemma RunOne(c: Codecs, s: Scan, e: Event)
    ensures Run(c, s, [e]) == OnEvent(c, s, e)
    ensures Document([e]) == Raw(e)
  {
    hide OnEvent;
    assert [e][..0] == [];
    assert Run(c, s, []) == s;
    assert Document([]) + Raw(e) == Raw(e);
  }

  /** An element is its start, its kids and its end. */
  lemma RunElement(c: Codecs, s: Scan, n: Node)
    requires n.Element?
    ensures Run(c, s, NodeEvents(n))
         == OnEvent(c, Run(c, OnEvent(c, s, Start(n.tag)), ForestEvents(n.kids)), End(n.tag.name, n.close))
    ensures Size(NodeEvents(n)) == |n.tag.raw| + Size(ForestEvents(n.kids)) + |n.close|
  {
    hide OnEvent, Run, Document;
    var a, b, z := [Start(n.tag)], ForestEvents(n.kids), [End(n.tag.name, n.close)];
    assert NodeEvents(n) == a + b + z;
    RunConcat(c, s, a + b, z);
    RunConcat(c, s, a, b);
    RunOne(c, s, a[0]);
    RunOne(c, Run(c, s, a + b), z[0]);
    DocumentConcat(a + b, z);
    DocumentConcat(a, b);
  }

  lemma RunForest(c: Codecs, s: Scan, ns: seq<Node>)
    requires ns != []
    ensures Run(c, s, ForestEvents(ns)) == Run(c, Run(c, s, NodeEvents(ns[0])), ForestEvents(ns[1..]))
    ensures Size(ForestEvents(ns)) == Size(NodeEvents(ns[0])) + Size(ForestEvents(ns[1..]))
  {
    hide OnEvent, Run, Document;
    RunConcat(c, s, NodeEvents(ns[0]), ForestEvents(ns[1..]));
    DocumentConcat(NodeEvents(ns[0]), ForestEvents(ns[1..]));
  }

  lemma RunNone(c: Codecs, s: Scan)
    ensures Run(c, s, ForestEvents([])) == s && Size(ForestEvents([])) == 0
  {
  }

  predicate NoBad(es: seq<Event>) {
    forall i :: 0 <= i < |es| ==> !es[i].Bad?
  }

  lemma {:induction false} NodeNoBad(n: Node)
    ensures NoBad(NodeEvents(n))
    decreases n
  {
    if n.Element? {
      ForestNoBad(n.kids);
    }
  }

  lemma {:induction false} ForestNoBad(ns: seq<Node>)
    ensures NoBad(ForestEvents(ns))
    decreases ns
  {
    if ns != [] {
      NodeNoBad(ns[0]);
      ForestNoBad(ns[1..]);
    }
  }

  /** The position is always the length of what has been read, and the spans lie within it. */
  predicate Placed(s: Scan) {
    && (s.childStart.Some? ==> s.childStart.value <= s.pos)
    && (s.span.Some? ==> s.span.value.0 <= s.span.value.1 <= s.pos)
  }

  /** So the extent cut out of the document is never out of range, whatever the events are. */
  lemma {:induction false} SpanInRange(c: Codecs, es: seq<Event>)
    ensures Placed(Run(c, START, es))
    ensures Run(c, START, es).pos <= |Document(es)|
    ensures NoBad(es) ==> Run(c, START, es).bad.None? && Run(c, START, es).pos == |Document(es)|
  {
    hide OnEvent;
    if es != [] {
      var n := |es| - 1;
      SpanInRange(c, es[..n]);
      StepPlaced(c, Run(c, START, es[..n]), es[n]);
    }
  }

  lemma StepPlaced(c: Codecs, s: Scan, e: Event)
    requires Placed(s)
    ensures Placed(OnEvent(c, s, e))
    ensures s.bad.None? && !e.Bad? ==> OnEvent(c, s, e).bad.None? && OnEvent(c, s, e).pos == s.pos + |Raw(e)|
    ensures s.bad.Some? || e.Bad? ==> OnEvent(c, s, e).pos == s.pos
  {
    hide OnStart, OnEnd, OnText, OnEmpty;
    match e {
      case Start(tag) => StartPlaced(s, tag);
      case End(name, raw) => EndPlaced(s, name, raw);
      case Text(text, _) => TextPlaced(c, s, text);
      case Empty(tag) => EmptyPlaced(s, tag);
      case Skipped(_) =>
      case Bad =>
    }
  }

  lemma StartPlaced(s: Scan, tag: Tag)
    requires Placed(s)
    ensures Placed(OnStart(s, tag)) && OnStart(s, tag).pos == s.pos && OnStart(s, tag).bad == s.bad
  {
    hide KindOf, LocalName, IsDigest;
  }

  lemma EndPlaced(s: Scan, name: string, raw: string)
    requires Placed(s)
    ensures Placed(OnEnd(s, name, raw).(pos := s.pos + |raw|)) && OnEnd(s, name, raw).bad == s.bad
  {
    hide KindOf, Finish;
    if !s.inBody {
      EndOutside(s, name, raw);
    }
  }

  /** Outside a body an end tag moves neither extent nor position. */
  lemma EndOutside(s: Scan, name: string, raw: string)
    requires !s.inBody
    ensures var t := OnEnd(s, name, raw);
      t.childStart == s.childStart && t.span == s.span && t.pos == s.pos && t.bad == s.bad
  {
    hide KindOf, Finish;
  }

  lemma TextPlaced(c: Codecs, s: Scan, text: string)
    requires Placed(s)
    ensures Placed(OnText(c, s, text)) && OnText(c, s, text).pos == s.pos && OnText(c, s, text).bad == s.bad
  {
    hide Gather;
  }

  lemma EmptyPlaced(s: Scan, tag: Tag)
    requires Placed(s)
    ensures Placed(OnEmpty(s, tag).(pos := s.pos + |tag.raw|)) && OnEmpty(s, tag).bad == s.bad
  {
    hide LocalName;
  }

  /** A document that breaks off is refused, with the length of what was sound as the offset. */
  lemma ErrorOffset(c: Codecs, good: seq<Event>, rest: seq<Event>)
    requires NoBad(good)
    ensures Parse(c, good + [Bad] + rest) == Failure(BadXml(|Document(good)|))
  {
    hide Run, Document;
    SpanInRange(c, good);
    RunConcat(c, START, good + [Bad], rest);
    RunConcat(c, START, good, [Bad]);
    RunOne(c, Run(c, START, good), Bad);
    BadSticks(c, Run(c, START, good + [Bad]), rest);
  }

  // ------------------------------------------------------------ inside the operation

  /** Somewhere inside the body's child, with no header field pending. */
  predicate Within(s: Scan) {
    s.bad.None? && s.inBody && s.childStart.Some? && s.depth >= 1 && s.field.None?
  }

  /** Whatever tree lies inside the operation, and whatever its names, only the position moves. */
  lemma {:induction false} InsideIsInvisible(c: Codecs, s: Scan, n: Node)
    requires Within(s)
    ensures Run(c, s, NodeEvents(n)) == s.(pos := s.pos + Size(NodeEvents(n)))
    decreases n
  {
    hide Run, Document, KindOf, LocalName;
    if n.Element? {
      RunElement(c, s, n);
      var inner := OnEvent(c, s, Start(n.tag));
      InsideForest(c, inner, n.kids);
    } else {
      RunOne(c, s, NodeEvents(n)[0]);
    }
  }

  lemma {:induction false} InsideForest(c: Codecs, s: Scan, ns: seq<Node>)
    requires Within(s)
    ensures Run(c, s, ForestEvents(ns)) == s.(pos := s.pos + Size(ForestEvents(ns)))
    decreases ns
  {
    hide Run, Document, NodeEvents, ForestEvents;
    if ns == [] {
      RunNone(c, s);
    } else {
      RunForest(c, s, ns);
      InsideIsInvisible(c, s, ns[0]);
      InsideForest(c, s.(pos := s.pos + Size(NodeEvents(ns[0]))), ns[1..]);
    }
  }

  /** Blank nodes are passed over anywhere, as long as no header field is pending. */
  lemma {:induction false} BlanksSkipped(c: Codecs, s: Scan, ns: seq<Node>)
    requires s.bad.None? && s.field.None? && AllBlank(ns)
    ensures Run(c, s, ForestEvents(ns)) == s.(pos := s.pos + Size(ForestEvents(ns)))
    decreases |ns|
  {
    hide Run, Document, ForestEvents;
    if ns == [] {
      RunNone(c, s);
    } else {
      RunForest(c, s, ns);
      RunOne(c, s, NodeEvents(ns[0])[0]);
      BlanksSkipped(c, s.(pos := s.pos + Size(NodeEvents(ns[0]))), ns[1..]);
    }
  }

  /** Just inside Body, nothing found yet. */
  predicate AtBody(s: Scan) {
    s.bad.None? && s.inBody && s.childStart.None? && s.depth == 0
  }

  /** The scanner on the body's child: its name, and its extent from where it started. */
  function Found(s: Scan, n: Node): Scan
    requires n.Element? || n.Leaf?
  {
    var end := s.pos + Size(NodeEvents(n));
    var t := s.(pos := end, action := Some(LocalName(n.tag.name)), span := Some((s.pos, end)));
    if n.Element? then t.(childStart := Some(s.pos), inBody := false) else t
  }

  lemma ChildFound(c: Codecs, s: Scan, n: Node)
    requires AtBody(s) && s.field.None? && (n.Element? || n.Leaf?)
    ensures Run(c, s, NodeEvents(n)) == Found(s, n)
  {
    hide Run, Document, KindOf, LocalName;
    if n.Element? {
      RunElement(c, s, n);
      InsideForest(c, OnEvent(c, s, Start(n.tag)), n.kids);
    } else {
      RunOne(c, s, NodeEvents(n)[0]);
    }
  }

  // ------------------------------------------------------------ in front of the body

  predicate Settled(s: Scan) {
    s.bad.None? && !s.inBody && s.childStart.None? && s.depth == 0
  }

  lemma {:induction false} ShallowKids(c: Codecs, s: Scan, ns: seq<Node>)
    requires AtBody(s) && NoElement(ns)
    ensures var t := Run(c, s, ForestEvents(ns));
      AtBody(t) && t.field == s.field && t.pos == s.pos + Size(ForestEvents(ns))
    decreases |ns|
  {
    hide Run, Document, ForestEvents, LocalName, Gather;
    if ns == [] {
      RunNone(c, s);
    } else {
      RunForest(c, s, ns);
      RunOne(c, s, NodeEvents(ns[0])[0]);
      ShallowKids(c, OnEvent(c, s, NodeEvents(ns[0])[0]), ns[1..]);
    }
  }

  predicate IsFieldKind(k: Kind) {
    k.Username? || k.Password? || k.Nonce? || k.Created?
  }

  /** One event outside any body. */
  lemma OutsideStep(c: Codecs, s: Scan, e: Event)
    requires Settled(s) && !e.Bad?
    ensures var t := OnEvent(c, s, e);
      && t.pos == s.pos + |Raw(e)|
      && (e.Start? && KindOf(e.tag.name).Body? ==> AtBody(t) && t.field == s.field)
      && (!(e.Start? && KindOf(e.tag.name).Body?) ==> Settled(t))
      && (e.Start? && !IsFieldKind(KindOf(e.tag.name)) ==> t.field == s.field)
      && (e.End? ==> t.field == if IsFieldKind(KindOf(e.name)) then None else s.field)
      && (!e.Start? && !e.End? ==> t.field == s.field)
  {
    hide KindOf, LocalName, IsDigest, Gather, Finish;
  }

  /** A harmless header leaves the scanner as if it had found no body, with no field pending. */
  lemma {:induction false} HarmlessSettles(c: Codecs, s: Scan, n: Node)
    requires Settled(s) && Harmless(n)
    ensures var t := Run(c, s, NodeEvents(n));
      && Settled(t)
      && t.pos == s.pos + Size(NodeEvents(n))
      && (s.field.None? ==> t.field.None?)
    decreases n
  {
    hide Run, Document, OnEvent, KindOf;
    if n.Element? {
      RunElement(c, s, n);
      OutsideStep(c, s, Start(n.tag));
      var inner := OnEvent(c, s, Start(n.tag));
      if KindOf(n.tag.name).Body? {
        ShallowKids(c, inner, n.kids);
        LeaveBody(c, Run(c, inner, ForestEvents(n.kids)), n.tag.name, n.close);
      } else {
        ForestSettles(c, inner, n.kids);
        OutsideStep(c, Run(c, inner, ForestEvents(n.kids)), End(n.tag.name, n.close));
      }
    } else {
      RunOne(c, s, NodeEvents(n)[0]);
      OutsideStep(c, s, NodeEvents(n)[0]);
    }
  }

  lemma LeaveBody(c: Codecs, s: Scan, name: string, raw: string)
    requires s.bad.None? && s.inBody && s.depth == 0
    ensures OnEvent(c, s, End(name, raw)) == s.(inBody := false, pos := s.pos + |raw|)
  {
    hide KindOf;
  }

  lemma {:induction false} ForestSettles(c: Codecs, s: Scan, ns: seq<Node>)
    requires Settled(s) && AllHarmless(ns)
    ensures var t := Run(c, s, ForestEvents(ns));
      && Settled(t)
      && t.pos == s.pos + Size(ForestEvents(ns))
      && (s.field.None? ==> t.field.None?)
    decreases ns
  {
    hide Run, Document, NodeEvents, ForestEvents, Harmless;
    if ns == [] {
      RunNone(c, s);
    } else {
      RunForest(c, s, ns);
      HarmlessSettles(c, s, ns[0]);
      ForestSettles(c, Run(c, s, NodeEvents(ns[0])), ns[1..]);
    }
  }

  // ------------------------------------------------------------ when the header is not harmless

  /** A child has been taken for the operation, and everything cut out from now on starts there. */
  predicate Misled(s: Scan, from: nat) {
    && s.bad.None?
    && s.childStart.Some?
    && from <= s.childStart.value < s.pos
    && s.span.Some?
    && s.span.value.0 == s.childStart.value
  }

  lemma {:induction false} MisledForGood(c: Codecs, s: Scan, from: nat, es: seq<Event>)
    requires Misled(s, from) && NoBad(es)
    ensures Misled(Run(c, s, es), from)
    ensures Run(c, s, es).childStart == s.childStart
    ensures Run(c, s, es).pos == s.pos + Size(es)
  {
    hide OnEvent;
    if es != [] {
      MisledForGood(c, s, from, es[..|es| - 1]);
      MisledStep(c, Run(c, s, es[..|es| - 1]), from, es[|es| - 1]);
    }
  }

  lemma MisledStep(c: Codecs, s: Scan, from: nat, e: Event)
    requires Misled(s, from) && !e.Bad?
    ensures Misled(OnEvent(c, s, e), from)
    ensures OnEvent(c, s, e).childStart == s.childStart
    ensures OnEvent(c, s, e).pos == s.pos + |Raw(e)|
  {
    hide KindOf, LocalName, IsDigest, Gather, Finish;
  }

  /** Kids of a false body, one of them an element: that one is taken for the operation. */
  lemma {:induction false} FalseBodyMisleads(c: Codecs, s: Scan, ns: seq<Node>, from: nat)
    requires AtBody(s) && !NoElement(ns) && AllTagged(ns) && from <= s.pos
    ensures Misled(Run(c, s, ForestEvents(ns)), from)
    ensures Run(c, s, ForestEvents(ns)).pos == s.pos + Size(ForestEvents(ns))
    decreases |ns|
  {
    hide Run, Document, ForestEvents, LocalName, Gather;
    RunForest(c, s, ns);
    if ns[0].Element? {
      ElementMisleads(c, s, ns[0], from);
      ForestNoBad(ns[1..]);
      MisledForGood(c, Run(c, s, NodeEvents(ns[0])), from, ForestEvents(ns[1..]));
    } else {
      RunOne(c, s, NodeEvents(ns[0])[0]);
      FalseBodyMisleads(c, OnEvent(c, s, NodeEvents(ns[0])[0]), ns[1..], from);
    }
  }

  lemma ElementMisleads(c: Codecs, s: Scan, n: Node, from: nat)
    requires AtBody(s) && n.Element? && Tagged(n) && from <= s.pos
    ensures Misled(Run(c, s, NodeEvents(n)), from)
    ensures Run(c, s, NodeEvents(n)).pos == s.pos + Size(NodeEvents(n))
  {
    hide Run, Document, KindOf, LocalName, Gather;
    RunElement(c, s, n);
    var inner := OnEvent(c, s, Start(n.tag));
    DeepForest(c, inner, n.kids);
  }

  /** Inside a child, with a header field possibly pending: only what was gathered may change. */
  predicate Deep(s: Scan, t: Scan) {
    && t.bad.None? && t.inBody && t.childStart == s.childStart && t.depth == s.depth
    && t.span == s.span && t.action == s.action
    && t.field == s.field && t.inHeader == s.inHeader && t.inSecurity == s.inSecurity
  }

  lemma {:induction false} DeepNode(c: Codecs, s: Scan, n: Node)
    requires s.bad.None? && s.inBody && s.childStart.Some? && s.depth >= 1
    ensures Deep(s, Run(c, s, NodeEvents(n)))
    ensures Run(c, s, NodeEvents(n)).pos == s.pos + Size(NodeEvents(n))
    decreases n
  {
    hide Run, Document, KindOf, LocalName, Gather;
    if n.Element? {
      RunElement(c, s, n);
      DeepForest(c, OnEvent(c, s, Start(n.tag)), n.kids);
    } else {
      RunOne(c, s, NodeEvents(n)[0]);
    }
  }

  lemma {:induction false} DeepForest(c: Codecs, s: Scan, ns: seq<Node>)
    requires s.bad.None? && s.inBody && s.childStart.Some? && s.depth >= 1
    ensures Deep(s, Run(c, s, ForestEvents(ns)))
    ensures Run(c, s, ForestEvents(ns)).pos == s.pos + Size(ForestEvents(ns))
    decreases ns
  {
    hide Run, Document, NodeEvents, ForestEvents;
    if ns == [] {
      RunNone(c, s);
    } else {
      RunForest(c, s, ns);
      DeepNode(c, s, ns[0]);
      DeepForest(c, Run(c, s, NodeEvents(ns[0])), ns[1..]);
    }
  }

  lemma {:induction false} HarmfulMisleads(c: Codecs, s: Scan, n: Node, from: nat)
    requires Settled(s) && !Harmless(n) && Tagged(n) && from <= s.pos
    ensures Misled(Run(c, s, NodeEvents(n)), from)
    ensures Run(c, s, NodeEvents(n)).pos == s.pos + Size(NodeEvents(n))
    decreases n
  {
    hide Run, Document, OnEvent, KindOf;
    RunElement(c, s, n);
    OutsideStep(c, s, Start(n.tag));
    var inner := OnEvent(c, s, Start(n.tag));
    if KindOf(n.tag.name).Body? {
      FalseBodyMisleads(c, inner, n.kids, from);
    } else {
      HarmfulForest(c, inner, n.kids, from);
    }
    MisledStep(c, Run(c, inner, ForestEvents(n.kids)), from, End(n.tag.name, n.close));
  }

  lemma {:induction false} HarmfulForest(c: Codecs, s: Scan, ns: seq<Node>, from: nat)
    requires Settled(s) && !AllHarmless(ns) && AllTagged(ns) && from <= s.pos
    ensures Misled(Run(c, s, ForestEvents(ns)), from)
    ensures Run(c, s, ForestEvents(ns)).pos == s.pos + Size(ForestEvents(ns))
    decreases ns
  {
    hide Run, Document, NodeEvents, ForestEvents, Harmless, Tagged;
    RunForest(c, s, ns);
    if Harmless(ns[0]) {
      HarmlessSettles(c, s, ns[0]);
      HarmfulForest(c, Run(c, s, NodeEvents(ns[0])), ns[1..], from);
    } else {
      HarmfulMisleads(c, s, ns[0], from);
      ForestNoBad(ns[1..]);
      MisledForGood(c, Run(c, s, NodeEvents(ns[0])), from, ForestEvents(ns[1..]));
    }
  }

  // ------------------------------------------------------------ whole envelopes

  /** An envelope: whatever stands before Body, and one child in it; the rest is blank. */
  datatype Envelope = Envelope(
    prolog: seq<Node>,
    root: Tag,
    pre: seq<Node>,
    body: Tag,
    lead: seq<Node>,
    child: Node,
    trail: seq<Node>,
    bodyClose: string,
    after: seq<Node>,
    rootClose: string,
    epilog: seq<Node>)

  predicate Shaped(v: Envelope) {
    && AllBlank(v.prolog) && AllBlank(v.lead) && AllBlank(v.trail) && AllBlank(v.after) && AllBlank(v.epilog)
    && KindOf(v.root.name).Plain?
    && KindOf(v.body.name).Body?
    && (v.child.Element? || v.child.Leaf?)
    && AllTagged(v.pre)
  }

  function Opening(v: Envelope): seq<Event> {
    ForestEvents(v.prolog) + [Start(v.root)]
  }

  /** Everything in front of the operation. */
  function BeforeChild(v: Envelope): seq<Event> {
    Opening(v) + ForestEvents(v.pre) + ([Start(v.body)] + ForestEvents(v.lead))
  }

  function Closing(v: Envelope): seq<Event> {
    ForestEvents(v.trail) + [End(v.body.name, v.bodyClose)]
    + (ForestEvents(v.after) + [End(v.root.name, v.rootClose)] + ForestEvents(v.epilog))
  }

  function Events(v: Envelope): seq<Event> {
    BeforeChild(v) + NodeEvents(v.child) + Closing(v)
  }

  lemma OpeningSettles(c: Codecs, v: Envelope)
    requires Shaped(v)
    ensures Settled(Run(c, START, Opening(v)))
    ensures Run(c, START, Opening(v)).field.None?
    ensures Run(c, START, Opening(v)).pos == Size(Opening(v))
  {
    hide Run, Document, OnEvent, KindOf, ForestEvents;
    BlanksSkipped(c, START, v.prolog);
    RunConcat(c, START, ForestEvents(v.prolog), [Start(v.root)]);
    DocumentConcat(ForestEvents(v.prolog), [Start(v.root)]);
    var s := Run(c, START, ForestEvents(v.prolog));
    RunOne(c, s, Start(v.root));
    OutsideStep(c, s, Start(v.root));
  }

  /** Reaching the operation after a harmless header. */
  lemma ReachesChild(c: Codecs, v: Envelope)
    requires Shaped(v) && AllHarmless(v.pre)
    ensures var s := Run(c, START, BeforeChild(v));
      AtBody(s) && s.field.None? && s.pos == Size(BeforeChild(v))
  {
    hide Run, Document, OnEvent, KindOf, ForestEvents, Opening;
    OpeningSettles(c, v);
    var o := Opening(v);
    var s := Run(c, START, o);
    ForestSettles(c, s, v.pre);
    RunConcat(c, START, o, ForestEvents(v.pre));
    DocumentConcat(o, ForestEvents(v.pre));
    var t := Run(c, s, ForestEvents(v.pre));
    RunOne(c, t, Start(v.body));
    OutsideStep(c, t, Start(v.body));
    var u := OnEvent(c, t, Start(v.body));
    BlanksSkipped(c, u, v.lead);
    RunConcat(c, t, [Start(v.body)], ForestEvents(v.lead));
    DocumentConcat([Start(v.body)], ForestEvents(v.lead));
    RunConcat(c, START, o + ForestEvents(v.pre), [Start(v.body)] + ForestEvents(v.lead));
    DocumentConcat(o + ForestEvents(v.pre), [Start(v.body)] + ForestEvents(v.lead));
  }

  /** What the rest of the envelope leaves alone. */
  predicate SameFinding(s: Scan, t: Scan) {
    t.bad.None? && t.action == s.action && t.span == s.span && t.auth == s.auth
  }

  lemma ClosingLeaves(c: Codecs, s: Scan, v: Envelope)
    requires Shaped(v) && s.bad.None? && s.depth == 0 && s.field.None?
    ensures SameFinding(s, Run(c, s, Closing(v)))
  {
    hide Run, Document, OnEvent, KindOf, ForestEvents;
    var a, b := ForestEvents(v.trail), [End(v.body.name, v.bodyClose)];
    var d, e, f := ForestEvents(v.after), [End(v.root.name, v.rootClose)], ForestEvents(v.epilog);
    RunConcat(c, s, a + b, d + e + f);
    RunConcat(c, s, a, b);
    BlanksSkipped(c, s, v.trail);
    var s1 := Run(c, s, a);
    RunOne(c, s1, b[0]);
    EndLeaves(c, s1, v.body.name, v.bodyClose);
    var s2 := OnEvent(c, s1, b[0]);
    RunConcat(c, s2, d + e, f);
    RunConcat(c, s2, d, e);
    BlanksSkipped(c, s2, v.after);
    var s3 := Run(c, s2, d);
    RunOne(c, s3, e[0]);
    EndLeaves(c, s3, v.root.name, v.rootClose);
    BlanksSkipped(c, OnEvent(c, s3, e[0]), v.epilog);
  }

  lemma EndLeaves(c: Codecs, s: Scan, name: string, raw: string)
    requires s.bad.None? && s.depth == 0 && s.field.None? && (KindOf(name).Body? || KindOf(name).Plain?)
    ensures var t := OnEvent(c, s, End(name, raw));
      SameFinding(s, t) && t.depth == 0 && t.field.None?
  {
    hide KindOf;
  }

  /**
   The operation is found: with a harmless header, for a child tree of any depth and any
   names inside it, the scan gives the child's local name, exactly its text, and the
   credentials gathered before it.
   */
  lemma FindsOperation(c: Codecs, v: Envelope)
    requires Shaped(v) && AllHarmless(v.pre)
    ensures Run(c, START, Events(v)).span
         == Some((Size(BeforeChild(v)), Size(BeforeChild(v)) + Size(NodeEvents(v.child))))
    ensures Parse(c, Events(v)) == Success(ParsedRequest(
      LocalName(v.child.tag.name),
      Run(c, START, BeforeChild(v)).auth,
      Document(NodeEvents(v.child))))
  {
    hide Run, Document, OnEvent, KindOf, LocalName, ForestEvents, NodeEvents, BeforeChild, Closing;
    var before, mid, rest := BeforeChild(v), NodeEvents(v.child), Closing(v);
    ReachesChild(c, v);
    var s := Run(c, START, before);
    ChildFound(c, s, v.child);
    RunConcat(c, START, before + mid, rest);
    RunConcat(c, START, before, mid);
    ClosingLeaves(c, Found(s, v.child), v);
    DocumentConcat(before + mid, rest);
    DocumentConcat(before, mid);
    Middle(Document(before), Document(mid), Document(rest));
  }

  lemma Middle(a: string, b: string, c: string)
    ensures (a + b + c)[|a|..|a| + |b|] == b
  {
  }

  lemma EventsNoBad(v: Envelope)
    ensures NoBad(Events(v))
  {
    hide ForestEvents, NodeEvents;
    ForestNoBad(v.prolog);
    ForestNoBad(v.pre);
    ForestNoBad(v.lead);
    NodeNoBad(v.child);
    ForestNoBad(v.trail);
    ForestNoBad(v.after);
    ForestNoBad(v.epilog);
  }

  /** With a harmful header the extent starts inside that header, before the operation. */
  lemma HarmfulStartsEarly(c: Codecs, v: Envelope)
    requires Shaped(v) && !AllHarmless(v.pre)
    ensures Run(c, START, Events(v)).span.Some?
    ensures Size(Opening(v)) <= Run(c, START, Events(v)).span.value.0 < Size(Opening(v)) + Size(ForestEvents(v.pre))
    ensures Size(Opening(v)) + Size(ForestEvents(v.pre)) <= Size(BeforeChild(v))
  {
    hide Run, Document, OnEvent, KindOf, ForestEvents, NodeEvents, Opening, NoBad;
    var o, pre := Opening(v), ForestEvents(v.pre);
    var rest := [Start(v.body)] + ForestEvents(v.lead) + NodeEvents(v.child) + Closing(v);
    OpeningSettles(c, v);
    HarmfulForest(c, Run(c, START, o), v.pre, Size(o));
    RunConcat(c, START, o, pre);
    assert Events(v) == o + pre + rest;
    RunConcat(c, START, o + pre, rest);
    EventsNoBad(v);
    TailNoBad(o + pre, rest);
    MisledForGood(c, Run(c, START, o + pre), Size(o), rest);
    DocumentConcat(o + pre, [Start(v.body)] + ForestEvents(v.lead));
    DocumentConcat(o, pre);
  }

  lemma TailNoBad(a: seq<Event>, b: seq<Event>)
    requires NoBad(a + b)
    ensures NoBad(b)
  {
    forall i | 0 <= i < |b|
      ensures !b[i].Bad?
    {
      assert (a + b)[|a| + i] == b[i];
    }
  }

  /**
   The exact condition: the extent found is the operation's own if and only if nothing in
   front of Body is itself locally named Body and holds an element with content. (An
   empty element or text in such a header does no harm.)
   */
  lemma ExtentRightIff(c: Codecs, v: Envelope)
    requires Shaped(v)
    ensures Run(c, START, Events(v)).span
         == Some((Size(BeforeChild(v)), Size(BeforeChild(v)) + Size(NodeEvents(v.child))))
       <==> AllHarmless(v.pre)
  {
    hide Run, Document, ForestEvents, NodeEvents, BeforeChild, Closing, Events;
    if AllHarmless(v.pre) {
      FindsOperation(c, v);
    } else {
      HarmfulStartsEarly(c, v);
    }
  }

  /** A header block that quotes a whole body: the smallest envelope the scanner gets wrong. */
  const QUOTED_BODY: Node :=
    Element(Tag("env" + ":" + "Body", [], "<env:Body>"), [Element(Tag("old", [], "<old>"), [], "</old>")],
            "</env:Body>")

  function WithFalseBody(child: Node): Envelope {
    Envelope([], Tag("env" + ":" + "Envelope", [], "<env:Envelope>"),
             [Element(Tag("log", [], "<log>"), [QUOTED_BODY], "</log>")],
             Tag("env" + ":" + "Body", [], "<env:Body>"), [], child, [], "</env:Body>", [], "</env:Envelope>", [])
  }

  lemma QuotedBodyHarms()
    ensures KindOf(QUOTED_BODY.tag.name).Body? && !Harmless(QUOTED_BODY) && Tagged(QUOTED_BODY)
  {
    hide KindOf;
    EnvelopeNames();
    assert QUOTED_BODY.kids[0].Element?;
    var quoted := QUOTED_BODY.kids[0];
    assert AllTagged(quoted.kids);
    assert Tagged(quoted);
    assert QUOTED_BODY.kids[1..] == [];
    assert AllTagged(QUOTED_BODY.kids);
  }

  /** A concrete failure: the extent handed on starts in the header, in front of the operation. */
  lemma FalseBodyFails(c: Codecs, child: Node)
    requires child.Element? || child.Leaf?
    ensures var v := WithFalseBody(child);
      && Shaped(v)
      && Run(c, START, Events(v)).span.Some?
      && Run(c, START, Events(v)).span.value.0 < Size(BeforeChild(v))
  {
    hide KindOf, Run, Document, Events, BeforeChild;
    var v := WithFalseBody(child);
    EnvelopeNames();
    QuotedBodyHarms();
    var log := v.pre[0];
    assert log.kids[1..] == [] && v.pre[1..] == [];
    assert AllTagged(log.kids) && AllTagged(v.pre);
    assert !NoElement(log.kids) by {
      assert log.kids[0].Element?;
    }
    assert !AllHarmless(log.kids);
    assert !Harmless(log);
    assert !AllHarmless(v.pre);
    HarmfulStartsEarly(c, v);
  }

  // ------------------------------------------------------------ credentials

  /** A field of a username token: one of the four kinds, holding a text. */
  predicate IsField(n: Node) {
    n.Element? && IsFieldKind(KindOf(n.tag.name)) && |n.kids| == 1 && n.kids[0].Words?
  }

  predicate AllFields(ns: seq<Node>) {
    forall i :: 0 <= i < |ns| ==> IsField(ns[i])
  }

  function FieldOf(tag: Tag): Field {
    match KindOf(tag.name)
    case Username => UsernameField
    case Nonce => NonceField
    case Created => CreatedField
    case _ => if IsDigest(tag.attrs) then DigestField else TextField
  }

  /** What a list of fields adds up to; of two of the same kind the later one counts. */
  function Gathered(c: Codecs, p: Partial, ns: seq<Node>): Partial
    requires AllFields(ns)
    decreases |ns|
  {
    if ns == [] then p else Gathered(c, Gather(c, p, FieldOf(ns[0].tag), ns[0].kids[0].text), ns[1..])
  }

  /** Outside any body. */
  predicate Outside(s: Scan) {
    s.bad.None? && !s.inBody
  }

  lemma FieldRead(c: Codecs, s: Scan, n: Node)
    requires Outside(s) && s.inToken && s.field.None? && IsField(n)
    ensures Run(c, s, NodeEvents(n))
         == s.(partial := Gather(c, s.partial, FieldOf(n.tag), n.kids[0].text), pos := s.pos + Size(NodeEvents(n)))
  {
    hide Run, Document, KindOf, IsDigest, Gather, NodeEvents;
    RunElement(c, s, n);
    var s1 := OnEvent(c, s, Start(n.tag));
    OneWord(c, s1, n.kids);
  }

  lemma OneWord(c: Codecs, s: Scan, kids: seq<Node>)
    requires |kids| == 1 && kids[0].Words?
    ensures Run(c, s, ForestEvents(kids)) == OnEvent(c, s, Text(kids[0].text, kids[0].raw))
    ensures Size(ForestEvents(kids)) == |kids[0].raw|
  {
    hide OnEvent, Run, Document;
    RunForest(c, s, kids);
    RunOne(c, s, Text(kids[0].text, kids[0].raw));
    assert kids[1..] == [];
    RunNone(c, Run(c, s, NodeEvents(kids[0])));
  }

  lemma {:induction false} FieldsRead(c: Codecs, s: Scan, ns: seq<Node>)
    requires Outside(s) && s.inToken && s.field.None? && AllFields(ns)
    ensures Run(c, s, ForestEvents(ns))
         == s.(partial := Gathered(c, s.partial, ns), pos := s.pos + Size(ForestEvents(ns)))
    decreases |ns|
  {
    hide Run, Document, ForestEvents, NodeEvents, IsField, FieldOf, Gather;
    if ns == [] {
      RunNone(c, s);
    } else {
      RunForest(c, s, ns);
      FieldRead(c, s, ns[0]);
      assert IsField(ns[0]);
      assert ns[0].Element? && |ns[0].kids| == 1 && ns[0].kids[0].Words? by { FieldShape(ns[0]); }
      var p := Gather(c, s.partial, FieldOf(ns[0].tag), ns[0].kids[0].text);
      FieldsRead(c, s.(partial := p, pos := s.pos + Size(NodeEvents(ns[0]))), ns[1..]);
    }
  }

  lemma FieldShape(n: Node)
    requires IsField(n)
    ensures n.Element? && |n.kids| == 1 && n.kids[0].Words?
  {
  }

  /** A header with one username token in its security element. */
  predicate IsTokenHeader(n: Node) {
    && n.Element? && KindOf(n.tag.name).Header?
    && |n.kids| == 1 && n.kids[0].Element? && KindOf(n.kids[0].tag.name).Security?
    && |n.kids[0].kids| == 1 && n.kids[0].kids[0].Element?
    && KindOf(n.kids[0].kids[0].tag.name).UsernameToken?
    && AllFields(n.kids[0].kids[0].kids)
  }

  lemma OneKid(c: Codecs, s: Scan, kids: seq<Node>)
    requires |kids| == 1
    ensures Run(c, s, ForestEvents(kids)) == Run(c, s, NodeEvents(kids[0]))
  {
    hide OnEvent, Run, Document, NodeEvents;
    RunForest(c, s, kids);
    assert kids[1..] == [];
    RunNone(c, Run(c, s, NodeEvents(kids[0])));
  }

  /** The token of a header: a user and a credential make one, anything less makes none. */
  lemma TokenRead(c: Codecs, s: Scan, n: Node)
    requires Outside(s) && s.field.None? && IsTokenHeader(n)
    ensures Outside(Run(c, s, NodeEvents(n)))
    ensures var p := Gathered(c, s.partial, n.kids[0].kids[0].kids);
      Run(c, s, NodeEvents(n)).auth
      == if p.user.Some? && p.pw.Some?
         then Some(Auth(p.user.value, p.pw.value, p.created, p.createdText, p.nonce))
         else s.auth
  {
    hide Run, Document, KindOf, NodeEvents, ForestEvents, Gathered, AllFields;
    var security := n.kids[0];
    var token := security.kids[0];
    var s1 := OnEvent(c, s, Start(n.tag));
    var s2 := OnEvent(c, s1, Start(security.tag));
    var s3 := OnEvent(c, s2, Start(token.tag));
    RunElement(c, s, n);
    OneKid(c, s1, n.kids);
    RunElement(c, s1, security);
    OneKid(c, s2, security.kids);
    RunElement(c, s2, token);
    FieldsRead(c, s3, token.kids);
  }

  lemma FieldsHarmless(ns: seq<Node>)
    requires AllFields(ns)
    ensures AllHarmless(ns)
    decreases |ns|
  {
    hide KindOf;
    if ns != [] {
      assert IsField(ns[0]);
      var kids := ns[0].kids;
      assert Harmless(kids[0]);
      assert AllHarmless(kids[1..]) by { assert kids[1..] == []; }
      assert AllHarmless(kids);
      FieldsHarmless(ns[1..]);
    }
  }

  lemma OnlyHarmless(ns: seq<Node>)
    requires |ns| == 1 && Harmless(ns[0])
    ensures AllHarmless(ns)
  {
    assert ns[1..] == [];
  }

  lemma TokenHeaderHarmless(n: Node)
    requires IsTokenHeader(n)
    ensures Harmless(n)
  {
    hide KindOf, AllFields, AllHarmless;
    var security := n.kids[0];
    var token := security.kids[0];
    FieldsHarmless(token.kids);
    assert Harmless(token);
    OnlyHarmless(security.kids);
    assert Harmless(security);
    OnlyHarmless(n.kids);
  }

  /**
   A whole authenticated request: the operation with its extent, and the credentials of
   its header, whatever elements of the operation are named after header elements.
   */
  lemma AuthenticatedRequest(c: Codecs, v: Envelope)
    requires Shaped(v) && |v.pre| == 1 && IsTokenHeader(v.pre[0])
    requires var p := Gathered(c, NOTHING, v.pre[0].kids[0].kids[0].kids); p.user.Some? && p.pw.Some?
    ensures var p := Gathered(c, NOTHING, v.pre[0].kids[0].kids[0].kids);
      Parse(c, Events(v)) == Success(ParsedRequest(
        LocalName(v.child.tag.name),
        Some(Auth(p.user.value, p.pw.value, p.created, p.createdText, p.nonce)),
        Document(NodeEvents(v.child))))
  {
    hide Run, Document, KindOf, LocalName, NodeEvents, ForestEvents, Gathered, AllFields, Opening, Parse,
      Harmless, AllHarmless, Events, BeforeChild, Shaped;
    TokenHeaderHarmless(v.pre[0]);
    OnlyHarmless(v.pre);
    FindsOperation(c, v);
    AuthIsHeaders(c, v);
    StartsEmpty(c, v);
    OneKid(c, Run(c, START, Opening(v)), v.pre);
    OpeningSettles(c, v);
    TokenRead(c, Run(c, START, Opening(v)), v.pre[0]);
  }

  lemma TokenNames()
    ensures KindOf("s" + ":" + "Header").Header?
    ensures KindOf("w" + ":" + "Security").Security?
    ensures KindOf("w" + ":" + "UsernameToken").UsernameToken?
    ensures KindOf("w" + ":" + "Username").Username?
    ensures KindOf("w" + ":" + "Password").Password?
  {
    hide LocalName;
    LocalAfterPrefix("s", "Header");
    LocalAfterPrefix("w", "Security");
    LocalAfterPrefix("w", "UsernameToken");
    LocalAfterPrefix("w", "Username");
    LocalAfterPrefix("w", "Password");
  }

  function TokenHeader(user: string, password: string, attrs: seq<(string, string)>): Node {
    var u := Element(Tag("w" + ":" + "Username", [], "<u>"), [Words(user, user)], "</u>");
    var p := Element(Tag("w" + ":" + "Password", attrs, "<p>"), [Words(password, password)], "</p>");
    var t := Element(Tag("w" + ":" + "UsernameToken", [], "<t>"), [u, p], "</t>");
    Element(Tag("s" + ":" + "Header", [], "<h>"), [Element(Tag("w" + ":" + "Security", [], "<s>"), [t], "</s>")],
            "</h>")
  }

  /** A user and a password in the usual place: they are the credentials, a digest exactly if the type says so. */
  lemma UserAndPassword(c: Codecs, user: string, password: string, attrs: seq<(string, string)>)
    ensures var n := TokenHeader(user, password, attrs);
      && IsTokenHeader(n)
      && Gathered(c, NOTHING, n.kids[0].kids[0].kids)
         == NOTHING.(user := Some(user), pw := Some(if IsDigest(attrs) then Digest(password) else PlainText(password)))
  {
    hide KindOf, IsDigest;
    TokenNames();
    var fields := TokenHeader(user, password, attrs).kids[0].kids[0].kids;
    assert IsField(fields[0]) && IsField(fields[1]);
    var first := Gather(c, NOTHING, UsernameField, user);
    var second := Gather(c, first, FieldOf(fields[1].tag), password);
    assert Gathered(c, NOTHING, fields) == Gathered(c, first, fields[1..]);
    assert fields[1..] == [fields[1]];
    assert Gathered(c, first, [fields[1]]) == Gathered(c, second, [fields[1]][1..]);
    assert [fields[1]][1..] == [];
    assert Gathered(c, second, []) == second;
  }

  lemma MoreTokenNames()
    ensures KindOf("w" + ":" + "Nonce").Nonce?
    ensures KindOf("u" + ":" + "Created").Created?
  {
    hide LocalName;
    LocalAfterPrefix("w", "Nonce");
    LocalAfterPrefix("u", "Created");
  }

  function FieldElement(name: string, text: string): Node {
    Element(Tag(name, [], "<f>"), [Words(text, text)], "</f>")
  }

  /** The fields of a digest token: user, password, nonce and time of creation. */
  function DigestFields(user: string, password: string, attrs: seq<(string, string)>, nonce: string, created: string)
    : (fields: seq<Node>)
  {
    [FieldElement("w" + ":" + "Username", user),
     Element(Tag("w" + ":" + "Password", attrs, "<p>"), [Words(password, password)], "</p>"),
     FieldElement("w" + ":" + "Nonce", nonce),
     FieldElement("u" + ":" + "Created", created)]
  }

  /**
   All four fields: each text ends up where its name says, the nonce out of base64 and the
   time both as it was written, trimmed, and as it parses.
   */
  lemma DigestToken(
      c: Codecs, user: string, password: string, attrs: seq<(string, string)>, nonce: string, created: string)
    ensures var fields := DigestFields(user, password, attrs, nonce, created);
      && AllFields(fields)
      && Gathered(c, NOTHING, fields)
         == Partial(Some(user), Some(if IsDigest(attrs) then Digest(password) else PlainText(password)),
                    c.rfc3339(c.trim(created)), Some(c.trim(created)), c.base64(nonce))
  {
    hide KindOf, IsDigest;
    TokenNames();
    MoreTokenNames();
    var fields := DigestFields(user, password, attrs, nonce, created);
    assert AllFields(fields);
    var p1 := Gather(c, NOTHING, UsernameField, user);
    var p2 := Gather(c, p1, FieldOf(fields[1].tag), password);
    var p3 := Gather(c, p2, NonceField, nonce);
    var p4 := Gather(c, p3, CreatedField, created);
    assert fields[1..][1..] == fields[2..] && fields[2..][1..] == fields[3..] && fields[3..][1..] == [];
    assert Gathered(c, NOTHING, fields) == Gathered(c, p1, fields[1..]);
    assert Gathered(c, p1, fields[1..]) == Gathered(c, p2, fields[2..]);
    assert Gathered(c, p2, fields[2..]) == Gathered(c, p3, fields[3..]);
    assert Gathered(c, p3, fields[3..]) == Gathered(c, p4, []);
  }

  lemma DigestOccurs(uri: string)
    ensures Contains(uri + "#PasswordDigest", "#PasswordDigest")
  {
    var digest := uri + "#PasswordDigest";
    assert OccursAt("#PasswordDigest", digest, |uri|);
  }

  lemma TextDiffers()
    ensures !Contains("#PasswordText", "#PasswordDigest")
  {
  }

  /** The type that marks a digest, behind any URI, one that does not, and an attribute that is no type. */
  lemma DigestByType(uri: string)
    ensures IsDigest([("Type", uri + "#PasswordDigest")])
    ensures !IsDigest([("Type", "#PasswordText")])
    ensures !IsDigest([("Kind", uri + "#PasswordDigest")])
  {
    hide LocalName, Contains;
    PlainName("Type");
    PlainName("Kind");
    DigestOccurs(uri);
    TextDiffers();
    assert MarksDigest([("Type", uri + "#PasswordDigest")][0]);
  }

  lemma {:induction false} PlainName(name: string)
    requires ':' !in name
    ensures LocalName(name) == name
  {
    if name != [] {
      PlainName(name[..|name| - 1]);
    }
  }

  /** The body's own opening adds nothing to what the header gave. */
  lemma AuthIsHeaders(c: Codecs, v: Envelope)
    requires Shaped(v) && AllHarmless(v.pre)
    ensures Run(c, START, BeforeChild(v)).auth == Run(c, Run(c, START, Opening(v)), ForestEvents(v.pre)).auth
  {
    hide Run, Document, KindOf, ForestEvents, Opening;
    OpeningSettles(c, v);
    var o := Opening(v);
    var s := Run(c, START, o);
    ForestSettles(c, s, v.pre);
    var t := Run(c, s, ForestEvents(v.pre));
    RunConcat(c, START, o + ForestEvents(v.pre), [Start(v.body)] + ForestEvents(v.lead));
    RunConcat(c, START, o, ForestEvents(v.pre));
    RunConcat(c, t, [Start(v.body)], ForestEvents(v.lead));
    RunOne(c, t, Start(v.body));
    BlanksSkipped(c, OnEvent(c, t, Start(v.body)), v.lead);
  }

  /** Up to the root's start tag no credential has been seen. */
  lemma StartsEmpty(c: Codecs, v: Envelope)
    requires Shaped(v)
    ensures Run(c, START, Opening(v)).partial == NOTHING
  {
    hide Run, Document, KindOf, ForestEvents;
    BlanksSkipped(c, START, v.prolog);
    RunConcat(c, START, ForestEvents(v.prolog), [Start(v.root)]);
    RunOne(c, Run(c, START, ForestEvents(v.prolog)), Start(v.root));
  }

  // ------------------------------------------------------------ where credentials come from

  /** A token ends here, outside any body, with a user and a password gathered. */
  predicate Completes(c: Codecs, s: Scan, es: seq<Event>, k: nat)
    requires k < |es|
  {
    var t := Run(c, s, es[..k]);
    && es[k].End? && KindOf(es[k].name).UsernameToken?
    && Outside(t)
    && t.partial.user.Some? && t.partial.pw.Some?
  }

  function TokenOf(p: Partial): Auth
    requires p.user.Some? && p.pw.Some?
  {
    Auth(p.user.value, p.pw.value, p.created, p.createdText, p.nonce)
  }

  /** The last token completed over a list of events. */
  function LastToken(c: Codecs, s: Scan, es: seq<Event>): (k: Option<nat>)
    ensures k.Some? ==> k.value < |es| && Completes(c, s, es, k.value)
    ensures forall j :: 0 <= j < |es| && (k.None? || k.value < j) ==> !Completes(c, s, es, j)
  {
    if es == [] then None
    else
      var n := |es| - 1;
      assert forall j :: 0 <= j < n ==> es[..n][..j] == es[..j];
      assert forall j :: 0 <= j < n ==> (Completes(c, s, es[..n], j) <==> Completes(c, s, es, j));
      if Completes(c, s, es, n) then Some(n) else LastToken(c, s, es[..n])
  }

  lemma AuthStep(c: Codecs, s: Scan, e: Event)
    ensures OnEvent(c, s, e).auth
         == if e.End? && KindOf(e.name).UsernameToken? && Outside(s) && s.partial.user.Some? && s.partial.pw.Some?
            then Some(TokenOf(s.partial)) else s.auth
  {
    hide KindOf, LocalName, IsDigest, Gather;
  }

  /** Over any events the credentials are those of the last token completed, or else those there were. */
  lemma {:induction false} AuthIsLastToken(c: Codecs, s: Scan, es: seq<Event>)
    ensures Run(c, s, es).auth
         == var k := LastToken(c, s, es);
            if k.Some? then Some(TokenOf(Run(c, s, es[..k.value]).partial)) else s.auth
  {
    hide OnEvent, KindOf;
    if es != [] {
      var n := |es| - 1;
      AuthIsLastToken(c, s, es[..n]);
      AuthStep(c, Run(c, s, es[..n]), es[n]);
      if !Completes(c, s, es, n) {
        var k := LastToken(c, s, es[..n]);
        assert k.Some? ==> es[..n][..k.value] == es[..k.value];
      }
    }
  }

  /**
   Whatever follows the operation, inside Body or behind it: the credentials are those of
   the last token completed there, or, if none is, those gathered in front of it.
   */
  lemma CredentialsBehind(c: Codecs, v: Envelope, rest: seq<Event>)
    requires Shaped(v) && AllHarmless(v.pre)
    ensures var s := Run(c, START, BeforeChild(v));
      var found := Run(c, START, BeforeChild(v) + NodeEvents(v.child));
      var k := LastToken(c, found, rest);
      && found.auth == s.auth
      && Run(c, START, BeforeChild(v) + NodeEvents(v.child) + rest).auth
         == if k.None? then s.auth else Some(TokenOf(Run(c, found, rest[..k.value]).partial))
  {
    hide Run, Document, OnEvent, KindOf, LocalName, ForestEvents, NodeEvents, BeforeChild, LastToken, TokenOf;
    var before, mid := BeforeChild(v), NodeEvents(v.child);
    ReachesChild(c, v);
    ChildFound(c, Run(c, START, before), v.child);
    RunConcat(c, START, before, mid);
    RunConcat(c, START, before + mid, rest);
    AuthIsLastToken(c, Run(c, START, before + mid), rest);
  }

  // ------------------------------------------------------------ only in a security element of a header

  /** Nothing opens an element of one kind. */
  predicate Opens(es: seq<Event>, kind: Kind) {
    exists i :: 0 <= i < |es| && es[i].Start? && KindOf(es[i].tag.name) == kind
  }

  /** Outside a header, or a security element, and holding nothing of a token. */
  predicate Shut(s: Scan, header: bool) {
    && !s.inToken && s.field.None? && s.partial.user.None? && s.partial.pw.None? && !s.inSecurity
    && (header ==> !s.inHeader)
  }

  lemma StaysShut(c: Codecs, s: Scan, e: Event, header: bool)
    requires Shut(s, header) && !(e.Start? && KindOf(e.tag.name) == if header then Header else Security)
    ensures Shut(OnEvent(c, s, e), header) && OnEvent(c, s, e).auth == s.auth
  {
    hide KindOf, LocalName, IsDigest, Gather;
  }

  /**
   A token counts only in a security element, and that only in a header: over any events
   that open no header, or none that open a security element, the credentials stay what
   they were, whatever tokens there are.
   */
  lemma {:induction false} OnlyInHeader(c: Codecs, s: Scan, es: seq<Event>, header: bool)
    requires Shut(s, header) && !Opens(es, if header then Header else Security)
    ensures Shut(Run(c, s, es), header) && Run(c, s, es).auth == s.auth
  {
    hide OnEvent, KindOf, Shut;
    if es != [] {
      var n := |es| - 1;
      assert !(es[n].Start? && KindOf(es[n].tag.name) == if header then Header else Security);
      assert !Opens(es[..n], if header then Header else Security) by {
        forall i | 0 <= i < n && es[..n][i].Start?
          ensures KindOf(es[..n][i].tag.name) != if header then Header else Security
        {
          assert es[..n][i] == es[i];
        }
      }
      OnlyInHeader(c, s, es[..n], header);
      StaysShut(c, Run(c, s, es[..n]), es[n], header);
    }
  }

  /** So a request without a header, or with one that has no security element, has no credentials. */
  lemma NoHeaderNoCredentials(c: Codecs, es: seq<Event>)
    requires !Opens(es, Header) || !Opens(es, Security)
    ensures Run(c, START, es).auth.None?
  {
    OnlyInHeader(c, START, es, !Opens(es, Header));
  }

  /** No element of this name, at any depth. */
  predicate NoToken(n: Node)
    decreases n
  {
    n.Element? ==> !KindOf(n.tag.name).UsernameToken? && NoTokens(n.kids)
  }

  predicate NoTokens(ns: seq<Node>)
    decreases ns
  {
    ns == [] || (NoToken(ns[0]) && NoTokens(ns[1..]))
  }

  predicate NoTokenEnd(es: seq<Event>) {
    forall i :: 0 <= i < |es| && es[i].End? ==> !KindOf(es[i].name).UsernameToken?
  }

  lemma {:induction false} NodeNoToken(n: Node)
    requires NoToken(n)
    ensures NoTokenEnd(NodeEvents(n))
    decreases n
  {
    hide KindOf;
    if n.Element? {
      ForestNoToken(n.kids);
    }
  }

  lemma {:induction false} ForestNoToken(ns: seq<Node>)
    requires NoTokens(ns)
    ensures NoTokenEnd(ForestEvents(ns))
    decreases ns
  {
    hide KindOf;
    if ns != [] {
      NodeNoToken(ns[0]);
      ForestNoToken(ns[1..]);
    }
  }

  /** What a caller can check: siblings without a UsernameToken element leave the credentials alone. */
  lemma SiblingsLeaveCredentials(c: Codecs, s: Scan, ns: seq<Node>)
    requires NoTokens(ns)
    ensures Run(c, s, ForestEvents(ns)).auth == s.auth
  {
    hide KindOf, Run;
    ForestNoToken(ns);
    AuthIsLastToken(c, s, ForestEvents(ns));
  }

  // ------------------------------------------------------------ which siblings replace the credentials

  /** Outside any body, or at the top of one. */
  predicate AtTop(s: Scan) {
    s.bad.None? && s.depth == 0
  }

  predicate Resting(s: Scan) {
    AtTop(s) && !s.inBody
  }

  /** No token is being read. */
  predicate Calm(s: Scan) {
    !s.inToken && s.field.None? && s.partial.user.None? && s.partial.pw.None?
  }

  /** From one place between elements to another: no field is left pending, and no token. */
  predicate Passed(s: Scan, t: Scan) {
    && AtTop(t) && (!s.inBody ==> !t.inBody) && (s.field.None? ==> t.field.None?) && (Calm(s) ==> Calm(t))
    && (!s.inHeader ==> !t.inHeader) && (!s.inSecurity ==> !t.inSecurity)
  }

  lemma RestingStep(c: Codecs, s: Scan, e: Event)
    requires Resting(s) && !e.Bad?
    ensures var t := OnEvent(c, s, e);
      && AtTop(t)
      && (t.inBody <==> e.Start? && KindOf(e.tag.name).Body?)
      && (e.Start? && !IsFieldKind(KindOf(e.tag.name)) ==> t.field == s.field)
      && (e.End? ==> t.field == if IsFieldKind(KindOf(e.name)) then None else s.field)
      && (!e.Start? && !e.End? ==> t.field == s.field)
      && (Calm(s) && !(e.Start? && KindOf(e.tag.name).UsernameToken?) ==> Calm(t))
      && (e.End? && KindOf(e.name).UsernameToken? && s.field.None? ==> Calm(t))
      && (e.End? && KindOf(e.name).Header? ==> !t.inHeader)
      && (!s.inHeader && !(e.Start? && KindOf(e.tag.name).Header?) ==> !t.inHeader)
      && (e.End? && KindOf(e.name).Security? ==> !t.inSecurity)
      && (!s.inSecurity && !(e.Start? && KindOf(e.tag.name).Security?) ==> !t.inSecurity)
  {
    hide KindOf, LocalName, IsDigest, Gather;
  }

  /** Any element at all, read from outside a body. */
  lemma {:induction false} NodePasses(c: Codecs, s: Scan, n: Node)
    requires Resting(s)
    ensures Passed(s, Run(c, s, NodeEvents(n)))
    decreases n, 0
  {
    hide Run, Document, OnEvent, KindOf;
    if n.Element? {
      RunElement(c, s, n);
      RestingStep(c, s, Start(n.tag));
      var inner := OnEvent(c, s, Start(n.tag));
      if KindOf(n.tag.name).Body? {
        BodyPasses(c, inner, n.kids);
        BodyEnds(c, Run(c, inner, ForestEvents(n.kids)), n.tag.name, n.close);
      } else {
        ForestPasses(c, inner, n.kids);
        RestingStep(c, Run(c, inner, ForestEvents(n.kids)), End(n.tag.name, n.close));
      }
    } else {
      RunOne(c, s, NodeEvents(n)[0]);
      RestingStep(c, s, NodeEvents(n)[0]);
    }
  }

  lemma {:induction false} ForestPasses(c: Codecs, s: Scan, ns: seq<Node>)
    requires Resting(s)
    ensures Passed(s, Run(c, s, ForestEvents(ns)))
    decreases ns, 1
  {
    hide Run, Document, NodeEvents, ForestEvents;
    if ns == [] {
      RunNone(c, s);
    } else {
      RunForest(c, s, ns);
      NodePasses(c, s, ns[0]);
      ForestPasses(c, Run(c, s, NodeEvents(ns[0])), ns[1..]);
    }
  }

  /** In a body the first element is passed over as its child, and ends it. */
  lemma {:induction false} BodyPasses(c: Codecs, s: Scan, ns: seq<Node>)
    requires AtTop(s) && s.inBody
    ensures Passed(s, Run(c, s, ForestEvents(ns)))
    decreases ns, 2
  {
    hide Run, Document, ForestEvents, LocalName, Gather;
    if ns == [] {
      RunNone(c, s);
    } else {
      RunForest(c, s, ns);
      if ns[0].Element? {
        ChildPasses(c, s, ns[0]);
        ForestPasses(c, Run(c, s, NodeEvents(ns[0])), ns[1..]);
      } else {
        RunOne(c, s, NodeEvents(ns[0])[0]);
        BodyPasses(c, OnEvent(c, s, NodeEvents(ns[0])[0]), ns[1..]);
      }
    }
  }

  lemma ChildPasses(c: Codecs, s: Scan, n: Node)
    requires AtTop(s) && s.inBody && n.Element?
    ensures var t := Run(c, s, NodeEvents(n)); Passed(s, t) && Resting(t) && (Calm(s) ==> t.auth == s.auth)
  {
    hide Run, Document, KindOf, LocalName, Gather, ForestEvents;
    RunElement(c, s, n);
    var inner := OnEvent(c, s, Start(n.tag));
    DeepForest(c, inner, n.kids);
    if s.field.None? {
      InsideForest(c, inner, n.kids);
    }
  }

  lemma BodyEnds(c: Codecs, s: Scan, name: string, raw: string)
    requires AtTop(s) && (KindOf(name).Body? || KindOf(name).Plain?)
    ensures var t := OnEvent(c, s, End(name, raw));
      Passed(s, t) && Resting(t) && t.auth == s.auth && t.partial == s.partial
  {
    hide KindOf;
  }

  /**
   And a header ends where it ends: a security element behind any complete elements, headers
   among them, is in no header, and what is in it gives no credentials.
   */
  lemma LateSecurityIgnored(c: Codecs, ns: seq<Node>, es: seq<Event>)
    requires !Opens(es, Header)
    ensures Run(c, START, ForestEvents(ns) + es).auth == Run(c, START, ForestEvents(ns)).auth
  {
    hide Run, OnEvent, KindOf, ForestEvents, Opens;
    ForestPasses(c, START, ns);
    RunConcat(c, START, ForestEvents(ns), es);
    OnlyInHeader(c, Run(c, START, ForestEvents(ns)), es, true);
  }

  predicate HasUser(fields: seq<Node>)
    requires AllFields(fields)
  {
    exists i :: 0 <= i < |fields| && KindOf(fields[i].tag.name).Username?
  }

  predicate HasPassword(fields: seq<Node>)
    requires AllFields(fields)
  {
    exists i :: 0 <= i < |fields| && KindOf(fields[i].tag.name).Password?
  }

  /** A token header with a user and a password. */
  predicate Replaces(n: Node) {
    IsTokenHeader(n) && HasUser(n.kids[0].kids[0].kids) && HasPassword(n.kids[0].kids[0].kids)
  }

  predicate SomeReplaces(ns: seq<Node>) {
    ns != [] && (Replaces(ns[0]) || SomeReplaces(ns[1..]))
  }

  /** Each either a token header or without a token at any depth. */
  predicate AllLegible(ns: seq<Node>) {
    forall i :: 0 <= i < |ns| ==> NoToken(ns[i]) || IsTokenHeader(ns[i])
  }

  lemma {:induction false} GatheredHas(c: Codecs, p: Partial, fields: seq<Node>)
    requires AllFields(fields)
    ensures Gathered(c, p, fields).user.Some? <==> p.user.Some? || HasUser(fields)
    ensures Gathered(c, p, fields).pw.Some? <==> p.pw.Some? || HasPassword(fields)
    decreases |fields|
  {
    hide KindOf, IsDigest;
    if fields != [] {
      assert IsField(fields[0]);
      var rest := fields[1..];
      GatheredHas(c, Gather(c, p, FieldOf(fields[0].tag), fields[0].kids[0].text), rest);
      assert forall i :: 0 < i < |fields| ==> fields[i] == rest[i - 1];
      assert HasUser(fields) <==> KindOf(fields[0].tag.name).Username? || HasUser(rest) by {
        if HasUser(rest) {
          var i :| 0 <= i < |rest| && KindOf(rest[i].tag.name).Username?;
          assert fields[i + 1] == rest[i];
        }
      }
      assert HasPassword(fields) <==> KindOf(fields[0].tag.name).Password? || HasPassword(rest) by {
        if HasPassword(rest) {
          var i :| 0 <= i < |rest| && KindOf(rest[i].tag.name).Password?;
          assert fields[i + 1] == rest[i];
        }
      }
    }
  }

  /**
   What a token header leaves gathered: nothing if it was complete, and otherwise all but
   user and password, which the next token then has as its own.
   */
  lemma TokenLeaves(c: Codecs, s: Scan, n: Node)
    requires Outside(s) && s.field.None? && s.partial.user.None? && s.partial.pw.None? && IsTokenHeader(n)
    ensures var p := Gathered(c, s.partial, n.kids[0].kids[0].kids);
      var t := Run(c, s, NodeEvents(n));
      && Outside(t) && t.field.None?
      && t.partial == (if Replaces(n) then NOTHING else p.(user := None, pw := None))
  {
    hide Run, Document, KindOf, NodeEvents, ForestEvents, Gathered, AllFields, HasUser, HasPassword;
    var security := n.kids[0];
    var token := security.kids[0];
    var s1 := OnEvent(c, s, Start(n.tag));
    var s2 := OnEvent(c, s1, Start(security.tag));
    var s3 := OnEvent(c, s2, Start(token.tag));
    RunElement(c, s, n);
    OneKid(c, s1, n.kids);
    RunElement(c, s1, security);
    OneKid(c, s2, security.kids);
    RunElement(c, s2, token);
    FieldsRead(c, s3, token.kids);
    GatheredHas(c, s.partial, token.kids);
  }

  /** A token header with a nonce and nothing else. */
  function NonceHeader(nonce: string): Node {
    var t := Element(Tag("w" + ":" + "UsernameToken", [], "<t>"), [FieldElement("w" + ":" + "Nonce", nonce)], "</t>");
    Element(Tag("s" + ":" + "Header", [], "<h>"), [Element(Tag("w" + ":" + "Security", [], "<s>"), [t], "</s>")],
            "</h>")
  }

  /** So the nonce of a token without a user turns up in the credentials of the one behind it. */
  lemma StaleNonce(c: Codecs, s: Scan, nonce: string, user: string, password: string, attrs: seq<(string, string)>)
    requires Outside(s) && s.field.None? && s.partial == NOTHING
    ensures var t := Run(c, s, NodeEvents(NonceHeader(nonce)));
      var credential := if IsDigest(attrs) then Digest(password) else PlainText(password);
      && t.auth == s.auth
      && Run(c, t, NodeEvents(TokenHeader(user, password, attrs))).auth
         == Some(Auth(user, credential, None, None, c.base64(nonce)))
  {
    hide KindOf, Run, NodeEvents, IsDigest, TokenHeader;
    var n := NonceHeader(nonce);
    TokenNames();
    MoreTokenNames();
    var fields := n.kids[0].kids[0].kids;
    assert IsField(fields[0]) && !KindOf(fields[0].tag.name).Username? && !KindOf(fields[0].tag.name).Password?;
    assert IsTokenHeader(n) && !Replaces(n);
    OneNonce(c, nonce);
    TokenLeaves(c, s, n);
    TokenRead(c, s, n);
    GatheredHas(c, NOTHING, fields);
    var t := Run(c, s, NodeEvents(n));
    UserAndPassword(c, user, password, attrs);
    BesideNonce(c, t.partial, user, password, attrs);
    TokenRead(c, t, TokenHeader(user, password, attrs));
  }

  lemma OneNonce(c: Codecs, nonce: string)
    requires AllFields(NonceHeader(nonce).kids[0].kids[0].kids)
    requires KindOf("w" + ":" + "Nonce").Nonce?
    ensures Gathered(c, NOTHING, NonceHeader(nonce).kids[0].kids[0].kids) == NOTHING.(nonce := c.base64(nonce))
  {
    hide KindOf;
    var fields := NonceHeader(nonce).kids[0].kids[0].kids;
    var p := Gather(c, NOTHING, NonceField, nonce);
    assert fields[1..] == [];
    assert Gathered(c, NOTHING, fields) == Gathered(c, p, fields[1..]);
  }

  /** User and password, gathered beside whatever else there is. */
  lemma BesideNonce(c: Codecs, p: Partial, user: string, password: string, attrs: seq<(string, string)>)
    requires AllFields(TokenHeader(user, password, attrs).kids[0].kids[0].kids)
    ensures Gathered(c, p, TokenHeader(user, password, attrs).kids[0].kids[0].kids)
         == p.(user := Some(user), pw := Some(if IsDigest(attrs) then Digest(password) else PlainText(password)))
  {
    hide KindOf, IsDigest;
    TokenNames();
    var fields := TokenHeader(user, password, attrs).kids[0].kids[0].kids;
    var first := Gather(c, p, UsernameField, user);
    var second := Gather(c, first, FieldOf(fields[1].tag), password);
    assert Gathered(c, p, fields) == Gathered(c, first, fields[1..]);
    assert fields[1..] == [fields[1]];
    assert Gathered(c, first, [fields[1]]) == Gathered(c, second, [fields[1]][1..]);
    assert [fields[1]][1..] == [];
    assert Gathered(c, second, []) == second;
  }

  /** What became of the credentials: others took their place, or they are the same. */
  predicate Outcome(s: Scan, t: Scan, replaced: bool) {
    if replaced then t.auth.Some? else t.auth == s.auth
  }

  lemma SiblingDecides(c: Codecs, s: Scan, n: Node)
    requires Resting(s) && Calm(s) && (NoToken(n) || IsTokenHeader(n))
    ensures Outcome(s, Run(c, s, NodeEvents(n)), Replaces(n))
  {
    hide Run, KindOf, NodeEvents, ForestEvents, Gathered, HasUser, HasPassword, AllFields, NoTokenEnd;
    if IsTokenHeader(n) {
      TokenRead(c, s, n);
      GatheredHas(c, s.partial, n.kids[0].kids[0].kids);
    } else {
      NodeNoToken(n);
      NoTokenNoChange(c, s, NodeEvents(n));
    }
  }

  lemma NoTokenNoChange(c: Codecs, s: Scan, es: seq<Event>)
    requires NoTokenEnd(es)
    ensures Run(c, s, es).auth == s.auth
  {
    hide KindOf, Run;
    AuthIsLastToken(c, s, es);
  }

  lemma {:induction false} SiblingsDecide(c: Codecs, s: Scan, ns: seq<Node>)
    requires Resting(s) && Calm(s) && AllLegible(ns)
    ensures Outcome(s, Run(c, s, ForestEvents(ns)), SomeReplaces(ns))
    decreases |ns|
  {
    hide Run, Document, NodeEvents, ForestEvents, Replaces, NoToken, IsTokenHeader;
    if ns == [] {
      RunNone(c, s);
    } else {
      RunForest(c, s, ns);
      NodePasses(c, s, ns[0]);
      SiblingDecides(c, s, ns[0]);
      SiblingsDecide(c, Run(c, s, NodeEvents(ns[0])), ns[1..]);
    }
  }

  /** Behind an empty operation the first element of Body is taken for the operation, and is not looked into. */
  function Seen(child: Node, ns: seq<Node>): seq<Node>
    decreases |ns|
  {
    if child.Element? || ns == [] then ns
    else if ns[0].Element? then ns[1..] else Seen(child, ns[1..])
  }

  lemma {:induction false} SeenDecide(c: Codecs, s: Scan, child: Node, ns: seq<Node>)
    requires AtTop(s) && Calm(s) && (s.inBody <==> !child.Element?) && AllLegible(ns)
    ensures var t := Run(c, s, ForestEvents(ns));
      AtTop(t) && Calm(t) && Outcome(s, t, SomeReplaces(Seen(child, ns)))
    decreases |ns|
  {
    hide Run, Document, ForestEvents, NoToken, IsTokenHeader, Replaces, LocalName;
    if child.Element? {
      ForestPasses(c, s, ns);
      SiblingsDecide(c, s, ns);
    } else if ns == [] {
      RunNone(c, s);
    } else {
      RunForest(c, s, ns);
      if ns[0].Element? {
        ChildPasses(c, s, ns[0]);
        var t := Run(c, s, NodeEvents(ns[0]));
        ForestPasses(c, t, ns[1..]);
        SiblingsDecide(c, t, ns[1..]);
      } else {
        RunOne(c, s, NodeEvents(ns[0])[0]);
        SeenDecide(c, OnEvent(c, s, NodeEvents(ns[0])[0]), child, ns[1..]);
      }
    }
  }

  /** The rest of an envelope with siblings `ns` of the operation and `ms` of Body. */
  function Following(v: Envelope, ns: seq<Node>, ms: seq<Node>): seq<Event> {
    ForestEvents(ns) + [End(v.body.name, v.bodyClose)]
    + (ForestEvents(ms) + [End(v.root.name, v.rootClose)] + ForestEvents(v.epilog))
  }

  lemma FollowingDecides(c: Codecs, s: Scan, v: Envelope, ns: seq<Node>, ms: seq<Node>)
    requires Shaped(v) && AllLegible(ns) && AllLegible(ms)
    requires AtTop(s) && Calm(s) && (s.inBody <==> !v.child.Element?)
    ensures Outcome(s, Run(c, s, Following(v, ns, ms)), SomeReplaces(Seen(v.child, ns)) || SomeReplaces(ms))
  {
    hide Run, Document, OnEvent, KindOf, ForestEvents, AllLegible, Seen, SomeReplaces;
    var a, b := ForestEvents(ns), [End(v.body.name, v.bodyClose)];
    var d, e, f := ForestEvents(ms), [End(v.root.name, v.rootClose)], ForestEvents(v.epilog);
    RunConcat(c, s, a + b, d + e + f);
    RunConcat(c, s, a, b);
    SeenDecide(c, s, v.child, ns);
    var s1 := Run(c, s, a);
    RunOne(c, s1, b[0]);
    BodyEnds(c, s1, v.body.name, v.bodyClose);
    var s2 := OnEvent(c, s1, b[0]);
    RunConcat(c, s2, d + e, f);
    RunConcat(c, s2, d, e);
    SiblingsDecide(c, s2, ms);
    ForestPasses(c, s2, ms);
    var s3 := Run(c, s2, d);
    RunOne(c, s3, e[0]);
    BodyEnds(c, s3, v.root.name, v.rootClose);
    BlanksSkipped(c, OnEvent(c, s3, e[0]), v.epilog);
  }

  /** Right behind the operation no token is being read, whatever the front was. */
  lemma CalmBehind(c: Codecs, v: Envelope)
    requires Shaped(v) && AllHarmless(v.pre)
    ensures var s := Run(c, START, BeforeChild(v) + NodeEvents(v.child));
      && AtTop(s) && Calm(s) && (s.inBody <==> !v.child.Element?)
      && s.auth == Run(c, START, BeforeChild(v)).auth
  {
    hide Run, Document, OnEvent, KindOf, LocalName, ForestEvents, NodeEvents, Opening, AllHarmless;
    var before, o, pre := BeforeChild(v), Opening(v), ForestEvents(v.pre);
    OpeningSettles(c, v);
    StartsCalm(c, v);
    var s := Run(c, START, o);
    ForestPasses(c, s, v.pre);
    var t := Run(c, s, pre);
    RunConcat(c, START, o, pre);
    RunConcat(c, START, o + pre, [Start(v.body)] + ForestEvents(v.lead));
    RunConcat(c, t, [Start(v.body)], ForestEvents(v.lead));
    RunOne(c, t, Start(v.body));
    RestingStep(c, t, Start(v.body));
    BlanksSkipped(c, OnEvent(c, t, Start(v.body)), v.lead);
    ReachesChild(c, v);
    ChildFound(c, Run(c, START, before), v.child);
    RunConcat(c, START, before, NodeEvents(v.child));
  }

  lemma StartsCalm(c: Codecs, v: Envelope)
    requires Shaped(v)
    ensures Calm(Run(c, START, Opening(v)))
  {
    hide Run, Document, KindOf, ForestEvents;
    BlanksSkipped(c, START, v.prolog);
    RunConcat(c, START, ForestEvents(v.prolog), [Start(v.root)]);
    RunOne(c, Run(c, START, ForestEvents(v.prolog)), Start(v.root));
  }

  /** Whatever credentials there are, these events leave them. */
  ghost predicate Survive(c: Codecs, s: Scan, es: seq<Event>) {
    forall auth :: Run(c, Bearing(s, auth), es).auth == auth
  }

  function Bearing(s: Scan, auth: Option<Auth>): Scan {
    s.(auth := auth)
  }

  /**
   The exact condition, on the tree, with any siblings behind the operation in Body and
   behind Body, each a token header or without a token: whatever credentials the front
   gave survive if and only if no token header the scanner sees there has both a user and a
   password.
   */
  lemma CredentialsFromFrontIff(c: Codecs, v: Envelope, ns: seq<Node>, ms: seq<Node>)
    requires Shaped(v) && AllHarmless(v.pre) && AllLegible(ns) && AllLegible(ms)
    ensures var found := Run(c, START, BeforeChild(v) + NodeEvents(v.child));
      && found.auth == Run(c, START, BeforeChild(v)).auth
      && (Survive(c, found, Following(v, ns, ms)) <==> !SomeReplaces(Seen(v.child, ns)) && !SomeReplaces(ms))
  {
    hide Run, NodeEvents, BeforeChild, Following, SomeReplaces, Seen, AllLegible, Shaped, AllHarmless;
    CalmBehind(c, v);
    var found := Run(c, START, BeforeChild(v) + NodeEvents(v.child));
    forall auth
      ensures Outcome(Bearing(found, auth), Run(c, Bearing(found, auth), Following(v, ns, ms)),
                      SomeReplaces(Seen(v.child, ns)) || SomeReplaces(ms))
    {
      FollowingDecides(c, Bearing(found, auth), v, ns, ms);
    }
    if SomeReplaces(Seen(v.child, ns)) || SomeReplaces(ms) {
      assert Run(c, Bearing(found, None), Following(v, ns, ms)).auth != None;
    }
  }

  /**
   Such a header is believed where it stands: behind an element operation it gives the
   credentials, though nothing in front of it did.
   */
  lemma TokenBehindCounts(c: Codecs, v: Envelope, user: string, password: string, attrs: seq<(string, string)>)
    requires Shaped(v) && v.pre == [] && v.child.Element?
    ensures var credential := if IsDigest(attrs) then Digest(password) else PlainText(password);
      && Run(c, START, BeforeChild(v) + NodeEvents(v.child)).auth.None?
      && Run(c, START, BeforeChild(v) + NodeEvents(v.child) + NodeEvents(TokenHeader(user, password, attrs))).auth
         == Some(Auth(user, credential, None, None, None))
  {
    hide Run, Document, KindOf, LocalName, ForestEvents, NodeEvents, BeforeChild, IsTokenHeader, TokenHeader, Gathered,
      IsDigest;
    assert AllHarmless(v.pre);
    var before, mid := BeforeChild(v), NodeEvents(v.child);
    ReachesChild(c, v);
    ChildFound(c, Run(c, START, before), v.child);
    RunConcat(c, START, before, mid);
    var n := TokenHeader(user, password, attrs);
    RunConcat(c, START, before + mid, NodeEvents(n));
    NothingInFront(c, v);
    UserAndPassword(c, user, password, attrs);
    TokenRead(c, Run(c, START, before + mid), n);
  }

  lemma NothingInFront(c: Codecs, v: Envelope)
    requires Shaped(v) && v.pre == []
    ensures Run(c, START, BeforeChild(v)).auth.None? && Run(c, START, BeforeChild(v)).partial == NOTHING
  {
    hide Run, Document, KindOf, ForestEvents, Opening;
    NoEvents();
    var o := Opening(v);
    OpeningSettles(c, v);
    StartsEmpty(c, v);
    NoAuthYet(c, v);
    var s := Run(c, START, o);
    assert o + [] == o;
    RunConcat(c, START, o, [Start(v.body)] + ForestEvents(v.lead));
    RunConcat(c, s, [Start(v.body)], ForestEvents(v.lead));
    RunOne(c, s, Start(v.body));
    BlanksSkipped(c, OnEvent(c, s, Start(v.body)), v.lead);
  }

  // ------------------------------------------------------------ wrapping a body

  const DECLARATION := "<?xml version=\"1.0\" encoding=\"UTF-8\"?>"
  const ROOT_OPEN := "<env:Envelope xmlns:env=\"http://www.w3.org/2003/05/soap-envelope\" "
  const BODY_OPEN := "<env:Body>"
  const BODY_CLOSE := "</env:Body>"
  const ROOT_CLOSE := "</env:Envelope>"

  method WrapEnvelope(bodyXml: string, xmlnsExtra: string) returns (out: string)
    ensures out == Wrapped(bodyXml, xmlnsExtra)
  {
    out := "";
    out := out + (DECLARATION + ROOT_OPEN);
    out := out + xmlnsExtra;
    out := out + (">" + BODY_OPEN);
    out := out + bodyXml;
    out := out + (BODY_CLOSE + ROOT_CLOSE);
    Regrouped(DECLARATION, ROOT_OPEN, xmlnsExtra, ">", BODY_OPEN, bodyXml, BODY_CLOSE, ROOT_CLOSE);
  }

  lemma Regrouped(a: string, b: string, c: string, d: string, e: string, f: string, g: string, h: string)
    ensures "" + (a + b) + c + (d + e) + f + (g + h) == a + (b + c + d) + e + f + g + h
  {
  }

  function Wrapped(bodyXml: string, xmlnsExtra: string): string {
    DECLARATION + (ROOT_OPEN + xmlnsExtra + ">") + BODY_OPEN + bodyXml + BODY_CLOSE + ROOT_CLOSE
  }

  /** The text around a body, written out. */
  lemma WrappedLiterally(body: string)
    ensures Wrapped(body, "")
         == "<?xml version=\"1.0\" encoding=\"UTF-8\"?>"
            + "<env:Envelope xmlns:env=\"http://www.w3.org/2003/05/soap-envelope\" >" + "<env:Body>" + body
            + "</env:Body></env:Envelope>"
  {
    var root := "<env:Envelope xmlns:env=\"http://www.w3.org/2003/05/soap-envelope\" >";
    assert ROOT_OPEN + "" + ">" == root;
    assert BODY_CLOSE + ROOT_CLOSE == "</env:Body></env:Envelope>";
  }

  /** The envelope a reader makes of a wrapped body; the root's attributes play no part. */
  function WrappedAs(child: Node, xmlnsExtra: string, attrs: seq<(string, string)>): Envelope {
    Envelope([Other(DECLARATION)], Tag("env" + ":" + "Envelope", attrs, ROOT_OPEN + xmlnsExtra + ">"), [],
             Tag("env" + ":" + "Body", [], BODY_OPEN), [], child, [], BODY_CLOSE, [], ROOT_CLOSE, [])
  }

  /** The name after a prefix is the local name. */
  lemma {:induction false} LocalAfterPrefix(prefix: string, local: string)
    requires ':' !in local
    ensures LocalName(prefix + ":" + local) == local
  {
    var q := prefix + ":" + local;
    if local == "" {
      assert q[|q| - 1] == ':';
    } else {
      var n := |local| - 1;
      assert q[|q| - 1] == local[n];
      assert q[..|q| - 1] == prefix + ":" + local[..n];
      LocalAfterPrefix(prefix, local[..n]);
    }
  }

  lemma EnvelopeNames()
    ensures KindOf("env" + ":" + "Envelope").Plain?
    ensures KindOf("env" + ":" + "Body").Body?
  {
    hide LocalName;
    LocalAfterPrefix("env", "Envelope");
    LocalAfterPrefix("env", "Body");
  }

  lemma NoEvents()
    ensures ForestEvents([]) == [] && Document([]) == ""
  {
  }

  lemma WrappedText(child: Node, xmlnsExtra: string, attrs: seq<(string, string)>)
    ensures Document(Events(WrappedAs(child, xmlnsExtra, attrs)))
         == Wrapped(Document(NodeEvents(child)), xmlnsExtra)
  {
    hide Run, Document, ForestEvents, NodeEvents;
    var v := WrappedAs(child, xmlnsExtra, attrs);
    NoEvents();
    var d := Skipped(DECLARATION);
    var front := [d, Start(v.root), Start(v.body)];
    var back := [End(v.body.name, BODY_CLOSE), End(v.root.name, ROOT_CLOSE)];
    OneOther(DECLARATION);
    assert BeforeChild(v) == front;
    assert Closing(v) == back;
    DocumentConcat(front + NodeEvents(child), back);
    DocumentConcat(front, NodeEvents(child));
    assert front == [d] + [Start(v.root)] + [Start(v.body)];
    DocumentConcat([d] + [Start(v.root)], [Start(v.body)]);
    DocumentConcat([d], [Start(v.root)]);
    assert back == [End(v.body.name, BODY_CLOSE)] + [End(v.root.name, ROOT_CLOSE)];
    DocumentConcat([End(v.body.name, BODY_CLOSE)], [End(v.root.name, ROOT_CLOSE)]);
    DocumentOne(d);
    DocumentOne(Start(v.root));
    DocumentOne(Start(v.body));
    DocumentOne(End(v.body.name, BODY_CLOSE));
    DocumentOne(End(v.root.name, ROOT_CLOSE));
    assert (Document(front) + Document(NodeEvents(child))) + (BODY_CLOSE + ROOT_CLOSE)
        == Document(front) + Document(NodeEvents(child)) + BODY_CLOSE + ROOT_CLOSE;
  }

  lemma OneOther(raw: string)
    ensures ForestEvents([Other(raw)]) == [Skipped(raw)]
  {
    assert [Other(raw)][1..] == [];
  }

  lemma DocumentOne(e: Event)
    ensures Document([e]) == Raw(e)
  {
    assert [e][..0] == [];
    assert "" + Raw(e) == Raw(e);
  }

  /** Scanning a wrapped body gives the body back, with its operation and no credentials. */
  lemma WrapRoundTrip(c: Codecs, child: Node, xmlnsExtra: string, attrs: seq<(string, string)>)
    requires child.Element? || child.Leaf?
    ensures var es := Events(WrappedAs(child, xmlnsExtra, attrs));
      && Document(es) == Wrapped(Document(NodeEvents(child)), xmlnsExtra)
      && Parse(c, es) == Success(ParsedRequest(LocalName(child.tag.name), None, Document(NodeEvents(child))))
  {
    hide Run, Document, KindOf, LocalName, ForestEvents, NodeEvents, Parse, Events, BeforeChild, OnEvent, Wrapped;
    var v := WrappedAs(child, xmlnsExtra, attrs);
    EnvelopeNames();
    WrappedText(child, xmlnsExtra, attrs);
    FindsOperation(c, v);
    AuthIsHeaders(c, v);
    RunNone(c, Run(c, START, Opening(v)));
    NoAuthYet(c, v);
  }

  lemma NoAuthYet(c: Codecs, v: Envelope)
    requires Shaped(v)
    ensures Run(c, START, Opening(v)).auth.None?
  {
    hide Run, Document, KindOf, ForestEvents;
    BlanksSkipped(c, START, v.prolog);
    RunConcat(c, START, ForestEvents(v.prolog), [Start(v.root)]);
    RunOne(c, Run(c, START, ForestEvents(v.prolog)), Start(v.root));
  }
}
