/**
 The SOAP envelope scanner, over the events of an XML reader. Every event carries the
 stretch of the document it was read from, leading whitespace included, so the
 document is the concatenation of those stretches and a position is a length.
 */
module Soap {
  import opened Wrappers
  import opened Bytes

  datatype Tag = Tag(name: string, attrs: seq<(string, string)>, raw: string)

  datatype Event =
    | Start(tag: Tag)
    | End(name: string, raw: string)
    | Empty(tag: Tag)
    | Text(text: string, raw: string)
    | Skipped(raw: string)
    | Bad

  function Raw(e: Event): string {
    match e
    case Start(tag) => tag.raw
    case End(_, raw) => raw
    case Empty(tag) => tag.raw
    case Text(_, raw) => raw
    case Skipped(raw) => raw
    case Bad => ""
  }

  /** The document the events were read from. */
  function Document(es: seq<Event>): string {
    if es == [] then "" else Document(es[..|es| - 1]) + Raw(es[|es| - 1])
  }

  /** What follows the last colon of a qualified name. */
  function LocalName(qname: string): (local: string)
    ensures ':' !in local
    ensures local == qname || (|local| < |qname| && qname[|qname| - |local| - 1..] == [':'] + local)
  {
    if qname == [] then []
    else if qname[|qname| - 1] == ':' then []
    else
      var n := |qname| - 1;
      var before := LocalName(qname[..n]);
      assert qname == qname[..n] + [qname[n]];
      assert |before| < n ==> qname[n - |before| - 1..] == qname[..n][n - |before| - 1..] + [qname[n]];
      before + [qname[n]]
  }

  /** The names the scanner tells apart. */
  datatype Kind = Header | Security | UsernameToken | Username | Password | Nonce | Created | Body | Plain

  function KindOf(qname: string): Kind {
    var name := LocalName(qname);
    if name == "Header" then Header
    else if name == "Security" then Security
    else if name == "UsernameToken" then UsernameToken
    else if name == "Username" then Username
    else if name == "Password" then Password
    else if name == "Nonce" then Nonce
    else if name == "Created" then Created
    else if name == "Body" then Body
    else Plain
  }

  // ------------------------------------------------------------ the scanner's state

  datatype Credential = PlainText(text: string) | Digest(text: string)

  datatype Auth = Auth(
    username: string,
    credential: Credential,
    created: Option<int>,
    createdText: Option<string>,
    nonce: Option<seq<byte>>)

  datatype Field = UsernameField | TextField | DigestField | NonceField | CreatedField

  /** Text trimming, base64 and RFC 3339 parsing, which the scanner only calls. */
  datatype Codecs = Codecs(
    trim: string -> string,
    base64: string -> Option<seq<byte>>,
    rfc3339: string -> Option<int>)

  /** What has been gathered of the username token being read. */
  datatype Partial = Partial(
    user: Option<string>,
    pw: Option<Credential>,
    created: Option<int>,
    createdText: Option<string>,
    nonce: Option<seq<byte>>)

  const NOTHING: Partial := Partial(None, None, None, None, None)

  datatype Scan = Scan(
    pos: nat,
    bad: Option<nat>,
    auth: Option<Auth>,
    inHeader: bool,
    inSecurity: bool,
    inToken: bool,
    partial: Partial,
    field: Option<Field>,
    action: Option<string>,
    span: Option<(nat, nat)>,
    inBody: bool,
    depth: nat,
    childStart: Option<nat>)

  const START: Scan := Scan(0, None, None, false, false, false, NOTHING, None, None, None, false, 0, None)

  predicate OccursAt(part: string, s: string, i: nat) {
    i + |part| <= |s| && s[i..i + |part|] == part
  }

  predicate Contains(s: string, part: string) {
    exists i: nat :: i <= |s| && OccursAt(part, s, i)
  }

  /** An attribute that marks the password as a digest. */
  predicate MarksDigest(attr: (string, string)) {
    LocalName(attr.0) == "Type" && Contains(attr.1, "#PasswordDigest")
  }

  predicate IsDigest(attrs: seq<(string, string)>) {
    exists i :: 0 <= i < |attrs| && MarksDigest(attrs[i])
  }

  function OnStart(s: Scan, tag: Tag): Scan {
    if s.inBody then
      if s.childStart.None?
      then s.(action := Some(LocalName(tag.name)), childStart := Some(s.pos), depth := 1)
      else s.(depth := s.depth + 1)
    else
      match KindOf(tag.name)
      case Header => s.(inHeader := true)
      case Security => if s.inHeader then s.(inSecurity := true) else s
      case UsernameToken => if s.inSecurity then s.(inToken := true) else s
      case Username => if s.inToken then s.(field := Some(UsernameField)) else s
      case Password =>
        if s.inToken then s.(field := Some(if IsDigest(tag.attrs) then DigestField else TextField)) else s
      case Nonce => if s.inToken then s.(field := Some(NonceField)) else s
      case Created => if s.inToken then s.(field := Some(CreatedField)) else s
      case Body => s.(inBody := true)
      case Plain => s
  }

  /** The token is complete: user and credential are always consumed, the rest only if both were there. */
  function Finish(p: Partial, auth: Option<Auth>): (Partial, Option<Auth>) {
    if p.user.Some? && p.pw.Some?
    then (NOTHING, Some(Auth(p.user.value, p.pw.value, p.created, p.createdText, p.nonce)))
    else (p.(user := None, pw := None), auth)
  }

  function OnEnd(s: Scan, name: string, raw: string): Scan {
    if s.inBody then
      if s.depth > 1 then s.(depth := s.depth - 1)
      else if s.depth == 1 then
        s.(depth := 0, inBody := false,
           span := if s.childStart.Some? then Some((s.childStart.value, s.pos + |raw|)) else s.span)
      else s.(inBody := false)
    else
      match KindOf(name)
      case Header => s.(inHeader := false)
      case Security => s.(inSecurity := false)
      case UsernameToken =>
        var (partial, auth) := Finish(s.partial, s.auth);
        s.(inToken := false, partial := partial, auth := auth)
      case Username => s.(field := None)
      case Password => s.(field := None)
      case Nonce => s.(field := None)
      case Created => s.(field := None)
      case Body => s
      case Plain => s
  }

  function Gather(c: Codecs, p: Partial, field: Field, text: string): Partial {
    match field
    case UsernameField => p.(user := Some(text))
    case TextField => p.(pw := Some(PlainText(text)))
    case DigestField => p.(pw := Some(Digest(text)))
    case NonceField => p.(nonce := c.base64(text))
    case CreatedField => p.(created := c.rfc3339(c.trim(text)), createdText := Some(c.trim(text)))
  }

  function OnText(c: Codecs, s: Scan, text: string): Scan {
    if s.field.Some? then s.(partial := Gather(c, s.partial, s.field.value, text)) else s
  }

  function OnEmpty(s: Scan, tag: Tag): Scan {
    if s.inBody && s.childStart.None?
    then s.(action := Some(LocalName(tag.name)), span := Some((s.pos, s.pos + |tag.raw|)))
    else s
  }

  function OnEvent(c: Codecs, s: Scan, e: Event): Scan {
    if s.bad.Some? then s
    else
      var at := s.pos + |Raw(e)|;
      match e
      case Bad => s.(bad := Some(s.pos))
      case Start(tag) => OnStart(s, tag).(pos := at)
      case End(name, raw) => OnEnd(s, name, raw).(pos := at)
      case Text(text, _) => OnText(c, s, text).(pos := at)
      case Empty(tag) => OnEmpty(s, tag).(pos := at)
      case Skipped(_) => s.(pos := at)
  }

  function Run(c: Codecs, s: Scan, es: seq<Event>): Scan {
    if es == [] then s else OnEvent(c, Run(c, s, es[..|es| - 1]), es[|es| - 1])
  }

  datatype ParsedRequest = ParsedRequest(action: string, auth: Option<Auth>, bodyXml: string)

  datatype ParseError = BadXml(offset: nat) | NoOperation

  function Slice(xml: string, span: Option<(nat, nat)>): string {
    if span.Some? && span.value.0 <= span.value.1 <= |xml| then xml[span.value.0..span.value.1] else ""
  }

  function Parse(c: Codecs, es: seq<Event>): Result<ParsedRequest, ParseError> {
    var s := Run(c, START, es);
    if s.bad.Some? then Failure(BadXml(s.bad.value))
    else if s.action.None? then Failure(NoOperation)
    else Success(ParsedRequest(s.action.value, s.auth, Slice(Document(es), s.span)))
  }

  // ------------------------------------------------------------ in place

  method HasDigestType(attrs: seq<(string, string)>) returns (isDigest: bool)
    ensures isDigest == IsDigest(attrs)
  {
    hide MarksDigest;
    isDigest := false;
    for i := 0 to |attrs|
      invariant isDigest == exists k :: 0 <= k < i && MarksDigest(attrs[k])
    {
      if MarksDigest(attrs[i]) {
        isDigest := true;
      }
    }
  }

  class Scanner {
    var auth: Option<Auth>
    var inHeader: bool
    var inSecurity: bool
    var inToken: bool
    var partial: Partial
    var field: Option<Field>
    var action: Option<string>
    var span: Option<(nat, nat)>
    var inBody: bool
    var depth: nat
    var childStart: Option<nat>
    var pos: nat

    ghost function Model(): Scan
      reads this
    {
      Scan(pos, None, auth, inHeader, inSecurity, inToken, partial, field, action, span, inBody, depth, childStart)
    }

    constructor ()
      ensures Model() == START
    {
      auth, inHeader, inSecurity, inToken, partial, field := None, false, false, false, NOTHING, None;
      action, span, inBody, depth, childStart, pos := None, None, false, 0, None, 0;
    }

    method TakeStart(tag: Tag)
      modifies this
      ensures Model() == OnStart(old(Model()), tag)
    {
      hide KindOf, IsDigest, LocalName;
      if inBody {
        if childStart.None? {
          action := Some(LocalName(tag.name));
          childStart := Some(pos);
          depth := 1;
        } else {
          depth := depth + 1;
        }
        return;
      }
      match KindOf(tag.name) {
        case Header => inHeader := true;
        case Security => if inHeader { inSecurity := true; }
        case UsernameToken => if inSecurity { inToken := true; }
        case Username => if inToken { field := Some(UsernameField); }
        case Password =>
          if inToken {
            var isDigest := HasDigestType(tag.attrs);
            field := Some(if isDigest then DigestField else TextField);
          }
        case Nonce => if inToken { field := Some(NonceField); }
        case Created => if inToken { field := Some(CreatedField); }
        case Body => inBody := true;
        case Plain =>
      }
    }

    method TakeEnd(name: string, raw: string)
      modifies this
      ensures Model() == OnEnd(old(Model()), name, raw)
    {
      hide KindOf, LocalName;
      if inBody {
        if depth > 0 {
          depth := depth - 1;
          if depth == 0 {
            if childStart.Some? {
              span := Some((childStart.value, pos + |raw|));
            }
            inBody := false;
          }
        } else {
          inBody := false;
        }
        return;
      }
      match KindOf(name) {
        case Header => inHeader := false;
        case Security => inSecurity := false;
        case UsernameToken =>
          inToken := false;
          if partial.user.Some? && partial.pw.Some? {
            auth := Some(Auth(partial.user.value, partial.pw.value,
                              partial.created, partial.createdText, partial.nonce));
            partial := NOTHING;
          } else {
            partial := partial.(user := None, pw := None);
          }
        case Username => field := None;
        case Password => field := None;
        case Nonce => field := None;
        case Created => field := None;
        case Body =>
        case Plain =>
      }
    }

    method TakeText(c: Codecs, text: string)
      modifies this
      ensures Model() == OnText(c, old(Model()), text)
    {
      match field {
        case None =>
        case Some(UsernameField) => partial := partial.(user := Some(text));
        case Some(TextField) => partial := partial.(pw := Some(PlainText(text)));
        case Some(DigestField) => partial := partial.(pw := Some(Digest(text)));
        case Some(NonceField) => partial := partial.(nonce := c.base64(text));
        case Some(CreatedField) =>
          var trimmed := c.trim(text);
          partial := partial.(created := c.rfc3339(trimmed), createdText := Some(trimmed));
      }
    }

    method TakeEmpty(tag: Tag)
      modifies this
      ensures Model() == OnEmpty(old(Model()), tag)
    {
      hide LocalName;
      if inBody && childStart.None? {
        action := Some(LocalName(tag.name));
        span := Some((pos, pos + |tag.raw|));
      }
    }
  }

  method ParseEnvelope(c: Codecs, es: seq<Event>) returns (r: Result<ParsedRequest, ParseError>)
    ensures r == Parse(c, es)
  {
    hide OnStart, OnEnd, OnText, OnEmpty, Document, Run;
    var scanner := new Scanner();
    RunNothing(c);
    for i := 0 to |es|
      invariant fresh(scanner)
      invariant scanner.Model() == Run(c, START, es[..i])
    {
      RunNext(c, es, i);
      var at := scanner.pos + |Raw(es[i])|;
      match es[i] {
        case Bad =>
          BadSticks(c, Run(c, START, es[..i + 1]), es[i + 1..]);
          RunConcat(c, START, es[..i + 1], es[i + 1..]);
          assert es == es[..i + 1] + es[i + 1..];
          return Failure(BadXml(scanner.pos));
        case Start(tag) => scanner.TakeStart(tag);
        case End(name, raw) => scanner.TakeEnd(name, raw);
        case Text(text, _) => scanner.TakeText(c, text);
        case Empty(tag) => scanner.TakeEmpty(tag);
        case Skipped(_) =>
      }
      scanner.pos := at;
    }
    assert es[..|es|] == es;
    if scanner.action.None? {
      return Failure(NoOperation);
    }
    var xml := Document(es);
    var span := scanner.span;
    var body := if span.Some? && span.value.0 <= span.value.1 && span.value.1 <= |xml|
                then xml[span.value.0..span.value.1] else "";
    r := Success(ParsedRequest(scanner.action.value, scanner.auth, body));
  }

  lemma RunNothing(c: Codecs)
    ensures Run(c, START, []) == START
  {
  }

  lemma RunNext(c: Codecs, es: seq<Event>, i: nat)
    requires i < |es|
    ensures Run(c, START, es[..i + 1]) == OnEvent(c, Run(c, START, es[..i]), es[i])
  {
    hide OnEvent;
    assert es[..i + 1][..i] == es[..i];
  }

  lemma {:induction false} BadSticks(c: Codecs, s: Scan, es: seq<Event>)
    requires s.bad.Some?
    ensures Run(c, s, es) == s
  {
    if es != [] {
      BadSticks(c, s, es[..|es| - 1]);
    }
  }

  lemma {:induction false} RunConcat(c: Codecs, s: Scan, a: seq<Event>, b: seq<Event>)
    ensures Run(c, s, a + b) == Run(c, Run(c, s, a), b)
  {
    hide OnEvent;
    if b == [] {
      assert a + b == a;
    } else {
      assert (a + b)[..|a + b| - 1] == a + b[..|b| - 1];
      RunConcat(c, s, a, b[..|b| - 1]);
    }
  }

  lemma {:induction false} DocumentConcat(a: seq<Event>, b: seq<Event>)
    ensures Document(a + b) == Document(a) + Document(b)
  {
    if b == [] {
      assert a + b == a;
    } else {
      assert (a + b)[..|a + b| - 1] == a + b[..|b| - 1];
      DocumentConcat(a, b[..|b| - 1]);
    }
  }
}
