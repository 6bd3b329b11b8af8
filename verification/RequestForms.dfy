/**
 What the requests of the connection manager look like, said of the headers and the body
 one by one: what a request carries of its own, and what is as the session decorates it.
 */
module RequestForms {
  import opened ConnectionTurns
  import HeaderIsolation

  /** Outside `own`, the headers are those of `base`. */
  ghost predicate ElseAs(headers: Headers, base: Headers, own: set<string>) {
    forall k :: k !in own ==> (k in headers <==> k in base) && (k in headers ==> headers[k] == base[k])
  }

  ghost predicate Carries(headers: Headers, key: string, value: string) { key in headers && headers[key] == value }

  /** The session states itself in a message that parses; one that does not goes out as it is. */
  function Stated(r: Rules, json: string, session: nat): string {
    if r.parse(json).None? then json else r.declare(session, r.parse(json).value)
  }

  /** The headers of the call go over the decorated ones; without a session nothing is decorated or stated. */
  ghost predicate MessageForm(r: Rules, headers: Headers, body: string, json: string, extra: Headers, session: nat) {
    var against := if r.parse(json).None? then "{}" else body;
    && body == (if r.hasSession then Stated(r, json, session) else json)
    && (forall k :: k in extra ==> Carries(headers, k, extra[k]))
    && ElseAs(headers, if r.hasSession then r.decorate(session, r.configured, Some(against)) else r.configured,
           extra.Keys)
  }

  ghost predicate PostForm(r: Rules, headers: Headers, body: string, session: nat) {
    && Carries(headers, ":method", "POST") && Carries(headers, ":accept", "application/json, text/event-stream")
    && ElseAs(headers, r.decorate(session, r.configured, Some(body)), {":method", ":accept"})
  }

  /** A stream is asked for from the cursor on, when there is one. */
  ghost predicate StreamForm(r: Rules, headers: Headers, body: string, cursor: string, session: nat) {
    && body == "" && Carries(headers, ":method", "GET") && Carries(headers, ":accept", "text/event-stream")
    && (cursor != "" ==> Carries(headers, "Last-Event-ID", cursor))
    && ElseAs(headers, r.decorate(session, r.configured, None),
           {":method", ":accept"} + if cursor != "" then {"Last-Event-ID"} else {})
  }

  ghost predicate DeleteForm(r: Rules, headers: Headers, body: string, session: nat) {
    body == "" && Carries(headers, ":method", "DELETE")
    && ElseAs(headers, r.decorate(session, r.configured, None), {":method"})
  }

  ghost predicate Form(r: Rules, source: Source, headers: Headers, body: string) {
    match source
    case Message(json, extra, _, session) => MessageForm(r, headers, body, json, extra, session)
    case Answer(json, session) => body == Stated(r, json, session) && PostForm(r, headers, body, session)
    case Subscription(message, session) => body == r.declare(session, message) && PostForm(r, headers, body, session)
    case Stream(cursor, session) => StreamForm(r, headers, body, cursor, session)
    case Delete(session) => DeleteForm(r, headers, body, session)
    case Nudge => body == "" && headers == r.configured
  }

  /** What is due to a request has its form. */
  lemma DueHasForm(r: Rules, source: Source)
    ensures Form(r, source, Due(r, source), DueBody(r, source))
  {
  }

  /** And nothing else has. */
  lemma FormIsDue(r: Rules, source: Source, headers: Headers, body: string)
    requires Form(r, source, headers, body)
    ensures headers == Due(r, source) && body == DueBody(r, source)
  {
    DueHasForm(r, source);
    var due := Due(r, source);
    match source
    case Message(_, extra, _, _) => ElseAlike(headers, due, extra.Keys);
    case Answer(_, _) => ElseAlike(headers, due, {":method", ":accept"});
    case Subscription(_, _) => ElseAlike(headers, due, {":method", ":accept"});
    case Stream(cursor, _) =>
      ElseAlike(headers, due, {":method", ":accept"} + if cursor != "" then {"Last-Event-ID"} else {});
    case Delete(_) => ElseAlike(headers, due, {":method"});
    case Nudge =>
  }

  lemma ElseAlike(a: Headers, b: Headers, own: set<string>)
    requires exists base :: ElseAs(a, base, own) && ElseAs(b, base, own)
    requires forall k :: k in own ==> k in a && k in b && a[k] == b[k]
    ensures a == b
  {
    assert forall k :: k in a <==> k in b;
    assert forall k :: k in a ==> a[k] == b[k];
  }

  /**
   In every run of a manager that starts with the configured headers, or sends no nudge,
   every request on the wire has the form of what it was made for.
   */
  lemma RunHasForms(r: Rules, given: Option<Headers>, run: seq<Event>)
    requires LegalRun(r, Start(r, given), run)
    requires given.None? || given.value == r.configured || r.transport != HttpSse
    ensures var wire := Run(r, Start(r, given), run).wire;
            forall i :: 0 <= i < |wire| ==> Form(r, wire[i].source, wire[i].seen, wire[i].body)
  {
    hide Run, LegalRun, Due, DueBody, Form;
    HeaderIsolation.HeadersHold(r, given);
    var wire := Run(r, Start(r, given), run).wire;
    assert HeaderIsolation.WireDue(r, wire);
    forall i | 0 <= i < |wire|
      ensures Form(r, wire[i].source, wire[i].seen, wire[i].body)
    {
      DueHasForm(r, wire[i].source);
    }
  }
}
