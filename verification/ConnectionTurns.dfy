/**
 The connection manager as a system of turns. The dispatcher runs one turn at a time:
 a posted write, an answer, the retirement of an answer, an event raised by a
 connection, or a call made on the dispatcher thread. Each turn is a function of the
 state; connections, the wire and the client session are part of that state.

 What the session contributes to a message (parsing, declaring, decorating) is given
 as functions of the session's own state, which is a number here.
 */
module ConnectionTurns {
  datatype Option<T> = None | Some(value: T)

  type Headers = map<string, string>

  type ConnId = nat

  datatype RequestId = Text(text: string) | Number(number: int)

  datatype RequestIdKey = RequestIdKey(isString: bool, text: string, number: int)

  function KeyOf(id: RequestId): RequestIdKey {
    match id
    case Text(t) => RequestIdKey(true, t, 0)
    case Number(n) => RequestIdKey(false, "", n)
  }

  /** Two ids have one key only if they are one id: a number is not its own numeral. */
  lemma KeyOfInjective(a: RequestId, b: RequestId)
    ensures KeyOf(a) == KeyOf(b) <==> a == b
  {
  }

  datatype Transport = Stdio | HttpSse | StreamableHttp | WebSocket

  /** The configuration, and the session as functions of its state. */
  datatype Rules = Rules(
    configured: Headers,
    transport: Transport,
    detection: bool,
    hasSession: bool,
    parse: string -> Option<string>,
    declare: (nat, string) -> string,
    decorate: (nat, Headers, Option<string>) -> Headers,
    hasId: nat -> bool,
    forgotten: nat -> nat,
    /** How often the transport of a connection raises its close before the connection does. */
    echoes: ConnId -> nat)
  {
    /** Whether the filter factory is the one that gives connections their role. */
    predicate HttpFactory() { !detection && (transport == HttpSse || transport == StreamableHttp) }

    predicate Streams() { hasSession && transport == StreamableHttp }
  }

  // ----- requests, and what they are due -----

  /** What a write is for, and the session state its headers were computed in. */
  datatype Source =
    | Message(json: string, extra: Headers, correlate: Option<RequestId>, session: nat)
    | Answer(json: string, session: nat)
    | Subscription(message: string, session: nat)
    | Stream(cursor: string, session: nat)
    | Delete(session: nat)
    | Nudge

  const POST_ACCEPT := "application/json, text/event-stream"

  /** The message as it goes out; one that does not parse goes out as it is. */
  function Declared(r: Rules, json: string, session: nat): string {
    match r.parse(json)
    case Some(v) => r.declare(session, v)
    case None => json
  }

  /** What the headers of a message are decorated against: an empty object when it does not parse. */
  function Outgoing(r: Rules, json: string, session: nat): string {
    match r.parse(json)
    case Some(v) => r.declare(session, v)
    case None => "{}"
  }

  /** The headers a request is due, from the configuration, the session and the request alone. */
  function Due(r: Rules, source: Source): Headers {
    match source
    case Message(json, extra, _, session) =>
      (if r.hasSession then r.decorate(session, r.configured, Some(Outgoing(r, json, session))) else r.configured)
          + extra
    case Answer(json, session) =>
      r.decorate(session, r.configured, Some(Declared(r, json, session)))[":method" := "POST"][":accept" := POST_ACCEPT]
    case Subscription(message, session) =>
      var declared := Some(r.declare(session, message));
      r.decorate(session, r.configured, declared)[":method" := "POST"][":accept" := POST_ACCEPT]
    case Stream(cursor, session) =>
      var headers := r.decorate(session, r.configured, None)[":method" := "GET"][":accept" := "text/event-stream"];
      if cursor == "" then headers else headers["Last-Event-ID" := cursor]
    case Delete(session) => r.decorate(session, r.configured, None)[":method" := "DELETE"]
    case Nudge => r.configured
  }

  function DueBody(r: Rules, source: Source): string {
    match source
    case Message(json, _, _, session) => if r.hasSession then Declared(r, json, session) else json
    case Answer(json, session) => Declared(r, json, session)
    case Subscription(message, session) => r.declare(session, message)
    case _ => ""
  }

  /** One write, and the headers the codec found in the shared map when the bytes reached it. */
  datatype Entry = Entry(conn: ConnId, body: string, seen: Headers, source: Source)

  // ----- connections -----

  /** A connection is open from its creation on, connecting included. */
  datatype Status = Open | Closing | Closed

  datatype OpenerKind = AnswerOpener(key: nat) | SubscriptionOpener(id: RequestIdKey) | StreamOpener

  datatype Listener = Manager | Opener(kind: OpenerKind)

  datatype Connection = Connection(status: Status, listener: Option<Listener>)

  /** An opener: what it writes once its connection is up. */
  datatype OpenerData = OpenerData(headers: Headers, body: string, source: Source)

  /** What must not happen to a connection or to its listener. */
  datatype Fault = OpenerGone | StreamOpenerGone | ClosedHooked | HandedTwice | DeletedTouched | ActiveGone

  /** Connections that exist, the openers that exist (by connection), and every connection ever handed to deletion. */
  datatype Net = Net(conns: map<ConnId, Connection>, openers: map<ConnId, OpenerData>, used: set<ConnId>,
      handed: seq<ConnId>, faults: set<Fault>) {
    /** A new connection that tells nobody yet. */
    function MakeBare(c: ConnId): Net { this.(conns := conns[c := Connection(Open, None)], used := used + {c}) }

    function Hook(c: ConnId, listener: Listener): Net {
      if c !in conns then this.(faults := faults + {DeletedTouched})
      else this.(conns := conns[c := conns[c].(listener := Some(listener))])
    }

    function Make(c: ConnId, listener: Listener): Net {
      this.(conns := conns[c := Connection(Open, Some(listener))], used := used + {c})
    }

    function MakeOpener(c: ConnId, data: OpenerData): Net { this.(openers := openers[c := data]) }

    function Removed(c: ConnId): Net { this.(conns := conns - {c}) }

    function DropOpener(c: ConnId): Net { this.(openers := openers - {c}) }

    function Unhook(c: ConnId): Net {
      if c !in conns then this.(faults := faults + {DeletedTouched})
      else this.(conns := conns[c := conns[c].(listener := None)])
    }

    /** Closing a connection of an answer or a subscription that would still tell its opener is a fault. */
    function Close(c: ConnId): Net {
      if c !in conns then this.(faults := faults + {DeletedTouched})
      else if conns[c].status == Closed then this
      else
        var closed := this.(conns := conns[c := conns[c].(status := Closed)]);
        if conns[c].listener.Some? && conns[c].listener.value.Opener? && !conns[c].listener.value.kind.StreamOpener?
        then closed.(faults := faults + {ClosedHooked}) else closed
    }

    /** Handed to the dispatcher for deletion, or deleted at once away from its thread. */
    function Dispose(c: ConnId, onThread: bool): Net {
      this.(handed := handed + [c], faults := if c in handed then faults + {HandedTwice} else faults,
            conns := if onThread then conns else conns - {c})
    }

    /**
     How an answer's or a subscription's connection is let go: unhooked, closed, disposed of, its opener
     destroyed.
     */
    function LetGo(c: ConnId, closeIt: bool, onThread: bool): Net {
      var unhooked := Unhook(c);
      var closed := if closeIt then unhooked.Close(c) else unhooked;
      closed.Dispose(c, onThread).DropOpener(c)
    }

    function StatusOf(c: ConnId): Status { if c in conns then conns[c].status else Closed }

    /** A closed connection stays closed. */
    function WithStatus(c: ConnId, status: Status): Net {
      if c in conns && conns[c].status != Closed then this.(conns := conns[c := conns[c].(status := status)]) else this
    }
  }

  // ----- what the manager holds -----

  datatype HeldSubscription = HeldSubscription(id: RequestId, conn: ConnId)

  datatype Held = Held(
    active: Option<ConnId>,
    subscriptions: map<RequestIdKey, HeldSubscription>,
    answers: map<nat, ConnId>,
    lastAnswerKey: nat,
    stream: Option<ConnId>,
    streamOpener: Option<ConnId>,
    retiredOpener: Option<ConnId>)

  /** Posted turns. A retirement remembers which connection's close posted it. */
  datatype Turn =
    | WriteTurn(json: string, extra: Headers, correlate: Option<RequestId>)
    | AnswerTurn(json: string)
    | RetireTurn(key: nat, poster: ConnId)
    | NudgeTurn

  /** The client session: its state, the messages awaiting answers, and all that were ever recorded. */
  datatype Session = Session(state: nat, inFlight: seq<Option<RequestId>>, recorded: seq<Option<RequestId>>) {
    function RecordSent(id: Option<RequestId>): Session {
      this.(inFlight := inFlight + [id], recorded := recorded + [id])
    }

    function TakeAnswered(): Session { if inFlight == [] then this else this.(inFlight := inFlight[1..]) }

    function ForgetInFlight(): Session { this.(inFlight := []) }
  }

  datatype State = State(current: Headers, wire: seq<Entry>, session: Session, connected: bool, queue: seq<Turn>,
      held: Held, net: Net)

  // ----- the turns -----

  /** The codec reads the shared header map while the write is under way. */
  function Write(s: State, c: ConnId, body: string, source: Source): State {
    s.(wire := s.wire + [Entry(c, body, s.current, source)])
  }

  /** The header map is swapped in around a write and put back after it. */
  function WriteAs(r: Rules, s: State, c: ConnId, headers: Headers, body: string, source: Source): State {
    Write(s.(current := headers), c, body, source).(current := r.configured)
  }

  // ----- events -----

  datatype Raised = IsConnected | IsRemoteClose | IsLocalClose

  function OnConnectionEvent(r: Rules, s: State, e: Raised): State {
    if e == IsConnected then
      if s.connected then s
      else s.(connected := true, queue := if r.transport == HttpSse then s.queue + [NudgeTurn] else s.queue)
    else if !s.connected && s.held.active.None? then s
    else
      var gone := if s.held.active.Some?
                  then s.(held := s.held.(active := None), net := s.net.Dispose(s.held.active.value, true)) else s;
      gone.(connected := false, session := if r.hasSession then s.session.ForgetInFlight() else s.session)
  }

  function OnOpenerEvent(r: Rules, s: State, c: ConnId, kind: OpenerKind, e: Raised): State {
    if c !in s.net.openers then
      var fault := if kind.StreamOpener? then StreamOpenerGone else OpenerGone;
      s.(net := s.net.(faults := s.net.faults + {fault}))
    else if e == IsConnected then
      WriteAs(r, s, c, s.net.openers[c].headers, s.net.openers[c].body, s.net.openers[c].source)
    else if kind.AnswerOpener? then s.(queue := s.queue + [RetireTurn(kind.key, c)])
    else s
  }

  /** An event of a connection goes to whoever listens on it. */
  function Told(r: Rules, s: State, c: ConnId, e: Raised): State {
    if c !in s.net.conns then s
    else
      match s.net.conns[c].listener
      case None => s
      case Some(Manager) => OnConnectionEvent(r, s, e)
      case Some(Opener(kind)) => OnOpenerEvent(r, s, c, kind, e)
  }

  /** A connection that is not closed raises an event; `status` is its status by then. */
  function Raise(r: Rules, s: State, c: ConnId, e: Raised, status: Status): State {
    if s.net.StatusOf(c) == Closed then s else Told(r, s.(net := s.net.WithStatus(c, status)), c, e)
  }

  /** The same event, raised a number of times. */
  function ToldOften(r: Rules, s: State, c: ConnId, e: Raised, times: nat): State
    decreases times
  {
    if times == 0 then s else ToldOften(r, Told(r, s, c, e), c, e, times - 1)
  }

  /** Tearing a socket down tells the listener once for each layer of the transport that does, and once more. */
  function ToldClosed(r: Rules, s: State, c: ConnId): State { ToldOften(r, s, c, IsLocalClose, r.echoes(c) + 1) }

  /** Closing without a flush tells the listener before it returns; a closed connection tells nobody. */
  function CloseConn(r: Rules, s: State, c: ConnId): State {
    var closed := s.(net := s.net.Close(c));
    if s.net.StatusOf(c) == Closed then closed else ToldClosed(r, closed, c)
  }

  /** Destroying a connection that is not closed closes it first. */
  function Destroy(r: Rules, s: State, c: ConnId): State {
    var told := if s.net.StatusOf(c) == Closed then s else ToldClosed(r, s.(net := s.net.WithStatus(c, Closed)), c);
    told.(net := told.net.Removed(c))
  }

  // ----- messages, answers, subscriptions, the stream -----

  function WriteMessage(r: Rules, s: State, json: string, extra: Headers, correlate: Option<RequestId>): State {
    if s.held.active.None? then s
    else
      var source := Message(json, extra, correlate, s.session.state);
      var recorded := if r.hasSession then s.(session := s.session.RecordSent(correlate)) else s;
      WriteAs(r, recorded, s.held.active.value, Due(r, source), DueBody(r, source), source)
  }

  /** What opening a connection of its own gives: whether it was opened, and the state after. */
  datatype Opened = Opened(ok: bool, state: State)

  /** `made` is the connection that could be created, if one could. */
  function SendAnswerApart(r: Rules, s: State, json: string, made: Option<ConnId>): Opened {
    if !r.HttpFactory() || made.None? then Opened(false, s)
    else if r.parse(json).None? then Opened(false, s.(net := s.net.MakeBare(made.value).Removed(made.value)))
    else
      var key, source := s.held.lastAnswerKey + 1, Answer(json, s.session.state);
      var data := OpenerData(Due(r, source), DueBody(r, source), source);
      Opened(true, s.(net := s.net.Make(made.value, Opener(AnswerOpener(key))).MakeOpener(made.value, data),
                      held := s.held.(lastAnswerKey := key, answers := s.held.answers[key := made.value])))
  }

  function AnswerServer(r: Rules, s: State, json: string, made: Option<ConnId>): State {
    if s.held.active.None? then s
    else if |s.session.inFlight| > 0 then
      var apart := SendAnswerApart(r, s, json, made);
      if apart.ok then apart.state else WriteMessage(r, apart.state, json, map[], None)
    else WriteMessage(r, s, json, map[], None)
  }

  function RetireAnswer(s: State, key: nat, onThread: bool): State {
    if key !in s.held.answers then s
    else
      var c := s.held.answers[key];
      s.(held := s.held.(answers := s.held.answers - {key}),
          net := s.net.LetGo(c, s.net.StatusOf(c) != Closed, onThread))
  }

  function OpenSubscription(r: Rules, s: State, id: RequestId, message: string, made: Option<ConnId>): Opened {
    if !r.Streams() || KeyOf(id) in s.held.subscriptions || !r.HttpFactory() || made.None? then Opened(false, s)
    else
      var key, source := KeyOf(id), Subscription(message, s.session.state);
      var data := OpenerData(Due(r, source), DueBody(r, source), source);
      var held := HeldSubscription(id, made.value);
      Opened(true, s.(net := s.net.Make(made.value, Opener(SubscriptionOpener(key))).MakeOpener(made.value, data),
                      held := s.held.(subscriptions := s.held.subscriptions[key := held])))
  }

  function CloseSubscription(s: State, id: RequestId, onThread: bool): State {
    if KeyOf(id) !in s.held.subscriptions then s
    else
      var c := s.held.subscriptions[KeyOf(id)].conn;
      s.(held := s.held.(subscriptions := s.held.subscriptions - {KeyOf(id)}), net := s.net.LetGo(c, true, onThread))
  }

  /** Taken out of hand, closed, handed over; the opener stays hooked. */
  function CloseServerStream(r: Rules, s: State, onThread: bool): State {
    if s.held.stream.None? then s
    else
      var c := s.held.stream.value;
      var closed := CloseConn(r, s.(held := s.held.(stream := None)), c);
      closed.(net := closed.net.Dispose(c, onThread))
  }

  /** The opener it replaces is kept until the next stream is opened, and destroyed then. */
  function TakeStream(s: State, c: ConnId, data: OpenerData): State {
    var dropped := if s.held.retiredOpener.Some? then s.net.DropOpener(s.held.retiredOpener.value) else s.net;
    s.(net := dropped.Make(c, Opener(StreamOpener)).MakeOpener(c, data),
       held := s.held.(stream := Some(c), retiredOpener := s.held.streamOpener, streamOpener := Some(c)))
  }

  function OpenServerStream(r: Rules, s: State, cursor: string, made: Option<ConnId>): Opened {
    if !r.Streams() then Opened(false, s)
    else
      var closed := CloseServerStream(r, s, true);
      if !r.HttpFactory() || made.None? then Opened(false, closed)
      else
        var source := Stream(cursor, closed.session.state);
        Opened(true, TakeStream(closed, made.value, OpenerData(Due(r, source), DueBody(r, source), source)))
  }

  /** Gives the session back; the one write that is not recorded. */
  function SendSessionDelete(r: Rules, s: State): State {
    if !r.hasSession || !r.hasId(s.session.state) || s.held.active.None? then s
    else
      var source := Delete(s.session.state);
      var written := WriteAs(r, s, s.held.active.value, Due(r, source), "", source);
      written.(session := written.session.(state := r.forgotten(s.session.state)))
  }

  /**
   The connection it replaces is destroyed with the new one already in its place. One
   still open then tells the manager it closed, which lets go of the new one.
   */
  function Connect(r: Rules, s: State, made: Option<ConnId>): State {
    if s.connected || !(r.transport == HttpSse || r.transport == StreamableHttp) || made.None? then s
    else
      var replaced := s.(held := s.held.(active := made), net := s.net.MakeBare(made.value));
      var now := if s.held.active.Some? then Destroy(r, replaced, s.held.active.value) else replaced;
      if now.held.active.None? then now.(net := now.net.(faults := now.net.faults + {ActiveGone}))
      else now.(net := now.net.Hook(now.held.active.value, Manager))
  }

  function CloseSubscriptions(s: State, ids: seq<RequestId>, onThread: bool): State
    decreases |ids|
  {
    if ids == [] then s else CloseSubscriptions(CloseSubscription(s, ids[0], onThread), ids[1..], onThread)
  }

  function RetireAnswers(s: State, keys: seq<nat>, onThread: bool): State
    decreases |keys|
  {
    if keys == [] then s else RetireAnswers(RetireAnswer(s, keys[0], onThread), keys[1..], onThread)
  }

  function CloseActive(r: Rules, s: State, onThread: bool): State {
    if s.held.active.None? then s
    else
      var c := s.held.active.value;
      if s.net.StatusOf(c) == Open then CloseConn(r, s, c)
      else
        var gone := s.(held := s.held.(active := None), net := s.net.Dispose(c, true));
        if onThread then gone else Destroy(r, gone, c)
  }

  /** Closing everything; `ids` and `keys` are the entries found in the two maps, in some order. */
  function CloseAll(r: Rules, s: State, ids: seq<RequestId>, keys: seq<nat>, onThread: bool): State {
    var s1 := CloseServerStream(r, s, onThread);
    var s2 := CloseSubscriptions(s1, ids, onThread);
    var s3 := RetireAnswers(s2, keys, onThread);
    CloseActive(r, s3, onThread).(connected := false)
  }

  function RunTurn(r: Rules, s: State, turn: Turn, made: Option<ConnId>): State {
    match turn
    case WriteTurn(json, extra, correlate) => WriteMessage(r, s, json, extra, correlate)
    case AnswerTurn(json) => AnswerServer(r, s, json, made)
    case RetireTurn(key, _) => RetireAnswer(s, key, true)
    case NudgeTurn => if s.held.active.None? then s else Write(s, s.held.active.value, "", Nudge)
  }

  // ----- runs -----

  datatype Event =
    | Send(json: string, extra: Headers, correlate: Option<RequestId>)
    | Respond(json: string)
    | Turn(made: Option<ConnId>)
    | Raising(conn: ConnId, event: Raised, status: Status)
    | Connecting(made: Option<ConnId>)
    | OpenSub(id: RequestId, message: string, made: Option<ConnId>)
    | CloseSub(id: RequestId, onThread: bool)
    | OpenStream(cursor: string, made: Option<ConnId>)
    | CloseStream(onThread: bool)
    | GiveBack
    | CloseManager(ids: seq<RequestId>, keys: seq<nat>, onThread: bool)
    | Answered
    | SessionChanges(state: nat)
    | StatusChanges(conn: ConnId, status: Status)
    | DeleteHanded(conn: ConnId)

  function Step(r: Rules, s: State, e: Event): State {
    match e
    case Send(json, extra, correlate) =>
      if !s.connected || s.held.active.None? then s else s.(queue := s.queue + [WriteTurn(json, extra, correlate)])
    case Respond(json) =>
      if !s.connected || s.held.active.None? then s
      else if r.Streams() then s.(queue := s.queue + [AnswerTurn(json)])
      else s.(queue := s.queue + [WriteTurn(json, map[], None)])
    case Turn(made) => if s.queue == [] then s else RunTurn(r, s.(queue := s.queue[1..]), s.queue[0], made)
    case Raising(c, event, status) => Raise(r, s, c, event, status)
    case Connecting(made) => Connect(r, s, made)
    case OpenSub(id, message, made) => OpenSubscription(r, s, id, message, made).state
    case CloseSub(id, onThread) => CloseSubscription(s, id, onThread)
    case OpenStream(cursor, made) => OpenServerStream(r, s, cursor, made).state
    case CloseStream(onThread) => CloseServerStream(r, s, onThread)
    case GiveBack => SendSessionDelete(r, s)
    case CloseManager(ids, keys, onThread) => CloseAll(r, s, ids, keys, onThread)
    case Answered => s.(session := s.session.TakeAnswered())
    case SessionChanges(state) => s.(session := s.session.(state := state))
    case StatusChanges(c, status) => s.(net := s.net.WithStatus(c, status))
    case DeleteHanded(c) => if c in s.net.handed && c in s.net.conns then Destroy(r, s, c) else s
  }

  predicate New(s: State, made: Option<ConnId>) { made.Some? ==> made.value !in s.net.used }

  ghost predicate Lists<T(!new)>(items: seq<T>, all: set<T>) { forall x :: x in items <==> x in all }

  /** Created connections are new ones, and closing goes through the entries that are there. */
  ghost predicate Legal(s: State, e: Event) {
    match e
    case Turn(made) => New(s, made)
    case Connecting(made) => New(s, made)
    case OpenSub(_, _, made) => New(s, made)
    case OpenStream(_, made) => New(s, made)
    case CloseManager(ids, keys, _) =>
      && Lists(ids, set k | k in s.held.subscriptions :: s.held.subscriptions[k].id)
      && Lists(keys, s.held.answers.Keys)
    case _ => true
  }

  function Run(r: Rules, s: State, run: seq<Event>): State
    decreases |run|
  {
    if run == [] then s else Run(r, Step(r, s, run[0]), run[1..])
  }

  ghost predicate LegalRun(r: Rules, s: State, run: seq<Event>)
    decreases |run|
  {
    run == [] || (Legal(s, run[0]) && LegalRun(r, Step(r, s, run[0]), run[1..]))
  }

  /** A manager as constructed, its header map the configured one unless it was given another. */
  function Start(r: Rules, given: Option<Headers>): State {
    State(if given.Some? then given.value else r.configured, [], Session(0, [], []), false, [],
          Held(None, map[], map[], 0, None, None, None), Net(map[], map[], {}, [], {}))
  }
}
