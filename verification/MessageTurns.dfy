/**
 What becomes of the messages handed to the connection manager: each one accepted is
 posted once, and when its turn comes it is written on the active connection, sent apart,
 or dropped because there is none. Nothing else writes a message.
 */
module MessageTurns {
  import opened ConnectionTurns
  import opened RequestForms
  import HeaderIsolation

  /** The wire grows by one message with the form it is due, and it is recorded when there is a session. */
  ghost predicate Writes(r: Rules, s: State, s': State, json: string, extra: Headers, correlate: Option<RequestId>) {
    && s.held.active.Some? && |s'.wire| == |s.wire| + 1 && s'.wire[..|s.wire|] == s.wire
    && (var e := s'.wire[|s.wire|];
        && e.conn == s.held.active.value && e.source == Message(json, extra, correlate, s.session.state)
        && MessageForm(r, e.seen, e.body, json, extra, s.session.state))
    && s'.session.state == s.session.state
    && s'.session.recorded == s.session.recorded + (if r.hasSession then [correlate] else [])
    && s'.session.inFlight == s.session.inFlight + (if r.hasSession then [correlate] else [])
    && s'.current == r.configured
    && s'.connected == s.connected && s'.queue == s.queue && s'.held == s.held && s'.net == s.net
  }

  lemma MessageWritten(r: Rules, s: State, json: string, extra: Headers, correlate: Option<RequestId>)
    ensures var s' := WriteMessage(r, s, json, extra, correlate);
            if s.held.active.None? then s' == s else Writes(r, s, s', json, extra, correlate)
  {
    DueHasForm(r, Message(json, extra, correlate, s.session.state));
  }

  /** The turn of a message writes it on the active connection, and does nothing when there is none. */
  lemma WriteTurnWrites(r: Rules, s: State, made: Option<ConnId>)
    requires s.queue != [] && s.queue[0].WriteTurn?
    ensures var t, s', before := s.queue[0], Step(r, s, Turn(made)), s.(queue := s.queue[1..]);
            if s.held.active.None? then s' == before else Writes(r, before, s', t.json, t.extra, t.correlate)
  {
    hide WriteMessage;
    var t := s.queue[0];
    MessageWritten(r, s.(queue := s.queue[1..]), t.json, t.extra, t.correlate);
  }

  /**
   An answer goes apart when a response is outstanding, the filters can be told its role,
   a connection can be made and it parses.
   */
  predicate GoesApart(r: Rules, s: State, json: string, made: Option<ConnId>) {
    && s.session.inFlight != [] && made.Some? && r.parse(json).Some?
    && !r.detection && (r.transport == HttpSse || r.transport == StreamableHttp)
  }

  /** A new connection that writes the answer once it is up, held under the next key. */
  ghost predicate OpensAnswer(r: Rules, s: State, s': State, json: string, c: ConnId) {
    var key := s.held.lastAnswerKey + 1;
    && c in s'.net.openers && s'.net.openers[c].source == Answer(json, s.session.state)
    && s'.net.openers[c].body == Stated(r, json, s.session.state)
    && PostForm(r, s'.net.openers[c].headers, s'.net.openers[c].body, s.session.state)
    && s'.net.openers == s.net.openers[c := s'.net.openers[c]]
    && s'.net.conns == s.net.conns[c := Connection(Open, Some(Opener(AnswerOpener(key))))]
    && s'.net.handed == s.net.handed && s'.net.faults == s.net.faults
    && s'.held == s.held.(lastAnswerKey := key, answers := s.held.answers[key := c])
    && s'.wire == s.wire && s'.session == s.session && s'.queue == s.queue
    && s'.current == s.current && s'.connected == s.connected
  }

  /** A connection made for nothing is gone again. */
  function Wasted(r: Rules, s: State, json: string, made: Option<ConnId>): State {
    if made.Some? && s.session.inFlight != [] && r.HttpFactory() && r.parse(json).None?
    then s.(net := s.net.(conns := s.net.conns - {made.value}, used := s.net.used + {made.value})) else s
  }

  lemma ApartOpens(r: Rules, s: State, json: string, made: Option<ConnId>)
    requires s.session.inFlight != []
    ensures var apart := SendAnswerApart(r, s, json, made);
            if GoesApart(r, s, json, made) then apart.ok && OpensAnswer(r, s, apart.state, json, made.value)
            else !apart.ok && apart.state == Wasted(r, s, json, made)
  {
    DueHasForm(r, Answer(json, s.session.state));
    if made.Some? {
      MadeAndGone(s.net, made.value);
    }
  }

  lemma MadeAndGone(net: Net, c: ConnId)
    ensures net.MakeBare(c).Removed(c) == net.(conns := net.conns - {c}, used := net.used + {c})
  {
  }

  /** The turn of an answer: apart exactly when it goes apart, else a message on the active connection. */
  lemma AnswerTurnAnswers(r: Rules, s: State, made: Option<ConnId>)
    requires s.queue != [] && s.queue[0].AnswerTurn?
    ensures var json, s', before := s.queue[0].json, Step(r, s, Turn(made)), s.(queue := s.queue[1..]);
            if s.held.active.None? then s' == before
            else if GoesApart(r, s, json, made) then OpensAnswer(r, before, s', json, made.value)
            else Writes(r, Wasted(r, before, json, made), s', json, map[], None)
  {
    hide WriteMessage, SendAnswerApart, OpensAnswer, Writes;
    var json, before := s.queue[0].json, s.(queue := s.queue[1..]);
    MessageWritten(r, before, json, map[], None);
    MessageWritten(r, Wasted(r, before, json, made), json, map[], None);
    if s.session.inFlight != [] {
      ApartOpens(r, before, json, made);
    }
  }

  // ----- runs -----

  /** A message on the wire: its connection, and what it was made of. */
  datatype Sent = Sent(conn: ConnId, source: Source)

  function OnWire(wire: seq<Entry>): seq<Sent> {
    if wire == [] then []
    else
      var last := wire[|wire| - 1];
      OnWire(wire[..|wire| - 1]) + if last.source.Message? then [Sent(last.conn, last.source)] else []
  }

  predicate IsMessage(t: Turn) { t.WriteTurn? || t.AnswerTurn? }

  /** The turns of messages among those posted. */
  function Waiting(queue: seq<Turn>): seq<Turn> {
    if queue == [] then [] else (if IsMessage(queue[0]) then [queue[0]] else []) + Waiting(queue[1..])
  }

  /** What a step accepts: a message while connected. */
  function Accepted(r: Rules, s: State, e: Event): seq<Turn> {
    if !s.connected || s.held.active.None? then []
    else
      match e
      case Send(json, extra, correlate) => [WriteTurn(json, extra, correlate)]
      case Respond(json) =>
        if r.hasSession && r.transport == StreamableHttp then [AnswerTurn(json)] else [WriteTurn(json, map[], None)]
      case _ => []
  }

  /** The message whose turn a step runs. */
  function Ran(s: State, e: Event): seq<Turn> {
    if e.Turn? && s.queue != [] && IsMessage(s.queue[0]) then [s.queue[0]] else []
  }

  /** What a step writes: that message, while there is a connection, and unless it is an answer that goes apart. */
  function Written(r: Rules, s: State, e: Event): seq<Sent> {
    if Ran(s, e) == [] || s.held.active.None? then []
    else
      match s.queue[0]
      case WriteTurn(json, extra, correlate) =>
        [Sent(s.held.active.value, Message(json, extra, correlate, s.session.state))]
      case AnswerTurn(json) =>
        if GoesApart(r, s, json, e.made) then []
        else [Sent(s.held.active.value, Message(json, map[], None, s.session.state))]
      case _ => []
  }

  function AllAccepted(r: Rules, s: State, run: seq<Event>): seq<Turn>
    decreases |run|
  {
    if run == [] then [] else Accepted(r, s, run[0]) + AllAccepted(r, Step(r, s, run[0]), run[1..])
  }

  function AllRan(r: Rules, s: State, run: seq<Event>): seq<Turn>
    decreases |run|
  {
    if run == [] then [] else Ran(s, run[0]) + AllRan(r, Step(r, s, run[0]), run[1..])
  }

  function AllWritten(r: Rules, s: State, run: seq<Event>): seq<Sent>
    decreases |run|
  {
    if run == [] then [] else Written(r, s, run[0]) + AllWritten(r, Step(r, s, run[0]), run[1..])
  }

  // ----- what has nothing to do with messages -----

  /** No message is written, and none is posted or taken. */
  ghost predicate Silent(s: State, s': State) {
    OnWire(s'.wire) == OnWire(s.wire) && Waiting(s'.queue) == Waiting(s.queue)
  }

  lemma OnWireNext(wire: seq<Entry>, e: Entry)
    ensures OnWire(wire + [e]) == OnWire(wire) + if e.source.Message? then [Sent(e.conn, e.source)] else []
  {
    assert (wire + [e])[..|wire|] == wire;
  }

  lemma {:induction false} WaitingNext(queue: seq<Turn>, t: Turn)
    ensures Waiting(queue + [t]) == Waiting(queue) + if IsMessage(t) then [t] else []
    decreases |queue|
  {
    hide IsMessage, Waiting;
    WaitingFirst(queue + [t]);
    if queue == [] {
      assert queue + [t] == [t] && [t][1..] == [];
      WaitingFirst([]);
    } else {
      assert (queue + [t])[0] == queue[0] && (queue + [t])[1..] == queue[1..] + [t];
      WaitingFirst(queue);
      WaitingNext(queue[1..], t);
    }
  }

  lemma WaitingFirst(queue: seq<Turn>)
    ensures Waiting(queue) == if queue == [] then [] else (if IsMessage(queue[0]) then [queue[0]] else [])
                                                          + Waiting(queue[1..])
  {
  }

  lemma OpenerSilent(r: Rules, s: State, c: ConnId, kind: OpenerKind, e: Raised)
    requires HeaderIsolation.OpenersApart(s.net.openers)
    ensures Silent(s, OnOpenerEvent(r, s, c, kind, e))
    ensures e != IsConnected ==> OnOpenerEvent(r, s, c, kind, e).net.openers == s.net.openers
  {
    hide OnWire, Waiting;
    if kind.AnswerOpener? {
      WaitingNext(s.queue, RetireTurn(kind.key, c));
    }
    if c in s.net.openers {
      OnWireNext(s.wire, Entry(c, s.net.openers[c].body, s.net.openers[c].headers, s.net.openers[c].source));
    }
  }

  lemma ToldSilent(r: Rules, s: State, c: ConnId, e: Raised)
    requires HeaderIsolation.OpenersApart(s.net.openers)
    ensures Silent(s, Told(r, s, c, e))
    ensures e != IsConnected ==> Told(r, s, c, e).net.openers == s.net.openers
  {
    hide OnWire, Waiting, OnOpenerEvent;
    WaitingNext(s.queue, NudgeTurn);
    if c in s.net.conns && s.net.conns[c].listener.Some? && s.net.conns[c].listener.value.Opener? {
      OpenerSilent(r, s, c, s.net.conns[c].listener.value.kind, e);
    }
  }

  lemma {:induction false} OftenSilent(r: Rules, s: State, c: ConnId, times: nat)
    requires HeaderIsolation.OpenersApart(s.net.openers)
    ensures Silent(s, ToldOften(r, s, c, IsLocalClose, times))
    decreases times
  {
    hide Told;
    if times > 0 {
      ToldSilent(r, s, c, IsLocalClose);
      OftenSilent(r, Told(r, s, c, IsLocalClose), c, times - 1);
    }
  }

  lemma ClosingSilent(r: Rules, s: State, c: ConnId, e: Raised, status: Status)
    requires HeaderIsolation.OpenersApart(s.net.openers)
    ensures Silent(s, CloseConn(r, s, c)) && Silent(s, Destroy(r, s, c)) && Silent(s, Raise(r, s, c, e, status))
  {
    hide ToldOften, Told;
    OftenSilent(r, s.(net := s.net.Close(c)), c, r.echoes(c) + 1);
    OftenSilent(r, s.(net := s.net.WithStatus(c, Closed)), c, r.echoes(c) + 1);
    ToldSilent(r, s.(net := s.net.WithStatus(c, status)), c, e);
  }

  lemma CloseStreamSilent(r: Rules, s: State, onThread: bool)
    requires HeaderIsolation.OpenersApart(s.net.openers)
    ensures Silent(s, CloseServerStream(r, s, onThread))
  {
    hide CloseConn, Raise, Destroy;
    if s.held.stream.Some? {
      ClosingSilent(r, s.(held := s.held.(stream := None)), s.held.stream.value, IsConnected, Open);
    }
  }

  lemma CloseActiveSilent(r: Rules, s: State, onThread: bool)
    requires HeaderIsolation.OpenersApart(s.net.openers)
    ensures Silent(s, CloseActive(r, s, onThread))
  {
    hide CloseConn, Raise, Destroy;
    if s.held.active.Some? {
      var c := s.held.active.value;
      ClosingSilent(r, s, c, IsConnected, Open);
      ClosingSilent(r, s.(held := s.held.(active := None), net := s.net.Dispose(c, true)), c, IsConnected, Open);
    }
  }

  lemma ConnectSilent(r: Rules, s: State, made: Option<ConnId>)
    requires HeaderIsolation.OpenersApart(s.net.openers)
    ensures Silent(s, Connect(r, s, made))
  {
    hide CloseConn, Raise, Destroy;
    if made.Some? && s.held.active.Some? {
      ClosingSilent(r, s.(held := s.held.(active := made), net := s.net.MakeBare(made.value)), s.held.active.value,
          IsConnected, Open);
    }
  }

  lemma {:induction false} EntriesSilent(s: State, keys: seq<nat>, ids: seq<RequestId>, onThread: bool)
    ensures var s1, s2 := RetireAnswers(s, keys, onThread), CloseSubscriptions(s, ids, onThread);
            s1.wire == s2.wire == s.wire && s1.queue == s2.queue == s.queue
    decreases |keys| + |ids|
  {
    hide Net.LetGo, KeyOf;
    if keys != [] {
      EntriesSilent(RetireAnswer(s, keys[0], onThread), keys[1..], [], onThread);
    }
    if ids != [] {
      EntriesSilent(CloseSubscription(s, ids[0], onThread), [], ids[1..], onThread);
    }
  }

  lemma CloseAllSilent(r: Rules, s: State, ids: seq<RequestId>, keys: seq<nat>, onThread: bool)
    requires HeaderIsolation.OpenersApart(s.net.openers)
    ensures Silent(s, CloseAll(r, s, ids, keys, onThread))
  {
    hide CloseServerStream, CloseSubscriptions, RetireAnswers, CloseActive, HeaderIsolation.OnlyDrops;
    var s1 := CloseServerStream(r, s, onThread);
    var s2 := CloseSubscriptions(s1, ids, onThread);
    var s3 := RetireAnswers(s2, keys, onThread);
    CloseStreamSilent(r, s, onThread);
    EntriesSilent(s1, [], ids, onThread);
    EntriesSilent(s2, keys, [], onThread);
    HeaderIsolation.CloseStreamDrops(r, s, onThread);
    HeaderIsolation.CloseSubsDrops(s1, ids, onThread);
    HeaderIsolation.RetireAllDrops(s2, keys, onThread);
    StillApart(s, s1);
    StillApart(s1, s2);
    StillApart(s2, s3);
    CloseActiveSilent(r, s3, onThread);
  }

  lemma StillApart(s: State, s': State)
    requires HeaderIsolation.OpenersApart(s.net.openers) && HeaderIsolation.OnlyDrops(s, s')
    ensures HeaderIsolation.OpenersApart(s'.net.openers)
  {
  }

  lemma OpeningSilent(r: Rules, s: State, e: Event)
    requires HeaderIsolation.OpenersApart(s.net.openers)
    requires e.OpenSub? || e.OpenStream? || e.GiveBack?
    ensures Silent(s, Step(r, s, e))
  {
    hide CloseServerStream, Due, DueBody, KeyOf, OnWire, Waiting;
    CloseStreamSilent(r, s, true);
    if s.held.active.Some? {
      var source := Delete(s.session.state);
      OnWireNext(s.wire, Entry(s.held.active.value, "", Due(r, source), source));
    }
  }

  lemma TurnSilent(r: Rules, s: State, made: Option<ConnId>)
    requires s.queue != [] && !IsMessage(s.queue[0])
    ensures Silent(s, Step(r, s, Turn(made)))
  {
    hide Net.LetGo, OnWire, Due, DueBody;
    if s.held.active.Some? {
      OnWireNext(s.wire, Entry(s.held.active.value, "", s.current, Nudge));
    }
  }

  lemma StepSilent(r: Rules, s: State, e: Event)
    requires HeaderIsolation.OpenersApart(s.net.openers)
    requires Accepted(r, s, e) == [] && Ran(s, e) == []
    ensures Silent(s, Step(r, s, e))
  {
    hide RunTurn, Raise, OpenSubscription, OpenServerStream, CloseSubscription, CloseServerStream, SendSessionDelete,
      CloseAll, Connect, Destroy, OnWire, Waiting;
    match e
    case Turn(made) =>
      if s.queue != [] {
        TurnSilent(r, s, made);
      }
    case Raising(c, event, status) => ClosingSilent(r, s, c, event, status);
    case Connecting(made) => ConnectSilent(r, s, made);
    case OpenSub(_, _, _) => OpeningSilent(r, s, e);
    case OpenStream(_, _) => OpeningSilent(r, s, e);
    case GiveBack => OpeningSilent(r, s, e);
    case CloseSub(id, onThread) => EntriesSilentOne(s, id, onThread);
    case CloseStream(onThread) => CloseStreamSilent(r, s, onThread);
    case CloseManager(ids, keys, onThread) => CloseAllSilent(r, s, ids, keys, onThread);
    case DeleteHanded(c) => ClosingSilent(r, s, c, IsConnected, Open);
    case _ =>
  }

  lemma EntriesSilentOne(s: State, id: RequestId, onThread: bool)
    ensures CloseSubscription(s, id, onThread).wire == s.wire && CloseSubscription(s, id, onThread).queue == s.queue
  {
    hide Net.LetGo, KeyOf;
  }

  /** A step posts what it accepts behind the rest, takes what it runs from the front, and writes that or nothing. */
  lemma StepMessages(r: Rules, s: State, e: Event)
    requires HeaderIsolation.OpenersApart(s.net.openers)
    ensures var s' := Step(r, s, e);
            && Waiting(s.queue) + Accepted(r, s, e) == Ran(s, e) + Waiting(s'.queue)
            && OnWire(s'.wire) == OnWire(s.wire) + Written(r, s, e)
  {
    hide Step, OnWire;
    if Ran(s, e) != [] {
      RunsMessage(r, s, e);
    } else if Accepted(r, s, e) != [] {
      Posts(r, s, e);
    } else {
      StepSilent(r, s, e);
    }
  }

  lemma Posts(r: Rules, s: State, e: Event)
    requires Accepted(r, s, e) != []
    ensures var s' := Step(r, s, e);
            s'.wire == s.wire && Waiting(s'.queue) == Waiting(s.queue) + Accepted(r, s, e)
  {
    WaitingNext(s.queue, Accepted(r, s, e)[0]);
  }

  lemma RunsMessage(r: Rules, s: State, e: Event)
    requires Ran(s, e) != []
    ensures var s' := Step(r, s, e);
            s'.queue == s.queue[1..] && OnWire(s'.wire) == OnWire(s.wire) + Written(r, s, e)
  {
    hide Step, MessageForm, PostForm;
    var s' := Step(r, s, e);
    if s.queue[0].WriteTurn? {
      WriteTurnWrites(r, s, e.made);
    } else {
      AnswerTurnAnswers(r, s, e.made);
    }
    if |s'.wire| > |s.wire| {
      assert s'.wire == s.wire + [s'.wire[|s.wire|]];
      OnWireNext(s.wire, s'.wire[|s.wire|]);
    }
  }

  /**
   Over every run: the messages accepted are, in their order, those whose turn ran and
   those still waiting; and the messages on the wire are, in their order and each once,
   those whose turn ran while there was a connection, but for the answers that went apart.
   */
  lemma {:induction false} RunMessages(r: Rules, s: State, run: seq<Event>)
    requires HeaderIsolation.OpenersApart(s.net.openers)
    ensures var s' := Run(r, s, run);
            && Waiting(s.queue) + AllAccepted(r, s, run) == AllRan(r, s, run) + Waiting(s'.queue)
            && OnWire(s'.wire) == OnWire(s.wire) + AllWritten(r, s, run)
    decreases |run|
  {
    hide Step, Accepted, Ran, Written, Waiting, OnWire;
    if run != [] {
      StepMessages(r, s, run[0]);
      HeaderIsolation.StepInOrder(r, s, run[0]);
      RunMessages(r, Step(r, s, run[0]), run[1..]);
      Chain(Waiting(s.queue), Accepted(r, s, run[0]), AllAccepted(r, Step(r, s, run[0]), run[1..]), Ran(s, run[0]),
          Waiting(Step(r, s, run[0]).queue), AllRan(r, Step(r, s, run[0]), run[1..]), Waiting(Run(r, s, run).queue));
    }
  }

  lemma Chain<T>(a: seq<T>, x: seq<T>, xs: seq<T>, y: seq<T>, b: seq<T>, ys: seq<T>, c: seq<T>)
    requires a + x == y + b && b + xs == ys + c
    ensures a + (x + xs) == (y + ys) + c
  {
    assert a + (x + xs) == (a + x) + xs;
    assert (y + b) + xs == y + (b + xs);
    assert y + (ys + c) == (y + ys) + c;
  }

  /** From the start: nothing waits and nothing is on the wire. */
  lemma MessagesFromStart(r: Rules, given: Option<Headers>, run: seq<Event>)
    ensures var s, s' := Start(r, given), Run(r, Start(r, given), run);
            && AllAccepted(r, s, run) == AllRan(r, s, run) + Waiting(s'.queue)
            && OnWire(s'.wire) == AllWritten(r, s, run)
  {
    hide Run, AllAccepted, AllRan, AllWritten;
    RunMessages(r, Start(r, given), run);
  }
}
