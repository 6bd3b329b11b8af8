/**
 What every run of the connection manager keeps about headers and about the order of
 messages: no request sees another one's headers, and messages are recorded in the
 order in which they reach the wire.
 */
module HeaderIsolation {
  import opened ConnectionTurns

  ghost predicate WireDue(r: Rules, wire: seq<Entry>) {
    forall i :: 0 <= i < |wire| ==> wire[i].seen == Due(r, wire[i].source) && wire[i].body == DueBody(r, wire[i].source)
  }

  ghost predicate OpenersDue(r: Rules, openers: map<ConnId, OpenerData>) {
    forall c :: c in openers ==>
      openers[c].headers == Due(r, openers[c].source) && openers[c].body == DueBody(r, openers[c].source)
  }

  /** The map is the configured one, or no turn will read it without setting it first. */
  ghost predicate Calm(r: Rules, current: Headers, queue: seq<Turn>) {
    current == r.configured || (r.transport != HttpSse && NudgeTurn !in queue)
  }

  ghost predicate Isolated(r: Rules, s: State) {
    WireDue(r, s.wire) && OpenersDue(r, s.net.openers) && Calm(r, s.current, s.queue)
  }

  lemma WriteAsKeeps(r: Rules, s: State, c: ConnId, headers: Headers, body: string, source: Source)
    requires Isolated(r, s) && headers == Due(r, source) && body == DueBody(r, source)
    ensures Isolated(r, WriteAs(r, s, c, headers, body, source))
  {
    hide Due, DueBody;
  }

  lemma WriteMessageKeeps(r: Rules, s: State, json: string, extra: Headers, correlate: Option<RequestId>)
    requires Isolated(r, s)
    ensures Isolated(r, WriteMessage(r, s, json, extra, correlate))
  {
    hide Due, DueBody, WriteAs, WireDue, OpenersDue;
    if s.held.active.Some? {
      var source := Message(json, extra, correlate, s.session.state);
      var recorded := if r.hasSession then s.(session := s.session.RecordSent(correlate)) else s;
      WriteAsKeeps(r, recorded, s.held.active.value, Due(r, source), DueBody(r, source), source);
    }
  }

  lemma OpenerMade(r: Rules, openers: map<ConnId, OpenerData>, c: ConnId, source: Source)
    requires OpenersDue(r, openers)
    ensures OpenersDue(r, openers[c := OpenerData(Due(r, source), DueBody(r, source), source)])
  {
    hide Due, DueBody;
  }

  lemma OpenerDropped(r: Rules, openers: map<ConnId, OpenerData>, c: ConnId)
    requires OpenersDue(r, openers)
    ensures OpenersDue(r, openers - {c})
  {
    hide Due, DueBody;
  }

  lemma SendAnswerApartKeeps(r: Rules, s: State, json: string, made: Option<ConnId>)
    requires Isolated(r, s)
    ensures Isolated(r, SendAnswerApart(r, s, json, made).state)
  {
    hide Due, DueBody, WireDue, OpenersDue;
    if r.HttpFactory() && made.Some? && r.parse(json).Some? {
      OpenerMade(r, s.net.openers, made.value, Answer(json, s.session.state));
    }
  }

  lemma AnswerServerKeeps(r: Rules, s: State, json: string, made: Option<ConnId>)
    requires Isolated(r, s)
    ensures Isolated(r, AnswerServer(r, s, json, made))
  {
    hide Isolated, WriteMessage, SendAnswerApart;
    WriteMessageKeeps(r, s, json, map[], None);
    SendAnswerApartKeeps(r, s, json, made);
    WriteMessageKeeps(r, SendAnswerApart(r, s, json, made).state, json, map[], None);
  }

  /** Letting go of connections writes nothing, makes no opener and posts no nudge; it may forget what is in flight. */
  ghost predicate OnlyDrops(s: State, s': State) {
    && s'.wire == s.wire && s'.current == s.current
    && (s'.session == s.session || s'.session == s.session.ForgetInFlight())
    && (NudgeTurn in s'.queue ==> NudgeTurn in s.queue)
    && forall c :: c in s'.net.openers ==> c in s.net.openers && s'.net.openers[c] == s.net.openers[c]
  }

  lemma OnlyDropsOn(s: State, s': State, s'': State)
    requires OnlyDrops(s, s') && OnlyDrops(s', s'')
    ensures OnlyDrops(s, s'')
  {
  }

  lemma OnlyDropsKeeps(r: Rules, s: State, s': State)
    requires Isolated(r, s) && OnlyDrops(s, s')
    ensures Isolated(r, s')
  {
    hide Due, DueBody;
  }

  /** A connection that closes only lets go. */
  lemma CloseEventDrops(r: Rules, s: State, e: Raised)
    requires e != IsConnected
    ensures OnlyDrops(s, OnConnectionEvent(r, s, e))
  {
  }

  lemma OpenerCloseDrops(r: Rules, s: State, c: ConnId, kind: OpenerKind, e: Raised)
    requires e != IsConnected
    ensures OnlyDrops(s, OnOpenerEvent(r, s, c, kind, e))
  {
  }

  lemma ToldCloseDrops(r: Rules, s: State, c: ConnId, e: Raised)
    requires e != IsConnected
    ensures OnlyDrops(s, Told(r, s, c, e))
  {
    hide OnConnectionEvent, OnOpenerEvent;
    CloseEventDrops(r, s, e);
    if c in s.net.conns {
      match s.net.conns[c].listener
      case Some(Opener(kind)) => OpenerCloseDrops(r, s, c, kind, e);
      case _ =>
    }
  }

  lemma {:induction false} OftenDrops(r: Rules, s: State, c: ConnId, times: nat)
    ensures OnlyDrops(s, ToldOften(r, s, c, IsLocalClose, times))
    decreases times
  {
    hide Told, OnlyDrops;
    if times > 0 {
      ToldCloseDrops(r, s, c, IsLocalClose);
      OftenDrops(r, Told(r, s, c, IsLocalClose), c, times - 1);
      OnlyDropsOn(s, Told(r, s, c, IsLocalClose), ToldOften(r, s, c, IsLocalClose, times));
    } else {
      OnlyDropsSame(s);
    }
  }

  lemma CloseConnDrops(r: Rules, s: State, c: ConnId)
    ensures OnlyDrops(s, CloseConn(r, s, c))
  {
    hide ToldOften;
    OftenDrops(r, s.(net := s.net.Close(c)), c, r.echoes(c) + 1);
  }

  lemma DestroyDrops(r: Rules, s: State, c: ConnId)
    ensures OnlyDrops(s, Destroy(r, s, c))
  {
    hide ToldOften;
    OftenDrops(r, s.(net := s.net.WithStatus(c, Closed)), c, r.echoes(c) + 1);
  }

  lemma LetGoDrops(net: Net, c: ConnId, closeIt: bool, onThread: bool)
    ensures net.LetGo(c, closeIt, onThread).openers == net.openers - {c}
  {
  }

  lemma RetireDrops(s: State, key: nat, onThread: bool)
    ensures OnlyDrops(s, RetireAnswer(s, key, onThread))
  {
    hide Net.LetGo;
    if key in s.held.answers {
      LetGoDrops(s.net, s.held.answers[key], s.net.StatusOf(s.held.answers[key]) != Closed, onThread);
    }
  }

  lemma CloseSubDrops(s: State, id: RequestId, onThread: bool)
    ensures OnlyDrops(s, CloseSubscription(s, id, onThread))
  {
    hide Net.LetGo;
    if KeyOf(id) in s.held.subscriptions {
      LetGoDrops(s.net, s.held.subscriptions[KeyOf(id)].conn, true, onThread);
    }
  }

  lemma {:induction false} RetireAllDrops(s: State, keys: seq<nat>, onThread: bool)
    ensures OnlyDrops(s, RetireAnswers(s, keys, onThread))
    decreases |keys|
  {
    hide RetireAnswer;
    if keys != [] {
      RetireDrops(s, keys[0], onThread);
      RetireAllDrops(RetireAnswer(s, keys[0], onThread), keys[1..], onThread);
    }
  }

  lemma {:induction false} CloseSubsDrops(s: State, ids: seq<RequestId>, onThread: bool)
    ensures OnlyDrops(s, CloseSubscriptions(s, ids, onThread))
    decreases |ids|
  {
    hide CloseSubscription;
    if ids != [] {
      CloseSubDrops(s, ids[0], onThread);
      CloseSubsDrops(CloseSubscription(s, ids[0], onThread), ids[1..], onThread);
    }
  }

  lemma CloseStreamDrops(r: Rules, s: State, onThread: bool)
    ensures OnlyDrops(s, CloseServerStream(r, s, onThread))
  {
    hide CloseConn, OnlyDrops;
    if s.held.stream.Some? {
      var c := s.held.stream.value;
      var closed := CloseConn(r, s.(held := s.held.(stream := None)), c);
      CloseConnDrops(r, s.(held := s.held.(stream := None)), c);
      HeldAside(s, s.held.(stream := None), closed);
      DisposeAside(s, closed, c, onThread);
    } else {
      OnlyDropsSame(s);
    }
  }

  lemma OnlyDropsSame(s: State)
    ensures OnlyDrops(s, s)
  {
  }

  lemma HeldAside(s: State, held: Held, s': State)
    requires OnlyDrops(s.(held := held), s')
    ensures OnlyDrops(s, s')
  {
  }

  lemma DisposeAside(s: State, s': State, c: ConnId, onThread: bool)
    requires OnlyDrops(s, s')
    ensures OnlyDrops(s, s'.(net := s'.net.Dispose(c, onThread)))
  {
  }

  lemma CloseActiveDrops(r: Rules, s: State, onThread: bool)
    ensures OnlyDrops(s, CloseActive(r, s, onThread).(connected := false))
  {
    hide CloseConn, Destroy;
    if s.held.active.Some? {
      var c := s.held.active.value;
      CloseConnDrops(r, s, c);
      DestroyDrops(r, s.(held := s.held.(active := None), net := s.net.Dispose(c, true)), c);
    }
  }

  lemma CloseAllDrops(r: Rules, s: State, ids: seq<RequestId>, keys: seq<nat>, onThread: bool)
    ensures OnlyDrops(s, CloseAll(r, s, ids, keys, onThread))
  {
    hide OnlyDrops, CloseSubscriptions, RetireAnswers, CloseServerStream, CloseActive;
    var s1 := CloseServerStream(r, s, onThread);
    var s2 := CloseSubscriptions(s1, ids, onThread);
    var s3 := RetireAnswers(s2, keys, onThread);
    CloseStreamDrops(r, s, onThread);
    CloseSubsDrops(s1, ids, onThread);
    RetireAllDrops(s2, keys, onThread);
    CloseActiveDrops(r, s3, onThread);
    OnlyDropsOn(s, s1, s2);
    OnlyDropsOn(s, s2, s3);
    OnlyDropsOn(s, s3, CloseAll(r, s, ids, keys, onThread));
  }

  lemma ConnectDrops(r: Rules, s: State, made: Option<ConnId>)
    ensures OnlyDrops(s, Connect(r, s, made))
  {
    hide Destroy;
    if made.Some? && s.held.active.Some? {
      DestroyDrops(r, s.(held := s.held.(active := made), net := s.net.MakeBare(made.value)), s.held.active.value);
    }
  }

  lemma OpenSubscriptionKeeps(r: Rules, s: State, id: RequestId, message: string, made: Option<ConnId>)
    requires Isolated(r, s)
    ensures Isolated(r, OpenSubscription(r, s, id, message, made).state)
  {
    hide Due, DueBody, WireDue, OpenersDue;
    if made.Some? {
      OpenerMade(r, s.net.openers, made.value, Subscription(message, s.session.state));
    }
  }

  lemma OpenStreamKeeps(r: Rules, s: State, cursor: string, made: Option<ConnId>)
    requires Isolated(r, s)
    ensures Isolated(r, OpenServerStream(r, s, cursor, made).state)
  {
    hide Due, DueBody, WireDue, OpenersDue, CloseServerStream, OnlyDrops;
    var closed := CloseServerStream(r, s, true);
    CloseStreamDrops(r, s, true);
    OnlyDropsKeeps(r, s, closed);
    if made.Some? {
      var source := Stream(cursor, closed.session.state);
      OpenerMade(r, closed.net.openers, made.value, source);
      if closed.held.retiredOpener.Some? {
        OpenerDropped(r, closed.net.openers, closed.held.retiredOpener.value);
        OpenerMade(r, closed.net.openers - {closed.held.retiredOpener.value}, made.value, source);
      }
    }
  }

  lemma GiveBackKeeps(r: Rules, s: State)
    requires Isolated(r, s)
    ensures Isolated(r, SendSessionDelete(r, s))
  {
    hide Due, WriteAs, WireDue, OpenersDue;
    if s.held.active.Some? {
      var source := Delete(s.session.state);
      WriteAsKeeps(r, s, s.held.active.value, Due(r, source), DueBody(r, source), source);
    }
  }

  lemma OpenerEventKeeps(r: Rules, s: State, c: ConnId, kind: OpenerKind, e: Raised)
    requires Isolated(r, s)
    ensures Isolated(r, OnOpenerEvent(r, s, c, kind, e))
  {
    hide Due, DueBody, WriteAs, WireDue;
    if c in s.net.openers && e == IsConnected {
      WriteAsKeeps(r, s, c, s.net.openers[c].headers, s.net.openers[c].body, s.net.openers[c].source);
    }
  }

  lemma ConnectionEventKeeps(r: Rules, s: State, e: Raised)
    requires Isolated(r, s)
    ensures Isolated(r, OnConnectionEvent(r, s, e))
  {
    hide Due, DueBody, WireDue, OpenersDue;
  }

  lemma RaiseKeeps(r: Rules, s: State, c: ConnId, e: Raised, status: Status)
    requires Isolated(r, s)
    ensures Isolated(r, Raise(r, s, c, e, status))
  {
    hide Isolated, OnConnectionEvent, OnOpenerEvent;
    if s.net.StatusOf(c) != Closed {
      var after := s.(net := s.net.WithStatus(c, status));
      StatusKeeps(r, s, c, status);
      ConnectionEventKeeps(r, after, e);
      match after.net.conns[c].listener
      case Some(Opener(kind)) => OpenerEventKeeps(r, after, c, kind, e);
      case _ =>
    }
  }

  lemma StatusKeeps(r: Rules, s: State, c: ConnId, status: Status)
    requires Isolated(r, s)
    ensures Isolated(r, s.(net := s.net.WithStatus(c, status)))
  {
    hide Due, DueBody, WireDue, OpenersDue;
  }

  lemma NudgeKeeps(r: Rules, s: State)
    requires Isolated(r, s) && NudgeTurn in s.queue && s.held.active.Some?
    ensures Isolated(r, Write(s, s.held.active.value, "", Nudge).(queue := s.queue[1..]))
  {
    hide OpenersDue;
    assert s.current == r.configured == Due(r, Nudge) && DueBody(r, Nudge) == "";
  }

  lemma TailCalm(r: Rules, s: State)
    requires Isolated(r, s) && s.queue != []
    ensures Isolated(r, s.(queue := s.queue[1..]))
  {
    hide OpenersDue, WireDue;
  }

  lemma TurnKeeps(r: Rules, s: State, made: Option<ConnId>)
    requires Isolated(r, s) && s.queue != []
    ensures Isolated(r, Step(r, s, Turn(made)))
  {
    hide Isolated, WriteMessage, AnswerServer, RetireAnswer, OnlyDrops;
    var s' := s.(queue := s.queue[1..]);
    TailCalm(r, s);
    match s.queue[0]
    case WriteTurn(json, extra, correlate) => WriteMessageKeeps(r, s', json, extra, correlate);
    case AnswerTurn(json) => AnswerServerKeeps(r, s', json, made);
    case RetireTurn(key, _) =>
      RetireDrops(s', key, true);
      OnlyDropsKeeps(r, s', RetireAnswer(s', key, true));
    case NudgeTurn =>
      if s.held.active.Some? {
        NudgeKeeps(r, s);
      }
  }

  lemma SmallStepsKeep(r: Rules, s: State, e: Event)
    requires Isolated(r, s)
    requires e.Send? || e.Respond? || e.Answered? || e.SessionChanges?
    ensures Isolated(r, Step(r, s, e))
  {
    hide Due, DueBody, WireDue, OpenersDue;
  }

  lemma StepKeeps(r: Rules, s: State, e: Event)
    requires Isolated(r, s)
    ensures Isolated(r, Step(r, s, e))
  {
    hide Isolated, OnlyDrops, RunTurn, Raise, OpenSubscription, OpenServerStream, CloseSubscription, CloseServerStream,
      SendSessionDelete, CloseAll, Connect, Destroy;
    match e
    case Turn(made) =>
      if s.queue != [] {
        TurnKeeps(r, s, made);
      }
    case Raising(c, event, status) => RaiseKeeps(r, s, c, event, status);
    case OpenSub(id, message, made) => OpenSubscriptionKeeps(r, s, id, message, made);
    case OpenStream(cursor, made) => OpenStreamKeeps(r, s, cursor, made);
    case GiveBack => GiveBackKeeps(r, s);
    case StatusChanges(c, status) => StatusKeeps(r, s, c, status);
    case Send(_, _, _) => SmallStepsKeep(r, s, e);
    case Respond(_) => SmallStepsKeep(r, s, e);
    case Answered => SmallStepsKeep(r, s, e);
    case SessionChanges(_) => SmallStepsKeep(r, s, e);
    case _ =>
      LettingGoDrops(r, s, e);
      OnlyDropsKeeps(r, s, Step(r, s, e));
  }

  predicate LetsGo(e: Event) { e.Connecting? || e.CloseSub? || e.CloseStream? || e.CloseManager? || e.DeleteHanded? }

  /** The events that only let go of connections. */
  lemma LettingGoDrops(r: Rules, s: State, e: Event)
    requires LetsGo(e)
    ensures OnlyDrops(s, Step(r, s, e))
  {
    hide OnlyDrops, CloseSubscription, CloseServerStream, CloseAll, Connect, Destroy;
    OnlyDropsSame(s);
    match e
    case Connecting(made) => ConnectDrops(r, s, made);
    case CloseSub(id, onThread) => CloseSubDrops(s, id, onThread);
    case CloseStream(onThread) => CloseStreamDrops(r, s, onThread);
    case CloseManager(ids, keys, onThread) => CloseAllDrops(r, s, ids, keys, onThread);
    case DeleteHanded(c) => DestroyDrops(r, s, c);
  }

  lemma {:induction false} RunIsolated(r: Rules, s: State, run: seq<Event>)
    requires Isolated(r, s)
    ensures Isolated(r, Run(r, s, run))
    decreases |run|
  {
    hide Isolated, Step;
    if run != [] {
      StepKeeps(r, s, run[0]);
      RunIsolated(r, Step(r, s, run[0]), run[1..]);
    }
  }

  // ----- the shared header map between turns -----

  /** A turn leaves the map alone, writing nothing but a nudge, or leaves it the configured one. */
  ghost predicate Settles(r: Rules, s: State, s': State) {
    || s'.current == r.configured
    || (s'.current == s.current
        && (s'.wire == s.wire || exists c :: s'.wire == s.wire + [Entry(c, "", s.current, Nudge)]))
  }

  lemma WriteMessageSettles(r: Rules, s: State, json: string, extra: Headers, correlate: Option<RequestId>)
    ensures Settles(r, s, WriteMessage(r, s, json, extra, correlate))
  {
    hide Due, DueBody;
  }

  lemma AnswerServerSettles(r: Rules, s: State, json: string, made: Option<ConnId>)
    ensures Settles(r, s, AnswerServer(r, s, json, made))
  {
    hide Due, DueBody;
  }

  lemma ConnectionEventSettles(r: Rules, s: State, e: Raised)
    ensures Settles(r, s, OnConnectionEvent(r, s, e))
  {
  }

  lemma OpenerEventSettles(r: Rules, s: State, c: ConnId, kind: OpenerKind, e: Raised)
    ensures Settles(r, s, OnOpenerEvent(r, s, c, kind, e))
  {
  }

  lemma RaiseSettles(r: Rules, s: State, c: ConnId, e: Raised, status: Status)
    ensures Settles(r, s, Raise(r, s, c, e, status))
  {
    hide OnConnectionEvent, OnOpenerEvent;
    if s.net.StatusOf(c) != Closed {
      var after := s.(net := s.net.WithStatus(c, status));
      ConnectionEventSettles(r, after, e);
      match after.net.conns[c].listener
      case Some(Opener(kind)) => OpenerEventSettles(r, after, c, kind, e);
      case _ =>
    }
  }

  lemma OpeningSettles(r: Rules, s: State, e: Event)
    requires e.OpenSub? || e.OpenStream? || e.GiveBack?
    ensures Settles(r, s, Step(r, s, e))
  {
    hide Due, DueBody, CloseServerStream;
    CloseStreamDrops(r, s, true);
  }

  lemma TurnSettles(r: Rules, s: State, made: Option<ConnId>)
    requires s.queue != []
    ensures Settles(r, s, Step(r, s, Turn(made)))
  {
    hide WriteMessage, AnswerServer, RetireAnswer;
    var s' := s.(queue := s.queue[1..]);
    match s.queue[0]
    case WriteTurn(json, extra, correlate) => WriteMessageSettles(r, s', json, extra, correlate);
    case AnswerTurn(json) => AnswerServerSettles(r, s', json, made);
    case RetireTurn(key, _) => RetireDrops(s', key, true);
    case NudgeTurn =>
  }

  lemma StepSettles(r: Rules, s: State, e: Event)
    ensures Settles(r, s, Step(r, s, e))
  {
    hide RunTurn, Raise, OpenSubscription, OpenServerStream, CloseSubscription, CloseServerStream, SendSessionDelete,
      CloseAll, Connect, Destroy;
    if LetsGo(e) {
      LettingGoDrops(r, s, e);
    } else {
      match e
      case Turn(made) =>
        if s.queue != [] {
          TurnSettles(r, s, made);
        }
      case Raising(c, event, status) => RaiseSettles(r, s, c, event, status);
      case OpenSub(_, _, _) => OpeningSettles(r, s, e);
      case OpenStream(_, _) => OpeningSettles(r, s, e);
      case GiveBack => OpeningSettles(r, s, e);
      case _ =>
    }
  }

  /** The map is the configured one, or the first one and nothing but nudges was ever written. */
  ghost predicate Settled(r: Rules, s: State, initial: Headers) {
    s.current == r.configured || (s.current == initial && forall i :: 0 <= i < |s.wire| ==> s.wire[i].source.Nudge?)
  }

  lemma {:induction false} RunSettled(r: Rules, s: State, run: seq<Event>, initial: Headers)
    requires Settled(r, s, initial)
    ensures Settled(r, Run(r, s, run), initial)
    decreases |run|
  {
    hide Step;
    if run != [] {
      StepSettles(r, s, run[0]);
      RunSettled(r, Step(r, s, run[0]), run[1..], initial);
    }
  }

  // ----- the order of messages -----

  /** The ids of the messages on the wire, in their order. */
  function Correlates(wire: seq<Entry>): seq<Option<RequestId>> {
    if wire == [] then []
    else Correlates(wire[..|wire| - 1])
         + (if wire[|wire| - 1].source.Message? then [wire[|wire| - 1].source.correlate] else [])
  }

  ghost predicate Suffix<T>(s: seq<T>, t: seq<T>) { |s| <= |t| && s == t[|t| - |s|..] }

  ghost predicate Ordered(r: Rules, s: State) {
    && (r.hasSession ==> s.session.recorded == Correlates(s.wire))
    && Suffix(s.session.inFlight, s.session.recorded)
  }

  lemma CorrelatesNext(wire: seq<Entry>, e: Entry)
    ensures Correlates(wire + [e]) == Correlates(wire) + (if e.source.Message? then [e.source.correlate] else [])
  {
    assert (wire + [e])[..|wire|] == wire;
  }

  /** A turn records exactly the message it writes, or writes none. */
  ghost predicate InOrder(r: Rules, s: State, s': State) {
    || (s'.wire == s.wire && s'.session.recorded == s.session.recorded
        && (s'.session.inFlight == s.session.inFlight || s'.session.inFlight == []
           || (s.session.inFlight != [] && s'.session.inFlight == s.session.inFlight[1..])))
    || (|s'.wire| == |s.wire| + 1 && s'.wire[..|s.wire|] == s.wire
        && (var e := s'.wire[|s.wire|];
            if e.source.Message? && r.hasSession then
              && s'.session.recorded == s.session.recorded + [e.source.correlate]
              && s'.session.inFlight == s.session.inFlight + [e.source.correlate]
            else s'.session.recorded == s.session.recorded && s'.session.inFlight == s.session.inFlight))
  }

  lemma InOrderKeeps(r: Rules, s: State, s': State)
    requires Ordered(r, s) && InOrder(r, s, s')
    ensures Ordered(r, s')
  {
    if |s'.wire| > |s.wire| {
      var e := s'.wire[|s.wire|];
      assert s'.wire == s.wire + [e];
      CorrelatesNext(s.wire, e);
    }
  }

  lemma WriteMessageInOrder(r: Rules, s: State, json: string, extra: Headers, correlate: Option<RequestId>)
    ensures InOrder(r, s, WriteMessage(r, s, json, extra, correlate))
  {
    hide Due, DueBody;
  }

  lemma AnswerServerInOrder(r: Rules, s: State, json: string, made: Option<ConnId>)
    ensures InOrder(r, s, AnswerServer(r, s, json, made))
  {
    hide Due, DueBody, WriteMessage;
    WriteMessageInOrder(r, s, json, map[], None);
    WriteMessageInOrder(r, SendAnswerApart(r, s, json, made).state, json, map[], None);
  }

  /** What openers write are never messages of the shared connection. */
  ghost predicate OpenersApart(openers: map<ConnId, OpenerData>) {
    forall c :: c in openers ==> !openers[c].source.Message?
  }

  lemma RaiseInOrder(r: Rules, s: State, c: ConnId, e: Raised, status: Status)
    requires OpenersApart(s.net.openers)
    ensures InOrder(r, s, Raise(r, s, c, e, status)) && OpenersApart(Raise(r, s, c, e, status).net.openers)
  {
    hide OnConnectionEvent, OnOpenerEvent;
    if s.net.StatusOf(c) != Closed {
      var after := s.(net := s.net.WithStatus(c, status));
      ConnectionEventInOrder(r, after, e);
      match after.net.conns[c].listener
      case Some(Opener(kind)) => OpenerEventInOrder(r, after, c, kind, e);
      case _ =>
    }
  }

  lemma ConnectionEventInOrder(r: Rules, s: State, e: Raised)
    requires OpenersApart(s.net.openers)
    ensures InOrder(r, s, OnConnectionEvent(r, s, e)) && OpenersApart(OnConnectionEvent(r, s, e).net.openers)
  {
  }

  lemma OpenerEventInOrder(r: Rules, s: State, c: ConnId, kind: OpenerKind, e: Raised)
    requires OpenersApart(s.net.openers)
    ensures InOrder(r, s, OnOpenerEvent(r, s, c, kind, e)) && OpenersApart(OnOpenerEvent(r, s, c, kind, e).net.openers)
  {
  }

  lemma OpenSubInOrder(r: Rules, s: State, id: RequestId, message: string, made: Option<ConnId>)
    requires OpenersApart(s.net.openers)
    ensures var s' := OpenSubscription(r, s, id, message, made).state;
            InOrder(r, s, s') && OpenersApart(s'.net.openers)
  {
    hide Due, DueBody;
  }

  lemma OpenStreamInOrder(r: Rules, s: State, cursor: string, made: Option<ConnId>)
    requires OpenersApart(s.net.openers)
    ensures var s' := OpenServerStream(r, s, cursor, made).state;
            InOrder(r, s, s') && OpenersApart(s'.net.openers)
  {
    hide Due, DueBody, CloseServerStream;
    CloseStreamDrops(r, s, true);
  }

  lemma GiveBackInOrder(r: Rules, s: State)
    requires OpenersApart(s.net.openers)
    ensures InOrder(r, s, SendSessionDelete(r, s)) && OpenersApart(SendSessionDelete(r, s).net.openers)
  {
    hide Due, DueBody;
  }

  lemma TurnInOrder(r: Rules, s: State, made: Option<ConnId>)
    requires s.queue != [] && OpenersApart(s.net.openers)
    ensures InOrder(r, s, Step(r, s, Turn(made))) && OpenersApart(Step(r, s, Turn(made)).net.openers)
  {
    hide WriteMessage, AnswerServer, RetireAnswer;
    var s' := s.(queue := s.queue[1..]);
    match s.queue[0]
    case WriteTurn(json, extra, correlate) =>
      WriteMessageInOrder(r, s', json, extra, correlate);
      WriteMessageNet(r, s', json, extra, correlate);
    case AnswerTurn(json) =>
      AnswerServerInOrder(r, s', json, made);
      AnswerServerOpeners(r, s', json, made);
    case RetireTurn(key, _) => RetireDrops(s', key, true);
    case NudgeTurn =>
  }

  lemma WriteMessageNet(r: Rules, s: State, json: string, extra: Headers, correlate: Option<RequestId>)
    ensures var s' := WriteMessage(r, s, json, extra, correlate);
            s'.net == s.net && s'.held == s.held && s'.queue == s.queue && s'.connected == s.connected
  {
    hide Due, DueBody;
  }

  lemma AnswerServerOpeners(r: Rules, s: State, json: string, made: Option<ConnId>)
    requires OpenersApart(s.net.openers)
    ensures OpenersApart(AnswerServer(r, s, json, made).net.openers)
  {
    hide Due, DueBody, WriteMessage;
    WriteMessageNet(r, s, json, map[], None);
    WriteMessageNet(r, SendAnswerApart(r, s, json, made).state, json, map[], None);
  }

  lemma StepInOrder(r: Rules, s: State, e: Event)
    requires OpenersApart(s.net.openers)
    ensures InOrder(r, s, Step(r, s, e)) && OpenersApart(Step(r, s, e).net.openers)
  {
    hide RunTurn, Raise, OpenSubscription, OpenServerStream, CloseSubscription, CloseServerStream, SendSessionDelete,
      CloseAll, Connect, Destroy;
    if LetsGo(e) {
      LettingGoDrops(r, s, e);
    } else {
      match e
      case Turn(made) =>
        if s.queue != [] {
          TurnInOrder(r, s, made);
        }
      case Raising(c, event, status) => RaiseInOrder(r, s, c, event, status);
      case OpenSub(id, message, made) => OpenSubInOrder(r, s, id, message, made);
      case OpenStream(cursor, made) => OpenStreamInOrder(r, s, cursor, made);
      case GiveBack => GiveBackInOrder(r, s);
      case _ =>
    }
  }

  lemma {:induction false} RunOrdered(r: Rules, s: State, run: seq<Event>)
    requires Ordered(r, s) && OpenersApart(s.net.openers)
    ensures Ordered(r, Run(r, s, run))
    decreases |run|
  {
    hide Step, Ordered, InOrder;
    if run != [] {
      StepInOrder(r, s, run[0]);
      InOrderKeeps(r, s, Step(r, s, run[0]));
      RunOrdered(r, Step(r, s, run[0]), run[1..]);
    }
  }

  // ----- the theorems -----

  /** Messages are recorded in the order they reach the wire, and those awaiting answers are the last ones recorded. */
  ghost predicate InWireOrder(session: Session, wire: seq<Entry>) {
    session.recorded == Correlates(wire) && Suffix(session.inFlight, session.recorded)
  }

  lemma RecordedInWireOrder(r: Rules, given: Option<Headers>, run: seq<Event>)
    requires r.hasSession
    ensures InWireOrder(Run(r, Start(r, given), run).session, Run(r, Start(r, given), run).wire)
  {
    hide Run;
    RunOrdered(r, Start(r, given), run);
  }

  /** The header map never keeps anything of a request: it is the configured one after any request was written. */
  lemma MapRestored(r: Rules, given: Option<Headers>, run: seq<Event>)
    ensures var s := Run(r, Start(r, given), run);
            && (given.None? ==> s.current == r.configured)
            && s.current in {Start(r, given).current, r.configured}
            && ((exists i :: 0 <= i < |s.wire| && !s.wire[i].source.Nudge?) ==> s.current == r.configured)
  {
    hide Run;
    RunSettled(r, Start(r, given), run, Start(r, given).current);
  }

  /** The first nudge is sent under whatever map the manager was given. */
  lemma NudgeUnderGiven(r: Rules, given: Headers)
    requires r.transport == HttpSse
    ensures var run := [Connecting(Some(0))] + ([Raising(0, IsConnected, Open)] + ([Turn(None)] + []));
            && LegalRun(r, Start(r, Some(given)), run)
            && Run(r, Start(r, Some(given)), run).wire == [Entry(0, "", given, Nudge)]
  {
    hide Run, LegalRun;
    var s0 := Start(r, Some(given));
    var s1 := s0.(held := s0.held.(active := Some(0)), net := Net(map[0 := Connection(Open, Some(Manager))], map[],
        {0}, [], {}));
    var s2 := s1.(connected := true, queue := [NudgeTurn], net := s1.net.(conns := map[0 := Connection(Open,
        Some(Manager))]));
    var s3 := s2.(queue := [], wire := [Entry(0, "", given, Nudge)]);
    assert Step(r, s0, Connecting(Some(0))) == s1;
    assert Step(r, s1, Raising(0, IsConnected, Open)) == s2;
    assert Step(r, s2, Turn(None)) == s3;
    RunOn(r, s0, Connecting(Some(0)), [Raising(0, IsConnected, Open)] + ([Turn(None)] + []));
    RunOn(r, s1, Raising(0, IsConnected, Open), [Turn(None)] + []);
    RunOn(r, s2, Turn(None), []);
    RunNothing(r, s3);
  }

  lemma RunOn(r: Rules, s: State, e: Event, run: seq<Event>)
    ensures Run(r, s, [e] + run) == Run(r, Step(r, s, e), run)
    ensures LegalRun(r, s, [e] + run) <==> Legal(s, e) && LegalRun(r, Step(r, s, e), run)
  {
    hide Step, Legal;
    assert ([e] + run)[1..] == run;
  }

  lemma RunNothing(r: Rules, s: State)
    ensures Run(r, s, []) == s && LegalRun(r, s, [])
  {
  }

  /**
   Every write of every run is seen with the headers its own request is due, and with
   its own body, exactly when the manager starts with the configured headers in the map
   or its transport sends no nudge.
   */
  lemma HeadersHold(r: Rules, given: Option<Headers>)
    ensures (forall run :: LegalRun(r, Start(r, given), run) ==> WireDue(r, Run(r, Start(r, given), run).wire))
            <==> given.None? || given.value == r.configured || r.transport != HttpSse
  {
    hide Due, DueBody, Run, LegalRun;
    if given.None? || given.value == r.configured || r.transport != HttpSse {
      forall run | LegalRun(r, Start(r, given), run)
        ensures WireDue(r, Run(r, Start(r, given), run).wire)
      {
        RunIsolated(r, Start(r, given), run);
      }
    } else {
      NudgeUnderGiven(r, given.value);
      NudgeNotDue(r, given.value);
      var run := [Connecting(Some(0))] + ([Raising(0, IsConnected, Open)] + ([Turn(None)] + []));
      assert LegalRun(r, Start(r, given), run) && !WireDue(r, Run(r, Start(r, given), run).wire);
    }
  }

  lemma NudgeNotDue(r: Rules, given: Headers)
    requires given != r.configured
    ensures !WireDue(r, [Entry(0, "", given, Nudge)])
  {
    var wire := [Entry(0, "", given, Nudge)];
    assert wire[0].seen != Due(r, wire[0].source);
  }
}
