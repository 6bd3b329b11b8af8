/**
 What holding means over whole runs of the connection manager: who may be called, what
 is handed to deletion and how often, what lets go of the active connection, and which
 answer a retirement reaches.
 */
module ConnectionSafety {
  import opened ConnectionTurns
  import opened ConnectionHolding
  import HeaderIsolation

  lemma StartInv(r: Rules, given: Option<Headers>)
    ensures Inv(Start(r, given))
  {
  }

  // ----- faults -----

  /** Connecting again while the connection before is still open: letting go of the old one takes the new one along. */
  predicate Loses(r: Rules, s: State, e: Event) {
    && e.Connecting? && e.made.Some? && !s.connected && (r.transport == HttpSse || r.transport == StreamableHttp)
    && s.held.active.Some? && s.net.StatusOf(s.held.active.value) != Closed
  }

  predicate RunLoses(r: Rules, s: State, run: seq<Event>)
    decreases |run|
  {
    run != [] && (Loses(r, s, run[0]) || RunLoses(r, Step(r, s, run[0]), run[1..]))
  }

  ghost predicate SameFault(s: State, s': State) { ActiveGone in s'.net.faults <==> ActiveGone in s.net.faults }

  lemma ConnectFault(r: Rules, s: State, made: Option<ConnId>)
    requires Inv(s) && New(s, made)
    ensures ActiveGone in Connect(r, s, made).net.faults <==>
              ActiveGone in s.net.faults || Loses(r, s, Connecting(made))
  {
    hide Connect, Holding, RetirementsTrue;
    if !s.connected && (r.transport == HttpSse || r.transport == StreamableHttp) && made.Some? {
      if s.held.active.Some? {
        ConnectOver(r, s, made.value);
      } else {
        ConnectFirst(r, s, made.value);
      }
    } else {
      ConnectNothing(r, s, made);
    }
  }

  lemma ToldFault(r: Rules, s: State, c: ConnId, e: Raised)
    ensures SameFault(s, Told(r, s, c, e))
  {
  }

  lemma {:induction false} OftenFault(r: Rules, s: State, c: ConnId, times: nat)
    ensures SameFault(s, ToldOften(r, s, c, IsLocalClose, times))
    decreases times
  {
    hide Told;
    if times > 0 {
      ToldFault(r, s, c, IsLocalClose);
      OftenFault(r, Told(r, s, c, IsLocalClose), c, times - 1);
    }
  }

  lemma CloseConnFault(r: Rules, s: State, c: ConnId)
    ensures SameFault(s, CloseConn(r, s, c))
  {
    hide ToldOften;
    OftenFault(r, s.(net := s.net.Close(c)), c, r.echoes(c) + 1);
  }

  lemma RaiseFault(r: Rules, s: State, c: ConnId, e: Raised, status: Status)
    ensures SameFault(s, Raise(r, s, c, e, status)) && SameFault(s, Destroy(r, s, c))
  {
    hide Told, ToldOften;
    ToldFault(r, s.(net := s.net.WithStatus(c, status)), c, e);
    OftenFault(r, s.(net := s.net.WithStatus(c, Closed)), c, r.echoes(c) + 1);
  }

  lemma CloseStreamFault(r: Rules, s: State, onThread: bool)
    ensures SameFault(s, CloseServerStream(r, s, onThread))
  {
    hide CloseConn;
    if s.held.stream.Some? {
      CloseConnFault(r, s.(held := s.held.(stream := None)), s.held.stream.value);
    }
  }

  lemma LetGoFault(net: Net, c: ConnId, closeIt: bool, onThread: bool)
    ensures ActiveGone in net.LetGo(c, closeIt, onThread).faults <==> ActiveGone in net.faults
  {
  }

  lemma EntryFault(s: State, key: nat, id: RequestId, onThread: bool)
    ensures SameFault(s, RetireAnswer(s, key, onThread)) && SameFault(s, CloseSubscription(s, id, onThread))
  {
    hide Net.LetGo, KeyOf;
    if key in s.held.answers {
      LetGoFault(s.net, s.held.answers[key], s.net.StatusOf(s.held.answers[key]) != Closed, onThread);
    }
    if KeyOf(id) in s.held.subscriptions {
      LetGoFault(s.net, s.held.subscriptions[KeyOf(id)].conn, true, onThread);
    }
  }

  lemma {:induction false} RetireAllFault(s: State, keys: seq<nat>, onThread: bool)
    ensures SameFault(s, RetireAnswers(s, keys, onThread))
    decreases |keys|
  {
    hide RetireAnswer, CloseSubscription;
    if keys != [] {
      EntryFault(s, keys[0], Number(0), onThread);
      RetireAllFault(RetireAnswer(s, keys[0], onThread), keys[1..], onThread);
    }
  }

  lemma {:induction false} CloseSubsFault(s: State, ids: seq<RequestId>, onThread: bool)
    ensures SameFault(s, CloseSubscriptions(s, ids, onThread))
    decreases |ids|
  {
    hide RetireAnswer, CloseSubscription;
    if ids != [] {
      EntryFault(s, 0, ids[0], onThread);
      CloseSubsFault(CloseSubscription(s, ids[0], onThread), ids[1..], onThread);
    }
  }

  lemma CloseActiveFault(r: Rules, s: State, onThread: bool)
    ensures SameFault(s, CloseActive(r, s, onThread))
  {
    hide CloseConn, Destroy, Raise;
    if s.held.active.Some? {
      var c := s.held.active.value;
      CloseConnFault(r, s, c);
      RaiseFault(r, s.(held := s.held.(active := None), net := s.net.Dispose(c, true)), c, IsLocalClose, Closed);
    }
  }

  lemma CloseAllFault(r: Rules, s: State, ids: seq<RequestId>, keys: seq<nat>, onThread: bool)
    ensures SameFault(s, CloseAll(r, s, ids, keys, onThread))
  {
    hide CloseServerStream, CloseSubscriptions, RetireAnswers, CloseActive;
    var s1 := CloseServerStream(r, s, onThread);
    var s2 := CloseSubscriptions(s1, ids, onThread);
    CloseStreamFault(r, s, onThread);
    CloseSubsFault(s1, ids, onThread);
    RetireAllFault(s2, keys, onThread);
    CloseActiveFault(r, RetireAnswers(s2, keys, onThread), onThread);
  }

  lemma TurnFault(r: Rules, s: State, made: Option<ConnId>)
    ensures SameFault(s, Step(r, s, Turn(made)))
  {
    hide RetireAnswer, CloseSubscription, WriteMessage, Due, DueBody;
    if s.queue != [] {
      var s' := s.(queue := s.queue[1..]);
      match s.queue[0]
      case WriteTurn(json, extra, correlate) => WriteMessageAside(r, s', json, extra, correlate);
      case AnswerTurn(json) =>
        WriteMessageAside(r, s', json, map[], None);
        WriteMessageAside(r, SendAnswerApart(r, s', json, made).state, json, map[], None);
      case RetireTurn(key, _) => EntryFault(s', key, Number(0), true);
      case NudgeTurn =>
    }
  }

  lemma OpenFault(r: Rules, s: State, e: Event)
    requires e.OpenSub? || e.OpenStream? || e.GiveBack?
    ensures SameFault(s, Step(r, s, e))
  {
    hide CloseServerStream, Due, DueBody, KeyOf;
    CloseStreamFault(r, s, true);
  }

  lemma StepFault(r: Rules, s: State, e: Event)
    requires Inv(s) && Legal(s, e)
    ensures ActiveGone in Step(r, s, e).net.faults <==> ActiveGone in s.net.faults || Loses(r, s, e)
  {
    hide Inv, RunTurn, Raise, OpenSubscription, OpenServerStream, CloseSubscription, CloseServerStream,
      SendSessionDelete, CloseAll, Connect, Destroy, RetireAnswer;
    match e
    case Turn(made) => TurnFault(r, s, made);
    case Raising(c, event, status) => RaiseFault(r, s, c, event, status);
    case Connecting(made) => ConnectFault(r, s, made);
    case OpenSub(_, _, _) => OpenFault(r, s, e);
    case OpenStream(_, _) => OpenFault(r, s, e);
    case GiveBack => OpenFault(r, s, e);
    case CloseSub(id, onThread) => EntryFault(s, 0, id, onThread);
    case CloseStream(onThread) => CloseStreamFault(r, s, onThread);
    case CloseManager(ids, keys, onThread) => CloseAllFault(r, s, ids, keys, onThread);
    case DeleteHanded(c) => RaiseFault(r, s, c, IsLocalClose, Closed);
    case _ =>
  }

  lemma {:induction false} RunFault(r: Rules, s: State, run: seq<Event>)
    requires Inv(s) && LegalRun(r, s, run)
    ensures Inv(Run(r, s, run))
    ensures ActiveGone in Run(r, s, run).net.faults <==> ActiveGone in s.net.faults || RunLoses(r, s, run)
    decreases |run|
  {
    hide Inv, Legal, Step, Loses;
    if run != [] {
      StepFault(r, s, run[0]);
      StepKeeps(r, s, run[0]);
      RunFault(r, Step(r, s, run[0]), run[1..]);
    }
  }

  lemma Sound(s: State)
    requires Inv(s)
    ensures s.net.faults <= {ActiveGone} && ListenersOwned(s.held, s.net) && RetirementsTrue(s.held, s.queue)
    ensures forall i, j :: 0 <= i < j < |s.net.handed| ==> s.net.handed[i] != s.net.handed[j]
  {
    hide ListenersOwned, RetirementsTrue, SubscriptionsBacked, AnswersBacked, OthersBacked;
  }

  /**
   In every legal run: no opener, a stream's included, is called after it is gone, no
   connection of an answer or a subscription is closed while it would still tell its
   opener, no connection is handed to deletion twice or touched after it is deleted, and
   whoever may still be told of something is held for it. The one thing that can go wrong
   goes wrong exactly when the manager is told to connect while its connection is open.
   */
  lemma RunSafe(r: Rules, given: Option<Headers>, run: seq<Event>)
    requires LegalRun(r, Start(r, given), run)
    ensures var s := Run(r, Start(r, given), run);
            && s.net.faults == (if RunLoses(r, Start(r, given), run) then {ActiveGone} else {})
            && (forall i, j :: 0 <= i < j < |s.net.handed| ==> s.net.handed[i] != s.net.handed[j])
            && ListenersOwned(s.held, s.net)
            && RetirementsTrue(s.held, s.queue)
  {
    hide Run, LegalRun, RunLoses, Inv, ListenersOwned, RetirementsTrue;
    StartInv(r, given);
    RunFault(r, Start(r, given), run);
    Sound(Run(r, Start(r, given), run));
    assert Start(r, given).net.faults == {};
  }

  /** Connecting twice, with no event in between, is such a run. */
  lemma ConnectTwice(r: Rules, given: Option<Headers>)
    requires r.transport == HttpSse || r.transport == StreamableHttp
    ensures var run := [Connecting(Some(0))] + ([Connecting(Some(1))] + []);
            LegalRun(r, Start(r, given), run) && RunLoses(r, Start(r, given), run)
  {
    hide Run, LegalRun;
    var s0 := Start(r, given);
    var s1 := Step(r, s0, Connecting(Some(0)));
    assert s1 == s0.(held := s0.held.(active := Some(0)), net := Net(map[0 := Connection(Open, Some(Manager))], map[],
           {0}, [], {}));
    HeaderIsolation.RunOn(r, s0, Connecting(Some(0)), [Connecting(Some(1))] + []);
    HeaderIsolation.RunOn(r, s1, Connecting(Some(1)), []);
    HeaderIsolation.RunNothing(r, Step(r, s1, Connecting(Some(1))));
    var run := [Connecting(Some(0))] + ([Connecting(Some(1))] + []);
    assert run[1..] == [Connecting(Some(1))] && run[1..][0] == Connecting(Some(1));
    assert Loses(r, s1, run[1..][0]);
  }

  /** In every legal run, closing the manager leaves nothing held. */
  lemma CloseEmpties(r: Rules, given: Option<Headers>, run: seq<Event>, ids: seq<RequestId>, keys: seq<nat>,
      onThread: bool)
    requires LegalRun(r, Start(r, given), run)
    requires Legal(Run(r, Start(r, given), run), CloseManager(ids, keys, onThread))
    ensures var s := CloseAll(r, Run(r, Start(r, given), run), ids, keys, onThread);
            && !s.connected && s.held.active == None && s.held.stream == None
            && s.held.subscriptions == map[] && s.held.answers == map[]
  {
    hide Run, LegalRun, CloseAll, Legal;
    StartInv(r, given);
    RunKeeps(r, Start(r, given), run);
    CloseAllKeeps(r, Run(r, Start(r, given), run), ids, keys, onThread);
  }

  /** A connection that is told to close more than once tells no more than once. */
  lemma ToldTwice(r: Rules, s: State, e: Raised, again: Raised)
    requires e != IsConnected && again != IsConnected
    ensures OnConnectionEvent(r, OnConnectionEvent(r, s, e), again) == OnConnectionEvent(r, s, e)
  {
  }

  // ----- what lets go of the active connection -----

  /** A connection that is not closed and tells the manager. */
  predicate TellsManager(net: Net, c: ConnId) {
    c in net.conns && net.conns[c].status != Closed && net.conns[c].listener == Some(Manager)
  }

  /** The active connection d closes, is replaced, or goes with all the rest. */
  predicate EndsItself(r: Rules, s: State, e: Event, d: ConnId) {
    match e
    case Raising(c, event, _) => c == d && event != IsConnected && s.net.StatusOf(c) != Closed
    case Connecting(made) =>
      made.Some? && !s.connected && (r.transport == HttpSse || r.transport == StreamableHttp)
    case CloseManager(_, _, _) => true
    case _ => false
  }

  /** A connection that is not d any more, and was the manager's once, closes only now. */
  predicate ClosesLate(s: State, e: Event, d: ConnId) {
    match e
    case Raising(c, event, _) => c != d && event != IsConnected && TellsManager(s.net, c)
    case DeleteHanded(c) => c in s.net.handed && TellsManager(s.net, c)
    case _ => false
  }

  lemma TurnActive(r: Rules, s: State, made: Option<ConnId>)
    ensures Step(r, s, Turn(made)).held.active == s.held.active
  {
    hide WriteMessage, Due, DueBody, Net.LetGo;
    if s.queue != [] {
      var s' := s.(queue := s.queue[1..]);
      match s.queue[0]
      case WriteTurn(json, extra, correlate) => WriteMessageAside(r, s', json, extra, correlate);
      case AnswerTurn(json) =>
        WriteMessageAside(r, s', json, map[], None);
        WriteMessageAside(r, SendAnswerApart(r, s', json, made).state, json, map[], None);
      case _ =>
    }
  }

  lemma CallActive(r: Rules, s: State, e: Event)
    requires Inv(s) && (e.OpenSub? || e.CloseSub? || e.OpenStream? || e.CloseStream? || e.GiveBack?)
    ensures Step(r, s, e).held.active == s.held.active
  {
    hide Inv, CloseServerStream, Due, DueBody, KeyOf, Net.LetGo, WriteAs;
    CloseStreamKeeps(r, s, true);
    match e
    case CloseStream(onThread) => CloseStreamKeeps(r, s, onThread);
    case GiveBack => GiveBackAside(r, s);
    case _ =>
  }

  lemma ConnectActive(r: Rules, s: State, made: Option<ConnId>)
    requires Inv(s) && New(s, made) && s.held.active.Some?
    ensures Connect(r, s, made).held.active != s.held.active
            <==> EndsItself(r, s, Connecting(made), s.held.active.value)
  {
    hide Holding, RetirementsTrue, Connect;
    ActiveHeld(s.held, s.net);
    if EndsItself(r, s, Connecting(made), s.held.active.value) {
      ConnectOver(r, s, made.value);
      ActiveUsed(s);
    } else {
      ConnectNothing(r, s, made);
    }
  }

  lemma ActiveUsed(s: State)
    requires Inv(s) && s.held.active.Some?
    ensures var d: ConnId := s.held.active.value;
            d in s.net.used && HeldWith(s.net, d, Manager)
  {
    hide ListenersOwned, SubscriptionsBacked, AnswersBacked, RetirementsTrue;
  }

  lemma RaiseActive(r: Rules, s: State, c: ConnId, e: Raised, status: Status)
    requires s.held.active.Some?
    ensures var d, s' := s.held.active.value, Raise(r, s, c, e, status);
            if e != IsConnected && TellsManager(s.net, c)
            then
              && s'.held.active == None && d in s'.net.handed
              && (d != c && d in s.net.conns ==> d in s'.net.conns && s'.net.conns[d] == s.net.conns[d])
            else s'.held.active == s.held.active
  {
  }

  lemma DeleteActive(r: Rules, s: State, c: ConnId)
    requires Inv(s) && s.held.active.Some? && c in s.net.handed && c in s.net.conns
    ensures var d, s' := s.held.active.value, Destroy(r, s, c);
            if TellsManager(s.net, c)
            then s'.held.active == None && d in s'.net.handed && d in s'.net.conns && s'.net.conns[d] == s.net.conns[d]
            else s'.held.active == s.held.active
  {
    hide Inv, Destroy, Raise;
    ActiveUsed(s);
    if s.net.StatusOf(c) != Closed {
      HandedTells(s, c);
    }
    DestroyedOnce(r, s, c);
    RaiseActive(r, s, c, IsLocalClose, Closed);
  }

  /**
   The active connection is let go of exactly when it closes, is replaced or goes with the
   rest, or when one that was active before closes only now. In the last case it is handed
   to deletion as it is, whether it is open or not.
   */
  lemma ActiveLetGo(r: Rules, s: State, e: Event)
    requires Inv(s) && Legal(s, e) && s.held.active.Some?
    ensures var d, s' := s.held.active.value, Step(r, s, e);
            && (s'.held.active != s.held.active <==> EndsItself(r, s, e, d) || ClosesLate(s, e, d))
            && (ClosesLate(s, e, d) ==>
                  && s'.held.active == None && d in s'.net.handed
                  && d in s'.net.conns && s'.net.conns[d] == s.net.conns[d])
  {
    hide Inv, RunTurn, Raise, OpenSubscription, OpenServerStream, CloseSubscription, CloseServerStream,
      SendSessionDelete, CloseAll, Connect, Destroy, RetireAnswer;
    ActiveUsed(s);
    match e
    case Turn(made) => TurnActive(r, s, made);
    case Raising(c, event, status) => RaiseActive(r, s, c, event, status);
    case Connecting(made) => ConnectActive(r, s, made);
    case OpenSub(_, _, _) => CallActive(r, s, e);
    case CloseSub(_, _) => CallActive(r, s, e);
    case OpenStream(_, _) => CallActive(r, s, e);
    case CloseStream(_) => CallActive(r, s, e);
    case GiveBack => CallActive(r, s, e);
    case CloseManager(ids, keys, onThread) => CloseAllKeeps(r, s, ids, keys, onThread);
    case DeleteHanded(c) =>
      if c in s.net.handed && c in s.net.conns {
        DeleteActive(r, s, c);
      }
    case _ =>
  }

  /** A manager whose first connection was still closing when it was closed itself, and that has a new one. */
  function Reconnected(r: Rules, given: Option<Headers>): State {
    var s := Start(r, given);
    var conns := map[0 := Connection(Closing, Some(Manager)), 1 := Connection(Open, Some(Manager))];
    s.(held := s.held.(active := Some(1)), net := Net(conns, map[], {0, 1}, [0], {}))
  }

  /** The same before the new one is there. */
  function LeftClosing(r: Rules, given: Option<Headers>): State {
    var s := Start(r, given);
    s.(net := Net(map[0 := Connection(Closing, Some(Manager))], map[], {0}, [0], {}))
  }

  /** Only the active connection is there to close, and it is closing already. */
  lemma ClosedWhileClosing(r: Rules, given: Option<Headers>)
    ensures var s := LeftClosing(r, given);
            var closing := s.(held := s.held.(active := Some(0)), net := s.net.(handed := []));
            Legal(closing, CloseManager([], [], true)) && Step(r, closing, CloseManager([], [], true)) == s
  {
  }

  lemma ConnectAlone(r: Rules, s: State, c: ConnId)
    requires r.transport == HttpSse || r.transport == StreamableHttp
    requires !s.connected && s.held.active.None?
    ensures Step(r, s, Connecting(Some(c))) == s.(held := s.held.(active := Some(c)),
                net := s.net.(conns := s.net.conns[c := Connection(Open, Some(Manager))], used := s.net.used + {c}))
  {
  }

  lemma DeletedLate(r: Rules, given: Option<Headers>)
    ensures ClosesLate(Reconnected(r, given), DeleteHanded(0), 1)
    ensures var s := Step(r, Reconnected(r, given), DeleteHanded(0));
            s.held.active == None && s.net.handed == [0, 1] && s.net.StatusOf(1) == Open
  {
    hide Destroy;
    DestroyedOnce(r, Reconnected(r, given), 0);
  }

  /** A legal run leads there, and the deletion of the first connection takes the open one along. */
  lemma OpenLetGo(r: Rules, given: Option<Headers>)
    requires r.transport == HttpSse || r.transport == StreamableHttp
    ensures var run := [Connecting(Some(0))] + ([StatusChanges(0, Closing)] + ([CloseManager([], [], true)]
                + ([Connecting(Some(1))] + [])));
            LegalRun(r, Start(r, given), run) && Run(r, Start(r, given), run) == Reconnected(r, given)
    ensures ClosesLate(Reconnected(r, given), DeleteHanded(0), 1)
    ensures var s := Step(r, Reconnected(r, given), DeleteHanded(0));
            s.held.active == None && s.net.handed == [0, 1] && s.net.StatusOf(1) == Open
  {
    hide Run, LegalRun, CloseAll, Connect, Destroy, ClosesLate;
    var s0, s3 := Start(r, given), LeftClosing(r, given);
    var s2 := s3.(held := s3.held.(active := Some(0)), net := s3.net.(handed := []));
    var s1 := s2.(net := s2.net.(conns := map[0 := Connection(Open, Some(Manager))]));
    ConnectAlone(r, s0, 0);
    assert Step(r, s0, Connecting(Some(0))) == s1 by {
      assert s1.net.used == s0.net.used + {0};
    }
    assert Step(r, s1, StatusChanges(0, Closing)) == s2;
    ClosedWhileClosing(r, given);
    ConnectAlone(r, s3, 1);
    assert Step(r, s3, Connecting(Some(1))) == Reconnected(r, given) by {
      assert {0, 1} == {0} + {1};
    }
    HeaderIsolation.RunOn(r, s3, Connecting(Some(1)), []);
    HeaderIsolation.RunNothing(r, Reconnected(r, given));
    HeaderIsolation.RunOn(r, s2, CloseManager([], [], true), [Connecting(Some(1))] + []);
    var afterClosing := [CloseManager([], [], true)] + ([Connecting(Some(1))] + []);
    HeaderIsolation.RunOn(r, s1, StatusChanges(0, Closing), afterClosing);
    HeaderIsolation.RunOn(r, s0, Connecting(Some(0)), [StatusChanges(0, Closing)] + afterClosing);
    DeletedLate(r, given);
  }

  // ----- retirements -----

  /** A retirement that runs reaches the answer whose connection posted it, or nothing. */
  lemma RetirementReaches(r: Rules, s: State, made: Option<ConnId>)
    requires Inv(s) && s.queue != [] && s.queue[0].RetireTurn?
    ensures var s' := Step(r, s, Turn(made));
            forall k :: k in s.held.answers && s.held.answers[k] != s.queue[0].poster ==>
              k in s'.held.answers && s'.held.answers[k] == s.held.answers[k]
  {
    hide Net.LetGo, Holding;
    var t := s.queue[0];
    var s' := s.(queue := s.queue[1..]);
    assert Step(r, s, Turn(made)) == RetireAnswer(s', t.key, true);
    assert t.key in s.held.answers ==> s.held.answers[t.key] == t.poster;
  }

  /** A key that was given to an answer and is held no more. */
  predicate Spent(held: Held, key: nat) { 1 <= key <= held.lastAnswerKey && key !in held.answers }

  ghost predicate SpentStays(held: Held, held': Held) {
    held'.lastAnswerKey >= held.lastAnswerKey
    && forall k :: k in held'.answers && k <= held.lastAnswerKey ==> k in held.answers
  }

  lemma AnswerServerSpent(r: Rules, s: State, json: string, made: Option<ConnId>)
    ensures SpentStays(s.held, AnswerServer(r, s, json, made).held)
  {
    hide WriteMessage, SendAnswerApart;
    ApartHeld(r, s, json, made);
    WriteMessageAside(r, s, json, map[], None);
    WriteMessageAside(r, SendAnswerApart(r, s, json, made).state, json, map[], None);
  }

  lemma {:induction false} RetireAllSpent(s: State, keys: seq<nat>, onThread: bool)
    ensures SpentStays(s.held, RetireAnswers(s, keys, onThread).held)
    decreases |keys|
  {
    hide Net.LetGo;
    if keys != [] {
      RetireAllSpent(RetireAnswer(s, keys[0], onThread), keys[1..], onThread);
    }
  }

  lemma {:induction false} CloseSubsSpent(s: State, ids: seq<RequestId>, onThread: bool)
    ensures SpentStays(s.held, CloseSubscriptions(s, ids, onThread).held)
    decreases |ids|
  {
    hide Net.LetGo, KeyOf;
    if ids != [] {
      CloseSubsSpent(CloseSubscription(s, ids[0], onThread), ids[1..], onThread);
    }
  }

  lemma ToldSpent(r: Rules, s: State, c: ConnId, e: Raised)
    ensures var held := Told(r, s, c, e).held;
            held.answers == s.held.answers && held.lastAnswerKey == s.held.lastAnswerKey
  {
  }

  lemma {:induction false} OftenSpent(r: Rules, s: State, c: ConnId, times: nat)
    ensures var held := ToldOften(r, s, c, IsLocalClose, times).held;
            held.answers == s.held.answers && held.lastAnswerKey == s.held.lastAnswerKey
    decreases times
  {
    hide Told;
    if times > 0 {
      ToldSpent(r, s, c, IsLocalClose);
      OftenSpent(r, Told(r, s, c, IsLocalClose), c, times - 1);
    }
  }

  /** Closing, destroying and raising leave the answers alone. */
  lemma EventsSpent(r: Rules, s: State, c: ConnId, e: Raised, status: Status)
    ensures SpentStays(s.held, CloseConn(r, s, c).held) && SpentStays(s.held, Destroy(r, s, c).held)
    ensures SpentStays(s.held, Raise(r, s, c, e, status).held)
  {
    hide Told, ToldOften;
    OftenSpent(r, s.(net := s.net.Close(c)), c, r.echoes(c) + 1);
    OftenSpent(r, s.(net := s.net.WithStatus(c, Closed)), c, r.echoes(c) + 1);
    ToldSpent(r, s.(net := s.net.WithStatus(c, status)), c, e);
  }

  lemma CloseStreamSpent(r: Rules, s: State, onThread: bool)
    ensures SpentStays(s.held, CloseServerStream(r, s, onThread).held)
  {
    hide CloseConn, Destroy, Raise;
    if s.held.stream.Some? {
      EventsSpent(r, s.(held := s.held.(stream := None)), s.held.stream.value, IsConnected, Open);
    }
  }

  lemma CloseActiveSpent(r: Rules, s: State, onThread: bool)
    ensures SpentStays(s.held, CloseActive(r, s, onThread).held)
  {
    hide CloseConn, Destroy, Raise;
    if s.held.active.Some? {
      var c := s.held.active.value;
      EventsSpent(r, s, c, IsConnected, Open);
      EventsSpent(r, s.(held := s.held.(active := None), net := s.net.Dispose(c, true)), c, IsConnected, Open);
    }
  }

  lemma ConnectSpent(r: Rules, s: State, made: Option<ConnId>)
    ensures SpentStays(s.held, Connect(r, s, made).held)
  {
    hide CloseConn, Destroy, Raise;
    if made.Some? && s.held.active.Some? {
      EventsSpent(r, s.(held := s.held.(active := made), net := s.net.MakeBare(made.value)), s.held.active.value,
          IsConnected, Open);
    }
  }

  lemma CloseAllSpent(r: Rules, s: State, ids: seq<RequestId>, keys: seq<nat>, onThread: bool)
    ensures SpentStays(s.held, CloseAll(r, s, ids, keys, onThread).held)
  {
    hide CloseServerStream, CloseSubscriptions, RetireAnswers, CloseActive;
    var s1 := CloseServerStream(r, s, onThread);
    var s2 := CloseSubscriptions(s1, ids, onThread);
    CloseStreamSpent(r, s, onThread);
    CloseSubsSpent(s1, ids, onThread);
    RetireAllSpent(s2, keys, onThread);
    CloseActiveSpent(r, RetireAnswers(s2, keys, onThread), onThread);
  }

  lemma TurnSpent(r: Rules, s: State, made: Option<ConnId>)
    requires s.queue != []
    ensures SpentStays(s.held, Step(r, s, Turn(made)).held)
  {
    hide WriteMessage, AnswerServer, Net.LetGo;
    var s' := s.(queue := s.queue[1..]);
    match s.queue[0]
    case WriteTurn(json, extra, correlate) => WriteMessageAside(r, s', json, extra, correlate);
    case AnswerTurn(json) => AnswerServerSpent(r, s', json, made);
    case RetireTurn(key, _) =>
    case NudgeTurn =>
  }

  lemma OpenSpent(r: Rules, s: State, e: Event)
    requires e.OpenSub? || e.OpenStream? || e.GiveBack?
    ensures SpentStays(s.held, Step(r, s, e).held)
  {
    hide CloseServerStream, Due, DueBody, KeyOf, WriteAs;
    CloseStreamSpent(r, s, true);
    GiveBackAside(r, s);
  }

  lemma StepSpent(r: Rules, s: State, e: Event)
    ensures SpentStays(s.held, Step(r, s, e).held)
  {
    hide RunTurn, CloseAll, Raise, Destroy, Connect, CloseServerStream, OpenSubscription, OpenServerStream,
      SendSessionDelete, Net.LetGo, KeyOf;
    match e
    case Turn(made) =>
      if s.queue != [] {
        TurnSpent(r, s, made);
      }
    case Raising(c, event, status) => EventsSpent(r, s, c, event, status);
    case Connecting(made) => ConnectSpent(r, s, made);
    case OpenSub(_, _, _) => OpenSpent(r, s, e);
    case OpenStream(_, _) => OpenSpent(r, s, e);
    case GiveBack => OpenSpent(r, s, e);
    case CloseStream(onThread) => CloseStreamSpent(r, s, onThread);
    case CloseManager(ids, keys, onThread) => CloseAllSpent(r, s, ids, keys, onThread);
    case DeleteHanded(c) => EventsSpent(r, s, c, IsConnected, Open);
    case _ =>
  }

  /** No key is ever given to a second answer. */
  lemma {:induction false} KeysNeverReused(r: Rules, s: State, run: seq<Event>, key: nat)
    requires Spent(s.held, key)
    ensures Spent(Run(r, s, run).held, key)
    decreases |run|
  {
    hide Step;
    if run != [] {
      StepSpent(r, s, run[0]);
      KeysNeverReused(r, Step(r, s, run[0]), run[1..], key);
    }
  }

  // ----- handed to deletion exactly once -----

  /** A connection of an answer or a subscription that is held, or was handed to deletion. */
  ghost predicate HeldOrHanded(s: State, c: ConnId) {
    || (exists k :: k in s.held.answers && s.held.answers[k] == c)
    || (exists k :: k in s.held.subscriptions && s.held.subscriptions[k].conn == c)
    || c in s.net.handed
  }

  /** What leaves the two maps is handed over. */
  ghost predicate HandsOver(s: State, s': State) {
    && (forall k :: k in s.held.answers ==>
          (k in s'.held.answers && s'.held.answers[k] == s.held.answers[k]) || s.held.answers[k] in s'.net.handed)
    && (forall k :: k in s.held.subscriptions ==>
          || (k in s'.held.subscriptions && s'.held.subscriptions[k] == s.held.subscriptions[k])
          || s.held.subscriptions[k].conn in s'.net.handed)
    && (forall c :: c in s.net.handed ==> c in s'.net.handed)
  }

  lemma HandsOverOn(s: State, s': State, s'': State)
    requires HandsOver(s, s') && HandsOver(s', s'')
    ensures HandsOver(s, s'')
  {
  }

  lemma RetireHandsOver(s: State, key: nat, onThread: bool)
    ensures HandsOver(s, RetireAnswer(s, key, onThread))
  {
    hide Net.LetGo;
    if key in s.held.answers {
      LetGoHanded(s.net, s.held.answers[key], s.net.StatusOf(s.held.answers[key]) != Closed, onThread);
    }
  }

  lemma LetGoHanded(net: Net, c: ConnId, closeIt: bool, onThread: bool)
    ensures net.LetGo(c, closeIt, onThread).handed == net.handed + [c]
  {
  }

  lemma CloseSubHandsOver(s: State, id: RequestId, onThread: bool)
    ensures HandsOver(s, CloseSubscription(s, id, onThread))
  {
    hide Net.LetGo, KeyOf;
    if KeyOf(id) in s.held.subscriptions {
      LetGoHanded(s.net, s.held.subscriptions[KeyOf(id)].conn, true, onThread);
    }
  }

  lemma {:induction false} RetireAllHandsOver(s: State, keys: seq<nat>, onThread: bool)
    ensures HandsOver(s, RetireAnswers(s, keys, onThread))
    decreases |keys|
  {
    hide RetireAnswer, HandsOver;
    if keys != [] {
      RetireHandsOver(s, keys[0], onThread);
      RetireAllHandsOver(RetireAnswer(s, keys[0], onThread), keys[1..], onThread);
      HandsOverOn(s, RetireAnswer(s, keys[0], onThread), RetireAnswers(s, keys, onThread));
    } else {
      HandsOverSame(s);
    }
  }

  lemma HandsOverSame(s: State)
    ensures HandsOver(s, s)
  {
  }

  lemma {:induction false} CloseSubsHandOver(s: State, ids: seq<RequestId>, onThread: bool)
    ensures HandsOver(s, CloseSubscriptions(s, ids, onThread))
    decreases |ids|
  {
    hide CloseSubscription, HandsOver;
    if ids != [] {
      CloseSubHandsOver(s, ids[0], onThread);
      CloseSubsHandOver(CloseSubscription(s, ids[0], onThread), ids[1..], onThread);
      HandsOverOn(s, CloseSubscription(s, ids[0], onThread), CloseSubscriptions(s, ids, onThread));
    } else {
      HandsOverSame(s);
    }
  }

  /** What happens to a connection leaves both maps alone and hands nothing back. */
  ghost predicate KeepsEntries(s: State, s': State) {
    && s'.held.answers == s.held.answers && s'.held.subscriptions == s.held.subscriptions
    && forall c :: c in s.net.handed ==> c in s'.net.handed
  }

  lemma EntriesHandOver(s: State, s': State)
    requires KeepsEntries(s, s')
    ensures HandsOver(s, s')
  {
  }

  lemma ToldEntries(r: Rules, s: State, c: ConnId, e: Raised)
    ensures KeepsEntries(s, Told(r, s, c, e))
  {
  }

  lemma {:induction false} OftenEntries(r: Rules, s: State, c: ConnId, times: nat)
    ensures KeepsEntries(s, ToldOften(r, s, c, IsLocalClose, times))
    decreases times
  {
    hide Told;
    if times > 0 {
      ToldEntries(r, s, c, IsLocalClose);
      OftenEntries(r, Told(r, s, c, IsLocalClose), c, times - 1);
    }
  }

  lemma EventsEntries(r: Rules, s: State, c: ConnId, e: Raised, status: Status)
    ensures KeepsEntries(s, CloseConn(r, s, c)) && KeepsEntries(s, Destroy(r, s, c))
            && KeepsEntries(s, Raise(r, s, c, e, status))
  {
    hide Told, ToldOften;
    OftenEntries(r, s.(net := s.net.Close(c)), c, r.echoes(c) + 1);
    OftenEntries(r, s.(net := s.net.WithStatus(c, Closed)), c, r.echoes(c) + 1);
    ToldEntries(r, s.(net := s.net.WithStatus(c, status)), c, e);
  }

  lemma CloseStreamHandsOver(r: Rules, s: State, onThread: bool)
    ensures HandsOver(s, CloseServerStream(r, s, onThread))
    ensures KeepsEntries(s, CloseServerStream(r, s, onThread))
  {
    hide CloseConn, Destroy, Raise, HandsOver;
    if s.held.stream.Some? {
      EventsEntries(r, s.(held := s.held.(stream := None)), s.held.stream.value, IsConnected, Open);
    }
    EntriesHandOver(s, CloseServerStream(r, s, onThread));
  }

  lemma CloseActiveHandsOver(r: Rules, s: State, onThread: bool)
    ensures HandsOver(s, CloseActive(r, s, onThread).(connected := false))
  {
    hide CloseConn, Destroy, Raise, HandsOver;
    if s.held.active.Some? {
      var c := s.held.active.value;
      EventsEntries(r, s, c, IsConnected, Open);
      EventsEntries(r, s.(held := s.held.(active := None), net := s.net.Dispose(c, true)), c, IsConnected, Open);
    }
    EntriesHandOver(s, CloseActive(r, s, onThread).(connected := false));
  }

  lemma ConnectHandsOver(r: Rules, s: State, made: Option<ConnId>)
    ensures HandsOver(s, Connect(r, s, made))
  {
    hide CloseConn, Destroy, Raise, HandsOver;
    if made.Some? && s.held.active.Some? {
      EventsEntries(r, s.(held := s.held.(active := made), net := s.net.MakeBare(made.value)), s.held.active.value,
          IsConnected, Open);
    }
    EntriesHandOver(s, Connect(r, s, made));
  }

  lemma CloseAllHandsOver(r: Rules, s: State, ids: seq<RequestId>, keys: seq<nat>, onThread: bool)
    ensures HandsOver(s, CloseAll(r, s, ids, keys, onThread))
  {
    hide HandsOver, KeepsEntries, CloseServerStream, CloseSubscriptions, RetireAnswers, CloseActive;
    var s1 := CloseServerStream(r, s, onThread);
    var s2 := CloseSubscriptions(s1, ids, onThread);
    var s3 := RetireAnswers(s2, keys, onThread);
    CloseStreamHandsOver(r, s, onThread);
    CloseSubsHandOver(s1, ids, onThread);
    RetireAllHandsOver(s2, keys, onThread);
    CloseActiveHandsOver(r, s3, onThread);
    HandsOverOn(s, s1, s2);
    HandsOverOn(s, s2, s3);
    HandsOverOn(s, s3, CloseAll(r, s, ids, keys, onThread));
  }

  lemma ApartHandsOver(r: Rules, s: State, json: string, made: Option<ConnId>)
    requires Inv(s)
    ensures HandsOver(s, SendAnswerApart(r, s, json, made).state)
  {
    hide Due, DueBody, OthersBacked, NetSound, SubscriptionsBacked, ListenersOwned, RetirementsTrue;
    assert s.held.lastAnswerKey + 1 !in s.held.answers;
  }

  lemma AnswerServerHandsOver(r: Rules, s: State, json: string, made: Option<ConnId>)
    requires Inv(s)
    ensures HandsOver(s, AnswerServer(r, s, json, made))
  {
    hide Inv, WriteMessage, SendAnswerApart;
    ApartHandsOver(r, s, json, made);
    WriteMessageAside(r, s, json, map[], None);
    WriteMessageAside(r, SendAnswerApart(r, s, json, made).state, json, map[], None);
  }

  lemma TurnHandsOver(r: Rules, s: State, made: Option<ConnId>)
    requires Inv(s) && s.queue != []
    ensures HandsOver(s, Step(r, s, Turn(made)))
  {
    hide Inv, WriteMessage, AnswerServer, RetireAnswer;
    var s' := s.(queue := s.queue[1..]);
    TailTrue(s);
    match s.queue[0]
    case WriteTurn(json, extra, correlate) => WriteMessageAside(r, s', json, extra, correlate);
    case AnswerTurn(json) => AnswerServerHandsOver(r, s', json, made);
    case RetireTurn(key, _) => RetireHandsOver(s', key, true);
    case NudgeTurn =>
  }

  lemma CallHandsOver(r: Rules, s: State, e: Event)
    requires e.OpenSub? || e.GiveBack?
    ensures HandsOver(s, Step(r, s, e))
  {
    hide Due, DueBody, KeyOf, WriteAs;
    if e.GiveBack? {
      GiveBackAside(r, s);
    }
  }

  lemma OpenStreamHandsOver(r: Rules, s: State, cursor: string, made: Option<ConnId>)
    ensures HandsOver(s, OpenServerStream(r, s, cursor, made).state)
  {
    hide Due, DueBody, CloseServerStream, HandsOver;
    CloseStreamHandsOver(r, s, true);
    EntriesHandOver(s, OpenServerStream(r, s, cursor, made).state);
  }

  lemma RaiseHandsOver(r: Rules, s: State, c: ConnId, e: Raised, status: Status)
    ensures HandsOver(s, Raise(r, s, c, e, status)) && HandsOver(s, Destroy(r, s, c))
  {
    hide CloseConn, Destroy, Raise, HandsOver, KeepsEntries;
    EventsEntries(r, s, c, e, status);
    EntriesHandOver(s, Raise(r, s, c, e, status));
    EntriesHandOver(s, Destroy(r, s, c));
  }

  lemma StepHandsOver(r: Rules, s: State, e: Event)
    requires Inv(s)
    ensures HandsOver(s, Step(r, s, e))
  {
    hide Inv, RunTurn, Raise, OpenSubscription, OpenServerStream, CloseSubscription, CloseServerStream,
      SendSessionDelete, CloseAll, Connect, Destroy, KeepsEntries;
    match e
    case Turn(made) =>
      if s.queue != [] {
        TurnHandsOver(r, s, made);
      }
    case Raising(c, event, status) => RaiseHandsOver(r, s, c, event, status);
    case Connecting(made) => ConnectHandsOver(r, s, made);
    case OpenSub(_, _, _) => CallHandsOver(r, s, e);
    case OpenStream(cursor, made) => OpenStreamHandsOver(r, s, cursor, made);
    case GiveBack => CallHandsOver(r, s, e);
    case CloseSub(id, onThread) => CloseSubHandsOver(s, id, onThread);
    case CloseStream(onThread) => CloseStreamHandsOver(r, s, onThread);
    case CloseManager(ids, keys, onThread) => CloseAllHandsOver(r, s, ids, keys, onThread);
    case DeleteHanded(c) => RaiseHandsOver(r, s, c, IsLocalClose, Closed);
    case _ =>
  }

  /** A connection that was ever held for an answer or a subscription is still held, or was handed to deletion once. */
  lemma {:induction false} HeldThenHanded(r: Rules, s: State, run: seq<Event>, c: ConnId)
    requires Inv(s) && LegalRun(r, s, run) && HeldOrHanded(s, c)
    ensures HeldOrHanded(Run(r, s, run), c)
    ensures forall i, j ::
              0 <= i < j < |Run(r, s, run).net.handed| ==> Run(r, s, run).net.handed[i] != Run(r, s, run).net.handed[j]
    decreases |run|
  {
    hide Step, Legal, Inv, Raise;
    if run == [] {
      HandedOnce(s);
    } else {
      StepHandsOver(r, s, run[0]);
      StepKeeps(r, s, run[0]);
      HeldThenHanded(r, Step(r, s, run[0]), run[1..], c);
    }
  }

  lemma HandedOnce(s: State)
    requires Inv(s)
    ensures forall i, j :: 0 <= i < j < |s.net.handed| ==> s.net.handed[i] != s.net.handed[j]
  {
    hide ListenersOwned, RetirementsTrue, SubscriptionsBacked, AnswersBacked, OthersBacked;
  }
}
