/**
 The server stream's opener. Unlike the others it is not unhooked when its connection
 is closed: it is kept for one more opening, then destroyed. A run of whole turns never
 calls it after that. What can is an application that opens streams from inside the
 close event of the one it has, because the opener is told after the application is,
 and because a transport of several layers tells both of one close several times.
 */
module ConnectionStreams {
  import opened ConnectionTurns
  import opened ConnectionHolding
  import HeaderIsolation

  /** What an application may call on the dispatcher thread, from inside an event. */
  predicate IsCall(e: Event) {
    match e
    case Send(_, _, _) => true
    case Respond(_) => true
    case Connecting(_) => true
    case OpenSub(_, _, _) => true
    case CloseSub(_, onThread) => onThread
    case OpenStream(_, _) => true
    case CloseStream(onThread) => onThread
    case GiveBack => true
    case CloseManager(_, _, onThread) => onThread
    case _ => false
  }

  predicate AreCalls(calls: seq<Event>) { forall i :: 0 <= i < |calls| ==> IsCall(calls[i]) }

  predicate Opens(r: Rules, s: State, e: Event) { e.OpenStream? && OpenServerStream(r, s, e.cursor, e.made).ok }

  /** How many streams the calls open. */
  function Openings(r: Rules, s: State, calls: seq<Event>): nat
    decreases |calls|
  {
    if calls == [] then 0 else (if Opens(r, s, calls[0]) then 1 else 0) + Openings(r, Step(r, s, calls[0]), calls[1..])
  }

  /** One telling of a close: the connection's status by then, and what the application calls. */
  datatype Telling = Telling(event: Raised, status: Status, calls: seq<Event>)

  /** The application is told only while a stream is held, whichever it is. */
  function AppTold(r: Rules, s: State, c: ConnId, t: Telling): State {
    var now := s.(net := s.net.WithStatus(c, t.status));
    if now.held.stream.Some? then Run(r, now, t.calls) else now
  }

  /** The application is told first, and makes its calls; then the opener is. */
  function StreamTold(r: Rules, s: State, c: ConnId, t: Telling): State {
    OnOpenerEvent(r, AppTold(r, s, c, t), c, StreamOpener, t.event)
  }

  /** The tellings of one close, up to the one that finds no opener: what comes after that is undefined. */
  function CloseTold(r: Rules, s: State, c: ConnId, tellings: seq<Telling>): State
    decreases |tellings|
  {
    if tellings == [] || StreamOpenerGone in s.net.faults then s
    else CloseTold(r, StreamTold(r, s, c, tellings[0]), c, tellings[1..])
  }

  ghost predicate LegalTelling(r: Rules, s: State, c: ConnId, t: Telling) {
    && t.event != IsConnected
    && (s.held.stream.Some? ==> AreCalls(t.calls) && LegalRun(r, s.(net := s.net.WithStatus(c, t.status)), t.calls))
  }

  ghost predicate LegalTellings(r: Rules, s: State, c: ConnId, tellings: seq<Telling>)
    decreases |tellings|
  {
    tellings == [] || StreamOpenerGone in s.net.faults
    || (LegalTelling(r, s, c, tellings[0]) && LegalTellings(r, StreamTold(r, s, c, tellings[0]), c, tellings[1..]))
  }

  /** How many streams the application opens in one telling, and in all of them. */
  function OpeningsIn(r: Rules, s: State, c: ConnId, t: Telling): nat {
    if s.held.stream.Some? then Openings(r, s.(net := s.net.WithStatus(c, t.status)), t.calls) else 0
  }

  function OpeningsOver(r: Rules, s: State, c: ConnId, tellings: seq<Telling>): nat
    decreases |tellings|
  {
    if tellings == [] || StreamOpenerGone in s.net.faults then 0
    else OpeningsIn(r, s, c, tellings[0]) + OpeningsOver(r, StreamTold(r, s, c, tellings[0]), c, tellings[1..])
  }

  /** Connection c exists, and has a stream's opener hooked to it. */
  ghost predicate HookedStream(net: Net, c: ConnId) {
    c in net.conns && net.conns[c].listener == Some(Opener(StreamOpener))
  }

  /** Where the opener of connection c is after k openings. */
  ghost predicate OpenerAt(s: State, c: ConnId, k: nat) {
    if k == 0 then s.held.streamOpener == Some(c) && c in s.net.openers
    else if k == 1 then s.held.retiredOpener == Some(c) && s.held.streamOpener != Some(c) && c in s.net.openers
    else c !in s.net.openers && s.held.streamOpener != Some(c) && s.held.retiredOpener != Some(c)
  }

  /** A step that leaves c and its opener as they are. */
  ghost predicate LeavesOpener(s: State, s': State, c: ConnId) {
    && s'.held.streamOpener == s.held.streamOpener && s'.held.retiredOpener == s.held.retiredOpener
    && (c in s'.net.openers <==> c in s.net.openers)
    && (HookedStream(s.net, c) ==> HookedStream(s'.net, c))
  }

  // ----- what leaves it -----

  lemma LetGoLeaves(net: Net, d: ConnId, closeIt: bool, c: ConnId)
    requires d in net.conns && d !in net.handed && d != c
    ensures var net' := net.LetGo(d, closeIt, true);
            (c in net'.openers <==> c in net.openers) && (HookedStream(net, c) ==> HookedStream(net', c))
  {
    hide Net.LetGo;
    LetGoNet(net, d, closeIt, true);
  }

  lemma RetireLeaves(s: State, key: nat, c: ConnId)
    requires Inv(s) && HookedStream(s.net, c)
    ensures LeavesOpener(s, RetireAnswer(s, key, true), c)
  {
    hide Net.LetGo, Holding, RetirementsTrue;
    if key in s.held.answers {
      AnswerConn(s.held, s.net, key);
      LetGoLeaves(s.net, s.held.answers[key], s.net.StatusOf(s.held.answers[key]) != Closed, c);
    }
  }

  lemma CloseSubLeaves(s: State, id: RequestId, c: ConnId)
    requires Inv(s) && HookedStream(s.net, c)
    ensures LeavesOpener(s, CloseSubscription(s, id, true), c)
  {
    hide Net.LetGo, Holding, RetirementsTrue, KeyOf;
    if KeyOf(id) in s.held.subscriptions {
      SubscriptionConn(s.held, s.net, KeyOf(id));
      LetGoLeaves(s.net, s.held.subscriptions[KeyOf(id)].conn, true, c);
    }
  }

  lemma {:induction false} RetireAllLeave(s: State, keys: seq<nat>, c: ConnId)
    requires Inv(s) && HookedStream(s.net, c)
    ensures LeavesOpener(s, RetireAnswers(s, keys, true), c)
    decreases |keys|
  {
    hide Inv, RetireAnswer;
    if keys != [] {
      RetireLeaves(s, keys[0], c);
      RetireKeeps(s, keys[0], true);
      RetireAllLeave(RetireAnswer(s, keys[0], true), keys[1..], c);
    }
  }

  lemma {:induction false} CloseSubsLeave(s: State, ids: seq<RequestId>, c: ConnId)
    requires Inv(s) && HookedStream(s.net, c)
    ensures LeavesOpener(s, CloseSubscriptions(s, ids, true), c)
    decreases |ids|
  {
    hide Inv, CloseSubscription;
    if ids != [] {
      CloseSubLeaves(s, ids[0], c);
      CloseSubKeeps(s, ids[0], true);
      CloseSubsLeave(CloseSubscription(s, ids[0], true), ids[1..], c);
    }
  }

  lemma ToldLeaves(r: Rules, s: State, d: ConnId, c: ConnId)
    ensures LeavesOpener(s, Told(r, s, d, IsLocalClose), c)
  {
  }

  lemma {:induction false} OftenLeaves(r: Rules, s: State, d: ConnId, c: ConnId, times: nat)
    ensures LeavesOpener(s, ToldOften(r, s, d, IsLocalClose, times), c)
    decreases times
  {
    hide Told;
    if times > 0 {
      ToldLeaves(r, s, d, c);
      OftenLeaves(r, Told(r, s, d, IsLocalClose), d, c, times - 1);
    }
  }

  lemma CloseConnLeaves(r: Rules, s: State, d: ConnId, c: ConnId)
    ensures LeavesOpener(s, CloseConn(r, s, d), c)
  {
    hide ToldOften;
    OftenLeaves(r, s.(net := s.net.Close(d)), d, c, r.echoes(d) + 1);
  }

  lemma CloseStreamLeaves(r: Rules, s: State, c: ConnId)
    ensures LeavesOpener(s, CloseServerStream(r, s, true), c)
  {
    hide CloseConn;
    if s.held.stream.Some? {
      CloseConnLeaves(r, s.(held := s.held.(stream := None)), s.held.stream.value, c);
    }
  }

  lemma CloseActiveLeaves(r: Rules, s: State, c: ConnId)
    ensures LeavesOpener(s, CloseActive(r, s, true), c)
  {
    hide CloseConn;
    if s.held.active.Some? {
      CloseConnLeaves(r, s, s.held.active.value, c);
    }
  }

  lemma ConnectLeaves(r: Rules, s: State, made: Option<ConnId>, c: ConnId)
    requires Inv(s) && New(s, made) && HookedStream(s.net, c)
    ensures LeavesOpener(s, Connect(r, s, made), c)
  {
    hide Connect, Holding, RetirementsTrue;
    UsedThere(s, c);
    if !s.connected && (r.transport == HttpSse || r.transport == StreamableHttp) && made.Some? {
      if s.held.active.Some? {
        ActiveHeld(s.held, s.net);
        ConnectOver(r, s, made.value);
      } else {
        ConnectFirst(r, s, made.value);
      }
    } else {
      ConnectNothing(r, s, made);
    }
  }

  lemma UsedThere(s: State, c: ConnId)
    requires Inv(s) && HookedStream(s.net, c)
    ensures c in s.net.used
  {
  }

  lemma OpenSubLeaves(r: Rules, s: State, id: RequestId, message: string, made: Option<ConnId>, c: ConnId)
    requires Inv(s) && New(s, made) && HookedStream(s.net, c)
    ensures LeavesOpener(s, OpenSubscription(r, s, id, message, made).state, c)
  {
    hide Due, DueBody, KeyOf, Holding, RetirementsTrue;
    UsedThere(s, c);
  }

  lemma CloseAllLeaves(r: Rules, s: State, ids: seq<RequestId>, keys: seq<nat>, c: ConnId)
    requires Inv(s) && HookedStream(s.net, c)
    ensures LeavesOpener(s, CloseAll(r, s, ids, keys, true), c)
  {
    hide Inv, CloseServerStream, CloseSubscriptions, RetireAnswers, CloseActive;
    var s1 := CloseServerStream(r, s, true);
    var s2 := CloseSubscriptions(s1, ids, true);
    CloseStreamLeaves(r, s, c);
    CloseStreamKeeps(r, s, true);
    CloseSubsLeave(s1, ids, c);
    CloseSubsKeeps(s1, ids, true);
    RetireAllLeave(s2, keys, c);
    CloseActiveLeaves(r, RetireAnswers(s2, keys, true), c);
  }

  lemma OpenNothing(r: Rules, s: State, cursor: string, made: Option<ConnId>, c: ConnId)
    requires !OpenServerStream(r, s, cursor, made).ok
    ensures LeavesOpener(s, OpenServerStream(r, s, cursor, made).state, c)
  {
    hide Due, DueBody, CloseServerStream;
    CloseStreamLeaves(r, s, c);
  }

  /** No call but one that opens a stream moves an opener. */
  lemma CallLeaves(r: Rules, s: State, e: Event, c: ConnId)
    requires Inv(s) && Legal(s, e) && IsCall(e) && !Opens(r, s, e) && HookedStream(s.net, c)
    ensures LeavesOpener(s, Step(r, s, e), c)
  {
    hide Inv, OpenSubscription, OpenServerStream, CloseSubscription, CloseServerStream, SendSessionDelete, CloseAll,
    Connect;
    match e
    case Connecting(made) => ConnectLeaves(r, s, made, c);
    case OpenSub(id, message, made) => OpenSubLeaves(r, s, id, message, made, c);
    case CloseSub(id, _) => CloseSubLeaves(s, id, c);
    case OpenStream(cursor, made) => OpenNothing(r, s, cursor, made, c);
    case CloseStream(_) => CloseStreamLeaves(r, s, c);
    case GiveBack => GiveBackAside(r, s);
    case CloseManager(ids, keys, _) => CloseAllLeaves(r, s, ids, keys, c);
    case _ =>
  }

  // ----- what moves it -----

  lemma StreamOpened(r: Rules, s: State, cursor: string, made: Option<ConnId>)
    requires OpenServerStream(r, s, cursor, made).ok
    ensures made.Some?
    ensures var s', closed := OpenServerStream(r, s, cursor, made).state, CloseServerStream(r, s, true);
            && s'.held.streamOpener == made && s'.held.retiredOpener == closed.held.streamOpener
            && s'.net.openers.Keys
               == closed.net.openers.Keys - (if closed.held.retiredOpener.Some? then {closed.held.retiredOpener.value}
                   else {})
                  + {made.value}
            && (forall d: ConnId :: d != made.value && HookedStream(closed.net, d) ==> HookedStream(s'.net, d))
  {
    hide Due, DueBody, CloseServerStream;
  }

  lemma OpeningMoves(r: Rules, s: State, cursor: string, made: Option<ConnId>, c: ConnId, k: nat)
    requires Inv(s) && New(s, made) && HookedStream(s.net, c) && OpenerAt(s, c, k)
    requires OpenServerStream(r, s, cursor, made).ok
    ensures var s' := OpenServerStream(r, s, cursor, made).state;
            OpenerAt(s', c, k + 1) && HookedStream(s'.net, c)
  {
    hide Inv, OpenServerStream, CloseServerStream, HookedStream;
    UsedThere(s, c);
    CloseStreamLeaves(r, s, c);
    StreamOpened(r, s, cursor, made);
    if k == 0 {
      NotRetired(s, c);
    }
  }

  /** The two openers kept are not one, as long as streams are opened on new connections. */
  lemma NotRetired(s: State, c: ConnId)
    requires Inv(s) && s.held.streamOpener == Some(c)
    ensures s.held.retiredOpener != Some(c)
  {
  }

  lemma {:induction false} CallsMove(r: Rules, s: State, calls: seq<Event>, c: ConnId, k: nat)
    requires Inv(s) && LegalRun(r, s, calls) && AreCalls(calls) && HookedStream(s.net, c) && OpenerAt(s, c, k)
    ensures OpenerAt(Run(r, s, calls), c, k + Openings(r, s, calls))
    ensures Inv(Run(r, s, calls)) && HookedStream(Run(r, s, calls).net, c)
    decreases |calls|
  {
    hide Inv, Legal, Step, HookedStream, OpenerAt, IsCall;
    if calls != [] {
      CallMoves(r, s, calls[0], c, k);
      StepKeeps(r, s, calls[0]);
      CallsMove(r, Step(r, s, calls[0]), calls[1..], c, if Opens(r, s, calls[0]) then k + 1 else k);
    }
  }

  lemma CallMoves(r: Rules, s: State, e: Event, c: ConnId, k: nat)
    requires Inv(s) && Legal(s, e) && IsCall(e) && HookedStream(s.net, c) && OpenerAt(s, c, k)
    ensures HookedStream(Step(r, s, e).net, c)
    ensures OpenerAt(Step(r, s, e), c, if Opens(r, s, e) then k + 1 else k)
  {
    hide Inv, HookedStream, OpenServerStream, Step;
    if Opens(r, s, e) {
      OpeningMoves(r, s, e.cursor, e.made, c, k);
      OpenStep(r, s, e);
    } else {
      CallLeaves(r, s, e, c);
    }
  }

  lemma OpenStep(r: Rules, s: State, e: Event)
    requires e.OpenStream?
    ensures Step(r, s, e) == OpenServerStream(r, s, e.cursor, e.made).state
  {
  }

  lemma OpeningsOn(r: Rules, s: State, e: Event, calls: seq<Event>)
    ensures Openings(r, s, [e] + calls) == (if Opens(r, s, e) then 1 else 0) + Openings(r, Step(r, s, e), calls)
    ensures forall s' :: Openings(r, s', []) == 0
  {
    hide Opens, Step;
    assert ([e] + calls)[1..] == calls;
  }

  // ----- the theorems -----

  /** A stream's connection has its own opener, before any opening. */
  lemma HeldAt(s: State, c: ConnId)
    requires Inv(s) && s.held.stream == Some(c)
    ensures HookedStream(s.net, c) && OpenerAt(s, c, 0)
  {
    hide ListenersOwned, SubscriptionsBacked, AnswersBacked, RetirementsTrue;
  }

  lemma StatusLeaves(s: State, c: ConnId, status: Status, k: nat)
    requires Inv(s) && HookedStream(s.net, c) && OpenerAt(s, c, k)
    ensures var s' := s.(net := s.net.WithStatus(c, status));
            Inv(s') && HookedStream(s'.net, c) && OpenerAt(s', c, k)
  {
    hide Holding, RetirementsTrue;
    StatusHolds(s.held, s.net, c, status);
  }

  lemma AppMoves(r: Rules, s: State, c: ConnId, t: Telling, k: nat)
    requires Inv(s) && HookedStream(s.net, c) && OpenerAt(s, c, k) && LegalTelling(r, s, c, t)
    ensures var s' := AppTold(r, s, c, t);
            Inv(s') && HookedStream(s'.net, c) && OpenerAt(s', c, k + OpeningsIn(r, s, c, t))
  {
    hide Run, LegalRun, Inv, Openings, AreCalls, HookedStream, OpenerAt, Net.WithStatus;
    StatusLeaves(s, c, t.status, k);
    if s.held.stream.Some? {
      CallsMove(r, s.(net := s.net.WithStatus(c, t.status)), t.calls, c, k);
    }
  }

  /**
   A telling finds the opener gone exactly when the application has opened two streams or
   more since the connection was the newest, this telling included.
   */
  lemma OpenerLostInside(r: Rules, s: State, c: ConnId, t: Telling, k: nat)
    requires Inv(s) && HookedStream(s.net, c) && OpenerAt(s, c, k) && LegalTelling(r, s, c, t)
    ensures StreamOpenerGone in StreamTold(r, s, c, t).net.faults <==> k + OpeningsIn(r, s, c, t) >= 2
    ensures k + OpeningsIn(r, s, c, t) < 2 ==> StreamTold(r, s, c, t) == AppTold(r, s, c, t)
  {
    hide Inv, AppTold, Run, LegalRun, AreCalls, OpeningsIn, HookedStream;
    AppMoves(r, s, c, t, k);
    NoStreamFault(AppTold(r, s, c, t));
  }

  /**
   However often a close tells, one of the tellings finds the opener gone exactly when the
   application opens two streams or more in all of them together.
   */
  lemma {:induction false} OpenerLost(r: Rules, s: State, c: ConnId, tellings: seq<Telling>, k: nat)
    requires Inv(s) && HookedStream(s.net, c) && OpenerAt(s, c, k) && LegalTellings(r, s, c, tellings)
    requires tellings != []
    ensures StreamOpenerGone in CloseTold(r, s, c, tellings).net.faults <==> k + OpeningsOver(r, s, c, tellings) >= 2
    decreases |tellings|
  {
    hide Inv, HookedStream, OpenerAt, LegalTelling, StreamTold, AppTold, OpeningsIn;
    var t, told := tellings[0], StreamTold(r, s, c, tellings[0]);
    NoStreamFault(s);
    OpenerLostInside(r, s, c, t, k);
    if StreamOpenerGone !in told.net.faults {
      AppMoves(r, s, c, t, k);
      if tellings[1..] != [] {
        OpenerLost(r, told, c, tellings[1..], k + OpeningsIn(r, s, c, t));
      }
    }
  }

  /** A stream's close that tells twice, and an application that opens one stream each time. */
  lemma OneEach(r: Rules, s: State, c: ConnId, a: ConnId, b: ConnId)
    requires Inv(s) && s.held.stream == Some(c) && s.net.StatusOf(c) != Closed
    requires r.Streams() && r.HttpFactory() && a !in s.net.used && b !in s.net.used && a != b
    ensures var first := Telling(IsLocalClose, Closing, [OpenStream("", Some(a))] + []);
            var second := Telling(IsLocalClose, Closed, [OpenStream("", Some(b))] + []);
            && StreamOpenerGone !in CloseTold(r, s, c, [first]).net.faults
            && LegalTellings(r, s, c, [first, second])
            && StreamOpenerGone in CloseTold(r, s, c, [first, second]).net.faults
  {
    hide Inv, Run, LegalRun, OpenServerStream, AreCalls, HookedStream, OpenerAt, CloseTold, StreamTold;
    var first := Telling(IsLocalClose, Closing, [OpenStream("", Some(a))] + []);
    var second := Telling(IsLocalClose, Closed, [OpenStream("", Some(b))] + []);
    HeldAt(s, c);
    OneTelling(r, s, c, a, first, 0);
    var one := StreamTold(r, s, c, first);
    OneTelling(r, one, c, b, second, 1);
    assert [first, second][1..] == [second];
    assert LegalTellings(r, one, c, [second]) by {
      assert LegalTelling(r, one, c, [second][0]);
      assert LegalTellings(r, StreamTold(r, one, c, second), c, [second][1..]);
    }
    NoStreamFault(s);
    NoStreamFault(one);
    OpenerLost(r, s, c, [first], 0);
    OpenerLost(r, s, c, [first, second], 0);
  }

  /** One stream is opened while a close tells; unless the opener was to go with it, all is as it was. */
  lemma OneTelling(r: Rules, s: State, c: ConnId, a: ConnId, t: Telling, k: nat)
    requires Inv(s) && HookedStream(s.net, c) && OpenerAt(s, c, k) && s.held.stream.Some?
    requires r.Streams() && r.HttpFactory() && a !in s.net.used
    requires t.event != IsConnected && t.calls == [OpenStream("", Some(a))] + []
    ensures LegalTelling(r, s, c, t) && OpeningsIn(r, s, c, t) == 1
    ensures var s' := StreamTold(r, s, c, t);
            k == 0 ==> Inv(s') && HookedStream(s'.net, c) && OpenerAt(s', c, 1) && s'.held.stream == Some(a)
                       && s'.net.used == s.net.used + {a}
  {
    hide Inv, Run, LegalRun, Openings, OpenServerStream, HookedStream, OpenerAt, StreamTold;
    var now := s.(net := s.net.WithStatus(c, t.status));
    StatusLeaves(s, c, t.status, k);
    OpenedUsed(r, now, a);
    HeaderIsolation.RunOn(r, now, OpenStream("", Some(a)), []);
    HeaderIsolation.RunNothing(r, Step(r, now, OpenStream("", Some(a))));
    OpeningsOn(r, now, OpenStream("", Some(a)), []);
    OpenerLostInside(r, s, c, t, k);
    AppMoves(r, s, c, t, k);
  }

  /** Two openings in one telling are legal calls, and lose it. */
  lemma TwoInside(r: Rules, s: State, c: ConnId, a: ConnId, b: ConnId)
    requires Inv(s) && s.held.stream == Some(c) && s.net.StatusOf(c) != Closed
    requires r.Streams() && r.HttpFactory() && a !in s.net.used && b !in s.net.used && a != b
    ensures var calls := [OpenStream("", Some(a))] + ([OpenStream("", Some(b))] + []);
            StreamOpenerGone in StreamTold(r, s, c, Telling(IsRemoteClose, Closed, calls)).net.faults
  {
    hide Inv, Run, LegalRun, Openings, StreamTold, OpenServerStream, AreCalls, HookedStream, OpenerAt;
    var closed := s.(net := s.net.WithStatus(c, Closed));
    var calls := [OpenStream("", Some(a))] + ([OpenStream("", Some(b))] + []);
    HeldAt(s, c);
    StatusLeaves(s, c, Closed, 0);
    var one := Step(r, closed, OpenStream("", Some(a)));
    OpenedUsed(r, closed, a);
    OpenedUsed(r, one, b);
    HeaderIsolation.RunOn(r, closed, OpenStream("", Some(a)), [OpenStream("", Some(b))] + []);
    HeaderIsolation.RunOn(r, one, OpenStream("", Some(b)), []);
    HeaderIsolation.RunNothing(r, Step(r, one, OpenStream("", Some(b))));
    CallsAre(a, b);
    OpeningsOn(r, closed, OpenStream("", Some(a)), [OpenStream("", Some(b))] + []);
    OpeningsOn(r, one, OpenStream("", Some(b)), []);
    OpenerLostInside(r, s, c, Telling(IsRemoteClose, Closed, calls), 0);
  }

  lemma CallsAre(a: ConnId, b: ConnId)
    ensures AreCalls([OpenStream("", Some(a))] + ([OpenStream("", Some(b))] + []))
  {
  }

  lemma OpenedUsed(r: Rules, s: State, a: ConnId)
    requires Inv(s) && r.Streams() && r.HttpFactory()
    ensures OpenServerStream(r, s, "", Some(a)).ok
    ensures OpenServerStream(r, s, "", Some(a)).state.net.used == s.net.used + {a}
    ensures OpenServerStream(r, s, "", Some(a)).state.held.stream == Some(a)
    ensures a !in s.net.used ==> Inv(OpenServerStream(r, s, "", Some(a)).state)
  {
    hide Due, DueBody, CloseServerStream, Holding, RetirementsTrue;
    CloseStreamHolds(r, s, true);
    if a !in s.net.used {
      OpenStreamKeeps(r, s, "", Some(a));
    }
  }

  lemma NoStreamFault(s: State)
    requires Inv(s)
    ensures StreamOpenerGone !in s.net.faults
  {
  }
}
