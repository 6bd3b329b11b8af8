/**
 What each call and each event does to the connection manager, its connections and their
 listeners: everything that changes, in so many words, and that nothing else does.
 */
module ManagerEffects {
  import opened ConnectionTurns
  import opened ConnectionHolding
  import opened RequestForms

  /** The header map, the wire, the session and the queue are as they were. */
  ghost predicate Aside(s: State, s': State) {
    && s'.current == s.current && s'.wire == s.wire && s'.session == s.session && s'.connected == s.connected
    && s'.queue == s.queue
  }

  // ----- letting go -----

  /** Closed and unhooked, or gone when there is no dispatcher to leave it to; handed over, without its opener. */
  ghost predicate LetGone(net: Net, net': Net, c: ConnId, onThread: bool) {
    && net'.conns == (if onThread then net.conns[c := Connection(Closed, None)] else net.conns - {c})
    && net'.openers == net.openers - {c} && net'.handed == net.handed + [c]
    && net'.used == net.used && net'.faults == net.faults
  }

  lemma LetGoMeaning(net: Net, c: ConnId, closeIt: bool, onThread: bool)
    requires c in net.conns && c !in net.handed && (!closeIt ==> net.conns[c].status == Closed)
    ensures LetGone(net, net.LetGo(c, closeIt, onThread), c, onThread)
  {
    var conns := net.conns[c := net.conns[c].(listener := None)];
    assert conns[c := Connection(Closed, None)] == net.conns[c := Connection(Closed, None)];
    assert conns - {c} == net.conns - {c};
    assert net.conns[c := Connection(Closed, None)] - {c} == net.conns - {c};
  }

  /** A subscription is let go of exactly when there is one for that id, and then that one. */
  lemma SubscriptionClosed(r: Rules, s: State, id: RequestId, onThread: bool)
    requires Inv(s)
    ensures var key, s' := KeyOf(id), Step(r, s, CloseSub(id, onThread));
            if forall k :: k in s.held.subscriptions ==> s.held.subscriptions[k].id != id then s' == s
            else
              && key in s.held.subscriptions && s.held.subscriptions[key].id == id
              && s'.held == s.held.(subscriptions := s.held.subscriptions - {key}) && Aside(s, s')
              && LetGone(s.net, s'.net, s.held.subscriptions[key].conn, onThread)
  {
    hide Net.LetGo, ListenersOwned, AnswersBacked, OthersBacked, NetSound, RetirementsTrue, LetGone;
    var key := KeyOf(id);
    SubscriptionNamed(s, id);
    if key in s.held.subscriptions {
      LetGoMeaning(s.net, s.held.subscriptions[key].conn, true, onThread);
    }
  }

  /** The entry of an id is the one under its key. */
  lemma SubscriptionNamed(s: State, id: RequestId)
    requires Inv(s)
    ensures KeyOf(id) in s.held.subscriptions <==>
              exists k :: k in s.held.subscriptions && s.held.subscriptions[k].id == id
    ensures KeyOf(id) in s.held.subscriptions ==> s.held.subscriptions[KeyOf(id)].id == id
  {
    hide ListenersOwned, AnswersBacked, OthersBacked, NetSound, RetirementsTrue, KeyOf;
    if KeyOf(id) in s.held.subscriptions {
      KeyOfInjective(s.held.subscriptions[KeyOf(id)].id, id);
    }
  }

  /** A retirement lets go of the answer held under its key, if there still is one. */
  lemma AnswerRetired(r: Rules, s: State, made: Option<ConnId>)
    requires Inv(s) && s.queue != [] && s.queue[0].RetireTurn?
    ensures var key, s' := s.queue[0].key, Step(r, s, Turn(made));
            && Aside(s.(queue := s.queue[1..]), s')
            && if key !in s.held.answers then s'.held == s.held && s'.net == s.net
               else s'.held == s.held.(answers := s.held.answers - {key})
                    && LetGone(s.net, s'.net, s.held.answers[key], true)
  {
    hide Net.LetGo, LetGone, ListenersOwned, SubscriptionsBacked, OthersBacked, NetSound, RetirementsTrue;
    var key := s.queue[0].key;
    if key in s.held.answers {
      var c := s.held.answers[key];
      LetGoMeaning(s.net, c, s.net.StatusOf(c) != Closed, true);
    }
  }

  /** A stream's connection is closed and handed over; its opener stays, and stays hooked. */
  ghost predicate StreamGone(s: State, s': State, onThread: bool)
    requires s.held.stream.Some?
  {
    var c: ConnId := s.held.stream.value;
    && Aside(s, s') && s'.held == s.held.(stream := None)
    && s'.net == s.net.(
                   conns := if onThread then s.net.conns[c := Connection(Closed, Some(Opener(StreamOpener)))]
                            else s.net.conns - {c},
                   handed := s.net.handed + [c])
  }

  lemma StreamClosed(r: Rules, s: State, onThread: bool)
    requires Inv(s)
    ensures var s' := Step(r, s, CloseStream(onThread));
            if s.held.stream.None? then s' == s else StreamGone(s, s', onThread)
  {
    hide ListenersOwned, AnswersBacked, SubscriptionsBacked, RetirementsTrue, CloseConn;
    if s.held.stream.Some? {
      CloseStreamIs(r, s, onThread);
      var c: ConnId := s.held.stream.value;
      assert HeldWith(s.net, c, Opener(StreamOpener));
      assert s.net.conns[c := Connection(Closed, Some(Opener(StreamOpener)))] - {c} == s.net.conns - {c};
      assert s.net.conns[c].status == Closed ==>
               s.net.conns == s.net.conns[c := Connection(Closed, Some(Opener(StreamOpener)))];
    }
  }

  // ----- opening -----

  /** Only a client with a session, over streamable HTTP, opens streams and subscriptions. */
  predicate MayStream(r: Rules) { r.hasSession && r.transport == StreamableHttp }

  /** A subscription of its own, or none: for an id that has one, without a connection, or when it may not. */
  lemma SubscriptionOpened(r: Rules, s: State, id: RequestId, message: string, made: Option<ConnId>)
    requires Inv(s)
    ensures var key, s' := KeyOf(id), Step(r, s, OpenSub(id, message, made));
            if !MayStream(r) || r.detection || made.None?
               || (exists k :: k in s.held.subscriptions && s.held.subscriptions[k].id == id) then s' == s
            else
              var c: ConnId := made.value;
              && Aside(s, s')
              && s'.held == s.held.(subscriptions := s.held.subscriptions[key := HeldSubscription(id, c)])
              && c in s'.net.openers && s'.net.openers[c].source == Subscription(message, s.session.state)
              && s'.net.openers[c].body == r.declare(s.session.state, message)
              && PostForm(r, s'.net.openers[c].headers, s'.net.openers[c].body, s.session.state)
              && s'.net == s.net.(
                             conns := s.net.conns[c := Connection(Open, Some(Opener(SubscriptionOpener(key))))],
                             openers := s.net.openers[c := s'.net.openers[c]], used := s.net.used + {c})
  {
    hide Inv, KeyOf;
    SubscriptionNamed(s, id);
    DueHasForm(r, Subscription(message, s.session.state));
  }

  /**
   A stream: the one there was is closed whatever comes of it, the opener before the last
   is destroyed, and the new connection asks for the stream from the cursor on.
   */
  lemma StreamOpened(r: Rules, s: State, cursor: string, made: Option<ConnId>)
    requires Inv(s)
    ensures var closed, s' := Step(r, s, CloseStream(true)), Step(r, s, OpenStream(cursor, made));
            if !MayStream(r) then s' == s
            else if r.detection || made.None? then s' == closed
            else
              var c: ConnId := made.value;
              && Aside(s, s')
              && s'.held == s.held.(stream := made, streamOpener := made, retiredOpener := s.held.streamOpener)
              && c in s'.net.openers && s'.net.openers[c].source == Stream(cursor, s.session.state)
              && StreamForm(r, s'.net.openers[c].headers, s'.net.openers[c].body, cursor, s.session.state)
              && s'.net == closed.net.(
                             conns := closed.net.conns[c := Connection(Open, Some(Opener(StreamOpener)))],
                             openers := (if s.held.retiredOpener.Some? then s.net.openers - {s.held.retiredOpener.value}
                                         else s.net.openers)[c := s'.net.openers[c]],
                             used := s.net.used + {c})
  {
    hide Inv, CloseServerStream;
    CloseStreamKeeps(r, s, true);
    StreamClosed(r, s, true);
    DueHasForm(r, Stream(cursor, s.session.state));
  }

  /** Giving the session back: one DELETE on the active connection, and the session forgets itself. */
  lemma GivenBack(r: Rules, s: State)
    ensures var s' := Step(r, s, GiveBack);
            if !r.hasSession || !r.hasId(s.session.state) || s.held.active.None? then s' == s
            else
              && s'.session == s.session.(state := r.forgotten(s.session.state)) && s'.current == r.configured
              && s'.connected == s.connected && s'.queue == s.queue && s'.held == s.held && s'.net == s.net
              && |s'.wire| == |s.wire| + 1 && s'.wire[..|s.wire|] == s.wire
              && (var e := s'.wire[|s.wire|];
                  && e.conn == s.held.active.value && e.source == Delete(s.session.state)
                  && DeleteForm(r, e.seen, e.body, s.session.state))
  {
    DueHasForm(r, Delete(s.session.state));
  }

  /** The nudge: an empty write under the map as it is. */
  lemma Nudged(r: Rules, s: State, made: Option<ConnId>)
    requires s.queue != [] && s.queue[0].NudgeTurn?
    ensures Step(r, s, Turn(made))
            == s.(queue := s.queue[1..],
                  wire := if s.held.active.None? then s.wire
                          else s.wire + [Entry(s.held.active.value, "", s.current, Nudge)])
  {
  }

  // ----- the active connection and its events -----

  /** A client over HTTP that is not connected takes a new connection; the one there was is destroyed. */
  lemma ConnectionMade(r: Rules, s: State, made: Option<ConnId>)
    requires Inv(s) && New(s, made)
    ensures var s' := Step(r, s, Connecting(made));
            if s.connected || made.None? || !(r.transport == HttpSse || r.transport == StreamableHttp) then s' == s
            else
              var c: ConnId := made.value;
              var left := if s.held.active.Some? then s.net.conns - {s.held.active.value} else s.net.conns;
              && s'.wire == s.wire && s'.current == s.current && s'.queue == s.queue && !s'.connected
              && if s.held.active.Some? && s.net.StatusOf(s.held.active.value) != Closed then
                   && s'.held == s.held.(active := None)
                   && s'.session == (if r.hasSession then s.session.(inFlight := []) else s.session)
                   && s'.net == s.net.(conns := left[c := Connection(Open, None)], used := s.net.used + {c},
                                       handed := s.net.handed + [c], faults := s.net.faults + {ActiveGone})
                 else
                   && s'.held == s.held.(active := made) && s'.session == s.session
                   && s'.net == s.net.(conns := left[c := Connection(Open, Some(Manager))], used := s.net.used + {c})
  {
    hide Inv;
    if !s.connected && made.Some? && (r.transport == HttpSse || r.transport == StreamableHttp) {
      if s.held.active.Some? {
        var old': ConnId := s.held.active.value;
        ActiveThere(s);
        DestroyedOnce(r, s.(held := s.held.(active := made), net := s.net.MakeBare(made.value)), old');
        hide Destroy;
        var conns := s.net.conns[made.value := Connection(Open, None)];
        assert conns - {old'} == (s.net.conns - {old'})[made.value := Connection(Open, None)];
        assert conns[old' := Connection(Closed, Some(Manager))] - {old'} == conns - {old'};
        NewApart(s, made.value);
      }
    }
  }

  lemma NewApart(s: State, c: ConnId)
    requires Inv(s) && c !in s.net.used
    ensures c !in s.net.handed && c !in s.net.conns && s.held.active != Some(c)
  {
    hide ListenersOwned, SubscriptionsBacked, AnswersBacked, RetirementsTrue;
  }

  lemma ActiveThere(s: State)
    requires Inv(s) && s.held.active.Some?
    ensures HeldWith(s.net, s.held.active.value, Manager) && s.held.active.value in s.net.used
  {
    hide ListenersOwned, SubscriptionsBacked, AnswersBacked, RetirementsTrue;
  }

  /** Connected: once, and over the older HTTP transport a nudge is posted. */
  lemma ManagerConnected(r: Rules, s: State, c: ConnId, status: Status)
    requires c in s.net.conns && s.net.conns[c].status != Closed && s.net.conns[c].listener == Some(Manager)
    ensures Step(r, s, Raising(c, IsConnected, status))
            == s.(net := s.net.(conns := s.net.conns[c := Connection(status, Some(Manager))]), connected := true,
                  queue := if !s.connected && r.transport == HttpSse then s.queue + [NudgeTurn] else s.queue)
  {
  }

  /** Closed: the active connection is handed over and what was in flight forgotten, unless there is nothing to lose. */
  lemma ManagerClosed(r: Rules, s: State, c: ConnId, e: Raised, status: Status)
    requires c in s.net.conns && s.net.conns[c].status != Closed && s.net.conns[c].listener == Some(Manager)
    requires e == IsRemoteClose || e == IsLocalClose
    ensures var conns := s.net.conns[c := Connection(status, Some(Manager))];
            Step(r, s, Raising(c, e, status))
            == s.(connected := false, held := s.held.(active := None),
                  session := if r.hasSession && (s.connected || s.held.active.Some?) then s.session.(inFlight := [])
                             else s.session,
                  net := s.net.(conns := conns,
                                handed := s.net.handed + if s.held.active.Some? then [s.held.active.value] else [],
                                faults := s.net.faults
                                    + if s.held.active.Some? && s.held.active.value in s.net.handed then {HandedTwice}
                                      else {}))
  {
  }

  /** An opener whose connection is up writes its request and puts the map back; an answer's close posts its end. */
  lemma OpenerRaised(r: Rules, s: State, c: ConnId, kind: OpenerKind, e: Raised, status: Status)
    requires c in s.net.conns && s.net.conns[c].status != Closed && s.net.conns[c].listener == Some(Opener(kind))
    requires c in s.net.openers
    ensures var after := s.(net := s.net.(conns := s.net.conns[c := Connection(status, Some(Opener(kind)))]));
            var data := s.net.openers[c];
            Step(r, s, Raising(c, e, status))
            == if e == IsConnected then
                 after.(wire := s.wire + [Entry(c, data.body, data.headers, data.source)], current := r.configured)
               else if kind.AnswerOpener? then after.(queue := s.queue + [RetireTurn(kind.key, c)])
               else after
  {
  }

  /** A connection that is closed raises nothing, and one with no listener tells nobody. */
  lemma NobodyTold(r: Rules, s: State, c: ConnId, e: Raised, status: Status)
    requires c !in s.net.conns || s.net.conns[c].status == Closed || s.net.conns[c].listener == None
    ensures Step(r, s, Raising(c, e, status))
            == if s.net.StatusOf(c) == Closed then s
               else s.(net := s.net.(conns := s.net.conns[c := Connection(status, None)]))
  {
  }

  /** What was handed over is deleted; a close it still owes is told to the manager, and to nobody else. */
  lemma HandedDeleted(r: Rules, s: State, c: ConnId)
    requires Inv(s)
    ensures var s' := Step(r, s, DeleteHanded(c));
            if c !in s.net.handed || c !in s.net.conns then s' == s
            else
              var told := Step(r, s, Raising(c, IsLocalClose, Closed));
              s' == told.(net := told.net.(conns := told.net.conns - {c}))
  {
    hide Inv, Raise;
    if c in s.net.handed && c in s.net.conns {
      if s.net.StatusOf(c) != Closed {
        HandedTells(s, c);
      }
      DestroyedOnce(r, s, c);
    }
  }

  /** An answer that arrives is that of the message in flight longest; a new session state is only that. */
  lemma AnswerArrived(r: Rules, s: State)
    ensures var s' := Step(r, s, Answered);
            && s'.session.recorded == s.session.recorded && s'.session.state == s.session.state
            && (if s.session.inFlight == [] then s'.session.inFlight == []
                else s.session.inFlight == [s.session.inFlight[0]] + s'.session.inFlight)
            && s' == s.(session := s'.session)
    ensures forall state :: Step(r, s, SessionChanges(state)) == s.(session := s.session.(state := state))
  {
  }

  // ----- what counts as a fault -----

  /**
   What is recorded: touching a connection that is gone, closing one of an answer or a
   subscription that would still tell its opener, and handing one over twice.
   */
  lemma FaultsRecorded(net: Net, c: ConnId, listener: Listener, onThread: bool)
    ensures var touched := if c in net.conns then {} else {DeletedTouched};
            net.Hook(c, listener).faults == net.Unhook(c).faults == net.faults + touched
    ensures net.Close(c).faults
            == net.faults
               + (if c !in net.conns then {DeletedTouched}
                  else if net.conns[c].status != Closed && net.conns[c].listener.Some?
                          && net.conns[c].listener.value.Opener? && !net.conns[c].listener.value.kind.StreamOpener?
                  then {ClosedHooked} else {})
    ensures net.Dispose(c, onThread).faults == net.faults + if c in net.handed then {HandedTwice} else {}
  {
  }

  /** And telling an opener that is gone. */
  lemma OpenerFault(r: Rules, s: State, c: ConnId, kind: OpenerKind, e: Raised, status: Status)
    requires c in s.net.conns && s.net.conns[c].status != Closed && s.net.conns[c].listener == Some(Opener(kind))
    requires c !in s.net.openers
    ensures Step(r, s, Raising(c, e, status)).net.faults
            == s.net.faults + {if kind.StreamOpener? then StreamOpenerGone else OpenerGone}
  {
  }

  // ----- closing the manager -----

  /** Handed over, and closed if it is still there. */
  ghost predicate OverWith(net: Net, c: ConnId) {
    c in net.handed && (c in net.conns ==> net.conns[c].status == Closed)
  }

  /** What is closed stays closed, what is handed over stays so, and what is gone stays gone. */
  ghost predicate Ages(net: Net, net': Net) {
    && (forall c :: c in net.handed ==> c in net'.handed)
    && forall c: ConnId :: c in net'.conns ==>
         c in net.conns && (net.conns[c].status == Closed ==> net'.conns[c].status == Closed)
  }

  /** What is held for answers, subscriptions and the stream. */
  ghost predicate HeldOwn(held: Held, c: ConnId) {
    || held.stream == Some(c)
    || (exists k :: k in held.subscriptions && held.subscriptions[k].conn == c)
    || (exists k :: k in held.answers && held.answers[k] == c)
  }

  /** Each connection that is held before is held after or over with. */
  ghost predicate EndsHeld(s: State, s': State) {
    && Ages(s.net, s'.net) && s'.wire == s.wire && s'.current == s.current && s'.queue == s.queue
    && s'.held.active == s.held.active && (s.held.active.Some? ==> SameConn(s.net, s'.net, s.held.active.value))
    && forall c: ConnId :: HeldOwn(s.held, c) ==> HeldOwn(s'.held, c) || OverWith(s'.net, c)
  }

  ghost predicate SameConn(net: Net, net': Net, c: ConnId) {
    c in net.conns && c in net'.conns && net'.conns[c] == net.conns[c]
  }

  lemma EndsOn(s: State, s': State, s'': State)
    requires EndsHeld(s, s') && EndsHeld(s', s'')
    ensures EndsHeld(s, s'')
  {
    hide HeldOwn;
  }

  lemma EndsSame(s: State)
    requires Inv(s)
    ensures EndsHeld(s, s)
  {
    hide Inv;
    if s.held.active.Some? {
      ActiveThere(s);
    }
  }

  lemma StreamEnds(r: Rules, s: State, onThread: bool)
    requires Inv(s)
    ensures EndsHeld(s, CloseServerStream(r, s, onThread))
  {
    hide Holding, RetirementsTrue, CloseServerStream;
    StreamClosed(r, s, onThread);
    EndsSame(s);
    if s.held.stream.Some? {
      StreamHeld(s.held, s.net);
    }
  }

  lemma SubscriptionEnds(r: Rules, s: State, id: RequestId, onThread: bool)
    requires Inv(s)
    ensures EndsHeld(s, CloseSubscription(s, id, onThread))
  {
    hide Holding, RetirementsTrue, CloseSubscription, KeyOf;
    SubscriptionClosed(r, s, id, onThread);
    SubscriptionNamed(s, id);
    EndsSame(s);
    var s', key := CloseSubscription(s, id, onThread), KeyOf(id);
    if key in s.held.subscriptions {
      SubscriptionConn(s.held, s.net, key);
      ActiveApart(s, s.held.subscriptions[key].conn);
      assert s.held.subscriptions[key].id == id;
      forall c: ConnId | HeldOwn(s.held, c)
        ensures HeldOwn(s'.held, c) || OverWith(s'.net, c)
      {
        var subscriptions := s.held.subscriptions;
        if c != subscriptions[key].conn && exists k :: k in subscriptions && subscriptions[k].conn == c {
          var k :| k in subscriptions && subscriptions[k].conn == c;
          assert k in s'.held.subscriptions && s'.held.subscriptions[k].conn == c;
        }
      }
    }
  }

  lemma ActiveApart(s: State, c: ConnId)
    requires Inv(s) && c in s.net.conns && s.net.conns[c].listener != Some(Manager)
    ensures s.held.active.Some? ==> s.held.active.value != c && s.held.active.value in s.net.conns
  {
    hide Inv;
    if s.held.active.Some? {
      ActiveThere(s);
    }
  }

  lemma AnswerEnds(s: State, key: nat, onThread: bool)
    requires Inv(s)
    ensures EndsHeld(s, RetireAnswer(s, key, onThread))
  {
    hide Net.LetGo, ListenersOwned, SubscriptionsBacked, OthersBacked, NetSound, RetirementsTrue;
    EndsSame(s);
    if key in s.held.answers {
      var c: ConnId := s.held.answers[key];
      var s' := RetireAnswer(s, key, onThread);
      LetGoMeaning(s.net, c, s.net.StatusOf(c) != Closed, onThread);
      ActiveApart(s, c);
      forall d: ConnId | HeldOwn(s.held, d)
        ensures HeldOwn(s'.held, d) || OverWith(s'.net, d)
      {
        if d != c && exists k :: k in s.held.answers && s.held.answers[k] == d {
          var k :| k in s.held.answers && s.held.answers[k] == d;
          assert k in s'.held.answers && s'.held.answers[k] == d;
        }
      }
    }
  }

  lemma {:induction false} SubscriptionsEnd(r: Rules, s: State, ids: seq<RequestId>, onThread: bool)
    requires Inv(s)
    ensures EndsHeld(s, CloseSubscriptions(s, ids, onThread))
    decreases |ids|
  {
    hide Inv, CloseSubscription, EndsHeld;
    if ids != [] {
      SubscriptionEnds(r, s, ids[0], onThread);
      CloseSubKeeps(s, ids[0], onThread);
      SubscriptionsEnd(r, CloseSubscription(s, ids[0], onThread), ids[1..], onThread);
      EndsOn(s, CloseSubscription(s, ids[0], onThread), CloseSubscriptions(s, ids, onThread));
    } else {
      EndsSame(s);
    }
  }

  lemma {:induction false} AnswersEnd(s: State, keys: seq<nat>, onThread: bool)
    requires Inv(s)
    ensures EndsHeld(s, RetireAnswers(s, keys, onThread))
    decreases |keys|
  {
    hide Inv, RetireAnswer, EndsHeld;
    if keys != [] {
      AnswerEnds(s, keys[0], onThread);
      RetireKeeps(s, keys[0], onThread);
      AnswersEnd(RetireAnswer(s, keys[0], onThread), keys[1..], onThread);
      EndsOn(s, RetireAnswer(s, keys[0], onThread), RetireAnswers(s, keys, onThread));
    } else {
      EndsSame(s);
    }
  }

  /** An active connection that is open is closed; one that is not is left to deletion, or deleted off the thread. */
  lemma ActiveEnds(r: Rules, s: State, onThread: bool)
    requires Inv(s)
    ensures var s' := CloseActive(r, s, onThread);
            && Ages(s.net, s'.net) && s'.wire == s.wire && s'.current == s.current && s'.queue == s.queue
            && (s.held.active.Some? ==>
                  var c: ConnId := s.held.active.value;
                  && c in s'.net.handed
                  && s'.net.StatusOf(c) == if s.net.StatusOf(c) == Open || !onThread then Closed else s.net.StatusOf(c))
  {
    hide Inv, ToldClosed, Destroy;
    if s.held.active.Some? {
      var c: ConnId := s.held.active.value;
      ActiveThere(s);
      if s.net.StatusOf(c) == Open {
        ActiveTold(r, s.(net := s.net.Close(c)), c);
      } else {
        DestroyedOnce(r, s.(held := s.held.(active := None), net := s.net.Dispose(c, true)), c);
      }
    }
  }

  /**
   Closing the manager: every connection held for an answer, a subscription or the stream
   is closed and handed over, and so is the active one when it is open; nothing is
   written, nothing posted is lost.
   */
  lemma AllClosed(r: Rules, s: State, ids: seq<RequestId>, keys: seq<nat>, onThread: bool)
    requires Inv(s) && Legal(s, CloseManager(ids, keys, onThread))
    ensures var s' := Step(r, s, CloseManager(ids, keys, onThread));
            && (forall c: ConnId :: HeldOwn(s.held, c) ==> OverWith(s'.net, c))
            && (s.held.active.Some? ==> s.held.active.value in s'.net.handed)
            && (s.held.active.Some? && s.net.StatusOf(s.held.active.value) == Open ==>
                  OverWith(s'.net, s.held.active.value))
            && s'.wire == s.wire && s'.current == s.current && s'.queue == s.queue && !s'.connected
  {
    hide Inv, Legal, CloseServerStream, CloseSubscriptions, RetireAnswers, CloseActive, EndsHeld, HeldOwn, Ages;
    var s1 := CloseServerStream(r, s, onThread);
    var s2 := CloseSubscriptions(s1, ids, onThread);
    var s3 := RetireAnswers(s2, keys, onThread);
    StreamEnds(r, s, onThread);
    CloseStreamKeeps(r, s, onThread);
    SubscriptionsEnd(r, s1, ids, onThread);
    CloseSubsKeeps(s1, ids, onThread);
    AnswersEnd(s2, keys, onThread);
    RetireAllKeeps(s2, keys, onThread);
    EndsOn(s, s1, s2);
    EndsOn(s, s2, s3);
    ActiveEnds(r, s3, onThread);
    EndsWhenClosed(r, s, s3, ids, keys, onThread);
  }

  lemma EndsWhenClosed(r: Rules, s: State, s3: State, ids: seq<RequestId>, keys: seq<nat>, onThread: bool)
    requires Inv(s) && Legal(s, CloseManager(ids, keys, onThread)) && EndsHeld(s, s3)
    requires s3 == RetireAnswers(CloseSubscriptions(CloseServerStream(r, s, onThread), ids, onThread), keys, onThread)
    requires Inv(s3)
    ensures forall c: ConnId :: HeldOwn(s.held, c) ==> OverWith(CloseActive(r, s3, onThread).net, c)
    ensures s3.held.active == s.held.active && s3.wire == s.wire && s3.current == s.current && s3.queue == s.queue
    ensures s.held.active.Some? ==> SameConn(s.net, s3.net, s.held.active.value)
  {
    hide Inv, Legal, CloseServerStream, CloseSubscriptions, RetireAnswers, CloseActive;
    CloseAllKeeps(r, s, ids, keys, onThread);
    CloseActiveKeeps(r, s3, onThread);
    ActiveEnds(r, s3, onThread);
  }
}
