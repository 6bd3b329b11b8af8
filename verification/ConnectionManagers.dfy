/**
 The connection manager as an object changed in place. Each method says what it does
 to the state of ConnectionTurns; the runs of that state are what the theorems are about.
 */
module ConnectionManagers {
  import opened ConnectionTurns
  import opened ConnectionHolding

  class McpConnectionManager {
    const rules: Rules
    /** The header map shared with the codec of every connection. */
    var current: Headers
    var connected: bool
    var active: Option<ConnId>
    var subscriptions: map<RequestIdKey, HeldSubscription>
    var answers: map<nat, ConnId>
    var lastAnswerKey: nat
    var stream: Option<ConnId>
    var streamOpener: Option<ConnId>
    var retiredOpener: Option<ConnId>
    /** The dispatcher's posted turns, the client session, the connections and the wire. */
    var queue: seq<Turn>
    var session: Session
    var net: Net
    var wire: seq<Entry>

    function Abstract(): State
      reads this
    {
      State(current, wire, session, connected, queue,
            Held(active, subscriptions, answers, lastAnswerKey, stream, streamOpener, retiredOpener), net)
    }

    constructor (rules: Rules, given: Option<Headers>)
      ensures this.rules == rules && Abstract() == Start(rules, given)
      ensures current == (if given.Some? then given.value else rules.configured) && !connected && active == None
      ensures subscriptions == map[] && answers == map[] && lastAnswerKey == 0
      ensures stream == None && streamOpener == None && retiredOpener == None
      ensures queue == [] && wire == [] && session.inFlight == [] && session.recorded == []
    {
      this.rules := rules;
      current := if given.Some? then given.value else rules.configured;
      connected, active, stream, streamOpener, retiredOpener := false, None, None, None, None;
      subscriptions, answers, lastAnswerKey := map[], map[], 0;
      queue, session, net, wire := [], Session(0, [], []), Net(map[], map[], {}, [], {}), [];
    }

    // ----- sending -----

    method SendJsonMessage(json: string, extra: Headers, correlate: Option<RequestId>) returns (ok: bool)
      modifies this`queue
      ensures Abstract() == Step(rules, old(Abstract()), Send(json, extra, correlate))
      ensures ok <==> connected && active.Some?
    {
      if !connected || active.None? {
        return false;
      }
      queue := queue + [WriteTurn(json, extra, correlate)];
      return true;
    }

    method SendResponse(json: string) returns (ok: bool)
      modifies this`queue
      ensures Abstract() == Step(rules, old(Abstract()), Respond(json))
      ensures ok <==> connected && active.Some?
    {
      if !connected || active.None? {
        return false;
      }
      if rules.transport != StreamableHttp || !rules.hasSession {
        queue := queue + [WriteTurn(json, map[], None)];
      } else {
        queue := queue + [AnswerTurn(json)];
      }
      return true;
    }

    /** The write reads the shared header map, as the codec does when the bytes reach it. */
    method Write(c: ConnId, body: string, source: Source)
      modifies this`wire
      ensures Abstract() == (var s: State := old(Abstract()); ConnectionTurns.Write(s, c, body, source))
    {
      wire := wire + [Entry(c, body, current, source)];
    }

    /** The headers of the call laid over the others, one by one. */
    method Merged(headers: Headers, extra: Headers) returns (merged: Headers)
      ensures merged == headers + extra
    {
      merged := headers;
      var rest := extra.Keys;
      while rest != {}
        invariant rest <= extra.Keys
        invariant merged.Keys == headers.Keys + (extra.Keys - rest)
        invariant forall k :: k in merged ==> merged[k] == if k in extra && k !in rest then extra[k] else headers[k]
        decreases |rest|
      {
        var k :| k in rest;
        merged := merged[k := extra[k]];
        rest := rest - {k};
      }
    }

    method WriteMessage(json: string, extra: Headers, correlate: Option<RequestId>)
      modifies this`current, this`session, this`wire
      ensures Abstract() == (var s: State := old(Abstract());
                                      ConnectionTurns.WriteMessage(rules, s, json, extra, correlate))
    {
      if active.None? {
        return;
      }
      ghost var source := Message(json, extra, correlate, session.state);
      var body := json;
      var outgoing := "{}";
      if rules.hasSession {
        var parsed := rules.parse(json);
        if parsed.Some? {
          outgoing := rules.declare(session.state, parsed.value);
          body := outgoing;
        }
      }
      var headers := rules.configured;
      if rules.hasSession {
        headers := rules.decorate(session.state, headers, Some(outgoing));
      }
      var merged := Merged(headers, extra);
      assert merged == Due(rules, source) && body == DueBody(rules, source);
      var sent := Message(json, extra, correlate, session.state);
      current := merged;
      if rules.hasSession {
        session := session.RecordSent(correlate);
      }
      Write(active.value, body, sent);
      current := rules.configured;
    }

    // ----- answers -----

    method SendAnswerApart(json: string, made: Option<ConnId>) returns (ok: bool)
      modifies this`net, this`answers, this`lastAnswerKey
      ensures Opened(ok, Abstract()) == (var s: State := old(Abstract());
                                      ConnectionTurns.SendAnswerApart(rules, s, json, made))
    {
      if !rules.HttpFactory() || made.None? {
        return false;
      }
      var parsed := rules.parse(json);
      if parsed.None? {
        net := net.MakeBare(made.value).Removed(made.value);
        return false;
      }
      var outgoing := rules.declare(session.state, parsed.value);
      var headers := rules.decorate(session.state, rules.configured, Some(outgoing));
      headers := headers[":method" := "POST"];
      headers := headers[":accept" := POST_ACCEPT];
      lastAnswerKey := lastAnswerKey + 1;
      net := net.Make(made.value, Opener(AnswerOpener(lastAnswerKey)));
      net := net.MakeOpener(made.value, OpenerData(headers, outgoing, Answer(json, session.state)));
      answers := answers[lastAnswerKey := made.value];
      return true;
    }

    /** The turn posted for an answer: apart while responses are outstanding, if it can be. */
    method AnswerServer(json: string, made: Option<ConnId>)
      modifies this
      ensures Abstract() == (var s: State := old(Abstract());
                                      ConnectionTurns.AnswerServer(rules, s, json, made))
    {
      hide Due, DueBody, ConnectionTurns.SendAnswerApart, ConnectionTurns.WriteMessage;
      if active.None? {
        return;
      }
      if |session.inFlight| > 0 {
        var apart := SendAnswerApart(json, made);
        if apart {
          return;
        }
      }
      WriteMessage(json, map[], None);
    }

    method RetireAnswer(key: nat, onThread: bool)
      modifies this`net, this`answers
      ensures Abstract() == (var s: State := old(Abstract()); ConnectionTurns.RetireAnswer(s, key, onThread))
    {
      if key !in answers {
        return;
      }
      var going := answers[key];
      answers := answers - {key};
      var closed := net.StatusOf(going) == Closed;
      net := net.Unhook(going);
      if !closed {
        net := net.Close(going);
      }
      net := net.Dispose(going, onThread);
      net := net.DropOpener(going);
    }

    // ----- subscriptions -----

    method OpenSubscription(id: RequestId, message: string, made: Option<ConnId>) returns (ok: bool)
      modifies this`net, this`subscriptions
      ensures Opened(ok, Abstract()) == (var s: State := old(Abstract());
                                      ConnectionTurns.OpenSubscription(rules, s, id, message, made))
    {
      var key := KeyOf(id);
      if !rules.Streams() {
        return false;
      }
      if key in subscriptions {
        return false;
      }
      if !rules.HttpFactory() || made.None? {
        return false;
      }
      var outgoing := rules.declare(session.state, message);
      var headers := rules.decorate(session.state, rules.configured, Some(outgoing));
      headers := headers[":method" := "POST"];
      headers := headers[":accept" := POST_ACCEPT];
      net := net.Make(made.value, Opener(SubscriptionOpener(key)));
      net := net.MakeOpener(made.value, OpenerData(headers, outgoing, Subscription(message, session.state)));
      subscriptions := subscriptions[key := HeldSubscription(id, made.value)];
      return true;
    }

    method CloseSubscription(id: RequestId, onThread: bool)
      modifies this`net, this`subscriptions
      ensures Abstract() == (var s: State := old(Abstract()); ConnectionTurns.CloseSubscription(s, id, onThread))
    {
      var key := KeyOf(id);
      if key !in subscriptions {
        return;
      }
      var going := subscriptions[key].conn;
      subscriptions := subscriptions - {key};
      net := net.Unhook(going);
      net := net.Close(going);
      net := net.Dispose(going, onThread);
      net := net.DropOpener(going);
    }

    // ----- the server stream -----

    method CloseServerStream(onThread: bool)
      modifies this
      ensures Abstract() == (var s: State := old(Abstract()); ConnectionTurns.CloseServerStream(rules, s, onThread))
    {
      hide ConnectionTurns.CloseConn, Net.Dispose;
      if stream.None? {
        return;
      }
      var going := stream.value;
      stream := None;
      CloseConn(going);
      net := net.Dispose(going, onThread);
    }

    method OpenServerStream(cursor: string, made: Option<ConnId>) returns (ok: bool)
      modifies this
      ensures Opened(ok, Abstract()) == (var s: State := old(Abstract());
                                      ConnectionTurns.OpenServerStream(rules, s, cursor, made))
    {
      hide ConnectionTurns.CloseServerStream, ConnectionTurns.TakeStream;
      if !rules.Streams() {
        return false;
      }
      CloseServerStream(true);
      if !rules.HttpFactory() || made.None? {
        return false;
      }
      var headers := rules.decorate(session.state, rules.configured, None);
      headers := headers[":method" := "GET"];
      headers := headers[":accept" := "text/event-stream"];
      if cursor != "" {
        headers := headers["Last-Event-ID" := cursor];
      }
      TakeStream(made.value, OpenerData(headers, "", Stream(cursor, session.state)));
      return true;
    }

    /** The last opener but one is destroyed, and the new connection becomes the stream's. */
    method TakeStream(c: ConnId, data: OpenerData)
      modifies this`net, this`stream, this`streamOpener, this`retiredOpener
      ensures Abstract() == (var s: State := old(Abstract()); ConnectionTurns.TakeStream(s, c, data))
    {
      hide Net.Make, Net.MakeOpener, Net.DropOpener;
      if retiredOpener.Some? {
        net := net.DropOpener(retiredOpener.value);
      }
      retiredOpener := streamOpener;
      stream, streamOpener := Some(c), Some(c);
      net := net.Make(c, Opener(StreamOpener));
      net := net.MakeOpener(c, data);
    }

    method SendSessionDelete() returns (ok: bool)
      modifies this`current, this`session, this`wire
      ensures Abstract() == (var s: State := old(Abstract()); ConnectionTurns.SendSessionDelete(rules, s))
      ensures ok <==> rules.hasSession && rules.hasId(old(session.state)) && active.Some?
    {
      if !rules.hasSession || !rules.hasId(session.state) || active.None? {
        return false;
      }
      var headers := rules.decorate(session.state, rules.configured, None);
      headers := headers[":method" := "DELETE"];
      var source := Delete(session.state);
      current := headers;
      Write(active.value, "", source);
      current := rules.configured;
      session := session.(state := rules.forgotten(session.state));
      return true;
    }

    // ----- the active connection -----

    /** The new connection is in place when the one it replaces is destroyed. */
    method Connect(made: Option<ConnId>)
      modifies this
      ensures Abstract() == (var s: State := old(Abstract()); ConnectionTurns.Connect(rules, s, made))
    {
      hide ConnectionTurns.Destroy;
      if connected || !(rules.transport == HttpSse || rules.transport == StreamableHttp) || made.None? {
        return;
      }
      var replaced := active;
      net := net.MakeBare(made.value);
      active := made;
      if replaced.Some? {
        Destroy(replaced.value);
      }
      if active.None? {
        net := net.(faults := net.faults + {ActiveGone});
      } else {
        net := net.Hook(active.value, Manager);
      }
    }

    /** Whoever listens on a connection is told of its event. */
    method Told(c: ConnId, e: Raised)
      modifies this
      ensures Abstract() == (var s: State := old(Abstract()); ConnectionTurns.Told(rules, s, c, e))
    {
      hide ConnectionTurns.OnConnectionEvent, ConnectionTurns.OnOpenerEvent;
      if c in net.conns {
        match net.conns[c].listener
        case None =>
        case Some(Manager) => OnConnectionEvent(e);
        case Some(Opener(kind)) => OnOpenerEvent(c, kind, e);
      }
    }

    method Raise(c: ConnId, e: Raised, status: Status)
      modifies this
      ensures Abstract() == (var s: State := old(Abstract()); ConnectionTurns.Raise(rules, s, c, e, status))
    {
      hide ConnectionTurns.Told;
      if net.StatusOf(c) != Closed {
        net := net.WithStatus(c, status);
        Told(c, e);
      }
    }

    /** The layers of the transport raise a close before the connection does. */
    method ToldClosed(c: ConnId)
      modifies this
      ensures Abstract() == (var s: State := old(Abstract()); ConnectionTurns.ToldClosed(rules, s, c))
    {
      hide ConnectionTurns.Told;
      var times: nat := rules.echoes(c) + 1;
      for i := 0 to times
        invariant ToldOften(rules, Abstract(), c, IsLocalClose, times - i)
                  == (var s: State := old(Abstract()); ConnectionTurns.ToldClosed(rules, s, c))
      {
        Told(c, IsLocalClose);
      }
    }

    /** Closes without a flush; the listener is told before this returns. */
    method CloseConn(c: ConnId)
      modifies this
      ensures Abstract() == (var s: State := old(Abstract()); ConnectionTurns.CloseConn(rules, s, c))
    {
      hide ConnectionTurns.ToldClosed;
      var open := net.StatusOf(c) != Closed;
      net := net.Close(c);
      if open {
        ToldClosed(c);
      }
    }

    method Destroy(c: ConnId)
      modifies this
      ensures Abstract() == (var s: State := old(Abstract()); ConnectionTurns.Destroy(rules, s, c))
    {
      hide ConnectionTurns.ToldClosed;
      if net.StatusOf(c) != Closed {
        net := net.WithStatus(c, Closed);
        ToldClosed(c);
      }
      net := net.Removed(c);
    }

    method OnConnectionEvent(e: Raised)
      modifies this
      ensures Abstract() == (var s: State := old(Abstract()); ConnectionTurns.OnConnectionEvent(rules, s, e))
    {
      if e == IsConnected {
        if connected {
          return;
        }
        connected := true;
        if rules.transport == HttpSse {
          queue := queue + [NudgeTurn];
        }
      } else {
        if !connected && active.None? {
          return;
        }
        connected := false;
        if active.Some? {
          net := net.Dispose(active.value, true);
          active := None;
        }
        if rules.hasSession {
          session := session.ForgetInFlight();
        }
      }
    }

    /**
     An opener's own event: its request goes out once its connection is up; an answer's close posts its
     retirement.
     */
    method OnOpenerEvent(c: ConnId, kind: OpenerKind, e: Raised)
      modifies this
      ensures Abstract() == (var s: State := old(Abstract()); ConnectionTurns.OnOpenerEvent(rules, s, c, kind, e))
    {
      if c !in net.openers {
        net := net.(faults := net.faults + {if kind.StreamOpener? then StreamOpenerGone else OpenerGone});
      } else if e == IsConnected {
        current := net.openers[c].headers;
        Write(c, net.openers[c].body, net.openers[c].source);
        current := rules.configured;
      } else if kind.AnswerOpener? {
        queue := queue + [RetireTurn(kind.key, c)];
      }
    }

    /** The dispatcher runs the next posted turn. */
    method RunTurn(made: Option<ConnId>)
      modifies this
      ensures Abstract() == Step(rules, old(Abstract()), Event.Turn(made))
    {
      hide Due, DueBody, ConnectionTurns.WriteMessage, ConnectionTurns.AnswerServer, ConnectionTurns.RetireAnswer;
      if queue == [] {
        return;
      }
      var turn := queue[0];
      queue := queue[1..];
      match turn
      case WriteTurn(json, extra, correlate) => WriteMessage(json, extra, correlate);
      case AnswerTurn(json) => AnswerServer(json, made);
      case RetireTurn(key, _) => RetireAnswer(key, true);
      case NudgeTurn =>
        if active.Some? {
          Write(active.value, "", Nudge);
        }
    }

    // ----- closing -----

    /** The ids of all subscriptions, collected before any of them is closed. */
    method SubscriptionIds() returns (ids: seq<RequestId>)
      ensures Lists(ids, set k | k in subscriptions :: subscriptions[k].id)
    {
      ids := [];
      var rest := subscriptions.Keys;
      while rest != {}
        invariant rest <= subscriptions.Keys
        invariant forall id :: id in ids <==> exists k :: k in subscriptions && k !in rest && subscriptions[k].id == id
        decreases |rest|
      {
        var k :| k in rest;
        ids := ids + [subscriptions[k].id];
        rest := rest - {k};
      }
    }

    method AnswerKeys() returns (keys: seq<nat>)
      ensures Lists(keys, answers.Keys)
    {
      keys := [];
      var rest := answers.Keys;
      while rest != {}
        invariant rest <= answers.Keys
        invariant forall k :: k in keys <==> k in answers && k !in rest
        decreases |rest|
      {
        var k :| k in rest;
        keys := keys + [k];
        rest := rest - {k};
      }
    }

    method CloseSubscriptions(ids: seq<RequestId>, onThread: bool)
      modifies this`net, this`subscriptions
      ensures Abstract() == (var s: State := old(Abstract()); ConnectionTurns.CloseSubscriptions(s, ids, onThread))
    {
      hide ConnectionTurns.CloseSubscription;
      var i := 0;
      while i < |ids|
        invariant 0 <= i <= |ids|
        invariant ConnectionTurns.CloseSubscriptions(Abstract(), ids[i..], onThread)
                  == (var s: State := old(Abstract()); ConnectionTurns.CloseSubscriptions(s, ids, onThread))
      {
        assert ids[i..][0] == ids[i] && ids[i..][1..] == ids[i + 1..];
        CloseSubscription(ids[i], onThread);
        i := i + 1;
      }
    }

    method RetireAnswers(keys: seq<nat>, onThread: bool)
      modifies this`net, this`answers
      ensures Abstract() == (var s: State := old(Abstract()); ConnectionTurns.RetireAnswers(s, keys, onThread))
    {
      hide ConnectionTurns.RetireAnswer;
      var i := 0;
      while i < |keys|
        invariant 0 <= i <= |keys|
        invariant ConnectionTurns.RetireAnswers(Abstract(), keys[i..], onThread)
                  == (var s: State := old(Abstract()); ConnectionTurns.RetireAnswers(s, keys, onThread))
      {
        assert keys[i..][0] == keys[i] && keys[i..][1..] == keys[i + 1..];
        RetireAnswer(keys[i], onThread);
        i := i + 1;
      }
    }

    method CloseActive(onThread: bool)
      modifies this
      ensures Abstract() == (var s: State := old(Abstract()); ConnectionTurns.CloseActive(rules, s, onThread))
    {
      hide ConnectionTurns.CloseConn, ConnectionTurns.Destroy;
      if active.None? {
        return;
      }
      var going := active.value;
      if net.StatusOf(going) != Open {
        active := None;
        net := net.Dispose(going, true);
        if !onThread {
          Destroy(going);
        }
      } else {
        CloseConn(going);
      }
    }

    /** Everything is let go, and in a state that runs can reach nothing is held after it. */
    method Close(onThread: bool) returns (ghost ids: seq<RequestId>, ghost keys: seq<nat>)
      modifies this
      ensures Abstract() == (var s: State := old(Abstract()); CloseAll(rules, s, ids, keys, onThread))
      ensures old(Inv(Abstract())) ==>
                && Inv(Abstract()) && !connected
                && subscriptions == map[] && answers == map[] && stream == None && active == None
    {
      hide Inv, ConnectionTurns.CloseServerStream, ConnectionTurns.CloseSubscriptions, ConnectionTurns.RetireAnswers,
        ConnectionTurns.CloseActive;
      ghost var before := Abstract();
      CloseServerStream(onThread);
      StreamAside(rules, before, onThread);
      var held := SubscriptionIds();
      CloseSubscriptions(held, onThread);
      ids := held;
      AnswersAside(ConnectionTurns.CloseServerStream(rules, before, onThread), held, onThread);
      var answering := AnswerKeys();
      RetireAnswers(answering, onThread);
      keys := answering;
      CloseActive(onThread);
      connected := false;
      if Inv(before) {
        CloseAllKeeps(rules, before, ids, keys, onThread);
      }
    }
  }

  /** Closing the stream leaves the entries alone. */
  lemma StreamAside(r: Rules, s: State, onThread: bool)
    ensures var held := CloseServerStream(r, s, onThread).held;
            held.subscriptions == s.held.subscriptions && held.answers == s.held.answers
  {
    hide CloseConn;
    if s.held.stream.Some? {
      CloseAside(r, s.(held := s.held.(stream := None)), s.held.stream.value);
    }
  }

  lemma CloseAside(r: Rules, s: State, c: ConnId)
    ensures var held := CloseConn(r, s, c).held;
            held.subscriptions == s.held.subscriptions && held.answers == s.held.answers
  {
    hide Net.Close, ToldOften;
    OftenAside(r, s.(net := s.net.Close(c)), c, r.echoes(c) + 1);
  }

  lemma {:induction false} OftenAside(r: Rules, s: State, c: ConnId, times: nat)
    ensures var held := ToldOften(r, s, c, IsLocalClose, times).held;
            held.subscriptions == s.held.subscriptions && held.answers == s.held.answers
    decreases times
  {
    if times > 0 {
      OftenAside(r, Told(r, s, c, IsLocalClose), c, times - 1);
    }
  }

  lemma {:induction false} AnswersAside(s: State, ids: seq<RequestId>, onThread: bool)
    ensures CloseSubscriptions(s, ids, onThread).held.answers == s.held.answers
    decreases |ids|
  {
    hide Net.LetGo, KeyOf;
    if ids != [] {
      AnswersAside(CloseSubscription(s, ids[0], onThread), ids[1..], onThread);
    }
  }
}
