/**
 What every run of the connection manager keeps about the connections it holds for
 answers and subscriptions, and about the openers that listen on them.
 */
module ConnectionHolding {
  import opened ConnectionTurns

  /** The entry an opener belongs to is held, for this connection. */
  ghost predicate OwnerHeld(held: Held, c: ConnId, kind: OpenerKind) {
    match kind
    case AnswerOpener(key) => key in held.answers && held.answers[key] == c
    case SubscriptionOpener(id) => id in held.subscriptions && held.subscriptions[id].conn == c
    case StreamOpener => held.stream == Some(c)
  }

  /** A connection that is held: it exists, was never handed to deletion, and tells the opener of that kind. */
  ghost predicate HeldWith(net: Net, c: ConnId, listener: Listener) {
    c in net.conns && c !in net.handed && net.conns[c].listener == Some(listener)
  }

  /** A connection that may still tell an opener of this kind: a stream's does so until it is closed. */
  ghost predicate MayTell(net: Net, c: ConnId, kind: OpenerKind) {
    && c in net.conns && net.conns[c].listener == Some(Opener(kind))
    && (kind.StreamOpener? ==> net.conns[c].status != Closed)
  }

  /** Every opener that may still be told of something belongs to a held entry. */
  ghost predicate ListenersOwned(held: Held, net: Net) {
    forall c: ConnId, kind :: MayTell(net, c, kind) ==> OwnerHeld(held, c, kind)
  }

  /** Every held entry has its connection, with its own opener on it, and the opener exists. */
  ghost predicate SubscriptionsBacked(subscriptions: map<RequestIdKey, HeldSubscription>, net: Net) {
    forall k :: k in subscriptions ==>
      && KeyOf(subscriptions[k].id) == k
      && HeldWith(net, subscriptions[k].conn, Opener(SubscriptionOpener(k)))
      && subscriptions[k].conn in net.openers
  }

  ghost predicate AnswersBacked(answers: map<nat, ConnId>, last: nat, net: Net) {
    forall k :: k in answers ==>
      && 1 <= k <= last
      && HeldWith(net, answers[k], Opener(AnswerOpener(k)))
      && answers[k] in net.openers
  }

  /** The active connection and the stream's are held too, and the stream's openers are nobody else's. */
  ghost predicate OthersBacked(held: Held, net: Net) {
    && (held.active.Some? ==> HeldWith(net, held.active.value, Manager))
    && (held.stream.Some? ==>
          HeldWith(net, held.stream.value, Opener(StreamOpener)) && held.stream.value in net.openers
          && held.streamOpener == held.stream)
    && (held.streamOpener.Some? ==> StreamsOnly(net, held.streamOpener.value))
    && (held.retiredOpener.Some? ==>
          StreamsOnly(net, held.retiredOpener.value) && held.retiredOpener != held.streamOpener)
  }

  ghost predicate StreamsOnly(net: Net, c: ConnId) {
    c in net.used && (c in net.conns && net.conns[c].listener.Some?
        ==> net.conns[c].listener.value == Opener(StreamOpener))
  }

  ghost predicate NetSound(net: Net) {
    && net.conns.Keys <= net.used && (forall c :: c in net.handed ==> c in net.used)
    && (forall i, j :: 0 <= i < j < |net.handed| ==> net.handed[i] != net.handed[j])
    && net.faults <= {ActiveGone}
  }

  /** A retirement still queued finds its own answer, or none. */
  ghost predicate RetirementsTrue(held: Held, queue: seq<Turn>) {
    forall i :: 0 <= i < |queue| && queue[i].RetireTurn? ==>
      1 <= queue[i].key <= held.lastAnswerKey
      && (queue[i].key in held.answers ==> held.answers[queue[i].key] == queue[i].poster)
  }

  ghost predicate Holding(held: Held, net: Net) {
    && ListenersOwned(held, net) && SubscriptionsBacked(held.subscriptions, net)
    && AnswersBacked(held.answers, held.lastAnswerKey, net) && OthersBacked(held, net) && NetSound(net)
  }

  // ----- letting go -----

  lemma LetGoNet(net: Net, c: ConnId, closeIt: bool, onThread: bool)
    requires c in net.conns && c !in net.handed
    ensures var net' := net.LetGo(c, closeIt, onThread);
            && net'.openers == net.openers - {c} && net'.used == net.used && net'.handed == net.handed + [c]
            && net'.faults == net.faults
            && (forall d: ConnId :: d in net'.conns ==> d in net.conns && (d != c ==> net'.conns[d] == net.conns[d]))
            && (forall d: ConnId :: d in net.conns && d != c ==> d in net'.conns)
            && (c in net'.conns ==> net'.conns[c].listener == None)
            && (c in net'.conns <==> onThread)
  {
  }

  lemma LetGoSound(net: Net, c: ConnId, closeIt: bool, onThread: bool)
    requires NetSound(net) && c in net.conns && c !in net.handed
    ensures NetSound(net.LetGo(c, closeIt, onThread))
  {
    hide Net.LetGo;
    LetGoNet(net, c, closeIt, onThread);
  }

  lemma LetGoSubscriptions(subscriptions: map<RequestIdKey, HeldSubscription>, net: Net, c: ConnId, closeIt: bool,
      onThread: bool)
    requires SubscriptionsBacked(subscriptions, net) && c in net.conns && c !in net.handed
    requires forall k :: k in subscriptions ==> subscriptions[k].conn != c
    ensures SubscriptionsBacked(subscriptions, net.LetGo(c, closeIt, onThread))
  {
    hide Net.LetGo;
    LetGoNet(net, c, closeIt, onThread);
  }

  lemma LetGoAnswers(answers: map<nat, ConnId>, last: nat, net: Net, c: ConnId, closeIt: bool, onThread: bool)
    requires AnswersBacked(answers, last, net) && c in net.conns && c !in net.handed
    requires forall k :: k in answers ==> answers[k] != c
    ensures AnswersBacked(answers, last, net.LetGo(c, closeIt, onThread))
  {
    hide Net.LetGo;
    LetGoNet(net, c, closeIt, onThread);
  }

  lemma LetGoOwned(held: Held, held': Held, net: Net, c: ConnId, closeIt: bool, onThread: bool)
    requires ListenersOwned(held, net) && c in net.conns && c !in net.handed
    requires forall d: ConnId, kind :: d != c && OwnerHeld(held, d, kind) ==> OwnerHeld(held', d, kind)
    ensures ListenersOwned(held', net.LetGo(c, closeIt, onThread))
  {
    hide Net.LetGo, OwnerHeld;
    LetGoNet(net, c, closeIt, onThread);
    var net' := net.LetGo(c, closeIt, onThread);
    forall d: ConnId, kind | MayTell(net', d, kind)
      ensures OwnerHeld(held', d, kind)
    {
      assert MayTell(net, d, kind);
    }
  }

  lemma LetGoOthersBacked(held: Held, net: Net, c: ConnId, closeIt: bool, onThread: bool)
    requires OthersBacked(held, net) && c in net.conns && c !in net.handed
    requires net.conns[c].listener.Some? && net.conns[c].listener.value.Opener? &&
    !net.conns[c].listener.value.kind.StreamOpener?
    ensures OthersBacked(held, net.LetGo(c, closeIt, onThread))
  {
    hide Net.LetGo;
    LetGoNet(net, c, closeIt, onThread);
  }

  lemma AnswerConn(held: Held, net: Net, key: nat)
    requires Holding(held, net) && key in held.answers
    ensures HeldWith(net, held.answers[key], Opener(AnswerOpener(key)))
    ensures forall k :: k in held.subscriptions ==> held.subscriptions[k].conn != held.answers[key]
    ensures forall k :: k in held.answers && k != key ==> held.answers[k] != held.answers[key]
  {
    hide OthersBacked, NetSound, ListenersOwned;
  }

  lemma RetireHolds(s: State, key: nat, onThread: bool)
    requires Holding(s.held, s.net) && key in s.held.answers
    ensures var s' := RetireAnswer(s, key, onThread);
            Holding(s'.held, s'.net)
  {
    hide Net.LetGo, OthersBacked, NetSound, ListenersOwned, SubscriptionsBacked, AnswersBacked;
    var c, closeIt := s.held.answers[key], s.net.StatusOf(s.held.answers[key]) != Closed;
    var s' := RetireAnswer(s, key, onThread);
    AnswerConn(s.held, s.net, key);
    AnswersFewer(s.held.answers, s.held.lastAnswerKey, s.net, key);
    LetGoSound(s.net, c, closeIt, onThread);
    LetGoOthersBacked(s.held, s.net, c, closeIt, onThread);
    OthersAlike(s.held, s'.held, s'.net);
    LetGoSubscriptions(s.held.subscriptions, s.net, c, closeIt, onThread);
    LetGoAnswers(s.held.answers - {key}, s.held.lastAnswerKey, s.net, c, closeIt, onThread);
    LetGoOwned(s.held, s'.held, s.net, c, closeIt, onThread);
  }

  lemma AnswersFewer(answers: map<nat, ConnId>, last: nat, net: Net, key: nat)
    requires AnswersBacked(answers, last, net)
    ensures AnswersBacked(answers - {key}, last, net)
  {
  }

  lemma OthersAlike(held: Held, held': Held, net: Net)
    requires OthersBacked(held, net)
    requires held'.active == held.active && held'.stream == held.stream
    requires held'.streamOpener == held.streamOpener && held'.retiredOpener == held.retiredOpener
    ensures OthersBacked(held', net)
  {
  }

  lemma SubscriptionConn(held: Held, net: Net, key: RequestIdKey)
    requires Holding(held, net) && key in held.subscriptions
    ensures HeldWith(net, held.subscriptions[key].conn, Opener(SubscriptionOpener(key)))
    ensures forall k :: k in held.answers ==> held.answers[k] != held.subscriptions[key].conn
    ensures forall k ::
              k in held.subscriptions && k != key ==> held.subscriptions[k].conn != held.subscriptions[key].conn
  {
    hide OthersBacked, NetSound, ListenersOwned;
  }

  lemma SubscriptionsFewer(subscriptions: map<RequestIdKey, HeldSubscription>, net: Net, key: RequestIdKey)
    requires SubscriptionsBacked(subscriptions, net)
    ensures SubscriptionsBacked(subscriptions - {key}, net)
  {
  }

  lemma CloseSubHolds(s: State, id: RequestId, onThread: bool)
    requires Holding(s.held, s.net) && KeyOf(id) in s.held.subscriptions
    ensures var s' := CloseSubscription(s, id, onThread);
            Holding(s'.held, s'.net)
  {
    hide Net.LetGo, OthersBacked, NetSound, ListenersOwned, SubscriptionsBacked, AnswersBacked, KeyOf;
    var key := KeyOf(id);
    var c := s.held.subscriptions[key].conn;
    var s' := CloseSubscription(s, id, onThread);
    SubscriptionConn(s.held, s.net, key);
    SubscriptionsFewer(s.held.subscriptions, s.net, key);
    LetGoSound(s.net, c, true, onThread);
    LetGoOthersBacked(s.held, s.net, c, true, onThread);
    OthersAlike(s.held, s'.held, s'.net);
    LetGoSubscriptions(s.held.subscriptions - {key}, s.net, c, true, onThread);
    LetGoAnswers(s.held.answers, s.held.lastAnswerKey, s.net, c, true, onThread);
    LetGoOwned(s.held, s'.held, s.net, c, true, onThread);
  }

  // ----- taking hold -----

  lemma MakeSound(net: Net, c: ConnId, listener: Listener)
    requires NetSound(net) && c !in net.used
    ensures NetSound(net.Make(c, listener))
  {
  }

  lemma MakeOthersBacked(held: Held, net: Net, c: ConnId, listener: Listener, data: OpenerData)
    requires OthersBacked(held, net) && NetSound(net) && c !in net.used
    ensures OthersBacked(held, net.Make(c, listener).MakeOpener(c, data))
  {
  }

  lemma MakeSubscriptions(subscriptions: map<RequestIdKey, HeldSubscription>, net: Net, c: ConnId, listener: Listener,
      data: OpenerData)
    requires SubscriptionsBacked(subscriptions, net) && NetSound(net) && c !in net.used
    ensures SubscriptionsBacked(subscriptions, net.Make(c, listener).MakeOpener(c, data))
  {
    hide KeyOf;
  }

  lemma MakeAnswers(answers: map<nat, ConnId>, last: nat, net: Net, c: ConnId, listener: Listener, data: OpenerData)
    requires AnswersBacked(answers, last, net) && NetSound(net) && c !in net.used
    ensures AnswersBacked(answers, last, net.Make(c, listener).MakeOpener(c, data))
  {
  }

  lemma MakeOwned(held: Held, held': Held, net: Net, c: ConnId, kind: OpenerKind, data: OpenerData)
    requires ListenersOwned(held, net) && NetSound(net) && c !in net.used && OwnerHeld(held', c, kind)
    requires forall d: ConnId, k :: d in net.conns && OwnerHeld(held, d, k) ==> OwnerHeld(held', d, k)
    ensures ListenersOwned(held', net.Make(c, Opener(kind)).MakeOpener(c, data))
  {
    hide OwnerHeld;
    var net' := net.Make(c, Opener(kind)).MakeOpener(c, data);
    forall d: ConnId, k | MayTell(net', d, k)
      ensures OwnerHeld(held', d, k)
    {
      if d != c {
        assert MayTell(net, d, k);
      }
    }
  }

  lemma AnswerHolds(r: Rules, s: State, json: string, made: Option<ConnId>)
    requires Holding(s.held, s.net) && New(s, made)
    ensures var s' := SendAnswerApart(r, s, json, made).state;
            Holding(s'.held, s'.net)
  {
    hide Due, DueBody, OthersBacked, ListenersOwned, NetSound, SubscriptionsBacked, AnswersBacked, Net.Make,
      Net.MakeOpener, Net.MakeBare, Net.Removed;
    var s' := SendAnswerApart(r, s, json, made).state;
    if made.Some? && r.HttpFactory() {
      if r.parse(json).Some? {
        var c, key, kind := made.value, s.held.lastAnswerKey + 1, AnswerOpener(s.held.lastAnswerKey + 1);
        var source := Answer(json, s.session.state);
        NewEntry(s.held, s'.held, s.net, c, kind, OpenerData(Due(r, source), DueBody(r, source), source));
      } else {
        DestroyedNew(s.held, s.net, made.value);
      }
    }
  }

  lemma OpenSubHolds(r: Rules, s: State, id: RequestId, message: string, made: Option<ConnId>)
    requires Holding(s.held, s.net) && New(s, made)
    ensures var s' := OpenSubscription(r, s, id, message, made).state;
            Holding(s'.held, s'.net)
  {
    hide Due, DueBody, OthersBacked, ListenersOwned, NetSound, SubscriptionsBacked, AnswersBacked, Net.Make,
    Net.MakeOpener, KeyOf;
    var got := OpenSubscription(r, s, id, message, made);
    if got.ok {
      var source := Subscription(message, s.session.state);
      NewEntry(s.held, got.state.held, s.net, made.value, SubscriptionOpener(KeyOf(id)),
          OpenerData(Due(r, source), DueBody(r, source), source));
    }
  }

  /** One more entry: an answer under the next key, or a subscription under a key of its own. */
  ghost predicate Grown(held: Held, held': Held, c: ConnId, kind: OpenerKind) {
    match kind
    case AnswerOpener(key) =>
      key == held.lastAnswerKey + 1 && held' == held.(lastAnswerKey := key, answers := held.answers[key := c])
    case SubscriptionOpener(key) =>
      && key !in held.subscriptions
      && exists id ::
           KeyOf(id) == key && held' == held.(subscriptions := held.subscriptions[key := HeldSubscription(id, c)])
    case StreamOpener => false
  }

  lemma GrownOwners(held: Held, held': Held, net: Net, c: ConnId, kind: OpenerKind)
    requires Grown(held, held', c, kind) && AnswersBacked(held.answers, held.lastAnswerKey, net)
    ensures OwnerHeld(held', c, kind)
    ensures forall d: ConnId, k :: d in net.conns && OwnerHeld(held, d, k) ==> OwnerHeld(held', d, k)
  {
    hide KeyOf;
    assert kind.AnswerOpener? ==> kind.key !in held.answers;
  }

  lemma GrownBacked(held: Held, held': Held, net: Net, c: ConnId, kind: OpenerKind)
    requires Grown(held, held', c, kind)
    requires SubscriptionsBacked(held.subscriptions, net) && AnswersBacked(held.answers, held.lastAnswerKey, net)
    requires HeldWith(net, c, Opener(kind)) && c in net.openers
    ensures SubscriptionsBacked(held'.subscriptions, net) && AnswersBacked(held'.answers, held'.lastAnswerKey, net)
  {
    hide KeyOf, HeldWith;
  }

  lemma NewEntry(held: Held, held': Held, net: Net, c: ConnId, kind: OpenerKind, data: OpenerData)
    requires Holding(held, net) && c !in net.used && Grown(held, held', c, kind)
    ensures Holding(held', net.Make(c, Opener(kind)).MakeOpener(c, data))
  {
    hide OthersBacked, ListenersOwned, NetSound, SubscriptionsBacked, AnswersBacked, OwnerHeld, KeyOf;
    var net' := net.Make(c, Opener(kind)).MakeOpener(c, data);
    NewHeld(net, c, kind, data);
    MakeSound(net, c, Opener(kind));
    SoundOpener(net.Make(c, Opener(kind)), c, data);
    MakeOthersBacked(held, net, c, Opener(kind), data);
    OthersAlike(held, held', net');
    MakeSubscriptions(held.subscriptions, net, c, Opener(kind), data);
    MakeAnswers(held.answers, held.lastAnswerKey, net, c, Opener(kind), data);
    GrownBacked(held, held', net', c, kind);
    GrownOwners(held, held', net, c, kind);
    MakeOwned(held, held', net, c, kind, data);
  }

  lemma SoundOpener(net: Net, c: ConnId, data: OpenerData)
    requires NetSound(net)
    ensures NetSound(net.MakeOpener(c, data))
  {
  }

  lemma NewHeld(net: Net, c: ConnId, kind: OpenerKind, data: OpenerData)
    requires NetSound(net) && c !in net.used
    ensures var net' := net.Make(c, Opener(kind)).MakeOpener(c, data);
            HeldWith(net', c, Opener(kind)) && c in net'.openers
  {
  }

  lemma DestroyedNew(held: Held, net: Net, c: ConnId)
    requires Holding(held, net) && c !in net.used
    ensures Holding(held, net.MakeBare(c).Removed(c))
  {
    hide KeyOf, OwnerHeld;
    assert net.conns[c := Connection(Open, None)] - {c} == net.conns;
  }

  // ----- the stream and the active connection -----

  /** A connection of neither an answer nor a subscription is disposed of; a stream's is closed by then. */
  ghost predicate Disposed(net: Net, net': Net, c: ConnId) {
    && net'.openers == net.openers && net'.used == net.used && net'.handed == net.handed + [c]
       && net'.faults == net.faults
    && (forall d: ConnId :: d in net'.conns ==> d in net.conns && (d != c ==> net'.conns[d] == net.conns[d]))
    && (forall d: ConnId :: d in net.conns && d != c ==> d in net'.conns)
    && (c in net'.conns ==> net'.conns[c].listener == net.conns[c].listener
                            && (net.conns[c].listener == Some(Opener(StreamOpener)) ==> net'.conns[c].status == Closed))
  }

  lemma StreamDisposed(net: Net, c: ConnId, onThread: bool)
    requires HeldWith(net, c, Opener(StreamOpener))
    ensures Disposed(net, net.Close(c).Dispose(c, onThread), c)
  {
  }

  lemma ActiveDisposed(net: Net, c: ConnId, onThread: bool)
    requires HeldWith(net, c, Manager)
    ensures Disposed(net, net.Dispose(c, onThread), c)
  {
  }

  lemma DisposedSound(net: Net, net': Net, c: ConnId)
    requires NetSound(net) && Disposed(net, net', c) && c in net.conns && c !in net.handed
    ensures NetSound(net')
  {
  }

  lemma DisposedHolds(held: Held, held': Held, net: Net, net': Net, c: ConnId)
    requires Holding(held, net) && Disposed(net, net', c)
    requires HeldWith(net, c, Opener(StreamOpener)) || HeldWith(net, c, Manager)
    requires held' == (if held.active == Some(c) then held.(active := None) else held.(stream := None))
    requires held.active == Some(c) || held.stream == Some(c)
    ensures Holding(held', net')
  {
    hide ListenersOwned, NetSound, OthersBacked, SubscriptionsBacked, AnswersBacked, Disposed;
    DisposedSound(net, net', c);
    DisposedOwned(held, held', net, net', c);
    DisposedBacked(held, net, net', c);
    DisposedOthers(held, held', net, net', c);
  }

  lemma DisposedOwned(held: Held, held': Held, net: Net, net': Net, c: ConnId)
    requires ListenersOwned(held, net) && Disposed(net, net', c)
    requires HeldWith(net, c, Opener(StreamOpener)) || HeldWith(net, c, Manager)
    requires held' == (if held.active == Some(c) then held.(active := None) else held.(stream := None))
    requires held.active == Some(c) || held.stream == Some(c)
    ensures ListenersOwned(held', net')
  {
    forall d: ConnId, kind | MayTell(net', d, kind)
      ensures OwnerHeld(held', d, kind)
    {
      assert d != c;
      assert MayTell(net, d, kind);
    }
  }

  lemma DisposedBacked(held: Held, net: Net, net': Net, c: ConnId)
    requires SubscriptionsBacked(held.subscriptions, net) && AnswersBacked(held.answers, held.lastAnswerKey, net)
             && Disposed(net, net', c)
    requires HeldWith(net, c, Opener(StreamOpener)) || HeldWith(net, c, Manager)
    ensures SubscriptionsBacked(held.subscriptions, net') && AnswersBacked(held.answers, held.lastAnswerKey, net')
  {
    hide KeyOf;
  }

  lemma DisposedOthers(held: Held, held': Held, net: Net, net': Net, c: ConnId)
    requires OthersBacked(held, net) && Disposed(net, net', c)
    requires held' == (if held.active == Some(c) then held.(active := None) else held.(stream := None))
    requires held.active == Some(c) || held.stream == Some(c)
    ensures OthersBacked(held', net')
  {
  }

  lemma StreamHeld(held: Held, net: Net)
    requires Holding(held, net) && held.stream.Some?
    ensures HeldWith(net, held.stream.value, Opener(StreamOpener)) && held.stream.value in net.openers
    ensures held.active != held.stream
  {
  }

  /** Being told of a close once more changes nothing: the manager has let go, a stream's opener has nothing to do. */
  lemma {:induction false} ToldOnce(r: Rules, s: State, c: ConnId, times: nat)
    requires c in s.net.conns ==> s.net.conns[c].listener in {None, Some(Manager), Some(Opener(StreamOpener))}
    ensures ToldOften(r, s, c, IsLocalClose, times + 1) == Told(r, s, c, IsLocalClose)
    decreases times
  {
    if times > 0 {
      ToldAgain(r, s, c);
      ToldOnce(r, Told(r, s, c, IsLocalClose), c, times - 1);
    }
  }

  lemma ToldAgain(r: Rules, s: State, c: ConnId)
    requires c in s.net.conns ==> s.net.conns[c].listener in {None, Some(Manager), Some(Opener(StreamOpener))}
    ensures var told := Told(r, s, c, IsLocalClose);
            && (c in told.net.conns <==> c in s.net.conns)
            && (c in s.net.conns ==> told.net.conns[c].listener == s.net.conns[c].listener)
            && Told(r, told, c, IsLocalClose) == told
  {
  }

  /** A stream that is closed tells its opener, which has nothing to do and is there. */
  lemma StreamClosed(r: Rules, s: State, c: ConnId)
    requires c in s.net.conns && s.net.conns[c].listener == Some(Opener(StreamOpener)) && c in s.net.openers
    ensures CloseConn(r, s, c) == s.(net := s.net.Close(c))
  {
    hide ToldOften;
    ToldOnce(r, s.(net := s.net.Close(c)), c, r.echoes(c));
  }

  lemma CloseStreamIs(r: Rules, s: State, onThread: bool)
    requires Holding(s.held, s.net) && s.held.stream.Some?
    ensures var c := s.held.stream.value;
            CloseServerStream(r, s, onThread) == s.(held := s.held.(stream := None),
                net := s.net.Close(c).Dispose(c, onThread))
  {
    hide Holding, CloseConn, Net.Close, Net.Dispose;
    StreamHeld(s.held, s.net);
    StreamClosed(r, s.(held := s.held.(stream := None)), s.held.stream.value);
  }

  lemma CloseStreamHolds(r: Rules, s: State, onThread: bool)
    requires Holding(s.held, s.net)
    ensures var s' := CloseServerStream(r, s, onThread);
            && Holding(s'.held, s'.net) && s'.held == s.held.(stream := None) && s'.queue == s.queue
            && s'.session == s.session && s'.net.used == s.net.used && s'.net.openers == s.net.openers
  {
    hide Holding, Net.Close, Net.Dispose, CloseServerStream;
    if s.held.stream.Some? {
      var c := s.held.stream.value;
      CloseStreamIs(r, s, onThread);
      StreamHeld(s.held, s.net);
      StreamDisposed(s.net, c, onThread);
      DisposedHolds(s.held, s.held.(stream := None), s.net, s.net.Close(c).Dispose(c, onThread), c);
    } else {
      NoStream(r, s, onThread);
    }
  }

  lemma NoStream(r: Rules, s: State, onThread: bool)
    requires s.held.stream.None?
    ensures CloseServerStream(r, s, onThread) == s
  {
  }

  lemma DropStreamOpener(held: Held, net: Net, c: ConnId)
    requires Holding(held, net) && StreamsOnly(net, c) && held.stream.None?
    ensures Holding(held, net.DropOpener(c))
  {
    hide KeyOf, OwnerHeld;
    assert forall d: ConnId, kind :: MayTell(net.DropOpener(c), d, kind) ==> MayTell(net, d, kind);
  }

  lemma NewStreamHolds(held: Held, net: Net, c: ConnId, data: OpenerData)
    requires Holding(held, net) && c !in net.used && held.stream.None?
    ensures Holding(held.(stream := Some(c), retiredOpener := held.streamOpener, streamOpener := Some(c)),
                    net.Make(c, Opener(StreamOpener)).MakeOpener(c, data))
  {
    hide ListenersOwned, SubscriptionsBacked, AnswersBacked, OthersBacked, NetSound, KeyOf;
    var held' := held.(stream := Some(c), retiredOpener := held.streamOpener, streamOpener := Some(c));
    var net' := net.Make(c, Opener(StreamOpener)).MakeOpener(c, data);
    MakeSound(net, c, Opener(StreamOpener));
    SoundOpener(net.Make(c, Opener(StreamOpener)), c, data);
    MakeSubscriptions(held.subscriptions, net, c, Opener(StreamOpener), data);
    MakeAnswers(held.answers, held.lastAnswerKey, net, c, Opener(StreamOpener), data);
    MakeOwned(held, held', net, c, StreamOpener, data);
    NewStreamOthers(held, net, c, data);
  }

  lemma NewStreamOthers(held: Held, net: Net, c: ConnId, data: OpenerData)
    requires OthersBacked(held, net) && NetSound(net) && c !in net.used && held.stream.None?
    ensures OthersBacked(held.(stream := Some(c), retiredOpener := held.streamOpener, streamOpener := Some(c)),
                         net.Make(c, Opener(StreamOpener)).MakeOpener(c, data))
  {
  }

  lemma OpenStreamHolds(r: Rules, s: State, cursor: string, made: Option<ConnId>)
    requires Holding(s.held, s.net) && New(s, made)
    ensures var s' := OpenServerStream(r, s, cursor, made).state;
            Holding(s'.held, s'.net)
  {
    hide Due, DueBody, Holding, CloseServerStream, Net.Make, Net.MakeOpener, Net.DropOpener, StreamsOnly;
    var closed := CloseServerStream(r, s, true);
    CloseStreamHolds(r, s, true);
    if r.Streams() && r.HttpFactory() && made.Some? {
      var source := Stream(cursor, closed.session.state);
      var data := OpenerData(Due(r, source), DueBody(r, source), source);
      if s.held.retiredOpener.Some? {
        Retired(closed.held, closed.net);
        DropStreamOpener(closed.held, closed.net, s.held.retiredOpener.value);
        DropUsed(closed.net, s.held.retiredOpener.value);
        NewStreamHolds(closed.held, closed.net.DropOpener(s.held.retiredOpener.value), made.value, data);
      } else {
        NewStreamHolds(closed.held, closed.net, made.value, data);
      }
    }
  }

  lemma Retired(held: Held, net: Net)
    requires Holding(held, net) && held.retiredOpener.Some?
    ensures StreamsOnly(net, held.retiredOpener.value)
  {
  }

  lemma DropUsed(net: Net, c: ConnId)
    ensures net.DropOpener(c).used == net.used
  {
  }

  /** Taking away a connection nobody holds keeps everything. */
  lemma RemovedHolds(held: Held, net: Net, c: ConnId)
    requires Holding(held, net) && held.active != Some(c) && held.stream != Some(c)
    requires forall k :: k in held.answers ==> held.answers[k] != c
    requires forall k :: k in held.subscriptions ==> held.subscriptions[k].conn != c
    ensures Holding(held, net.Removed(c))
  {
    hide KeyOf, OwnerHeld;
    assert forall d: ConnId, kind :: MayTell(net.Removed(c), d, kind) ==> MayTell(net, d, kind);
  }

  lemma HandedRemoved(held: Held, net: Net, c: ConnId)
    requires Holding(held, net) && c in net.handed
    ensures Holding(held, net.Removed(c))
  {
    hide ListenersOwned, NetSound, KeyOf;
    HandedFree(held, net, c);
    RemovedHolds(held, net, c);
  }

  lemma HandedFree(held: Held, net: Net, c: ConnId)
    requires Holding(held, net) && c in net.handed
    ensures held.active != Some(c) && held.stream != Some(c)
    ensures forall k :: k in held.answers ==> held.answers[k] != c
    ensures forall k :: k in held.subscriptions ==> held.subscriptions[k].conn != c
  {
    hide ListenersOwned, NetSound, KeyOf;
  }

  lemma ManagersFree(held: Held, net: Net, c: ConnId)
    requires Holding(held, net) && c in net.conns && net.conns[c].listener == Some(Manager)
    ensures held.stream != Some(c)
    ensures forall k :: k in held.answers ==> held.answers[k] != c
    ensures forall k :: k in held.subscriptions ==> held.subscriptions[k].conn != c
  {
    hide ListenersOwned, NetSound, KeyOf;
  }

  lemma ActiveLetGo(held: Held, net: Net)
    requires Holding(held, net)
    ensures Holding(held.(active := None), net)
  {
    hide KeyOf;
    assert forall c: ConnId, kind :: OwnerHeld(held, c, kind) ==> OwnerHeld(held.(active := None), c, kind);
  }

  lemma NewActive(held: Held, net: Net, c: ConnId)
    requires Holding(held, net) && c !in net.used && held.active.None?
    ensures Holding(held.(active := Some(c)), net.Make(c, Manager))
  {
    hide KeyOf;
    var net' := net.Make(c, Manager);
    forall d: ConnId, kind | MayTell(net', d, kind)
      ensures OwnerHeld(held, d, kind)
    {
      assert MayTell(net, d, kind);
    }
  }

  /** A new connection that is handed over before anyone is hooked to it. */
  lemma NewHanded(held: Held, net: Net, c: ConnId)
    requires Holding(held, net) && c !in net.used
    ensures Holding(held, net.MakeBare(c).Dispose(c, true))
  {
    hide KeyOf, OwnerHeld;
    assert forall d: ConnId, kind :: MayTell(net.MakeBare(c).Dispose(c, true), d, kind) ==> MayTell(net, d, kind);
  }

  lemma ActiveFault(held: Held, net: Net)
    requires Holding(held, net)
    ensures Holding(held, net.(faults := net.faults + {ActiveGone}))
  {
    hide KeyOf, OwnerHeld;
    assert forall d: ConnId, kind ::
             MayTell(net.(faults := net.faults + {ActiveGone}), d, kind) ==> MayTell(net, d, kind);
  }

  /** Connecting over a connection that is still open: the new one is handed over in the place of the old. */
  lemma ConnectOver(r: Rules, s: State, made: ConnId)
    requires Holding(s.held, s.net) && s.held.active.Some? && made !in s.net.used
    requires !s.connected && (r.transport == HttpSse || r.transport == StreamableHttp)
    ensures var old', s' := s.held.active.value, Connect(r, s, Some(made));
            if s.net.StatusOf(old') == Closed then
              s'.held == s.held.(active := Some(made)) && s'.net == s.net.Removed(old').Make(made, Manager)
            else
              && s'.held == s.held.(active := None)
              && s'.net == (var net := s.net.Removed(old').MakeBare(made).Dispose(made, true);
                            net.(faults := net.faults + {ActiveGone}))
    ensures var s' := Connect(r, s, Some(made));
            s'.queue == s.queue
  {
    hide ListenersOwned, SubscriptionsBacked, AnswersBacked, KeyOf, Destroy;
    var old': ConnId := s.held.active.value;
    DestroyedOnce(r, s.(held := s.held.(active := Some(made)), net := s.net.MakeBare(made)), old');
    assert HeldWith(s.net, old', Manager) && made !in s.net.conns && made !in s.net.handed;
    assert s.net.conns[made := Connection(Open, None)] - {old'}
           == (s.net.conns - {old'})[made := Connection(Open, None)];
    var closed := s.net.conns[old'].(status := Closed);
    assert s.net.conns[made := Connection(Open, None)][old' := closed] - {old'}
        == (s.net.conns - {old'})[made := Connection(Open, None)];
  }

  lemma ConnectHolds(r: Rules, s: State, made: Option<ConnId>)
    requires Holding(s.held, s.net) && New(s, made)
    ensures var s' := Connect(r, s, made);
            && Holding(s'.held, s'.net) && s'.queue == s.queue
            && s'.held.answers == s.held.answers && s'.held.lastAnswerKey == s.held.lastAnswerKey
  {
    hide Holding, Net.Make, Net.MakeBare, Net.Dispose, Net.Removed, Connect;
    if !s.connected && (r.transport == HttpSse || r.transport == StreamableHttp) && made.Some? {
      if s.held.active.Some? {
        var old': ConnId := s.held.active.value;
        ConnectOver(r, s, made.value);
        ActiveHeld(s.held, s.net);
        ManagersFree(s.held, s.net, old');
        ActiveLetGo(s.held, s.net);
        RemovedHolds(s.held.(active := None), s.net, old');
        RemovedUsed(s.net, old');
        NewActive(s.held.(active := None), s.net.Removed(old'), made.value);
        NewHanded(s.held.(active := None), s.net.Removed(old'), made.value);
        ActiveFault(s.held.(active := None), s.net.Removed(old').MakeBare(made.value).Dispose(made.value, true));
      } else {
        ConnectFirst(r, s, made.value);
        NewActive(s.held, s.net, made.value);
      }
    } else {
      ConnectNothing(r, s, made);
    }
  }

  lemma RemovedUsed(net: Net, c: ConnId)
    ensures net.Removed(c).used == net.used
  {
  }

  lemma ConnectFirst(r: Rules, s: State, made: ConnId)
    requires !s.connected && (r.transport == HttpSse || r.transport == StreamableHttp) && s.held.active.None?
    ensures Connect(r, s, Some(made)) == s.(held := s.held.(active := Some(made)), net := s.net.Make(made, Manager))
  {
    assert s.net.conns[made := Connection(Open, None)][made := Connection(Open, Some(Manager))]
        == s.net.conns[made := Connection(Open, Some(Manager))];
  }

  lemma ConnectNothing(r: Rules, s: State, made: Option<ConnId>)
    requires s.connected || !(r.transport == HttpSse || r.transport == StreamableHttp) || made.None?
    ensures Connect(r, s, made) == s
  {
  }

  // ----- events -----

  lemma StatusHolds(held: Held, net: Net, c: ConnId, status: Status)
    requires Holding(held, net)
    ensures Holding(held, net.WithStatus(c, status))
  {
    hide KeyOf, OwnerHeld;
    assert forall d: ConnId, kind :: MayTell(net.WithStatus(c, status), d, kind) ==> MayTell(net, d, kind);
  }

  lemma ActiveHeld(held: Held, net: Net)
    requires Holding(held, net) && held.active.Some?
    ensures HeldWith(net, held.active.value, Manager)
  {
  }

  lemma DisposeActiveHolds(s: State, onThread: bool)
    requires Holding(s.held, s.net) && s.held.active.Some?
    ensures Holding(s.held.(active := None), s.net.Dispose(s.held.active.value, onThread))
  {
    hide ListenersOwned, NetSound, SubscriptionsBacked, AnswersBacked, OthersBacked, Net.Dispose, Holding;
    var c := s.held.active.value;
    ActiveHeld(s.held, s.net);
    ActiveDisposed(s.net, c, onThread);
    DisposedHolds(s.held, s.held.(active := None), s.net, s.net.Dispose(c, onThread), c);
  }

  lemma ConnectionEventHolds(r: Rules, s: State, e: Raised)
    requires Holding(s.held, s.net)
    ensures var s' := OnConnectionEvent(r, s, e);
            Holding(s'.held, s'.net) && s'.held.answers == s.held.answers
                && s'.held.lastAnswerKey == s.held.lastAnswerKey
            && (s'.queue == s.queue || s'.queue == s.queue + [NudgeTurn])
  {
    hide Holding, Net.Dispose;
    if s.held.active.Some? {
      DisposeActiveHolds(s, true);
    }
  }

  /** An opener that is told of an event exists, and its entry is held. */
  lemma OpenerThere(held: Held, net: Net, c: ConnId, kind: OpenerKind)
    requires Holding(held, net) && MayTell(net, c, kind)
    ensures c in net.openers && OwnerHeld(held, c, kind) && (kind.AnswerOpener? ==> 1 <= kind.key <= held.lastAnswerKey)
  {
    hide NetSound, KeyOf;
    assert OwnerHeld(held, c, kind);
  }

  lemma OpenerEventHolds(r: Rules, s: State, c: ConnId, kind: OpenerKind, e: Raised)
    requires Holding(s.held, s.net) && c in s.net.openers
    ensures var s' := OnOpenerEvent(r, s, c, kind, e);
            && s'.net == s.net && s'.held == s.held
            && s'.queue == (if e != IsConnected && kind.AnswerOpener? then s.queue + [RetireTurn(kind.key, c)]
               else s.queue)
  {
    hide Holding;
  }

  lemma Appended(held: Held, queue: seq<Turn>, t: Turn)
    requires RetirementsTrue(held, queue)
    requires t.RetireTurn? ==>
               1 <= t.key <= held.lastAnswerKey && (t.key in held.answers ==> held.answers[t.key] == t.poster)
    ensures RetirementsTrue(held, queue + [t])
  {
  }

  ghost predicate Inv(s: State) { Holding(s.held, s.net) && RetirementsTrue(s.held, s.queue) }

  /** Telling the manager that its connection closed. */
  lemma ManagerTold(r: Rules, s: State, e: Raised)
    requires Inv(s)
    ensures Inv(OnConnectionEvent(r, s, e))
  {
    hide Holding, RetirementsTrue, OnConnectionEvent;
    ConnectionEventHolds(r, s, e);
    RetirementsAlike(s.held, OnConnectionEvent(r, s, e).held, s.queue);
    Appended(OnConnectionEvent(r, s, e).held, s.queue, NudgeTurn);
  }

  lemma OpenerTold(r: Rules, s: State, c: ConnId, kind: OpenerKind, e: Raised)
    requires Inv(s) && c in s.net.openers
    requires kind.AnswerOpener? ==> OwnerHeld(s.held, c, kind) && 1 <= kind.key <= s.held.lastAnswerKey
    ensures Inv(OnOpenerEvent(r, s, c, kind, e))
  {
    hide Holding, RetirementsTrue, OnOpenerEvent;
    OpenerEventHolds(r, s, c, kind, e);
    if kind.AnswerOpener? {
      Appended(s.held, s.queue, RetireTurn(kind.key, c));
    }
  }

  lemma RaiseKeeps(r: Rules, s: State, c: ConnId, e: Raised, status: Status)
    requires Inv(s)
    ensures Inv(Raise(r, s, c, e, status))
  {
    hide Holding, RetirementsTrue, OnConnectionEvent, OnOpenerEvent, Net.WithStatus, OwnerHeld;
    if s.net.StatusOf(c) != Closed {
      var after := s.(net := s.net.WithStatus(c, status));
      StatusHolds(s.held, s.net, c, status);
      StatusListener(s.net, c, status);
      match s.net.conns[c].listener
      case None =>
      case Some(Manager) => ManagerTold(r, after, e);
      case Some(Opener(kind)) =>
        OpenerThere(s.held, s.net, c, kind);
        OpenerTold(r, after, c, kind, e);
    }
  }

  lemma StatusListener(net: Net, c: ConnId, status: Status)
    requires c in net.conns
    ensures c in net.WithStatus(c, status).conns && net.WithStatus(c, status).conns[c].listener == net.conns[c].listener
    ensures net.WithStatus(c, status).openers == net.openers
    ensures net.WithStatus(c, status).handed == net.handed
  {
  }

  lemma DeleteKeeps(r: Rules, s: State, c: ConnId)
    requires Inv(s) && c in s.net.handed
    ensures Inv(Destroy(r, s, c))
  {
    hide Inv, Raise, Destroy, Net.Removed;
    var told := Raise(r, s, c, IsLocalClose, Closed);
    if s.net.StatusOf(c) != Closed {
      HandedTells(s, c);
    }
    DestroyedOnce(r, s, c);
    RaiseKeeps(r, s, c, IsLocalClose, Closed);
    RaiseHanded(r, s, c, IsLocalClose, Closed);
    InvRemoved(told, c);
  }

  /** A connection handed to deletion that is not closed tells the manager or nobody. */
  lemma HandedTells(s: State, c: ConnId)
    requires Inv(s) && c in s.net.handed && s.net.StatusOf(c) != Closed
    ensures s.net.conns[c].listener in {None, Some(Manager)}
  {
    if s.net.conns[c].listener.Some? && s.net.conns[c].listener.value.Opener? {
      assert MayTell(s.net, c, s.net.conns[c].listener.value.kind);
    }
  }

  /** To the manager the destruction of a connection is one event. */
  lemma DestroyedOnce(r: Rules, s: State, c: ConnId)
    requires s.net.StatusOf(c) != Closed ==> s.net.conns[c].listener in {None, Some(Manager)}
    ensures var told := Raise(r, s, c, IsLocalClose, Closed);
            Destroy(r, s, c) == told.(net := told.net.Removed(c))
  {
    hide ToldOften, Told;
    if s.net.StatusOf(c) != Closed {
      ToldOnce(r, s.(net := s.net.WithStatus(c, Closed)), c, r.echoes(c));
    }
  }

  lemma InvRemoved(s: State, c: ConnId)
    requires Inv(s) && c in s.net.handed
    ensures Inv(s.(net := s.net.Removed(c)))
  {
    hide Holding, RetirementsTrue, Net.Removed;
    HandedRemoved(s.held, s.net, c);
  }

  lemma RaiseHanded(r: Rules, s: State, c: ConnId, e: Raised, status: Status)
    ensures forall d: ConnId :: d in s.net.handed ==> d in Raise(r, s, c, e, status).net.handed
  {
  }

  lemma RetirementsAlike(held: Held, held': Held, queue: seq<Turn>)
    requires RetirementsTrue(held, queue) && held'.lastAnswerKey >= held.lastAnswerKey
    requires forall k :: k in held'.answers && k <= held.lastAnswerKey ==>
               k in held.answers && held'.answers[k] == held.answers[k]
    ensures RetirementsTrue(held', queue)
  {
  }

  // ----- turns and calls -----

  lemma RetireKeeps(s: State, key: nat, onThread: bool)
    requires Inv(s)
    ensures Inv(RetireAnswer(s, key, onThread))
    ensures var s' := RetireAnswer(s, key, onThread);
            s'.held == s.held.(answers := s.held.answers - {key}) && s'.queue == s.queue
  {
    hide Holding, RetirementsTrue, Net.LetGo;
    if key in s.held.answers {
      RetireHolds(s, key, onThread);
      RetirementsAlike(s.held, RetireAnswer(s, key, onThread).held, s.queue);
    }
  }

  lemma CloseSubKeeps(s: State, id: RequestId, onThread: bool)
    requires Inv(s)
    ensures Inv(CloseSubscription(s, id, onThread))
    ensures var s' := CloseSubscription(s, id, onThread);
            s'.held == s.held.(subscriptions := s.held.subscriptions - {KeyOf(id)}) && s'.queue == s.queue
  {
    hide Holding, RetirementsTrue, Net.LetGo, KeyOf;
    if KeyOf(id) in s.held.subscriptions {
      CloseSubHolds(s, id, onThread);
      RetirementsAlike(s.held, CloseSubscription(s, id, onThread).held, s.queue);
    }
  }

  lemma CloseStreamKeeps(r: Rules, s: State, onThread: bool)
    requires Inv(s)
    ensures Inv(CloseServerStream(r, s, onThread))
    ensures var s' := CloseServerStream(r, s, onThread);
            s'.held == s.held.(stream := None) && s'.queue == s.queue
  {
    hide Holding, RetirementsTrue, CloseServerStream;
    CloseStreamHolds(r, s, onThread);
    RetirementsAlike(s.held, s.held.(stream := None), s.queue);
  }

  function Keys(ids: seq<RequestId>): set<RequestIdKey> { set id | id in ids :: KeyOf(id) }

  lemma {:induction false} CloseSubsKeeps(s: State, ids: seq<RequestId>, onThread: bool)
    requires Inv(s)
    ensures Inv(CloseSubscriptions(s, ids, onThread))
    ensures CloseSubscriptions(s, ids, onThread).held == s.held.(subscriptions := s.held.subscriptions - Keys(ids))
    decreases |ids|
  {
    hide Inv, CloseSubscription, KeyOf;
    if ids != [] {
      CloseSubKeeps(s, ids[0], onThread);
      CloseSubsKeeps(CloseSubscription(s, ids[0], onThread), ids[1..], onThread);
      assert Keys(ids) == {KeyOf(ids[0])} + Keys(ids[1..]);
      assert s.held.subscriptions - {KeyOf(ids[0])} - Keys(ids[1..]) == s.held.subscriptions - Keys(ids);
    } else {
      assert s.held.subscriptions - Keys([]) == s.held.subscriptions;
    }
  }

  lemma {:induction false} RetireAllKeeps(s: State, keys: seq<nat>, onThread: bool)
    requires Inv(s)
    ensures Inv(RetireAnswers(s, keys, onThread))
    ensures RetireAnswers(s, keys, onThread).held == s.held.(answers := s.held.answers - (set k | k in keys))
    decreases |keys|
  {
    hide Inv, RetireAnswer;
    if keys != [] {
      RetireKeeps(s, keys[0], onThread);
      RetireAllKeeps(RetireAnswer(s, keys[0], onThread), keys[1..], onThread);
      assert s.held.answers - {keys[0]} - (set k | k in keys[1..]) == s.held.answers - (set k | k in keys);
    } else {
      assert s.held.answers - (set k | k in []) == s.held.answers;
    }
  }

  lemma ClosedActive(held: Held, net: Net)
    requires Holding(held, net) && held.active.Some?
    ensures Holding(held, net.Close(held.active.value))
    ensures var c := held.active.value;
            c in net.Close(c).conns && net.Close(c).conns[c].listener == Some(Manager)
  {
    hide KeyOf, OwnerHeld;
    var c := held.active.value;
    assert HeldWith(net, c, Manager);
    assert forall d: ConnId, kind :: MayTell(net.Close(c), d, kind) ==> MayTell(net, d, kind);
  }

  /** Told that its active connection closed, the manager lets go of it. */
  lemma ActiveTold(r: Rules, s: State, c: ConnId)
    requires c in s.net.conns && s.net.conns[c].listener == Some(Manager) && s.held.active.Some?
    ensures var s' := ToldClosed(r, s, c);
            s' == OnConnectionEvent(r, s, IsLocalClose) && s'.held == s.held.(active := None) && s'.queue == s.queue
  {
    hide ToldOften;
    ToldOnce(r, s, c, r.echoes(c));
  }

  lemma CloseActiveKeeps(r: Rules, s: State, onThread: bool)
    requires Inv(s)
    ensures Inv(CloseActive(r, s, onThread))
    ensures CloseActive(r, s, onThread).held == s.held.(active := None)
  {
    hide Holding, RetirementsTrue, Net.Close, Net.Dispose, ToldClosed, OnConnectionEvent, Destroy;
    if s.held.active.Some? {
      var c := s.held.active.value;
      if s.net.StatusOf(c) == Open {
        var closed := s.(net := s.net.Close(c));
        ClosedActive(s.held, s.net);
        ActiveTold(r, closed, c);
        ManagerTold(r, closed, IsLocalClose);
      } else {
        var gone := s.(held := s.held.(active := None), net := s.net.Dispose(c, true));
        DisposeActiveHolds(s, true);
        RetirementsAlike(s.held, gone.held, s.queue);
        DisposedIn(s.net, c);
        DeleteKeeps(r, gone, c);
        DestroyWithout(r, gone, c);
      }
    }
  }

  lemma DisposedIn(net: Net, c: ConnId)
    ensures c in net.Dispose(c, true).handed
  {
  }

  /** Destroying a connection that tells the manager, or nobody, leaves what is held when nothing is active. */
  lemma DestroyWithout(r: Rules, s: State, c: ConnId)
    requires s.held.active.None?
    ensures Destroy(r, s, c).held == s.held
  {
    hide ToldOften;
    WithoutActive(r, s.(net := s.net.WithStatus(c, Closed)), c, r.echoes(c) + 1);
  }

  lemma {:induction false} WithoutActive(r: Rules, s: State, c: ConnId, times: nat)
    requires s.held.active.None?
    ensures ToldOften(r, s, c, IsLocalClose, times).held == s.held
    decreases times
  {
    if times > 0 {
      WithoutActive(r, Told(r, s, c, IsLocalClose), c, times - 1);
    }
  }

  /** Closing lets go of everything: both maps, the stream and the active connection. */
  lemma CloseAllKeeps(r: Rules, s: State, ids: seq<RequestId>, keys: seq<nat>, onThread: bool)
    requires Inv(s) && Legal(s, CloseManager(ids, keys, onThread))
    ensures var s' := CloseAll(r, s, ids, keys, onThread);
            && Inv(s') && !s'.connected && s'.held.active == None
            && s'.held.subscriptions == map[] && s'.held.answers == map[] && s'.held.stream == None
  {
    hide Inv, CloseServerStream, CloseSubscriptions, RetireAnswers, CloseActive, KeyOf, Keys;
    var s1 := CloseServerStream(r, s, onThread);
    CloseStreamKeeps(r, s, onThread);
    CloseSubsKeeps(s1, ids, onThread);
    var s2 := CloseSubscriptions(s1, ids, onThread);
    RetireAllKeeps(s2, keys, onThread);
    var s3 := RetireAnswers(s2, keys, onThread);
    CloseActiveKeeps(r, s3, onThread);
    AllKeys(s, ids);
    assert s.held.subscriptions - Keys(ids) == map[];
    assert s.held.answers - (set k | k in keys) == map[];
    ConnectedAside(CloseActive(r, s3, onThread));
  }

  lemma ConnectedAside(s: State)
    requires Inv(s)
    ensures Inv(s.(connected := false))
  {
  }

  /** The ids found in the map are all its keys, because each entry keeps the id its key was made of. */
  lemma AllKeys(s: State, ids: seq<RequestId>)
    requires Inv(s) && Lists(ids, set k | k in s.held.subscriptions :: s.held.subscriptions[k].id)
    ensures Keys(ids) == s.held.subscriptions.Keys
  {
    hide ListenersOwned, AnswersBacked, OthersBacked, NetSound, RetirementsTrue, KeyOf;
    var all := set k | k in s.held.subscriptions :: s.held.subscriptions[k].id;
    assert forall id :: id in ids <==> id in all;
    assert forall k :: k in s.held.subscriptions ==>
             s.held.subscriptions[k].id in all && KeyOf(s.held.subscriptions[k].id) == k;
  }

  lemma WriteMessageAside(r: Rules, s: State, json: string, extra: Headers, correlate: Option<RequestId>)
    ensures var s' := WriteMessage(r, s, json, extra, correlate);
            s'.net == s.net && s'.held == s.held && s'.queue == s.queue
  {
    hide Due, DueBody;
  }

  lemma AnswerKeeps(r: Rules, s: State, json: string, made: Option<ConnId>)
    requires Inv(s) && New(s, made)
    ensures Inv(AnswerServer(r, s, json, made))
  {
    hide Holding, RetirementsTrue, WriteMessage, SendAnswerApart;
    var apart := SendAnswerApart(r, s, json, made);
    AnswerHolds(r, s, json, made);
    ApartHeld(r, s, json, made);
    RetirementsAlike(s.held, apart.state.held, s.queue);
    WriteMessageAside(r, s, json, map[], None);
    WriteMessageAside(r, apart.state, json, map[], None);
  }

  lemma ApartHeld(r: Rules, s: State, json: string, made: Option<ConnId>)
    ensures var s' := SendAnswerApart(r, s, json, made).state;
            && s'.queue == s.queue && s'.held.lastAnswerKey >= s.held.lastAnswerKey
            && forall k :: k in s'.held.answers && k <= s.held.lastAnswerKey ==>
                 k in s.held.answers && s'.held.answers[k] == s.held.answers[k]
  {
    hide Due, DueBody, Net.Make, Net.MakeOpener, Net.MakeBare, Net.Removed;
  }

  lemma TailTrue(s: State)
    requires Inv(s) && s.queue != []
    ensures Inv(s.(queue := s.queue[1..]))
  {
    hide Holding;
  }

  lemma TurnKeeps(r: Rules, s: State, made: Option<ConnId>)
    requires Inv(s) && New(s, made)
    ensures Inv(Step(r, s, Turn(made)))
  {
    hide Inv, WriteMessage, AnswerServer, RetireAnswer;
    if s.queue != [] {
      var s' := s.(queue := s.queue[1..]);
      TailTrue(s);
      match s.queue[0]
      case WriteTurn(json, extra, correlate) =>
        WriteMessageAside(r, s', json, extra, correlate);
        InvAside(s', WriteMessage(r, s', json, extra, correlate));
      case AnswerTurn(json) => AnswerKeeps(r, s', json, made);
      case RetireTurn(key, _) => RetireKeeps(s', key, true);
      case NudgeTurn => InvAside(s', RunTurn(r, s', NudgeTurn, made));
    }
  }

  lemma InvAside(s: State, s': State)
    requires Inv(s) && s'.net == s.net && s'.held == s.held && s'.queue == s.queue
    ensures Inv(s')
  {
  }

  lemma OpenSubKeeps(r: Rules, s: State, id: RequestId, message: string, made: Option<ConnId>)
    requires Inv(s) && New(s, made)
    ensures Inv(OpenSubscription(r, s, id, message, made).state)
  {
    hide Holding, RetirementsTrue, Due, DueBody, Net.Make, Net.MakeOpener, KeyOf;
    OpenSubHolds(r, s, id, message, made);
    RetirementsAlike(s.held, OpenSubscription(r, s, id, message, made).state.held, s.queue);
  }

  lemma OpenStreamKeeps(r: Rules, s: State, cursor: string, made: Option<ConnId>)
    requires Inv(s) && New(s, made)
    ensures Inv(OpenServerStream(r, s, cursor, made).state)
  {
    hide Holding, RetirementsTrue, Due, DueBody, Net.Make, Net.MakeOpener, CloseServerStream;
    OpenStreamHolds(r, s, cursor, made);
    CloseStreamHolds(r, s, true);
    RetirementsAlike(s.held, OpenServerStream(r, s, cursor, made).state.held, s.queue);
  }

  lemma ConnectKeeps(r: Rules, s: State, made: Option<ConnId>)
    requires Inv(s) && New(s, made)
    ensures Inv(Connect(r, s, made))
  {
    hide Holding, RetirementsTrue, Connect;
    ConnectHolds(r, s, made);
    RetirementsAlike(s.held, Connect(r, s, made).held, s.queue);
  }

  lemma SendKeeps(r: Rules, s: State, e: Event)
    requires Inv(s) && (e.Send? || e.Respond?)
    ensures Inv(Step(r, s, e))
  {
    hide Holding, RetirementsTrue;
    match e
    case Send(json, extra, correlate) => Appended(s.held, s.queue, WriteTurn(json, extra, correlate));
    case Respond(json) =>
      Appended(s.held, s.queue, AnswerTurn(json));
      Appended(s.held, s.queue, WriteTurn(json, map[], None));
  }

  lemma StepKeeps(r: Rules, s: State, e: Event)
    requires Inv(s) && Legal(s, e)
    ensures Inv(Step(r, s, e))
  {
    hide Holding, RetirementsTrue, RunTurn, Raise, OpenSubscription, OpenServerStream, CloseSubscription,
      CloseServerStream, SendSessionDelete, CloseAll, Connect, Destroy;
    match e
    case Send(_, _, _) => SendKeeps(r, s, e);
    case Respond(_) => SendKeeps(r, s, e);
    case Turn(made) => TurnKeeps(r, s, made);
    case Raising(c, event, status) => RaiseKeeps(r, s, c, event, status);
    case Connecting(made) => ConnectKeeps(r, s, made);
    case OpenSub(id, message, made) => OpenSubKeeps(r, s, id, message, made);
    case CloseSub(id, onThread) => CloseSubKeeps(s, id, onThread);
    case OpenStream(cursor, made) => OpenStreamKeeps(r, s, cursor, made);
    case CloseStream(onThread) => CloseStreamKeeps(r, s, onThread);
    case GiveBack => GiveBackAside(r, s);
    case CloseManager(ids, keys, onThread) => CloseAllKeeps(r, s, ids, keys, onThread);
    case StatusChanges(c, status) => StatusHolds(s.held, s.net, c, status);
    case DeleteHanded(c) =>
      if c in s.net.handed {
        DeleteKeeps(r, s, c);
      }
    case _ =>
  }

  lemma GiveBackAside(r: Rules, s: State)
    ensures var s' := SendSessionDelete(r, s);
            s'.net == s.net && s'.held == s.held && s'.queue == s.queue
  {
    hide Due, DueBody;
  }

  lemma {:induction false} RunKeeps(r: Rules, s: State, run: seq<Event>)
    requires Inv(s) && LegalRun(r, s, run)
    ensures Inv(Run(r, s, run))
    decreases |run|
  {
    hide Inv, Legal, Step;
    if run != [] {
      StepKeeps(r, s, run[0]);
      RunKeeps(r, Step(r, s, run[0]), run[1..]);
    }
  }
}
