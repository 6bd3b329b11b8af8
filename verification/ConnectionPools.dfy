/**
 The connection pool of an application: connections that each carry a limited number
 of streams. Which list a connection is in and which state it is in are separate
 things: creating a stream changes the state before the list is looked up.
 */
module ConnectionPools {
  datatype Option<T> = None | Some(value: T)

  datatype State = Connecting | Ready | Busy | Draining | Closed

  type uint32 = x: int | 0 <= x < 0x1_0000_0000

  function Wrap(x: int): uint32 { x % 0x1_0000_0000 }

  function Min(a: int, b: int): int { if a < b then a else b }

  /** A pooled connection; `id` stands for the connection it holds. */
  datatype Conn = Conn(id: nat, remaining: uint32, limit: uint32, active: uint32, state: State) {
    function Unused(): int { Min(remaining, Wrap(limit - active)) }

    predicate ReadyForStream() { state == Ready && Unused() > 0 }

    function StreamCreated(): Conn {
      var c := this.(active := Wrap(active + 1), remaining := Wrap(remaining - 1));
      if c.Unused() == 0 then c.(state := Busy) else c
    }

    function StreamClosed(): Conn {
      var c := this.(active := Wrap(active - 1));
      if c.state == Busy && c.Unused() > 0 then c.(state := Ready) else c
    }
  }

  datatype ListName = ReadyList | BusyList | ConnectingList

  datatype Place = Place(list: ListName, index: nat)

  function OwningList(state: State): ListName {
    match state
    case Connecting => ConnectingList
    case Ready => ReadyList
    case _ => BusyList
  }

  /** What asking for a connection gives. */
  datatype Granted = Granted(pool: Pool, connection: Option<nat>)

  datatype Pool = Pool(ready: seq<Conn>, busy: seq<Conn>, connecting: seq<Conn>, total: int, max: nat, limit: uint32) {
    function List(name: ListName): seq<Conn> {
      match name
      case ReadyList => ready
      case BusyList => busy
      case ConnectingList => connecting
    }

    function WithList(name: ListName, list: seq<Conn>): Pool {
      match name
      case ReadyList => this.(ready := list)
      case BusyList => this.(busy := list)
      case ConnectingList => this.(connecting := list)
    }

    predicate Has(place: Place) { place.index < |List(place.list)| }

    function At(place: Place): Conn
      requires Has(place)
    {
      List(place.list)[place.index]
    }

    function Put(place: Place, c: Conn): Pool
      requires Has(place)
    {
      WithList(place.list, List(place.list)[place.index := c])
    }

    /** The node leaves the list it is in, whichever list the erase is called on. */
    function Unlink(place: Place): Pool
      requires Has(place)
    {
      WithList(place.list, Without(List(place.list), place.index))
    }

    function PushBack(name: ListName, c: Conn): Pool { WithList(name, List(name) + [c]) }

    function Find(id: nat): (place: Option<Place>)
      ensures place.Some? ==> Has(place.value) && At(place.value).id == id
    {
      var r := IndexOf(ready, id);
      if r < |ready| then Some(Place(ReadyList, r)) else
        var b := IndexOf(busy, id);
        if b < |busy| then Some(Place(BusyList, b)) else
          var c := IndexOf(connecting, id);
          if c < |connecting| then Some(Place(ConnectingList, c)) else None
    }

    function Transition(place: Place, state: State): Pool
      requires Has(place)
    {
      var c := At(place).(state := state);
      if OwningList(At(place).state) != OwningList(state) then Unlink(place).PushBack(OwningList(state), c)
          else Put(place, c)
    }

    /** A new connection, reserved for the stream that asked for it. */
    function Create(made: Option<nat>): Granted {
      if made.None? then Granted(this, None)
      else
        var c := Conn(made.value, limit, limit, 0, Connecting).StreamCreated();
        Granted(PushBack(ConnectingList, c).(total := total + 1), made)
    }

    /** A connection for a new stream; `made` is what creating a connection gives. */
    function Acquire(made: Option<nat>): Granted {
      if ready != [] && ready[0].ReadyForStream() then
        var front := Place(ReadyList, 0);
        var p := Put(front, ready[0].StreamCreated());
        Granted(if p.At(front).ReadyForStream() then p else p.Transition(front, Busy), Some(ready[0].id))
      else if total < max then Create(made)
      else Granted(this, None)
    }

    function Release(id: nat): Pool {
      var found := Find(id);
      if found.None? then this
      else
        var c := At(found.value).StreamClosed();
        var p := Put(found.value, c);
        // The move back to the ready list is asked for in a state it cannot be in.
        if c.state == Busy && c.ReadyForStream() then assert false; this else p
    }

    function Connected(id: nat): Pool {
      var found := Find(id);
      if found.Some? && At(found.value).state == Connecting then Transition(found.value, Ready) else this
    }

    function ClosedBy(id: nat): Pool {
      var found := Find(id);
      if found.None? then this else Unlink(found.value).(total := total - 1)
    }
  }

  function Without<T>(s: seq<T>, i: nat): seq<T>
    requires i < |s|
  {
    s[..i] + s[i + 1..]
  }

  function IndexOf(s: seq<Conn>, id: nat): (k: nat)
    ensures k <= |s| && (k < |s| ==> s[k].id == id) && forall i :: 0 <= i < k ==> s[i].id != id
  {
    if s == [] || s[0].id == id then 0 else 1 + IndexOf(s[1..], id)
  }

  // ----- runs -----

  datatype Event = Acquire(made: Option<nat>) | Release(id: nat) | Connect(id: nat) | Close(id: nat)

  /** The pool, and how many streams each connection was handed out for and how many of them were given back. */
  datatype World = World(pool: Pool, handed: map<nat, nat>, returned: map<nat, nat>)

  predicate Legal(w: World, e: Event) {
    match e
    case Acquire(made) => made.Some? ==> made.value !in w.handed
    case Release(id) => id in w.handed && id in w.returned && w.returned[id] < w.handed[id]
    case _ => true
  }

  function Count(m: map<nat, nat>, id: nat): nat { if id in m then m[id] else 0 }

  function Step(w: World, e: Event): World {
    match e
    case Acquire(made) =>
      var Granted(pool, got) := w.pool.Acquire(made);
      if got.None? then w.(pool := pool)
      else World(pool, w.handed[got.value := Count(w.handed, got.value) + 1],
          w.returned[got.value := Count(w.returned, got.value)])
    case Release(id) => w.(pool := w.pool.Release(id), returned := w.returned[id := Count(w.returned, id) + 1])
    case Connect(id) => w.(pool := w.pool.Connected(id))
    case Close(id) => w.(pool := w.pool.ClosedBy(id))
  }

  predicate LegalRun(w: World, run: seq<Event>)
    decreases |run|
  {
    run == [] || (Legal(w, run[0]) && LegalRun(Step(w, run[0]), run[1..]))
  }

  function Run(w: World, run: seq<Event>): World
    decreases |run|
  {
    if run == [] then w else Run(Step(w, run[0]), run[1..])
  }

  function Empty(max: nat, limit: uint32): World { World(Pool([], [], [], 0, max, limit), map[], map[]) }

  function Live(list: seq<Conn>): nat {
    if list == [] then 0 else list[0].active + Live(list[1..])
  }

  // ----- the invariant -----

  /** A connection whose counters say what it was handed out for. */
  ghost predicate Counted(c: Conn, w: World) {
    && c.limit == w.pool.limit
    && c.id in w.handed && c.id in w.returned
    && c.remaining + w.handed[c.id] == w.pool.limit
    && c.active + w.returned[c.id] == w.handed[c.id]
    && (c.state == Busy <==> c.remaining == 0)
  }

  ghost predicate AllCounted(list: seq<Conn>, w: World, idle: State) {
    forall i :: 0 <= i < |list| ==> Counted(list[i], w) && list[i].state in {Busy, idle}
  }

  ghost predicate Distinct(list: seq<Conn>) {
    forall i, j :: 0 <= i < j < |list| ==> list[i].id != list[j].id
  }

  ghost predicate Apart(a: seq<Conn>, b: seq<Conn>) {
    forall i, j :: 0 <= i < |a| && 0 <= j < |b| ==> a[i].id != b[j].id
  }

  ghost predicate InBounds(w: World) {
    && w.handed.Keys == w.returned.Keys
    && forall id :: id in w.handed ==> w.returned[id] <= w.handed[id] <= w.pool.limit
  }

  ghost predicate Inv(w: World) {
    && w.pool.limit >= 1
    && InBounds(w)
    && w.pool.busy == []
    && w.pool.total == |w.pool.ready| + |w.pool.connecting| <= w.pool.max
    && AllCounted(w.pool.ready, w, Ready) && AllCounted(w.pool.connecting, w, Connecting)
    && Distinct(w.pool.ready) && Distinct(w.pool.connecting) && Apart(w.pool.ready, w.pool.connecting)
  }

  /** What is left of the lifetime limit is what is left of the concurrent one, or less. */
  lemma UnusedIsRemaining(c: Conn, w: World)
    requires InBounds(w) && Counted(c, w)
    ensures c.Unused() == c.remaining
  {
  }

  lemma CreatedCounted(c: Conn, w: World, w': World)
    requires w.pool.limit == w'.pool.limit && InBounds(w) && Counted(c, w) && c.state in {Ready, Connecting}
    requires w'.handed == w.handed[c.id := w.handed[c.id] + 1] && w'.returned == w.returned[c.id := w.returned[c.id]]
    ensures Counted(c.StreamCreated(), w') && InBounds(w')
    ensures c.StreamCreated().state in {Busy, c.state} && c.StreamCreated().id == c.id
    ensures c.StreamCreated().ReadyForStream() <==> c.state == Ready && c.StreamCreated().state == Ready
  {
  }

  /** A stream that ends frees nothing: no capacity returns, and the state stays. */
  lemma ClosedCounted(c: Conn, w: World, w': World)
    requires w.pool.limit == w'.pool.limit && InBounds(w) && Counted(c, w) && w.returned[c.id] < w.handed[c.id]
    requires w'.handed == w.handed && w'.returned == w.returned[c.id := w.returned[c.id] + 1]
    ensures Counted(c.StreamClosed(), w') && InBounds(w')
    ensures c.StreamClosed() == c.(active := c.active - 1)
  {
  }

  /** The counts of w', but for those of one connection, are those of w. */
  ghost predicate SameElsewhere(w: World, w': World, id: nat) {
    && w.pool.limit == w'.pool.limit
    && (forall k :: k != id && k in w.handed ==> k in w'.handed && w'.handed[k] == w.handed[k])
    && (forall k :: k != id && k in w.returned ==> k in w'.returned && w'.returned[k] == w.returned[k])
  }

  lemma OtherCounted(list: seq<Conn>, w: World, w': World, idle: State, id: nat)
    requires AllCounted(list, w, idle) && SameElsewhere(w, w', id)
    requires forall i :: 0 <= i < |list| ==> list[i].id != id
    ensures AllCounted(list, w', idle)
  {
  }

  lemma PutCounted(list: seq<Conn>, i: nat, c: Conn, w: World, w': World, idle: State)
    requires i < |list| && c.id == list[i].id && Distinct(list)
    requires AllCounted(list, w, idle) && SameElsewhere(w, w', c.id)
    requires Counted(c, w') && c.state in {Busy, idle}
    ensures AllCounted(list[i := c], w', idle)
  {
    var list' := list[i := c];
    forall k | 0 <= k < |list'|
      ensures Counted(list'[k], w') && list'[k].state in {Busy, idle}
    {
      if k != i {
        assert list[k].id != c.id && Counted(list[k], w);
      }
    }
  }

  lemma WithoutOf(list: seq<Conn>, i: nat)
    requires i < |list|
    ensures |Without(list, i)| == |list| - 1
    ensures forall k :: 0 <= k < i ==> Without(list, i)[k] == list[k]
    ensures forall k :: i < k < |list| ==> Without(list, i)[k - 1] == list[k]
  {
  }

  lemma WithoutKept(list: seq<Conn>, i: nat, other: seq<Conn>, w: World, idle: State)
    requires i < |list| && AllCounted(list, w, idle) && Distinct(list) && Apart(list, other)
    ensures AllCounted(Without(list, i), w, idle) && Distinct(Without(list, i)) && Apart(Without(list, i), other)
    ensures forall k :: 0 <= k < |Without(list, i)| ==> Without(list, i)[k].id != list[i].id
  {
    WithoutOf(list, i);
  }

  lemma PutKept(list: seq<Conn>, i: nat, c: Conn, other: seq<Conn>)
    requires i < |list| && c.id == list[i].id && Distinct(list) && Apart(list, other) && Apart(other, list)
    ensures Distinct(list[i := c]) && Apart(list[i := c], other) && Apart(other, list[i := c])
  {
  }

  lemma ApartSymmetric(a: seq<Conn>, b: seq<Conn>)
    requires Apart(a, b)
    ensures Apart(b, a)
  {
  }

  lemma PushKept(list: seq<Conn>, c: Conn, other: seq<Conn>)
    requires Distinct(list) && Apart(list, other)
    requires forall k :: 0 <= k < |list| ==> list[k].id != c.id
    requires forall k :: 0 <= k < |other| ==> other[k].id != c.id
    ensures Distinct(list + [c]) && Apart(list + [c], other)
  {
  }

  // ----- every step keeps it -----

  lemma AcquireFront(w: World, made: Option<nat>)
    requires Inv(w) && w.pool.ready != [] && w.pool.ready[0].ReadyForStream()
    ensures Inv(Step(w, Acquire(made)))
    ensures Step(w, Acquire(made)).pool == w.pool.(ready := w.pool.ready[0 := w.pool.ready[0].StreamCreated()])
  {
    hide Counted, Distinct, Apart, Conn.StreamCreated;
    var front := w.pool.ready[0];
    var c := front.StreamCreated();
    var w' := Step(w, Acquire(made));
    FrontId(w);
    AcquireFrontPool(w, made);
    CreatedCounted(front, w, w');
    PutCounted(w.pool.ready, 0, c, w, w', Ready);
    ApartSymmetric(w.pool.ready, w.pool.connecting);
    PutKept(w.pool.ready, 0, c, w.pool.connecting);
    FrontApart(w);
    OtherCounted(w.pool.connecting, w, w', Connecting, c.id);
  }

  lemma FrontId(w: World)
    requires Inv(w) && w.pool.ready != []
    ensures Counted(w.pool.ready[0], w) && w.pool.ready[0].id in w.handed && w.pool.ready[0].id in w.returned
  {
  }

  lemma FrontApart(w: World)
    requires Inv(w) && w.pool.ready != []
    ensures forall k :: 0 <= k < |w.pool.connecting| ==> w.pool.connecting[k].id != w.pool.ready[0].id
  {
  }

  lemma AcquireFrontPool(w: World, made: Option<nat>)
    requires Inv(w) && w.pool.ready != [] && w.pool.ready[0].ReadyForStream()
    ensures var front := w.pool.ready[0];
            var w' := Step(w, Acquire(made));
            && w'.pool == w.pool.(ready := w.pool.ready[0 := front.StreamCreated()])
            && w'.handed == w.handed[front.id := w.handed[front.id] + 1]
            && w'.returned == w.returned[front.id := w.returned[front.id]]
  {
    hide Distinct, Apart;
    FrontId(w);
    var front := w.pool.ready[0];
    var c := front.StreamCreated();
    assert w.pool.Acquire(made).connection == Some(front.id);
    if !c.ReadyForStream() {
      assert c.state == Busy;
    }
  }

  lemma AcquireNew(w: World, id: nat)
    requires Inv(w) && w.pool.total < w.pool.max && id !in w.handed
    requires w.pool.ready == [] || !w.pool.ready[0].ReadyForStream()
    ensures Inv(Step(w, Acquire(Some(id))))
  {
    hide Distinct, Apart, Conn.StreamCreated, AllCounted;
    var w' := Step(w, Acquire(Some(id)));
    var c := Conn(id, w.pool.limit, w.pool.limit, 0, Connecting).StreamCreated();
    assert w'.pool == w.pool.(connecting := w.pool.connecting + [c], total := w.pool.total + 1);
    NewCounted(w, id, w');
    NewIds(w, id);
    OtherCounted(w.pool.ready, w, w', Ready, id);
    OtherCounted(w.pool.connecting, w, w', Connecting, id);
    PushCounted(w.pool.connecting, c, w', Connecting);
    ApartSymmetric(w.pool.ready, w.pool.connecting);
    PushKept(w.pool.connecting, c, w.pool.ready);
    ApartSymmetric(w'.pool.connecting, w.pool.ready);
  }

  lemma PushCounted(list: seq<Conn>, c: Conn, w: World, idle: State)
    requires AllCounted(list, w, idle) && Counted(c, w) && c.state in {Busy, idle}
    ensures AllCounted(list + [c], w, idle)
  {
  }

  lemma NewCounted(w: World, id: nat, w': World)
    requires InBounds(w) && id !in w.handed && w.pool.limit == w'.pool.limit >= 1
    requires w'.handed == w.handed[id := 1] && w'.returned == w.returned[id := 0]
    ensures var c := Conn(id, w.pool.limit, w.pool.limit, 0, Connecting).StreamCreated();
            Counted(c, w') && c.state in {Busy, Connecting} && c.id == id
    ensures InBounds(w')
  {
  }

  lemma NewIds(w: World, id: nat)
    requires Inv(w) && id !in w.handed
    ensures forall k :: 0 <= k < |w.pool.ready| ==> w.pool.ready[k].id != id
    ensures forall k :: 0 <= k < |w.pool.connecting| ==> w.pool.connecting[k].id != id
  {
  }

  /** Under the invariant, what the find gives is the one place of that connection. */
  lemma FoundPlace(w: World, id: nat)
    requires Inv(w)
    ensures var found := w.pool.Find(id);
            found.Some? ==>
              && found.value.list in {ReadyList, ConnectingList}
              && w.pool.At(found.value).id == id && Counted(w.pool.At(found.value), w)
              && w.pool.At(found.value).state in {Busy, if found.value.list == ReadyList then Ready else Connecting}
  {
    hide Counted, Distinct, Apart, IndexOf;
  }

  lemma ReleaseKeeps(w: World, id: nat)
    requires Inv(w) && Legal(w, Release(id))
    ensures Inv(Step(w, Release(id)))
  {
    hide Counted, Distinct, Apart, Conn.StreamClosed, Pool.Find, AllCounted, Pool.Release;
    var w' := Step(w, Release(id));
    var found := w.pool.Find(id);
    FoundPlace(w, id);
    ReturnedInBounds(w, id);
    if found.None? {
      ReleaseUnknown(w, id);
      NotFound(w, id);
      OtherCounted(w.pool.ready, w, w', Ready, id);
      OtherCounted(w.pool.connecting, w, w', Connecting, id);
    } else {
      var i := found.value.index;
      var c := w.pool.At(found.value);
      var c' := c.StreamClosed();
      ReleasePool(w, id);
      ClosedCounted(c, w, w');
      ApartSymmetric(w.pool.ready, w.pool.connecting);
      OnlyPlace(w, id);
      if found.value.list == ReadyList {
        PutCounted(w.pool.ready, i, c', w, w', Ready);
        PutKept(w.pool.ready, i, c', w.pool.connecting);
        OtherCounted(w.pool.connecting, w, w', Connecting, id);
      } else {
        PutCounted(w.pool.connecting, i, c', w, w', Connecting);
        PutKept(w.pool.connecting, i, c', w.pool.ready);
        OtherCounted(w.pool.ready, w, w', Ready, id);
      }
    }
  }

  lemma ReturnedInBounds(w: World, id: nat)
    requires InBounds(w) && Legal(w, Release(id))
    ensures var w' := w.(returned := w.returned[id := w.returned[id] + 1]);
            InBounds(w') && SameElsewhere(w, w', id)
  {
  }

  lemma ReleaseUnknown(w: World, id: nat)
    requires w.pool.Find(id).None?
    ensures w.pool.Release(id) == w.pool
  {
  }

  lemma NotFound(w: World, id: nat)
    requires w.pool.Find(id).None?
    ensures forall k :: 0 <= k < |w.pool.ready| ==> w.pool.ready[k].id != id
    ensures forall k :: 0 <= k < |w.pool.connecting| ==> w.pool.connecting[k].id != id
  {
    hide IndexOf;
  }

  lemma OnlyPlace(w: World, id: nat)
    requires Inv(w) && w.pool.Find(id).Some?
    ensures w.pool.Find(id).value.list == ReadyList ==>
              forall k :: 0 <= k < |w.pool.connecting| ==> w.pool.connecting[k].id != id
    ensures w.pool.Find(id).value.list == ConnectingList ==>
              forall k :: 0 <= k < |w.pool.ready| ==> w.pool.ready[k].id != id
  {
    hide IndexOf, Counted, AllCounted;
  }

  lemma ReleasePool(w: World, id: nat)
    requires w.pool.Find(id).Some?
    ensures w.pool.Release(id) == w.pool.Put(w.pool.Find(id).value, w.pool.At(w.pool.Find(id).value).StreamClosed())
  {
    hide Pool.Find, Conn.StreamClosed;
  }

  lemma ConnectedKeeps(w: World, id: nat)
    requires Inv(w)
    ensures Inv(Step(w, Connect(id)))
  {
    hide Counted, Distinct, Apart, Pool.Find, AllCounted, Without;
    var found := w.pool.Find(id);
    FoundPlace(w, id);
    if found.Some? && w.pool.At(found.value).state == Connecting {
      var i := found.value.index;
      var c := w.pool.At(found.value).(state := Ready);
      var w' := Step(w, Connect(id));
      ReadyCounted(w.pool.At(found.value), w);
      OnlyPlace(w, id);
      ApartSymmetric(w.pool.ready, w.pool.connecting);
      WithoutOf(w.pool.connecting, i);
      WithoutKept(w.pool.connecting, i, w.pool.ready, w, Connecting);
      ApartSymmetric(w'.pool.connecting, w.pool.ready);
      PushKept(w.pool.ready, c, w'.pool.connecting);
      PushCounted(w.pool.ready, c, w, Ready);
      CountedAlike(w.pool.ready + [c], w, w', Ready);
      CountedAlike(w'.pool.connecting, w, w', Connecting);
    }
  }

  lemma ReadyCounted(c: Conn, w: World)
    requires Counted(c, w) && c.state == Connecting
    ensures Counted(c.(state := Ready), w)
  {
  }

  lemma CountedAlike(list: seq<Conn>, w: World, w': World, idle: State)
    requires AllCounted(list, w, idle)
    requires w'.pool.limit == w.pool.limit && w'.handed == w.handed && w'.returned == w.returned
    ensures AllCounted(list, w', idle)
  {
  }

  lemma ClosedKeeps(w: World, id: nat)
    requires Inv(w)
    ensures Inv(Step(w, Close(id)))
  {
    hide Counted, Distinct, Apart, Pool.Find, AllCounted, Without;
    var found := w.pool.Find(id);
    FoundPlace(w, id);
    if found.Some? {
      var i := found.value.index;
      var w' := Step(w, Close(id));
      ApartSymmetric(w.pool.ready, w.pool.connecting);
      if found.value.list == ReadyList {
        WithoutOf(w.pool.ready, i);
        WithoutKept(w.pool.ready, i, w.pool.connecting, w, Ready);
      } else {
        WithoutOf(w.pool.connecting, i);
        WithoutKept(w.pool.connecting, i, w.pool.ready, w, Connecting);
        ApartSymmetric(w'.pool.connecting, w.pool.ready);
      }
      CountedAlike(w'.pool.ready, w, w', Ready);
      CountedAlike(w'.pool.connecting, w, w', Connecting);
    }
  }

  lemma StepKeeps(w: World, e: Event)
    requires Inv(w) && Legal(w, e)
    ensures Inv(Step(w, e))
  {
    hide Inv, Pool.Release, Pool.Connected, Pool.ClosedBy, Conn.ReadyForStream, Conn.StreamCreated;
    match e
    case Acquire(made) =>
      if w.pool.ready != [] && w.pool.ready[0].ReadyForStream() {
        AcquireFront(w, made);
      } else if w.pool.total < w.pool.max && made.Some? {
        AcquireNew(w, made.value);
      }
    case Release(id) => ReleaseKeeps(w, id);
    case Connect(id) => ConnectedKeeps(w, id);
    case Close(id) => ClosedKeeps(w, id);
  }

  lemma {:induction false} RunKeeps(w: World, run: seq<Event>)
    requires Inv(w) && LegalRun(w, run)
    ensures Inv(Run(w, run))
    decreases |run|
  {
    hide Inv, Legal, Step;
    if run != [] {
      StepKeeps(w, run[0]);
      RunKeeps(Step(w, run[0]), run[1..]);
    }
  }

  // ----- what it means -----

  lemma {:induction false} LiveBound(list: seq<Conn>, limit: nat)
    requires forall i :: 0 <= i < |list| ==> list[i].active <= limit
    ensures Live(list) <= |list| * limit
  {
    if list != [] {
      LiveBound(list[1..], limit);
      assert |list| * limit == |list[1..]| * limit + limit;
    }
  }

  function Held(p: Pool): seq<Conn> { p.ready + p.busy + p.connecting }

  /** The bounds a pool is there for. */
  ghost predicate Bounded(w: World, max: nat, limit: nat) {
    && w.pool.total == |Held(w.pool)| <= max
    && (forall id :: id in w.handed ==> w.handed[id] <= limit)
    && (forall i :: 0 <= i < |Held(w.pool)| ==> Held(w.pool)[i].Unused() == Held(w.pool)[i].remaining)
    && Live(Held(w.pool)) <= |Held(w.pool)| * limit
  }

  lemma HeldCounted(w: World)
    requires Inv(w)
    ensures |Held(w.pool)| == |w.pool.ready| + |w.pool.connecting|
    ensures forall i :: 0 <= i < |Held(w.pool)| ==> Counted(Held(w.pool)[i], w)
  {
    hide Counted, Distinct, Apart, InBounds;
  }

  lemma InvBounded(w: World)
    requires Inv(w)
    ensures Bounded(w, w.pool.max, w.pool.limit)
  {
    hide Distinct, Apart, AllCounted, Held;
    HeldCounted(w);
    forall i | 0 <= i < |Held(w.pool)|
      ensures Held(w.pool)[i].Unused() == Held(w.pool)[i].remaining && Held(w.pool)[i].active <= w.pool.limit
    {
      UnusedIsRemaining(Held(w.pool)[i], w);
    }
    LiveBound(Held(w.pool), w.pool.limit);
  }

  lemma MaxKept(w: World, e: Event)
    ensures Step(w, e).pool.max == w.pool.max && Step(w, e).pool.limit == w.pool.limit
  {
    hide Pool.Find, Conn.StreamCreated, Conn.StreamClosed, Conn.ReadyForStream, Without, Conn.Unused;
    match e
    case Acquire(made) =>
    case Release(id) =>
      if w.pool.Find(id).Some? {
        ReleasePool(w, id);
      }
    case Connect(id) =>
    case Close(id) =>
  }

  lemma {:induction false} RunMax(w: World, run: seq<Event>)
    requires LegalRun(w, run)
    ensures Run(w, run).pool.max == w.pool.max && Run(w, run).pool.limit == w.pool.limit
    decreases |run|
  {
    hide Legal, Step;
    if run != [] {
      MaxKept(w, run[0]);
      RunMax(Step(w, run[0]), run[1..]);
    }
  }

  lemma {:induction false} NothingWithoutMax(w: World, run: seq<Event>)
    requires w.pool == Pool([], [], [], 0, 0, w.pool.limit) && w.handed == map[] && LegalRun(w, run)
    ensures Run(w, run).pool == w.pool && Run(w, run).handed == map[]
    decreases |run|
  {
    if run != [] {
      NothingWithoutMax(Step(w, run[0]), run[1..]);
    }
  }

  lemma RunOn(w: World, e: Event, run: seq<Event>)
    ensures Run(w, [e] + run) == Run(Step(w, e), run)
    ensures LegalRun(w, [e] + run) <==> Legal(w, e) && LegalRun(Step(w, e), run)
  {
    hide Step, Legal;
    assert ([e] + run)[1..] == run;
  }

  lemma ConnectFirst(c: Conn, w: World)
    requires c.state == Connecting && w.pool.busy == [] && w.pool.connecting == [c]
    requires forall i :: 0 <= i < |w.pool.ready| ==> w.pool.ready[i].id != c.id
    ensures Step(w, Connect(c.id)).pool == w.pool.(ready := w.pool.ready + [c.(state := Ready)], connecting := [])
  {
    var r := IndexOf(w.pool.ready, c.id);
    assert r == |w.pool.ready|;
    assert w.pool.Find(c.id) == Some(Place(ConnectingList, 0));
    assert Without([c], 0) == [];
  }

  /** With a limit of no streams the reservation wraps below zero. */
  lemma ZeroReserved(max: nat)
    requires max >= 1
    ensures Step(Empty(max, 0), Acquire(Some(0)))
            == World(Pool([], [], [Conn(0, 0xffff_ffff, 0, 1, Connecting)], 1, max, 0), map[0 := 1], map[0 := 0])
  {
    hide Pool.Find, Pool.Transition;
  }

  lemma FirstReady(c: Conn, max: nat)
    requires c.state == Connecting
    ensures Step(World(Pool([], [], [c], 1, max, 0), map[c.id := 1], map[c.id := 0]), Connect(c.id))
            == World(Pool([c.(state := Ready)], [], [], 1, max, 0), map[c.id := 1], map[c.id := 0])
  {
    hide Pool.Find, Pool.Transition, Pool.Connected;
    var w := World(Pool([], [], [c], 1, max, 0), map[c.id := 1], map[c.id := 0]);
    ConnectFirst(c, w);
    assert [] + [c.(state := Ready)] == [c.(state := Ready)];
  }

  /** A ready connection with room is given once more. */
  lemma FrontGiven(c: Conn, max: nat)
    requires c.ReadyForStream() && c.StreamCreated().ReadyForStream()
    ensures var w := World(Pool([c], [], [], 1, max, 0), map[c.id := 1], map[c.id := 0]);
            Step(w, Acquire(None)).handed == map[c.id := 2]
  {
    hide Pool.Find, Pool.Transition, Conn.StreamCreated;
  }

  /** The reservation wraps, and the connection, once it is ready, is given again. */
  lemma ZeroSteps(max: nat)
    requires max >= 1
    ensures var w0 := Empty(max, 0);
            var w1 := Step(w0, Acquire(Some(0)));
            var w2 := Step(w1, Connect(0));
            && Legal(w0, Acquire(Some(0))) && Legal(w1, Connect(0)) && Legal(w2, Acquire(None))
            && Step(w2, Acquire(None)).handed == map[0 := 2]
  {
    hide Step;
    var c := Conn(0, 0xffff_ffff, 0, 1, Connecting);
    ZeroReserved(max);
    FirstReady(c, max);
    FrontGiven(c.(state := Ready), max);
  }

  /** A limit of no streams at all: the connection serves on. */
  lemma ZeroLimit(max: nat)
    requires max >= 1
    ensures var run := [Acquire(Some(0))] + ([Connect(0)] + ([Acquire(None)] + []));
            && LegalRun(Empty(max, 0), run)
            && Run(Empty(max, 0), run).handed == map[0 := 2]
  {
    hide Run, LegalRun, Step, Legal;
    ZeroSteps(max);
    var w0 := Empty(max, 0);
    var w1 := Step(w0, Acquire(Some(0)));
    var w2 := Step(w1, Connect(0));
    RunOn(w0, Acquire(Some(0)), [Connect(0)] + ([Acquire(None)] + []));
    RunOn(w1, Connect(0), [Acquire(None)] + []);
    RunOn(w2, Acquire(None), []);
    RunNothing(Step(w2, Acquire(None)));
  }

  lemma RunNothing(w: World)
    ensures LegalRun(w, []) && Run(w, []) == w
  {
  }

  /** Every run stays within the bounds exactly when connections carry at least one stream, or there are none. */
  lemma BoundsHold(max: nat, limit: uint32)
    ensures (forall run :: LegalRun(Empty(max, limit), run) ==> Bounded(Run(Empty(max, limit), run), max, limit))
            <==> limit >= 1 || max == 0
  {
    if limit >= 1 {
      forall run | LegalRun(Empty(max, limit), run)
        ensures Bounded(Run(Empty(max, limit), run), max, limit)
      {
        RunWithinBounds(max, limit, run);
      }
    } else if max == 0 {
      forall run | LegalRun(Empty(max, limit), run)
        ensures Bounded(Run(Empty(max, limit), run), max, limit)
      {
        NothingWithoutMax(Empty(max, limit), run);
        NothingBounded(Run(Empty(max, limit), run), limit);
      }
    } else {
      ZeroLimitOutOfBounds(max);
    }
  }

  lemma RunWithinBounds(max: nat, limit: uint32, run: seq<Event>)
    requires limit >= 1 && LegalRun(Empty(max, limit), run)
    ensures Bounded(Run(Empty(max, limit), run), max, limit)
  {
    hide Run, LegalRun, Bounded;
    EmptyInv(max, limit);
    RunKeeps(Empty(max, limit), run);
    RunMax(Empty(max, limit), run);
    InvBounded(Run(Empty(max, limit), run));
  }

  lemma EmptyInv(max: nat, limit: uint32)
    requires limit >= 1
    ensures Inv(Empty(max, limit))
  {
  }

  lemma ZeroLimitOutOfBounds(max: nat)
    requires max >= 1
    ensures exists run :: LegalRun(Empty(max, 0), run) && !Bounded(Run(Empty(max, 0), run), max, 0)
  {
    hide Run, LegalRun;
    ZeroLimit(max);
    var run := [Acquire(Some(0))] + ([Connect(0)] + ([Acquire(None)] + []));
    assert 0 in Run(Empty(max, 0), run).handed;
    assert LegalRun(Empty(max, 0), run);
  }

  lemma NothingBounded(w: World, limit: nat)
    requires w.pool == Pool([], [], [], 0, 0, w.pool.limit) && w.handed == map[]
    ensures Bounded(w, 0, limit)
  {
  }

  /**
   What streams do to any connection, in 32 bits: it takes streams while it is ready, has
   streams left and is not at its limit; the one that uses these up makes it busy, and a
   busy one is ready again when a stream ends and there are some.
   */
  lemma StreamMeaning(c: Conn)
    ensures c.ReadyForStream() <==> c.state == Ready && c.remaining != 0 && c.active != c.limit
    ensures var d := c.StreamCreated();
            && d.id == c.id && d.limit == c.limit
            && d.active == (if c.active == 0xffff_ffff then 0 else c.active + 1)
            && d.remaining == (if c.remaining == 0 then 0xffff_ffff else c.remaining - 1)
            && d.state == if d.remaining == 0 || d.active == d.limit then Busy else c.state
    ensures var d := c.StreamClosed();
            && d.id == c.id && d.limit == c.limit && d.remaining == c.remaining
            && d.active == (if c.active == 0 then 0xffff_ffff else c.active - 1)
            && d.state == if c.state == Busy && d.remaining != 0 && d.active != d.limit then Ready else c.state
  {
    hide Wrap;
    WrapNext(c.active, c.remaining);
    UnusedMeaning(c);
    UnusedMeaning(c.(active := Wrap(c.active + 1), remaining := Wrap(c.remaining - 1)));
    UnusedMeaning(c.(active := Wrap(c.active - 1)));
    hide Conn.Unused;
  }

  lemma WrapNext(active: uint32, remaining: uint32)
    ensures Wrap(active + 1) == (if active == 0xffff_ffff then 0 else active + 1)
    ensures Wrap(active - 1) == (if active == 0 then 0xffff_ffff else active - 1)
    ensures Wrap(remaining - 1) == (if remaining == 0 then 0xffff_ffff else remaining - 1)
  {
  }

  lemma UnusedMeaning(c: Conn)
    ensures c.Unused() >= 0 && (c.Unused() == 0 <==> c.remaining == 0 || c.active == c.limit)
  {
  }

  /** A change of state moves the connection exactly when another list owns the new state, and then to its end. */
  lemma TransitionMeaning(p: Pool, place: Place, state: State, name: ListName)
    requires p.Has(place)
    ensures var c, p' := p.At(place), p.Transition(place, state);
            var rest := if name == place.list then Without(p.List(name), place.index) else p.List(name);
            p'.List(name)
            == if OwningList(c.state) == OwningList(state) then
                 (if name == place.list then p.List(name)[place.index := c.(state := state)] else p.List(name))
               else if name == OwningList(state) then rest + [c.(state := state)]
               else rest
    ensures p.Transition(place, state).total == p.total
    ensures OwningList(Connecting) == ConnectingList && OwningList(Ready) == ReadyList
            && OwningList(Busy) == OwningList(Draining) == OwningList(Closed) == BusyList
  {
  }

  /** Which connection is given: the first ready one while it has streams left, else a new one under the limit. */
  lemma AcquireMeaning(w: World, made: Option<nat>)
    requires Inv(w)
    ensures var got := w.pool.Acquire(made).connection;
            && (w.pool.ready != [] && w.pool.ready[0].remaining > 0 ==> got == Some(w.pool.ready[0].id))
            && (w.pool.ready == [] || w.pool.ready[0].remaining == 0 ==>
                  got == if w.pool.total < w.pool.max then made else None)
  {
    hide Distinct, Apart;
    if w.pool.ready != [] {
      FrontId(w);
      UnusedIsRemaining(w.pool.ready[0], w);
      assert w.pool.ready[0].state in {Busy, Ready};
    }
  }

  function Others(list: seq<Conn>, id: nat): seq<Conn> {
    if list == [] then [] else (if list[0].id == id then [] else [list[0]]) + Others(list[1..], id)
  }

  predicate Holds(list: seq<Conn>, id: nat) { exists i :: 0 <= i < |list| && list[i].id == id }

  lemma {:induction false} OthersAre(list: seq<Conn>, id: nat)
    requires Distinct(list)
    ensures !Holds(list, id) ==> Others(list, id) == list
    ensures forall i :: 0 <= i < |list| && list[i].id == id ==> Others(list, id) == Without(list, i)
    decreases |list|
  {
    if list != [] {
      var rest := list[1..];
      assert list == [list[0]] + rest;
      OthersAre(rest, id);
      if list[0].id == id {
        assert !Holds(rest, id) by {
          assert forall i :: 0 <= i < |rest| ==> rest[i] == list[i + 1];
        }
      } else {
        assert forall i :: 0 < i < |list| ==> list[i] == rest[i - 1];
        forall i | 0 <= i < |list| && list[i].id == id
          ensures Others(list, id) == Without(list, i)
        {
          assert Without(list, i) == [list[0]] + Without(rest, i - 1);
        }
        assert Holds(rest, id) ==> Holds(list, id);
      }
    }
  }

  /** A connection that closes leaves the list it is in, and only it, and one less is counted. */
  lemma ClosedMeaning(w: World, id: nat)
    requires Inv(w)
    ensures var p, p' := w.pool, Step(w, Close(id)).pool;
            && p'.ready == Others(p.ready, id) && p'.connecting == Others(p.connecting, id) && p'.busy == []
            && p'.total == p.total - (if Holds(p.ready, id) || Holds(p.connecting, id) then 1 else 0)
            && p'.max == p.max && p'.limit == p.limit
    ensures Step(w, Close(id)).handed == w.handed && Step(w, Close(id)).returned == w.returned
  {
    hide Counted, AllCounted, Apart, InBounds, Pool.Find, Others;
    OthersAre(w.pool.ready, id);
    OthersAre(w.pool.connecting, id);
    var found := w.pool.Find(id);
    FoundPlace(w, id);
    if found.None? {
      NotFound(w, id);
    } else {
      OnlyPlace(w, id);
      assert w.pool.At(found.value).id == id;
    }
  }

  /** A connection that is up goes from the end of its wait to the end of the ready list; no other event moves it. */
  lemma ConnectedMeaning(w: World, id: nat)
    requires Inv(w)
    ensures var p, p' := w.pool, Step(w, Connect(id)).pool;
            if exists c :: c in p.connecting && c.id == id && c.state == Connecting then
              && p'.connecting == Others(p.connecting, id)
              && p'.ready == p.ready + [p'.ready[|p.ready|]] && p'.ready[|p.ready|].state == Ready
              && p'.ready[|p.ready|].(state := Connecting) in p.connecting && p'.ready[|p.ready|].id == id
              && p' == p.(ready := p'.ready, connecting := p'.connecting)
            else p' == p
  {
    hide Counted, AllCounted, Apart, InBounds, Pool.Find, Others;
    OthersAre(w.pool.connecting, id);
    var found := w.pool.Find(id);
    FoundPlace(w, id);
    if found.None? {
      NotFound(w, id);
    } else {
      OnlyPlace(w, id);
      var c := w.pool.At(found.value);
      if found.value.list == ConnectingList && c.state == Connecting {
        assert c == w.pool.connecting[found.value.index];
      } else if found.value.list == ConnectingList {
        OneOfId(w.pool.connecting, found.value.index);
      }
    }
  }

  lemma OneOfId(list: seq<Conn>, i: nat)
    requires i < |list| && Distinct(list)
    ensures forall k :: 0 <= k < |list| && list[k].id == list[i].id ==> k == i
  {
  }

  /** A stream that ends is counted off its own connection, wherever that is, and nothing moves. */
  lemma ReleasedMeaning(w: World, id: nat)
    requires Inv(w) && Legal(w, Release(id))
    ensures var p, p' := w.pool, Step(w, Release(id)).pool;
            && OneLess(p.ready, p'.ready, id) && OneLess(p.connecting, p'.connecting, id)
            && p' == p.(ready := p'.ready, connecting := p'.connecting)
  {
    hide Counted, AllCounted, Apart, InBounds, Pool.Find, Distinct, Conn.StreamClosed;
    var found := w.pool.Find(id);
    FoundPlace(w, id);
    if found.None? {
      ReleaseUnknown(w, id);
      NotFound(w, id);
    } else {
      var c := w.pool.At(found.value);
      ReleasePool(w, id);
      OnlyPlace(w, id);
      EndedCounted(w, c);
      DistinctLists(w);
      OneOfId(if found.value.list == ReadyList then w.pool.ready else w.pool.connecting, found.value.index);
    }
  }

  ghost predicate OneLess(list: seq<Conn>, list': seq<Conn>, id: nat) {
    |list'| == |list|
    && forall i :: 0 <= i < |list| ==>
         if list[i].id == id then list[i].active > 0 && list'[i] == list[i].(active := list[i].active - 1)
         else list'[i] == list[i]
  }

  lemma EndedCounted(w: World, c: Conn)
    requires Inv(w) && Legal(w, Release(c.id)) && Counted(c, w)
    ensures c.active > 0 && c.StreamClosed() == c.(active := c.active - 1)
  {
    hide AllCounted, Distinct, Apart;
    ReturnedInBounds(w, c.id);
    ClosedCounted(c, w, w.(returned := w.returned[c.id := w.returned[c.id] + 1]));
  }

  lemma DistinctLists(w: World)
    requires Inv(w)
    ensures Distinct(w.pool.ready) && Distinct(w.pool.connecting)
  {
  }

  /** A connection whose streams are used up never leaves the front of the ready list but by closing. */
  ghost predicate Blocked(w: World, id: nat) {
    Inv(w) && w.pool.ready != [] && w.pool.ready[0].id == id && w.pool.ready[0].remaining == 0
  }

  lemma BlockedStays(w: World, e: Event, id: nat)
    requires Blocked(w, id) && Legal(w, e) && e != Close(id)
    ensures Blocked(Step(w, e), id)
    ensures e.Acquire? ==> w.pool.Acquire(e.made).connection in {None, e.made}
  {
    hide Counted, Distinct, Apart, AllCounted, Pool.Acquire, Pool.Release, Pool.Connected, Pool.ClosedBy, InBounds;
    StepKeeps(w, e);
    match e
    case Acquire(made) =>
      AcquireMeaning(w, made);
      AcquireNewFront(w, made, id);
    case Release(r) => ReleaseFront(w, r);
    case Connect(r) => ConnectedFront(w, r);
    case Close(r) => ClosedFront(w, r);
  }

  lemma AcquireNewFront(w: World, made: Option<nat>, id: nat)
    requires Blocked(w, id)
    ensures w.pool.Acquire(made).pool.ready == w.pool.ready
  {
    hide Distinct, Apart;
    FrontId(w);
    UnusedIsRemaining(w.pool.ready[0], w);
    assert !w.pool.ready[0].ReadyForStream();
  }

  lemma ReleaseFront(w: World, r: nat)
    requires w.pool.ready != []
    ensures var ready := w.pool.Release(r).ready;
            ready != [] && ready[0].id == w.pool.ready[0].id && ready[0].remaining == w.pool.ready[0].remaining
  {
    hide Pool.Find, Pool.Release;
    if w.pool.Find(r).Some? {
      ReleasePool(w, r);
    } else {
      ReleaseUnknown(w, r);
    }
  }

  lemma ConnectedFront(w: World, r: nat)
    requires Inv(w) && w.pool.ready != []
    ensures w.pool.Connected(r).ready != [] && w.pool.Connected(r).ready[0] == w.pool.ready[0]
  {
    hide Pool.Find, Counted, Distinct, Apart;
    FoundPlace(w, r);
  }

  lemma ClosedFront(w: World, r: nat)
    requires Inv(w) && w.pool.ready != [] && w.pool.ready[0].id != r
    ensures w.pool.ClosedBy(r).ready != [] && w.pool.ClosedBy(r).ready[0] == w.pool.ready[0]
  {
    hide Pool.Find, Counted, Distinct, Apart, AllCounted, InBounds;
    FoundPlace(w, r);
  }

  /** Behind it, no connection is given a stream again, whatever happens, until it closes. */
  lemma {:induction false} BlockedForGood(w: World, run: seq<Event>, id: nat)
    requires Blocked(w, id) && LegalRun(w, run) && Close(id) !in run
    ensures Blocked(Run(w, run), id)
    ensures forall made :: Run(w, run).pool.Acquire(made).connection in {None, made}
    decreases |run|
  {
    hide Blocked, Legal, Step, Pool.Acquire;
    if run == [] {
      forall made
        ensures w.pool.Acquire(made).connection in {None, made}
      {
        BlockedRefuses(w, made, id);
      }
    } else {
      BlockedStays(w, run[0], id);
      BlockedForGood(Step(w, run[0]), run[1..], id);
    }
  }

  lemma BlockedRefuses(w: World, made: Option<nat>, id: nat)
    requires Blocked(w, id)
    ensures w.pool.Acquire(made).connection in {None, made}
  {
    hide Pool.Acquire, Counted, AllCounted, Distinct, Apart;
    AcquireMeaning(w, made);
  }

  const FULL := Conn(0, 0, 2, 2, Busy)
  const SECOND := Conn(1, 1, 2, 1, Connecting)
  const ONE_FULL := World(Pool([FULL], [], [], 1, 2, 2), map[0 := 2], map[0 := 0])
  const TWO := World(Pool([FULL, SECOND.(state := Ready)], [], [], 2, 2, 2), map[0 := 2, 1 := 1], map[0 := 0, 1 := 0])

  lemma FirstFull(rest: seq<Event>)
    ensures var run := [Acquire(Some(0))] + ([Connect(0)] + ([Acquire(None)] + rest));
            && Run(Empty(2, 2), run) == Run(ONE_FULL, rest)
            && (LegalRun(Empty(2, 2), run) <==> LegalRun(ONE_FULL, rest))
  {
    hide Pool.Find, Run, LegalRun, IndexOf;
    var a := Conn(0, 1, 2, 1, Connecting);
    var w1 := World(Pool([], [], [a], 1, 2, 2), map[0 := 1], map[0 := 0]);
    var w2 := World(Pool([a.(state := Ready)], [], [], 1, 2, 2), map[0 := 1], map[0 := 0]);
    assert Step(Empty(2, 2), Acquire(Some(0))) == w1;
    ConnectFirst(a, w1);
    assert Step(w1, Connect(0)) == w2;
    assert Step(w2, Acquire(None)) == ONE_FULL;
    RunOn(Empty(2, 2), Acquire(Some(0)), [Connect(0)] + ([Acquire(None)] + rest));
    RunOn(w1, Connect(0), [Acquire(None)] + rest);
    RunOn(w2, Acquire(None), rest);
  }

  lemma ThenSecond(rest: seq<Event>)
    ensures var run := [Acquire(Some(1))] + ([Connect(1)] + rest);
            Run(ONE_FULL, run) == Run(TWO, rest) && (LegalRun(ONE_FULL, run) <==> LegalRun(TWO, rest))
  {
    hide Pool.Find, Run, LegalRun, IndexOf;
    var w4 := World(Pool([FULL], [], [SECOND], 2, 2, 2), map[0 := 2, 1 := 1], map[0 := 0, 1 := 0]);
    assert Step(ONE_FULL, Acquire(Some(1))) == w4;
    ConnectFirst(SECOND, w4);
    assert Step(w4, Connect(1)) == TWO;
    RunOn(ONE_FULL, Acquire(Some(1)), [Connect(1)] + rest);
    RunOn(w4, Connect(1), rest);
  }

  /** So two connections of two streams each refuse a fourth stream, with one left. */
  lemma CapacityOutOfReach()
    ensures var run := [Acquire(Some(0))] + ([Connect(0)] + ([Acquire(None)]
            + ([Acquire(Some(1))] + ([Connect(1)] + []))));
            var w := Run(Empty(2, 2), run);
            && LegalRun(Empty(2, 2), run)
            && Live(Held(w.pool)) == 3 && w.pool.Acquire(Some(2)).connection == None
  {
    hide Pool.Find, Run, LegalRun, IndexOf;
    FirstFull([Acquire(Some(1))] + ([Connect(1)] + []));
    ThenSecond([]);
    RunNothing(TWO);
    assert Held(TWO.pool) == [FULL, SECOND.(state := Ready)];
    assert Live([FULL, SECOND.(state := Ready)]) == 2 + Live([SECOND.(state := Ready)]);
    assert Live([SECOND.(state := Ready)]) == 1;
  }
}
