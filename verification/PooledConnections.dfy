/** The connection pool as objects changed in place; ConnectionPools says what each call does to their values. */
module PooledConnections {
  import opened ConnectionPools

  class PooledConnection {
    const id: nat
    var remaining: uint32
    const limit: uint32
    var active: uint32
    var state: State

    constructor (id: nat, limit: uint32)
      ensures View() == Conn(id, limit, limit, 0, Connecting)
    {
      this.id, this.limit := id, limit;
      remaining, active, state := limit, 0, Connecting;
    }

    function View(): Conn
      reads this
    {
      Conn(id, remaining, limit, active, state)
    }

    method OnStreamCreated()
      modifies this
      ensures View() == old(View()).StreamCreated()
    {
      active := Wrap(active + 1);
      remaining := Wrap(remaining - 1);
      if View().Unused() == 0 {
        state := Busy;
      }
    }

    method OnStreamClosed()
      modifies this
      ensures View() == old(View()).StreamClosed()
    {
      active := Wrap(active - 1);
      if state == Busy && View().Unused() > 0 {
        state := Ready;
      }
    }
  }

  ghost function Views(list: seq<PooledConnection>): (views: seq<Conn>)
    reads list
    ensures |views| == |list| && forall i :: 0 <= i < |list| ==> views[i] == list[i].View()
  {
    if list == [] then [] else [list[0].View()] + Views(list[1..])
  }

  ghost predicate NoDup(list: seq<PooledConnection>) {
    forall i, j :: 0 <= i < j < |list| ==> list[i] != list[j]
  }

  ghost predicate Disjoint(a: seq<PooledConnection>, b: seq<PooledConnection>) {
    forall o :: o in a ==> o !in b
  }

  lemma WithoutAt<T>(list: seq<T>, i: nat)
    requires i < |list|
    ensures |Without(list, i)| == |list| - 1
    ensures forall k :: 0 <= k < i ==> Without(list, i)[k] == list[k]
    ensures forall k :: i < k < |list| ==> Without(list, i)[k - 1] == list[k]
    ensures forall k :: i <= k < |list| - 1 ==> Without(list, i)[k] == list[k + 1]
  {
  }

  lemma ErasedNodes(list: seq<PooledConnection>, i: nat)
    requires NoDup(list) && i < |list|
    ensures NoDup(Without(list, i)) && list[i] !in Without(list, i)
  {
    hide Without;
    WithoutAt(list, i);
  }

  lemma ErasedWithin<T>(list: seq<T>, i: nat)
    requires i < |list|
    ensures forall o :: o in Without(list, i) ==> o in list
  {
  }

  lemma ErasedViews(list: seq<PooledConnection>, i: nat)
    requires i < |list|
    ensures Views(Without(list, i)) == Without(Views(list), i)
  {
    hide Without;
    WithoutAt(list, i);
    WithoutAt(Views(list), i);
  }

  lemma Erased(list: seq<PooledConnection>, i: nat)
    requires NoDup(list) && i < |list|
    ensures NoDup(Without(list, i)) && list[i] !in Without(list, i)
    ensures forall o :: o in Without(list, i) ==> o in list
    ensures Views(Without(list, i)) == Without(Views(list), i)
  {
    hide Without, Views, NoDup;
    ErasedNodes(list, i);
    ErasedWithin(list, i);
    ErasedViews(list, i);
  }

  lemma Pushed(list: seq<PooledConnection>, node: PooledConnection)
    requires NoDup(list) && node !in list
    ensures NoDup(list + [node]) && Views(list + [node]) == Views(list) + [node.View()]
  {
  }

  /** What a list shows when one object may have changed since it showed `before`. */
  lemma Patched(list: seq<PooledConnection>, before: seq<Conn>, node: PooledConnection)
    requires NoDup(list) && |before| == |list|
    requires forall k :: 0 <= k < |list| && list[k] != node ==> list[k].View() == before[k]
    ensures forall i :: 0 <= i < |list| && list[i] == node ==> Views(list) == before[i := node.View()]
    ensures node !in list ==> Views(list) == before
  {
  }

  class ConnectionPool {
    var ready: seq<PooledConnection>
    var busy: seq<PooledConnection>
    var connecting: seq<PooledConnection>
    var total: int
    const max: nat
    const streams: uint32

    constructor (max: nat, streams: uint32)
      ensures Valid() && View() == Empty(max, streams).pool
    {
      ready, busy, connecting, total := [], [], [], 0;
      this.max, this.streams := max, streams;
    }

    ghost predicate Valid()
      reads this
    {
      && NoDup(ready) && NoDup(busy) && NoDup(connecting)
      && Disjoint(ready, busy) && Disjoint(ready, connecting) && Disjoint(busy, connecting)
    }

    ghost function View(): Pool
      reads this, ready, busy, connecting
    {
      Pool(Views(ready), Views(busy), Views(connecting), total, max, streams)
    }

    function Objects(list: ListName): seq<PooledConnection>
      reads this
    {
      match list
      case ReadyList => ready
      case BusyList => busy
      case ConnectingList => connecting
    }

    /** The connection in one of the lists that holds `id`, if there is one. */
    method FindIn(list: seq<PooledConnection>, id: nat) returns (k: nat)
      ensures k == IndexOf(Views(list), id)
    {
      k := 0;
      while k < |list| && list[k].id != id
        invariant k <= |list| && forall i :: 0 <= i < k ==> list[i].id != id
      {
        k := k + 1;
      }
      ghost var found := IndexOf(Views(list), id);
      assert found < |list| ==> Views(list)[found].id == id;
      assert k < |list| ==> Views(list)[k].id == id;
    }

    method FindPooledConnection(id: nat) returns (place: Option<Place>)
      ensures place == View().Find(id)
    {
      hide NoDup, Disjoint, Views, IndexOf;
      var r := FindIn(ready, id);
      if r < |ready| {
        return Some(Place(ReadyList, r));
      }
      var b := FindIn(busy, id);
      if b < |busy| {
        return Some(Place(BusyList, b));
      }
      var c := FindIn(connecting, id);
      if c < |connecting| {
        return Some(Place(ConnectingList, c));
      }
      return None;
    }

    method SetState(place: Place, state: State)
      requires Valid() && place.index < |Objects(place.list)|
      modifies Objects(place.list)[place.index]
      ensures View() == (var v: Pool := old(View()); v.Put(place, v.At(place).(state := state)))
    {
      hide NoDup;
      ghost var before := View();
      var pooled := Objects(place.list)[place.index];
      pooled.state := state;
      Patched(ready, before.ready, pooled);
      Patched(busy, before.busy, pooled);
      Patched(connecting, before.connecting, pooled);
    }

    method CreateStream(place: Place)
      requires Valid() && place.index < |Objects(place.list)|
      modifies Objects(place.list)[place.index]
      ensures View() == (var v: Pool := old(View()); v.Put(place, v.At(place).StreamCreated()))
    {
      hide NoDup;
      ghost var before := View();
      var pooled := Objects(place.list)[place.index];
      pooled.OnStreamCreated();
      Patched(ready, before.ready, pooled);
      Patched(busy, before.busy, pooled);
      Patched(connecting, before.connecting, pooled);
    }

    method CloseStream(place: Place)
      requires Valid() && place.index < |Objects(place.list)|
      modifies Objects(place.list)[place.index]
      ensures View() == (var v: Pool := old(View()); v.Put(place, v.At(place).StreamClosed()))
    {
      hide NoDup;
      ghost var before := View();
      var pooled := Objects(place.list)[place.index];
      pooled.OnStreamClosed();
      Patched(ready, before.ready, pooled);
      Patched(busy, before.busy, pooled);
      Patched(connecting, before.connecting, pooled);
    }

    /** Erases a node from the list it is in. */
    method Erase(place: Place) returns (node: PooledConnection)
      requires Valid() && place.index < |Objects(place.list)|
      modifies this`ready, this`busy, this`connecting
      ensures Valid() && node == old(Objects(place.list)[place.index])
      ensures node !in ready && node !in busy && node !in connecting
      ensures View() == (var v: Pool := old(View()); v.Unlink(place))
      ensures forall o :: o in ready || o in busy || o in connecting ==> old(o in ready || o in busy || o in connecting)
    {
      hide NoDup, Views, Without;
      node := Objects(place.list)[place.index];
      Erased(Objects(place.list), place.index);
      match place.list
      case ReadyList => ready := Without(ready, place.index);
      case BusyList => busy := Without(busy, place.index);
      case ConnectingList => connecting := Without(connecting, place.index);
    }

    method PushBack(list: ListName, node: PooledConnection)
      requires Valid() && node !in ready && node !in busy && node !in connecting
      modifies this`ready, this`busy, this`connecting
      ensures Valid()
      ensures View() == (var v: Pool := old(View()); v.PushBack(list, node.View()))
      ensures forall o :: o in ready || o in busy || o in connecting ==>
                o == node || old(o in ready || o in busy || o in connecting)
    {
      hide NoDup, Views;
      Pushed(Objects(list), node);
      match list
      case ReadyList => ready := ready + [node];
      case BusyList => busy := busy + [node];
      case ConnectingList => connecting := connecting + [node];
    }

    method TransitionConnectionState(place: Place, state: State)
      requires Valid() && place.index < |Objects(place.list)|
      modifies this`ready, this`busy, this`connecting, Objects(place.list)[place.index]
      ensures Valid()
      ensures View() == (var v: Pool := old(View()); v.Transition(place, state))
    {
      hide NoDup, Disjoint, Views, Without;
      ghost var before := View();
      var from := OwningList(Objects(place.list)[place.index].state);
      SetState(place, state);
      if from != OwningList(state) {
        var node := Erase(place);
        PushBack(OwningList(state), node);
        PutThenUnlink(before, place, before.At(place).(state := state));
      }
    }

    method AddConnecting(node: PooledConnection)
      requires Valid() && node !in ready && node !in busy && node !in connecting
      modifies this
      ensures Valid()
      ensures View() == (var v: Pool := old(View()); v.PushBack(ConnectingList, node.View()).(total := v.total + 1))
    {
      hide NoDup, Disjoint, Views;
      PushBack(ConnectingList, node);
      total := total + 1;
    }

    method RemoveConnection(place: Place)
      requires Valid() && place.index < |Objects(place.list)|
      modifies this
      ensures Valid()
      ensures View() == (var v: Pool := old(View()); v.Unlink(place).(total := v.total - 1))
    {
      hide NoDup, Disjoint, Views, Without;
      var node := Erase(place);
      total := total - 1;
    }

    /** A new connection, with a stream on it. */
    method Reserved(id: nat) returns (pooled: PooledConnection)
      ensures fresh(pooled) && pooled.View() == Conn(id, streams, streams, 0, Connecting).StreamCreated()
    {
      pooled := new PooledConnection(id, streams);
      pooled.OnStreamCreated();
    }

    method CreateNewConnectionForStream(made: Option<nat>) returns (connection: Option<nat>)
      requires Valid()
      modifies this
      ensures Valid()
      ensures Granted(View(), connection) == (var v: Pool := old(View()); v.Create(made))
    {
      if made.None? {
        return None;
      }
      hide NoDup, Disjoint, Views, Conn.StreamCreated;
      var pooled := Reserved(made.value);
      AddConnecting(pooled);
      return made;
    }

    method AcquireConnection(made: Option<nat>) returns (connection: Option<nat>)
      requires Valid()
      modifies this, ready
      ensures Valid()
      ensures Granted(View(), connection) == (var v: Pool := old(View()); v.Acquire(made))
    {
      if ready != [] {
        var pooled := ready[0];
        if pooled.View().ReadyForStream() {
          CreateStream(Place(ReadyList, 0));
          if !pooled.View().ReadyForStream() {
            TransitionConnectionState(Place(ReadyList, 0), Busy);
          }
          return Some(pooled.id);
        }
      }
      if total < max {
        connection := CreateNewConnectionForStream(made);
        return;
      }
      return None;
    }

    method ReleaseStream(id: nat)
      requires Valid()
      modifies this, ready, busy, connecting
      ensures Valid()
      ensures View() == (var v: Pool := old(View()); v.Release(id))
    {
      hide NoDup, Disjoint, Views, Pool.Find, Without, IndexOf;
      var place := FindPooledConnection(id);
      if place.None? {
        return;
      }
      CloseStream(place.value);
      var pooled := Objects(place.value.list)[place.value.index];
      if pooled.state == Busy && pooled.View().ReadyForStream() {
        assert false;
      }
    }

    method OnConnectionConnected(id: nat)
      requires Valid()
      modifies this, ready, busy, connecting
      ensures Valid()
      ensures View() == (var v: Pool := old(View()); v.Connected(id))
    {
      hide NoDup, Disjoint, Views, Pool.Find, Without, IndexOf;
      var place := FindPooledConnection(id);
      if place.Some? {
        if Objects(place.value.list)[place.value.index].state == Connecting {
          TransitionConnectionState(place.value, Ready);
        }
      }
    }

    method OnConnectionClosed(id: nat)
      requires Valid()
      modifies this
      ensures Valid()
      ensures View() == (var v: Pool := old(View()); v.ClosedBy(id))
    {
      hide NoDup, Disjoint, Views, Pool.Find, Without, IndexOf;
      var place := FindPooledConnection(id);
      if place.Some? {
        RemoveConnection(place.value);
      }
    }
  }

  lemma PutThenUnlink(p: Pool, place: Place, c: Conn)
    requires p.Has(place)
    ensures p.Put(place, c).Unlink(place) == p.Unlink(place)
  {
    assert Without(p.List(place.list)[place.index := c], place.index) == Without(p.List(place.list), place.index);
  }
}
