/**
 The handle table and the buffer pool as objects, and the C calls made of them; BufferPools has the
 values they take.
 */
module BufferHandles {
  import opened SliceViews
  import opened Buffers
  import BufferPools

  class HandleManager<T> {
    var table: map<nat, T>
    var next: nat

    constructor ()
      ensures State() == BufferPools.Handles(map[], 1)
    {
      table, next := map[], 1;
    }

    function State(): BufferPools.Handles<T>
      reads this
    {
      BufferPools.Handles(table, next)
    }

    /** Nothing to store gives no handle; otherwise the next one, never given out before, names it. */
    method Store(item: BufferPools.Option<T>) returns (handle: nat)
      modifies this
      ensures item.None? ==> handle == 0 && State() == old(State())
      ensures item.Some? ==> handle == old(next)
                             && State() == (var s: BufferPools.Handles<T> := old(State()); s.Store(item.value))
    {
      if item.None? {
        return 0;
      }
      handle := next;
      next := next + 1;
      table := table[handle := item.value];
    }

    method Get(handle: nat) returns (item: BufferPools.Option<T>)
      ensures item == State().Get(handle)
    {
      if handle == 0 {
        return BufferPools.None;
      }
      if handle in table {
        return BufferPools.Some(table[handle]);
      }
      return BufferPools.None;
    }

    method Release(handle: nat)
      modifies this
      ensures State() == (var s: BufferPools.Handles<T> := old(State()); s.Release(handle))
    {
      if handle == 0 {
        return;
      }
      table := table - {handle};
    }

    /** Forgets every handle; none of them is given out again. */
    method Clear()
      modifies this
      ensures State() == BufferPools.Handles(map[], old(next))
    {
      table := map[];
    }
  }

  method PreAllocated(count: nat) returns (made: seq<OwnedBuffer>)
    ensures |made| == count
    ensures forall i :: 0 <= i < count ==> fresh(made[i]) && made[i].Valid() && made[i].Contents() == []
    ensures forall i, j :: 0 <= i < j < count ==> made[i] != made[j]
  {
    hide OwnedBuffer.Valid;
    made := [];
    while |made| < count
      invariant |made| <= count
      invariant forall i :: 0 <= i < |made| ==> fresh(made[i]) && made[i].Valid() && made[i].Contents() == []
      invariant forall i, j :: 0 <= i < j < |made| ==> made[i] != made[j]
    {
      var buffer := new OwnedBuffer();
      made := made + [buffer];
    }
  }

  class BufferPool {
    var free: seq<OwnedBuffer>
    const max: nat

    function State(): BufferPools.Pool<OwnedBuffer>
      reads this
    {
      BufferPools.Pool(free, max)
    }

    /** As many free buffers as the pool may hold, all different and empty. */
    constructor (max: nat)
      ensures this.max == max == |free|
      ensures forall i :: 0 <= i < max ==> fresh(free[i]) && free[i].Valid() && free[i].Contents() == []
      ensures forall i, j :: 0 <= i < j < max ==> free[i] != free[j]
    {
      var made := PreAllocated(max);
      free := made;
      this.max := max;
    }

    method Acquire() returns (buffer: BufferPools.Option<OwnedBuffer>)
      modifies this
      ensures var s: BufferPools.Pool<OwnedBuffer> := old(State());
              buffer == s.Acquire() && State() == s.Acquired()
    {
      if free == [] {
        return BufferPools.None;
      }
      buffer := BufferPools.Some(free[|free| - 1]);
      free := free[..|free| - 1];
    }

    method Release(buffer: OwnedBuffer)
      requires buffer.Valid() && this !in buffer.Repr
      modifies this, buffer.Repr
      ensures State() == (var s: BufferPools.Pool<OwnedBuffer> := old(State()); s.Release(buffer))
      ensures buffer.Valid() && buffer.Contents() == [] && buffer.Repr == old(buffer.Repr)
    {
      var ok := buffer.Drain(buffer.Length());
      if |free| < max {
        free := free + [buffer];
      }
    }
  }

  /** The calls on buffers of the C API, over one table of handles. */
  class FilterBuffers {
    const handles: HandleManager<OwnedBuffer>

    constructor ()
      ensures fresh(handles) && handles.State() == BufferPools.Handles(map[], 1)
    {
      handles := new HandleManager<OwnedBuffer>();
    }

    method BufferCreate(data: seq<byte>) returns (handle: nat)
      modifies handles
      ensures handle == old(handles.next) && handles.next == handle + 1
      ensures handle in handles.table && handles.table == old(handles.table)[handle := handles.table[handle]]
      ensures var buffer := handles.table[handle];
              fresh(buffer) && buffer.Valid() && buffer.Contents() == data
    {
      var buffer := new OwnedBuffer();
      if data != [] {
        buffer.Add(data);
      }
      handle := handles.Store(BufferPools.Some(buffer));
    }

    method BufferRelease(handle: nat)
      modifies handles
      ensures handles.State() == (var s: BufferPools.Handles<OwnedBuffer> := old(handles.State()); s.Release(handle))
    {
      handles.Release(handle);
    }

    /** 0 for a pool with nothing free, else a handle never given out before. */
    method PoolAcquire(pool: BufferPool) returns (handle: nat)
      modifies handles, pool
      ensures var p, s: BufferPools.Handles<OwnedBuffer> := old(pool.State()), old(handles.State());
              && pool.State() == p.Acquired()
              && (p.free == [] ==> handle == 0 && handles.State() == s)
              && (p.free != [] ==> handle == s.next && handles.State() == s.Store(p.free[|p.free| - 1]))
    {
      var buffer := pool.Acquire();
      if buffer.None? {
        return 0;
      }
      handle := handles.Store(buffer);
    }

    /** Empties the buffer behind a handle, gives it back to the pool and spends the handle. */
    method PoolRelease(pool: BufferPool, handle: nat)
      requires handle != 0 && handle in handles.table ==>
                 handles.table[handle].Valid() && pool !in handles.table[handle].Repr
                     && handles !in handles.table[handle].Repr
      modifies handles, pool, if handle != 0 && handle in handles.table then handles.table[handle].Repr else {}
      ensures var p, s: BufferPools.Handles<OwnedBuffer> := old(pool.State()), old(handles.State());
              if s.Get(handle).None? then pool.State() == p && handles.State() == s
              else
                && pool.State() == p.Release(s.table[handle])
                && handles.State() == s.Release(handle)
                && s.table[handle].Valid() && s.table[handle].Contents() == []
    {
      var buffer := handles.Get(handle);
      if buffer.Some? {
        pool.Release(buffer.value);
        handles.Release(handle);
      }
    }
  }
}
