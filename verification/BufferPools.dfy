/**
 Buffer handles and buffer pools of the C API. The table of handles and each pool have
 a lock of their own; a call that uses both takes them one after the other, so the
 steps between two locks are the steps of a run here, and any callers may interleave.
 */
module BufferPools {
  datatype Option<T> = None | Some(value: T)

  /** The table of one handle manager. */
  datatype Handles<B> = Handles(table: map<nat, B>, next: nat) {
    function Store(b: B): Handles<B> { Handles(table[next := b], next + 1) }

    function Get(h: nat): Option<B> { if h != 0 && h in table then Some(table[h]) else None }

    function Release(h: nat): Handles<B> { if h == 0 then this else this.(table := table - {h}) }
  }

  /** A pool: its free buffers, the last one given first. */
  datatype Pool<B> = Pool(free: seq<B>, max: nat) {
    function Acquire(): Option<B> { if free == [] then None else Some(free[|free| - 1]) }

    function Acquired(): Pool<B> { if free == [] then this else this.(free := free[..|free| - 1]) }

    function Release(b: B): Pool<B> { if |free| < max then this.(free := free + [b]) else this }
  }

  /** A table gives back what was stored under a handle until that handle is released, and nothing for 0. */
  lemma TableMeaning<B>(hs: Handles<B>, b: B, h: nat)
    requires hs.next >= 1
    ensures hs.Get(0) == None && hs.Store(b).next == hs.next + 1
    ensures hs.Store(b).Get(h) == if h == hs.next then Some(b) else hs.Get(h)
    ensures forall gone :: hs.Release(gone).next == hs.next
                           && hs.Release(gone).Get(h) == if h == gone then None else hs.Get(h)
  {
  }

  /** A pool gives back last what was released to it last, as long as it had room for it, and keeps the others. */
  lemma PoolMeaning<B>(p: Pool<B>, b: B)
    ensures p.Acquire() == None <==> p.free == []
    ensures p.free == [] ==> p.Acquired() == p
    ensures p.Acquire().Some? ==> p.Acquired().free + [p.Acquire().value] == p.free && p.Acquired().max == p.max
    ensures if |p.free| < p.max then p.Release(b).Acquire() == Some(b) && p.Release(b).Acquired() == p
            else p.Release(b) == p
  {
    assert |p.free| < p.max ==> (p.free + [b])[..|p.free|] == p.free;
  }

  // ----- the callers and their steps -----

  /** What a caller in the middle of a call has in hand. */
  datatype Caller =
    | Holding(buffer: nat)
    | Releasing(pool: nat, handle: nat, buffer: nat)
    | Pushed(handle: nat)

  /** Buffers are numbers; `known` are those that ever existed, `dirty` those with bytes in them. */
  datatype World = World(handles: Handles<nat>, pools: map<nat, Pool<nat>>, callers: map<nat, Caller>,
      known: set<nat>, dirty: set<nat>)

  datatype Event =
    | NewPool(pool: nat, buffers: seq<nat>)
    | Create(buffer: nat, filled: bool)
    | Write(handle: nat, filled: bool)
    | Drop(handle: nat)
    | Take(caller: nat, pool: nat)
    | Keep(caller: nat)
    | Look(caller: nat, pool: nat, handle: nat)
    | Push(caller: nat)
    | Erase(caller: nat)

  predicate Releases(c: Caller, h: nat) { !c.Holding? && c.handle == h }

  ghost predicate InRelease(callers: map<nat, Caller>, h: nat) { exists t :: t in callers && Releases(callers[t], h) }

  /**
   Buffers are new objects, calls follow their own steps, and no handle is used or released while it is
   being released.
   */
  ghost predicate Legal(w: World, e: Event) {
    match e
    case NewPool(p, buffers) =>
      && p !in w.pools && (forall i :: 0 <= i < |buffers| ==> buffers[i] !in w.known)
      && (forall i, j :: 0 <= i < j < |buffers| ==> buffers[i] != buffers[j])
    case Create(b, _) => b !in w.known
    case Write(h, _) => !InRelease(w.callers, h)
    case Drop(h) => !InRelease(w.callers, h)
    case Take(t, p) => t !in w.callers && p in w.pools
    case Keep(t) => t in w.callers && w.callers[t].Holding?
    case Look(t, p, h) => t !in w.callers && p in w.pools && !InRelease(w.callers, h)
    case Push(t) => t in w.callers && w.callers[t].Releasing?
    case Erase(t) => t in w.callers && w.callers[t].Pushed?
  }

  function Mark(dirty: set<nat>, b: nat, filled: bool): set<nat> { if filled then dirty + {b} else dirty - {b} }

  /** One step; a step its caller is not at does nothing. */
  function Step(w: World, e: Event): World {
    match e
    case NewPool(p, buffers) =>
      w.(pools := w.pools[p := Pool(buffers, |buffers|)], known := w.known + (set b | b in buffers),
         dirty := w.dirty - (set b | b in buffers))
    case Create(b, filled) =>
      w.(handles := w.handles.Store(b), known := w.known + {b}, dirty := Mark(w.dirty, b, filled))
    case Write(h, filled) =>
      if w.handles.Get(h).None? then w else w.(dirty := Mark(w.dirty, w.handles.Get(h).value, filled))
    case Drop(h) => w.(handles := w.handles.Release(h))
    case Take(t, p) =>
      if p !in w.pools || w.pools[p].Acquire().None? then w
      else w.(pools := w.pools[p := w.pools[p].Acquired()],
          callers := w.callers[t := Holding(w.pools[p].Acquire().value)])
    case Keep(t) =>
      if t !in w.callers || !w.callers[t].Holding? then w
      else w.(handles := w.handles.Store(w.callers[t].buffer), callers := w.callers - {t})
    case Look(t, p, h) =>
      if w.handles.Get(h).None? then w else w.(callers := w.callers[t := Releasing(p, h, w.handles.Get(h).value)])
    case Push(t) =>
      if t !in w.callers || !w.callers[t].Releasing? || w.callers[t].pool !in w.pools then w
      else
        var Releasing(p, h, b) := w.callers[t];
        w.(pools := w.pools[p := w.pools[p].Release(b)], dirty := w.dirty - {b}, callers := w.callers[t := Pushed(h)])
    case Erase(t) =>
      if t !in w.callers || !w.callers[t].Pushed? then w
      else w.(handles := w.handles.Release(w.callers[t].handle), callers := w.callers - {t})
  }

  function Run(w: World, run: seq<Event>): World
    decreases |run|
  {
    if run == [] then w else Run(Step(w, run[0]), run[1..])
  }

  ghost predicate LegalRun(w: World, run: seq<Event>)
    decreases |run|
  {
    run == [] || (Legal(w, run[0]) && LegalRun(Step(w, run[0]), run[1..]))
  }

  const START := World(Handles(map[], 1), map[], map[], {}, {})

  // ----- what holds of every run -----

  /** A handle a caller may use: it resolves, and nobody is releasing it. */
  ghost predicate Live(w: World, h: nat) { h in w.handles.table && !InRelease(w.callers, h) }

  ghost predicate FreeIn(pools: map<nat, Pool<nat>>, p: nat, i: nat) { p in pools && i < |pools[p].free| }

  /** Every buffer has at most one owner: one place in one free list, or one live handle. */
  ghost predicate Exclusive(w: World) {
    && (forall p: nat, i: nat, h: nat ::
          FreeIn(w.pools, p, i) && Live(w, h) ==> w.pools[p].free[i] != w.handles.table[h])
    && (forall h: nat, h': nat :: Live(w, h) && Live(w, h') && w.handles.table[h] == w.handles.table[h'] ==> h == h')
    && (forall p: nat, i: nat, p': nat, i': nat ::
          FreeIn(w.pools, p, i) && FreeIn(w.pools, p', i') && w.pools[p].free[i] == w.pools[p'].free[i'] ==>
            p == p' && i == i')
  }

  /** Free buffers are empty, and no free list is longer than its maximum. */
  ghost predicate Tidy(pools: map<nat, Pool<nat>>, dirty: set<nat>) {
    && (forall p: nat, i: nat :: FreeIn(pools, p, i) ==> pools[p].free[i] !in dirty)
    && (forall p :: p in pools ==> |pools[p].free| <= pools[p].max)
  }

  /** Where a buffer is. */
  datatype Place = FreeAt(pool: nat, index: nat) | Behind(handle: nat) | With(caller: nat) | Gone

  type Places = map<nat, Place>

  ghost predicate At(at: Places, b: nat, place: Place) { b in at && at[b] == place }

  ghost predicate FreePlaced(pools: map<nat, Pool<nat>>, at: Places) {
    forall p: nat, i: nat :: FreeIn(pools, p, i) ==> At(at, pools[p].free[i], FreeAt(p, i))
  }

  ghost predicate HandlesPlaced(handles: Handles<nat>, callers: map<nat, Caller>, at: Places) {
    forall h: nat :: h in handles.table ==>
      1 <= h < handles.next && (!InRelease(callers, h) ==> At(at, handles.table[h], Behind(h)))
  }

  ghost predicate CallerPlaced(c: Caller, t: nat, at: Places, dirty: set<nat>, pools: set<nat>, next: nat) {
    match c
    case Holding(b) => At(at, b, With(t)) && b !in dirty
    case Releasing(p, h, b) => At(at, b, With(t)) && p in pools && 1 <= h < next
    case Pushed(h) => 1 <= h < next
  }

  ghost predicate CallersPlaced(callers: map<nat, Caller>, at: Places, dirty: set<nat>, pools: set<nat>, next: nat) {
    forall t :: t in callers ==> CallerPlaced(callers[t], t, at, dirty, pools, next)
  }

  ghost predicate OneReleases(callers: map<nat, Caller>) {
    forall t, u :: t in callers && u in callers && !callers[u].Holding? && Releases(callers[t], callers[u].handle)
        ==> t == u
  }

  ghost predicate Inv(w: World, at: Places) {
    && at.Keys == w.known && w.handles.next >= 1
    && FreePlaced(w.pools, at) && Tidy(w.pools, w.dirty)
    && HandlesPlaced(w.handles, w.callers, at)
    && CallersPlaced(w.callers, at, w.dirty, w.pools.Keys, w.handles.next) && OneReleases(w.callers)
  }

  lemma InvMeaning(w: World, at: Places)
    requires Inv(w, at)
    ensures Exclusive(w) && Tidy(w.pools, w.dirty)
  {
    hide InRelease, CallersPlaced, OneReleases, Tidy;
  }

  // ----- a buffer that moves, moves from one place -----

  lemma FreeStays(pools: map<nat, Pool<nat>>, at: Places, b: nat, place: Place)
    requires FreePlaced(pools, at) && (b in at ==> !at[b].FreeAt?)
    ensures FreePlaced(pools, at[b := place])
  {
    assert forall p: nat, i: nat :: FreeIn(pools, p, i) ==> At(at, pools[p].free[i], FreeAt(p, i));
  }

  lemma HandlesStay(handles: Handles<nat>, callers: map<nat, Caller>, at: Places, b: nat, place: Place)
    requires HandlesPlaced(handles, callers, at)
    requires b in at && at[b].Behind? ==> InRelease(callers, at[b].handle)
    ensures HandlesPlaced(handles, callers, at[b := place])
  {
    hide InRelease;
  }

  lemma CallersStay(callers: map<nat, Caller>, at: Places, dirty: set<nat>, pools: set<nat>, next: nat, b: nat,
      place: Place)
    requires CallersPlaced(callers, at, dirty, pools, next) && (b in at ==> !at[b].With?)
    ensures CallersPlaced(callers, at[b := place], dirty, pools, next)
  {
  }

  lemma CallersGrown(callers: map<nat, Caller>, at: Places, dirty: set<nat>, pools: set<nat>, next: nat,
      pools': set<nat>, next': nat)
    requires CallersPlaced(callers, at, dirty, pools, next) && pools <= pools' && next <= next'
    ensures CallersPlaced(callers, at, dirty, pools', next')
  {
  }

  lemma CallersMarked(callers: map<nat, Caller>, at: Places, dirty: set<nat>, pools: set<nat>, next: nat, b: nat,
      filled: bool)
    requires CallersPlaced(callers, at, dirty, pools, next) && (b in at && at[b].With? ==> !filled)
    ensures CallersPlaced(callers, at, Mark(dirty, b, filled), pools, next)
  {
  }

  lemma TidyMarked(pools: map<nat, Pool<nat>>, at: Places, dirty: set<nat>, b: nat, filled: bool)
    requires FreePlaced(pools, at) && Tidy(pools, dirty) && (b in at && at[b].FreeAt? ==> !filled)
    ensures Tidy(pools, Mark(dirty, b, filled))
  {
    assert forall p: nat, i: nat :: FreeIn(pools, p, i) ==> At(at, pools[p].free[i], FreeAt(p, i));
  }

  lemma HandlesStored(handles: Handles<nat>, callers: map<nat, Caller>, at: Places, b: nat)
    requires HandlesPlaced(handles, callers, at) && (b in at ==> !at[b].Behind?) && handles.next >= 1
    ensures HandlesPlaced(handles.Store(b), callers, at[b := Behind(handles.next)])
  {
    hide InRelease;
    var at' := at[b := Behind(handles.next)];
    forall h: nat | h in handles.Store(b).table && h != handles.next
      ensures 1 <= h < handles.next && (!InRelease(callers, h) ==> At(at', handles.table[h], Behind(h)))
    {
      assert h in handles.table;
    }
  }

  lemma HandlesReleased(handles: Handles<nat>, callers: map<nat, Caller>, at: Places, h: nat)
    requires HandlesPlaced(handles, callers, at)
    ensures HandlesPlaced(handles.Release(h), callers, at)
  {
    hide InRelease;
  }

  // ----- a caller that goes on -----

  /** The handles released by these callers are released by those. */
  ghost predicate AlsoReleased(callers: map<nat, Caller>, callers': map<nat, Caller>) {
    forall h: nat :: InRelease(callers, h) ==> InRelease(callers', h)
  }

  lemma HandlesOn(handles: Handles<nat>, callers: map<nat, Caller>, callers': map<nat, Caller>, at: Places)
    requires HandlesPlaced(handles, callers, at) && AlsoReleased(callers, callers')
    ensures HandlesPlaced(handles, callers', at)
  {
    hide InRelease;
  }

  lemma ReleasedStays(callers: map<nat, Caller>, t: nat, c: Caller)
    requires t in callers ==> callers[t].Holding? || (!c.Holding? && c.handle == callers[t].handle)
    ensures AlsoReleased(callers, callers[t := c])
  {
    forall h: nat | InRelease(callers, h)
      ensures InRelease(callers[t := c], h)
    {
      var u :| u in callers && Releases(callers[u], h);
      assert Releases(callers[t := c][u], h);
    }
  }

  lemma HoldingLeaves(callers: map<nat, Caller>, t: nat)
    requires t in callers && callers[t].Holding?
    ensures AlsoReleased(callers, callers - {t})
  {
    forall h: nat | InRelease(callers, h)
      ensures InRelease(callers - {t}, h)
    {
      var u :| u in callers && Releases(callers[u], h);
      assert u in callers - {t} && Releases((callers - {t})[u], h);
    }
  }

  lemma CallersOn(callers: map<nat, Caller>, at: Places, dirty: set<nat>, pools: set<nat>, next: nat, t: nat, c: Caller)
    requires CallersPlaced(callers - {t}, at, dirty, pools, next) && CallerPlaced(c, t, at, dirty, pools, next)
    ensures CallersPlaced(callers[t := c], at, dirty, pools, next)
  {
    hide CallerPlaced;
    var callers' := callers[t := c];
    forall u | u in callers'
      ensures CallerPlaced(callers'[u], u, at, dirty, pools, next)
    {
      if u != t {
        assert u in callers - {t};
      }
    }
  }

  lemma CallersLess(callers: map<nat, Caller>, at: Places, dirty: set<nat>, pools: set<nat>, next: nat, t: nat)
    requires CallersPlaced(callers, at, dirty, pools, next)
    ensures CallersPlaced(callers - {t}, at, dirty, pools, next)
  {
  }

  lemma WithoutCaller(callers: map<nat, Caller>, at: Places, dirty: set<nat>, pools: set<nat>, next: nat, t: nat,
      b: nat, place: Place)
    requires CallersPlaced(callers, at, dirty, pools, next) && At(at, b, With(t))
    ensures CallersPlaced(callers - {t}, at[b := place], dirty, pools, next)
  {
  }

  lemma OneReleasesOn(callers: map<nat, Caller>, t: nat, c: Caller)
    requires OneReleases(callers)
    requires c.Holding? || !InRelease(callers - {t}, c.handle)
    ensures OneReleases(callers[t := c]) && OneReleases(callers - {t})
  {
    if !c.Holding? {
      forall u | u in callers && u != t
        ensures !Releases(callers[u], c.handle)
      {
        assert u in callers - {t} && (callers - {t})[u] == callers[u];
      }
    }
  }

  // ----- every step keeps it -----

  lemma KeepsCreate(w: World, at: Places, b: nat, filled: bool)
    requires Inv(w, at) && Legal(w, Create(b, filled))
    ensures Inv(Step(w, Create(b, filled)), at[b := Behind(w.handles.next)])
  {
    hide FreePlaced, Tidy, HandlesPlaced, CallersPlaced, OneReleases, Mark, InRelease;
    var place := Behind(w.handles.next);
    FreeStays(w.pools, at, b, place);
    TidyMarked(w.pools, at, w.dirty, b, filled);
    HandlesStored(w.handles, w.callers, at, b);
    CallersStay(w.callers, at, w.dirty, w.pools.Keys, w.handles.next, b, place);
    CallersMarked(w.callers, at[b := place], w.dirty, w.pools.Keys, w.handles.next, b, filled);
    CallersGrown(w.callers, at[b := place], Mark(w.dirty, b, filled), w.pools.Keys, w.handles.next, w.pools.Keys,
        w.handles.next + 1);
  }

  lemma Resolves(w: World, at: Places, h: nat)
    requires Inv(w, at) && !InRelease(w.callers, h) && w.handles.Get(h).Some?
    ensures At(at, w.handles.Get(h).value, Behind(h)) && 1 <= h < w.handles.next
  {
    hide InRelease, FreePlaced, Tidy, CallersPlaced, OneReleases;
  }

  lemma KeepsWrite(w: World, at: Places, h: nat, filled: bool)
    requires Inv(w, at) && Legal(w, Write(h, filled))
    ensures Inv(Step(w, Write(h, filled)), at)
  {
    hide FreePlaced, Tidy, HandlesPlaced, CallersPlaced, OneReleases, Mark, InRelease;
    if w.handles.Get(h).Some? {
      Resolves(w, at, h);
      TidyMarked(w.pools, at, w.dirty, w.handles.Get(h).value, filled);
      CallersMarked(w.callers, at, w.dirty, w.pools.Keys, w.handles.next, w.handles.Get(h).value, filled);
    }
  }

  lemma KeepsDrop(w: World, at: Places, h: nat)
    requires Inv(w, at) && Legal(w, Drop(h))
    ensures Inv(Step(w, Drop(h)), at)
  {
    hide FreePlaced, Tidy, HandlesPlaced, CallersPlaced, OneReleases, InRelease;
    HandlesReleased(w.handles, w.callers, at, h);
  }

  lemma FreeTaken(pools: map<nat, Pool<nat>>, at: Places, dirty: set<nat>, p: nat, place: Place)
    requires p in pools && pools[p].free != [] && FreePlaced(pools, at) && Tidy(pools, dirty)
    ensures var b, pools' := pools[p].Acquire().value, pools[p := pools[p].Acquired()];
            && At(at, b, FreeAt(p, |pools[p].free| - 1)) && b !in dirty
            && FreePlaced(pools', at[b := place]) && Tidy(pools', dirty) && pools'.Keys == pools.Keys
  {
    var b, pools' := pools[p].Acquire().value, pools[p := pools[p].Acquired()];
    assert FreeIn(pools, p, |pools[p].free| - 1);
    forall q: nat, i: nat | FreeIn(pools', q, i)
      ensures At(at[b := place], pools'[q].free[i], FreeAt(q, i)) && pools'[q].free[i] !in dirty
    {
      assert FreeIn(pools, q, i);
    }
  }

  lemma KeepsTake(w: World, at: Places, t: nat, p: nat)
    requires Inv(w, at) && Legal(w, Take(t, p)) && w.pools[p].free != []
    ensures Inv(Step(w, Take(t, p)), at[w.pools[p].Acquire().value := With(t)])
  {
    hide FreePlaced, Tidy, HandlesPlaced, CallersPlaced, OneReleases, InRelease, AlsoReleased;
    var b, place := w.pools[p].Acquire().value, With(t);
    FreeTaken(w.pools, at, w.dirty, p, place);
    HandlesStay(w.handles, w.callers, at, b, place);
    ReleasedStays(w.callers, t, Holding(b));
    HandlesOn(w.handles, w.callers, w.callers[t := Holding(b)], at[b := place]);
    CallersStay(w.callers, at, w.dirty, w.pools.Keys, w.handles.next, b, place);
    CallersLess(w.callers, at[b := place], w.dirty, w.pools.Keys, w.handles.next, t);
    CallersOn(w.callers, at[b := place], w.dirty, w.pools.Keys, w.handles.next, t, Holding(b));
    OneReleasesOn(w.callers, t, Holding(b));
  }

  lemma CallerAt(w: World, at: Places, t: nat)
    requires Inv(w, at) && t in w.callers
    ensures CallerPlaced(w.callers[t], t, at, w.dirty, w.pools.Keys, w.handles.next)
  {
  }

  lemma KeepsKeep(w: World, at: Places, t: nat)
    requires Inv(w, at) && Legal(w, Keep(t))
    ensures Inv(Step(w, Keep(t)), at[w.callers[t].buffer := Behind(w.handles.next)])
  {
    hide FreePlaced, Tidy, HandlesPlaced, CallersPlaced, OneReleases, InRelease, AlsoReleased;
    var b, place := w.callers[t].buffer, Behind(w.handles.next);
    CallerAt(w, at, t);
    FreeStays(w.pools, at, b, place);
    HandlesStored(w.handles, w.callers, at, b);
    HoldingLeaves(w.callers, t);
    HandlesOn(w.handles.Store(b), w.callers, w.callers - {t}, at[b := place]);
    WithoutCaller(w.callers, at, w.dirty, w.pools.Keys, w.handles.next, t, b, place);
    CallersGrown(w.callers - {t}, at[b := place], w.dirty, w.pools.Keys, w.handles.next, w.pools.Keys,
        w.handles.next + 1);
    OneReleasesOn(w.callers, t, Holding(b));
  }

  lemma NotInRelease(callers: map<nat, Caller>, t: nat, h: nat)
    requires !InRelease(callers, h)
    ensures !InRelease(callers - {t}, h)
  {
    forall u | u in callers - {t}
      ensures !Releases((callers - {t})[u], h)
    {
      assert u in callers && (callers - {t})[u] == callers[u];
    }
  }

  lemma KeepsLook(w: World, at: Places, t: nat, p: nat, h: nat)
    requires Inv(w, at) && Legal(w, Look(t, p, h)) && w.handles.Get(h).Some?
    ensures Inv(Step(w, Look(t, p, h)), at[w.handles.Get(h).value := With(t)])
  {
    hide FreePlaced, Tidy, HandlesPlaced, CallersPlaced, OneReleases, InRelease, AlsoReleased;
    var b, place := w.handles.Get(h).value, With(t);
    var c := Releasing(p, h, b);
    Resolves(w, at, h);
    FreeStays(w.pools, at, b, place);
    ReleasedStays(w.callers, t, c);
    HandlesOn(w.handles, w.callers, w.callers[t := c], at);
    NowReleased(w.callers, t, c);
    HandlesStay(w.handles, w.callers[t := c], at, b, place);
    CallersStay(w.callers, at, w.dirty, w.pools.Keys, w.handles.next, b, place);
    CallersLess(w.callers, at[b := place], w.dirty, w.pools.Keys, w.handles.next, t);
    CallersOn(w.callers, at[b := place], w.dirty, w.pools.Keys, w.handles.next, t, c);
    NotInRelease(w.callers, t, h);
    OneReleasesOn(w.callers, t, c);
  }

  lemma NowReleased(callers: map<nat, Caller>, t: nat, c: Caller)
    requires !c.Holding?
    ensures InRelease(callers[t := c], c.handle)
  {
    assert Releases(callers[t := c][t], c.handle);
  }

  ghost function PushedTo(pool: Pool<nat>, p: nat): Place {
    if |pool.free| < pool.max then FreeAt(p, |pool.free|) else Gone
  }

  lemma FreePushed(pools: map<nat, Pool<nat>>, at: Places, dirty: set<nat>, p: nat, b: nat)
    requires p in pools && FreePlaced(pools, at) && Tidy(pools, dirty) && (b in at ==> !at[b].FreeAt?)
    ensures var pools' := pools[p := pools[p].Release(b)];
            && FreePlaced(pools', at[b := PushedTo(pools[p], p)]) && Tidy(pools', dirty - {b})
               && pools'.Keys == pools.Keys
  {
    var pools', at' := pools[p := pools[p].Release(b)], at[b := PushedTo(pools[p], p)];
    forall q: nat, i: nat | FreeIn(pools', q, i)
      ensures At(at', pools'[q].free[i], FreeAt(q, i)) && pools'[q].free[i] !in dirty - {b}
    {
      if FreeIn(pools, q, i) {
        assert pools'[q].free[i] == pools[q].free[i];
      } else {
        assert q == p && i == |pools[p].free| && pools'[q].free[i] == b;
      }
    }
  }

  lemma KeepsPush(w: World, at: Places, t: nat)
    requires Inv(w, at) && Legal(w, Push(t))
    ensures Inv(Step(w, Push(t)), if w.callers[t].pool in w.pools
            then at[w.callers[t].buffer := PushedTo(w.pools[w.callers[t].pool], w.callers[t].pool)] else at)
  {
    hide FreePlaced, Tidy, HandlesPlaced, CallersPlaced, OneReleases, InRelease, AlsoReleased;
    CallerAt(w, at, t);
    var Releasing(p, h, b) := w.callers[t];
    var place, c := PushedTo(w.pools[p], p), Pushed(h);
    FreePushed(w.pools, at, w.dirty, p, b);
    HandlesStay(w.handles, w.callers, at, b, place);
    ReleasedStays(w.callers, t, c);
    HandlesOn(w.handles, w.callers, w.callers[t := c], at[b := place]);
    WithoutCaller(w.callers, at, w.dirty, w.pools.Keys, w.handles.next, t, b, place);
    CallersMarked(w.callers - {t}, at[b := place], w.dirty, w.pools.Keys, w.handles.next, b, false);
    CallersOn(w.callers, at[b := place], w.dirty - {b}, w.pools.Keys, w.handles.next, t, c);
    OnlyReleases(w.callers, t);
    OneReleasesOn(w.callers, t, c);
  }

  lemma OnlyReleases(callers: map<nat, Caller>, t: nat)
    requires OneReleases(callers) && t in callers && !callers[t].Holding?
    ensures !InRelease(callers - {t}, callers[t].handle)
  {
    forall u | u in callers - {t}
      ensures !Releases((callers - {t})[u], callers[t].handle)
    {
      assert u in callers && (callers - {t})[u] == callers[u];
    }
  }

  lemma StillUnreleased(callers: map<nat, Caller>, t: nat, k: nat)
    requires t in callers && !Releases(callers[t], k) && !InRelease(callers - {t}, k)
    ensures !InRelease(callers, k)
  {
    forall u | u in callers
      ensures !Releases(callers[u], k)
    {
      if u != t {
        assert u in callers - {t} && (callers - {t})[u] == callers[u];
      }
    }
  }

  lemma HandlesErased(handles: Handles<nat>, callers: map<nat, Caller>, at: Places, t: nat)
    requires HandlesPlaced(handles, callers, at) && t in callers && callers[t].Pushed? && callers[t].handle >= 1
    ensures HandlesPlaced(handles.Release(callers[t].handle), callers - {t}, at)
  {
    var h := callers[t].handle;
    forall k: nat | k in handles.table && k != h && !InRelease(callers - {t}, k)
      ensures !InRelease(callers, k)
    {
      StillUnreleased(callers, t, k);
    }
  }

  lemma KeepsErase(w: World, at: Places, t: nat)
    requires Inv(w, at) && Legal(w, Erase(t))
    ensures Inv(Step(w, Erase(t)), at)
  {
    hide FreePlaced, Tidy, HandlesPlaced, CallersPlaced, OneReleases, InRelease, AlsoReleased;
    CallerAt(w, at, t);
    HandlesErased(w.handles, w.callers, at, t);
    CallersLess(w.callers, at, w.dirty, w.pools.Keys, w.handles.next, t);
    OneReleasesOn(w.callers, t, Holding(0));
  }

  // ----- new pools -----

  ghost function Stocked(at: Places, p: nat, buffers: seq<nat>): Places {
    at + (map b | b in buffers :: FreeAt(p, Index(buffers, b)))
  }

  function Index(s: seq<nat>, b: nat): (k: nat)
    requires b in s
    ensures k < |s| && s[k] == b
  {
    if s[0] == b then 0 else 1 + Index(s[1..], b)
  }

  ghost predicate AllNew(at: Places, buffers: seq<nat>) {
    && (forall i :: 0 <= i < |buffers| ==> buffers[i] !in at)
    && (forall i, j :: 0 <= i < j < |buffers| ==> buffers[i] != buffers[j])
  }

  lemma StockedAt(at: Places, p: nat, buffers: seq<nat>)
    requires AllNew(at, buffers)
    ensures forall i: nat :: i < |buffers| ==> At(Stocked(at, p, buffers), buffers[i], FreeAt(p, i))
    ensures forall b, place :: At(at, b, place) ==> At(Stocked(at, p, buffers), b, place)
    ensures Stocked(at, p, buffers).Keys == at.Keys + (set b | b in buffers)
  {
    var at' := Stocked(at, p, buffers);
    forall i: nat | i < |buffers|
      ensures At(at', buffers[i], FreeAt(p, i))
    {
      assert buffers[Index(buffers, buffers[i])] == buffers[i];
    }
    forall b, place | At(at, b, place)
      ensures At(at', b, place)
    {
      assert b !in buffers;
    }
  }

  /** Every placement in `at` is one in `at'`. */
  ghost predicate StillPlaced(at: Places, at': Places) {
    forall b, place :: At(at, b, place) ==> At(at', b, place)
  }

  lemma HandlesStillPlaced(handles: Handles<nat>, callers: map<nat, Caller>, at: Places, at': Places)
    requires HandlesPlaced(handles, callers, at) && StillPlaced(at, at')
    ensures HandlesPlaced(handles, callers, at')
  {
    hide InRelease, At;
  }

  lemma CallersStillPlaced(callers: map<nat, Caller>, at: Places, at': Places, dirty: set<nat>, dirty': set<nat>,
      pools: set<nat>, pools': set<nat>, next: nat)
    requires CallersPlaced(callers, at, dirty, pools, next) && StillPlaced(at, at') && dirty' <= dirty
             && pools <= pools'
    ensures CallersPlaced(callers, at', dirty', pools', next)
  {
    hide At;
  }

  lemma FreeStocked(pools: map<nat, Pool<nat>>, at: Places, dirty: set<nat>, p: nat, buffers: seq<nat>)
    requires p !in pools && AllNew(at, buffers) && FreePlaced(pools, at) && Tidy(pools, dirty)
    ensures var pools' := pools[p := Pool(buffers, |buffers|)];
            FreePlaced(pools', Stocked(at, p, buffers)) && Tidy(pools', dirty - (set b | b in buffers))
  {
    hide At, Stocked;
    StockedAt(at, p, buffers);
    var pools', at' := pools[p := Pool(buffers, |buffers|)], Stocked(at, p, buffers);
    forall q: nat, i: nat | FreeIn(pools', q, i)
      ensures At(at', pools'[q].free[i], FreeAt(q, i)) && pools'[q].free[i] !in dirty - (set b | b in buffers)
    {
      if q != p {
        assert FreeIn(pools, q, i);
      }
    }
  }

  lemma KeepsNewPool(w: World, at: Places, p: nat, buffers: seq<nat>)
    requires Inv(w, at) && Legal(w, NewPool(p, buffers))
    ensures Inv(Step(w, NewPool(p, buffers)), Stocked(at, p, buffers))
  {
    hide FreePlaced, Tidy, HandlesPlaced, CallersPlaced, OneReleases, InRelease, Stocked, At;
    var at' := Stocked(at, p, buffers);
    var w' := Step(w, NewPool(p, buffers));
    assert AllNew(at, buffers);
    StockedAt(at, p, buffers);
    FreeStocked(w.pools, at, w.dirty, p, buffers);
    assert StillPlaced(at, at');
    HandlesStillPlaced(w.handles, w.callers, at, at');
    CallersStillPlaced(w.callers, at, at', w.dirty, w'.dirty, w.pools.Keys, w'.pools.Keys, w.handles.next);
  }

  // ----- runs -----

  lemma StepKeeps(w: World, at: Places, e: Event) returns (at': Places)
    requires Inv(w, at) && Legal(w, e)
    ensures Inv(Step(w, e), at')
  {
    hide Inv;
    at' := at;
    match e
    case NewPool(p, buffers) =>
      KeepsNewPool(w, at, p, buffers);
      at' := Stocked(at, p, buffers);
    case Create(b, filled) =>
      KeepsCreate(w, at, b, filled);
      at' := at[b := Behind(w.handles.next)];
    case Write(h, filled) => KeepsWrite(w, at, h, filled);
    case Drop(h) => KeepsDrop(w, at, h);
    case Take(t, p) =>
      if w.pools[p].free != [] {
        KeepsTake(w, at, t, p);
        at' := at[w.pools[p].Acquire().value := With(t)];
      }
    case Keep(t) =>
      KeepsKeep(w, at, t);
      at' := at[w.callers[t].buffer := Behind(w.handles.next)];
    case Look(t, p, h) =>
      if w.handles.Get(h).Some? {
        KeepsLook(w, at, t, p, h);
        at' := at[w.handles.Get(h).value := With(t)];
      }
    case Push(t) =>
      KeepsPush(w, at, t);
      var c := w.callers[t];
      at' := if c.pool in w.pools then at[c.buffer := PushedTo(w.pools[c.pool], c.pool)] else at;
    case Erase(t) => KeepsErase(w, at, t);
  }

  lemma {:induction false} RunKeeps(w: World, at: Places, run: seq<Event>) returns (at': Places)
    requires Inv(w, at) && LegalRun(w, run)
    ensures Inv(Run(w, run), at')
    decreases |run|
  {
    hide Inv, Legal, Step;
    at' := at;
    if run != [] {
      var next := StepKeeps(w, at, run[0]);
      at' := RunKeeps(Step(w, run[0]), next, run[1..]);
    }
  }

  /** In every run, every buffer has one owner at most, free buffers are empty, and no free list outgrows its pool. */
  lemma RunExclusive(run: seq<Event>)
    requires LegalRun(START, run)
    ensures Exclusive(Run(START, run)) && Tidy(Run(START, run).pools, Run(START, run).dirty)
  {
    hide Run, LegalRun, Exclusive, Tidy;
    StartInv();
    var at := RunKeeps(START, map[], run);
    InvMeaning(Run(START, run), at);
  }

  lemma StartInv()
    ensures Inv(START, map[])
  {
  }

  /** A handle that was given out and released. */
  predicate Spent(w: World, h: nat) { h < w.handles.next && h !in w.handles.table }

  /** Whatever the callers do, at their own steps or not, a released handle stays released. */
  lemma {:induction false} SpentForGood(w: World, run: seq<Event>, h: nat)
    requires Spent(w, h)
    ensures Spent(Run(w, run), h) && Run(w, run).handles.Get(h) == None
    decreases |run|
  {
    if run != [] {
      SpentStays(w, run[0], h);
      SpentForGood(Step(w, run[0]), run[1..], h);
    }
  }

  lemma SpentStays(w: World, e: Event, h: nat)
    requires Spent(w, h)
    ensures Spent(Step(w, e), h)
  {
  }

  /** Releasing a handle spends it, when it was one. */
  lemma ReleaseSpends(w: World, at: Places, h: nat)
    requires Inv(w, at) && h in w.handles.table
    ensures Spent(Step(w, Drop(h)), h)
    ensures forall t :: t in w.callers && w.callers[t] == Pushed(h) ==> Spent(Step(w, Erase(t)), h)
  {
    hide InRelease, FreePlaced, CallersPlaced, OneReleases, Tidy;
  }

  lemma RunOn(w: World, e: Event, run: seq<Event>)
    ensures Run(w, [e] + run) == Run(Step(w, e), run)
    ensures LegalRun(w, [e] + run) <==> Legal(w, e) && LegalRun(Step(w, e), run)
  {
    hide Step, Legal;
    assert ([e] + run)[1..] == run;
  }

  /** From nothing: a pool of two buffers, both taken and kept, and one of the two handles dropped. */
  const UP_TO_RELEASE :=
    [NewPool(0, [7, 8])] + ([Take(1, 0)] + ([Keep(1)] + ([Take(1, 0)]
        + ([Keep(1)] + ([Drop(1)] + ([Look(1, 0, 2)] + []))))))

  /** A second caller looks the same handle up, and both go on; then the pool is used again. */
  const AGAIN :=
    [Look(2, 0, 2)] + ([Push(1)] + ([Push(2)] + ([Erase(1)] + ([Erase(2)]
    + ([Take(1, 0)] + ([Keep(1)] + ([Take(1, 0)] + ([Keep(1)] + []))))))))

  const MADE := World(Handles(map[], 1), map[0 := Pool([7, 8], 2)], map[], {7, 8}, {})
  const ONE_HANDLE := World(Handles(map[2 := 7], 3), map[0 := Pool([], 2)], map[], {7, 8}, {})
  const IN_RELEASE := ONE_HANDLE.(callers := map[1 := Releasing(0, 2, 7)])
  const FREE_TWICE := World(Handles(map[2 := 7], 3), map[0 := Pool([7, 7], 2)], map[1 := Pushed(2), 2 := Pushed(2)],
      {7, 8}, {})
  const NO_HANDLE := World(Handles(map[], 3), map[0 := Pool([7, 7], 2)], map[], {7, 8}, {})
  const TWO_HANDLES := World(Handles(map[3 := 7, 4 := 7], 5), map[0 := Pool([], 2)], map[], {7, 8}, {})

  lemma TakeAndKeep(w: World, n: nat, rest: seq<Event>)
    requires w.callers == map[] && w.handles.next == n && 0 in w.pools && w.pools[0].free != []
    ensures var pool := w.pools[0];
            var b := pool.free[|pool.free| - 1];
            var w' := w.(pools := w.pools[0 := pool.(free := pool.free[..|pool.free| - 1])],
                         handles := Handles(w.handles.table[n := b], n + 1));
            && Run(w, [Take(1, 0)] + ([Keep(1)] + rest)) == Run(w', rest)
            && (LegalRun(w, [Take(1, 0)] + ([Keep(1)] + rest)) <==> LegalRun(w', rest))
  {
    hide Run, LegalRun;
    var w1 := Step(w, Take(1, 0));
    assert w1.callers - {1} == map[];
    RunOn(w1, Keep(1), rest);
    RunOn(w, Take(1, 0), [Keep(1)] + rest);
  }

  lemma MakePool(rest: seq<Event>)
    ensures Run(START, [NewPool(0, [7, 8])] + rest) == Run(MADE, rest)
    ensures LegalRun(START, [NewPool(0, [7, 8])] + rest) <==> LegalRun(MADE, rest)
  {
    hide Run, LegalRun;
    assert (set b | b in [7, 8]) == {7, 8};
    assert Step(START, NewPool(0, [7, 8])) == MADE;
    RunOn(START, NewPool(0, [7, 8]), rest);
  }

  lemma TakeBoth(rest: seq<Event>)
    ensures var events := [Take(1, 0)] + ([Keep(1)] + ([Take(1, 0)] + ([Keep(1)] + ([Drop(1)] + rest))));
            Run(MADE, events) == Run(ONE_HANDLE, rest) && (LegalRun(MADE, events) <==> LegalRun(ONE_HANDLE, rest))
  {
    hide Run, LegalRun;
    assert [7, 8][..1] == [7] && [7][..0] == [];
    var w1 := World(Handles(map[1 := 8], 2), map[0 := Pool([7], 2)], map[], {7, 8}, {});
    var w2 := World(Handles(map[1 := 8, 2 := 7], 3), map[0 := Pool([], 2)], map[], {7, 8}, {});
    TakeAndKeep(MADE, 1, [Take(1, 0)] + ([Keep(1)] + ([Drop(1)] + rest)));
    assert MADE.pools[0 := Pool([7], 2)] == w1.pools && MADE.handles.table[1 := 8] == w1.handles.table;
    TakeAndKeep(w1, 2, [Drop(1)] + rest);
    assert w1.pools[0 := Pool([], 2)] == w2.pools && w1.handles.table[2 := 7] == w2.handles.table;
    assert w2.handles.table - {1} == map[2 := 7];
    assert Step(w2, Drop(1)) == ONE_HANDLE;
    RunOn(w2, Drop(1), rest);
  }

  lemma FirstLook(rest: seq<Event>)
    ensures Run(ONE_HANDLE, [Look(1, 0, 2)] + rest) == Run(IN_RELEASE, rest)
    ensures LegalRun(ONE_HANDLE, [Look(1, 0, 2)] + rest) <==> LegalRun(IN_RELEASE, rest)
  {
    hide Run, LegalRun;
    assert Step(ONE_HANDLE, Look(1, 0, 2)) == IN_RELEASE;
    RunOn(ONE_HANDLE, Look(1, 0, 2), rest);
  }

  lemma ToRelease(rest: seq<Event>)
    ensures var events := [NewPool(0, [7, 8])] + ([Take(1, 0)] + ([Keep(1)] + ([Take(1, 0)] + ([Keep(1)]
                          + ([Drop(1)] + ([Look(1, 0, 2)] + rest))))));
            Run(START, events) == Run(IN_RELEASE, rest) && (LegalRun(START, events) <==> LegalRun(IN_RELEASE, rest))
  {
    hide Run, LegalRun;
    MakePool([Take(1, 0)] + ([Keep(1)] + ([Take(1, 0)] + ([Keep(1)] + ([Drop(1)] + ([Look(1, 0, 2)] + rest))))));
    TakeBoth([Look(1, 0, 2)] + rest);
    FirstLook(rest);
  }

  lemma BothPush(rest: seq<Event>)
    ensures Run(IN_RELEASE, [Look(2, 0, 2)] + ([Push(1)] + ([Push(2)] + rest))) == Run(FREE_TWICE, rest)
  {
    hide Run;
    var c := Releasing(0, 2, 7);
    var w2 := ONE_HANDLE.(callers := map[1 := c, 2 := c]);
    var w3 := w2.(pools := map[0 := Pool([7], 2)], callers := map[1 := Pushed(2), 2 := c]);
    assert Step(IN_RELEASE, Look(2, 0, 2)) == w2;
    assert ONE_HANDLE.dirty - {7} == {} && [] + [7] == [7] && [7] + [7] == [7, 7];
    assert ONE_HANDLE.pools[0 := Pool([7], 2)] == w3.pools && w3.pools[0 := Pool([7, 7], 2)] == FREE_TWICE.pools;
    assert w2.callers[1 := Pushed(2)] == w3.callers && w3.callers[2 := Pushed(2)] == FREE_TWICE.callers;
    assert Step(w2, Push(1)) == w3;
    assert Step(w3, Push(2)) == FREE_TWICE;
    RunOn(w3, Push(2), rest);
    RunOn(w2, Push(1), [Push(2)] + rest);
    RunOn(IN_RELEASE, Look(2, 0, 2), [Push(1)] + ([Push(2)] + rest));
  }

  lemma BothErase(rest: seq<Event>)
    ensures Run(FREE_TWICE, [Erase(1)] + ([Erase(2)] + rest)) == Run(NO_HANDLE, rest)
  {
    hide Run;
    var w1 := NO_HANDLE.(callers := map[2 := Pushed(2)]);
    assert FREE_TWICE.callers - {1} == w1.callers && w1.callers - {2} == map[];
    assert FREE_TWICE.handles.table - {2} == map[] && w1.handles.table - {2} == map[];
    assert Step(FREE_TWICE, Erase(1)) == w1;
    assert Step(w1, Erase(2)) == NO_HANDLE;
    RunOn(w1, Erase(2), rest);
    RunOn(FREE_TWICE, Erase(1), [Erase(2)] + rest);
  }

  lemma BothTaken()
    ensures Run(NO_HANDLE, [Take(1, 0)] + ([Keep(1)] + ([Take(1, 0)] + ([Keep(1)] + [])))) == TWO_HANDLES
  {
    hide Run;
    assert [7, 7][..1] == [7] && [7][..0] == [];
    TakeAndKeep(NO_HANDLE, 3, [Take(1, 0)] + ([Keep(1)] + []));
    var w1 := World(Handles(map[3 := 7], 4), map[0 := Pool([7], 2)], map[], {7, 8}, {});
    assert NO_HANDLE.pools[0 := Pool([7], 2)] == w1.pools && NO_HANDLE.handles.table[3 := 7] == w1.handles.table;
    TakeAndKeep(w1, 4, []);
    assert w1.pools[0 := Pool([], 2)] == TWO_HANDLES.pools && w1.handles.table[4 := 7] == TWO_HANDLES.handles.table;
    RunNothing(TWO_HANDLES);
  }

  /**
   One handle released by two callers at once. The run is legal up to the first caller's
   look; the second one's is what a legal run may not do. In the end the buffer, free
   twice in between, is behind two handles.
   */
  lemma ReleasedTwice()
    ensures LegalRun(START, UP_TO_RELEASE) && !Legal(Run(START, UP_TO_RELEASE), AGAIN[0])
    ensures var w := Run(Run(START, UP_TO_RELEASE), AGAIN);
            && Live(w, 3) && Live(w, 4) && w.handles.table[3] == w.handles.table[4]
            && !Exclusive(w)
  {
    hide Run, LegalRun;
    ToRelease([]);
    RunNothing(IN_RELEASE);
    LookedUp();
    var again := [Take(1, 0)] + ([Keep(1)] + ([Take(1, 0)] + ([Keep(1)] + [])));
    BothPush([Erase(1)] + ([Erase(2)] + again));
    BothErase(again);
    BothTaken();
    TwoHandlesShare();
  }

  lemma LookedUp()
    ensures AGAIN[0] == Look(2, 0, 2) && !Legal(IN_RELEASE, Look(2, 0, 2))
  {
    assert Releases(IN_RELEASE.callers[1], 2);
  }

  lemma RunNothing(w: World)
    ensures Run(w, []) == w && LegalRun(w, [])
  {
  }

  lemma TwoHandlesShare()
    ensures Live(TWO_HANDLES, 3) && Live(TWO_HANDLES, 4) && !Exclusive(TWO_HANDLES)
  {
  }
}
