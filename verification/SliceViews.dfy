/**
 What a buffer of slices means, as a value.

 A slice is seen as the bytes it holds, the room left behind them, whether its
 memory may be written, and the drain trackers waiting on it. A buffer is a
 sequence of such views; `Flat` is the byte queue it stands for. Every buffer
 operation is given here as a function on views, and the lemmas say what it does
 to the byte queue and to the trackers.
 */
module SliceViews {
  newtype byte = x: int | 0 <= x < 256

  type TrackerId = nat

  /** One call of a drain tracker: which tracker, and how many bytes it was told. */
  datatype Notice = Notice(tracker: TrackerId, bytes: nat)

  datatype SliceView = SliceView(data: seq<byte>, room: nat, immutable: bool, trackers: seq<TrackerId>)

  const DEFAULT_SLICE_SIZE: nat := 16384
  const INLINE_DATA_SIZE: nat := 512
  const DEFAULT_RESERVATION_SIZE: nat := 4096
  const MAX_COPIED_SLICES: nat := 16

  function Min(a: nat, b: nat): nat { if a <= b then a else b }

  function Max(a: nat, b: nat): nat { if a <= b then b else a }

  /** The capacity a new slice gets when `size` bytes are asked for. */
  function Allocated(size: nat): nat {
    if size <= INLINE_DATA_SIZE then INLINE_DATA_SIZE else size
  }

  function Flat(vs: seq<SliceView>): seq<byte> {
    if vs == [] then [] else vs[0].data + Flat(vs[1..])
  }

  /** How many times a tracker waits on the slices. */
  function Pending(vs: seq<SliceView>, t: TrackerId): nat {
    if vs == [] then 0 else Occurrences(vs[0].trackers, t) + Pending(vs[1..], t)
  }

  function Occurrences(ts: seq<TrackerId>, t: TrackerId): nat { multiset(ts)[t] }

  /** How many of the calls went to a tracker. */
  function Fired(ns: seq<Notice>, t: TrackerId): nat {
    if ns == [] then 0 else (if ns[0].tracker == t then 1 else 0) + Fired(ns[1..], t)
  }

  // ----- operations on one slice -----

  function Appended(v: SliceView, d: seq<byte>): SliceView
    requires |d| <= v.room
  {
    v.(data := v.data + d, room := v.room - |d|)
  }

  function Prepended(v: SliceView, d: seq<byte>): SliceView
    requires |d| <= v.room
  {
    v.(data := d + v.data, room := v.room - |d|)
  }

  /** Draining a whole slice lets its trackers go; draining a part keeps them. */
  function Drained(v: SliceView, n: nat): SliceView
    requires n <= |v.data|
  {
    if n == |v.data| then v.(data := [], trackers := []) else v.(data := v.data[n..])
  }

  function NoticesFor(ts: seq<TrackerId>, n: nat): seq<Notice> {
    seq(|ts|, i requires 0 <= i < |ts| => Notice(ts[i], n))
  }

  function NewSlice(d: seq<byte>, size: nat): SliceView
    requires |d| <= size
  {
    SliceView(d, Allocated(size) - |d|, false, [])
  }

  function FragmentSlice(d: seq<byte>): SliceView { SliceView(d, 0, true, []) }

  // ----- operations on a buffer -----

  function AddViews(vs: seq<SliceView>, d: seq<byte>): seq<SliceView> {
    if d == [] then vs
    else if vs == [] || vs[|vs| - 1].immutable then
      vs + [NewSlice(d, Max(|d|, DEFAULT_SLICE_SIZE))]
    else
      var last := vs[|vs| - 1];
      var k := Min(|d|, last.room);
      var filled := vs[|vs| - 1 := Appended(last, d[..k])];
      if k == |d| then filled
      else filled + [NewSlice(d[k..], Max(|d| - k, DEFAULT_SLICE_SIZE))]
  }

  function PrependViews(vs: seq<SliceView>, d: seq<byte>): seq<SliceView> {
    if d == [] then vs
    else if vs != [] && !vs[0].immutable && |d| <= vs[0].room then
      vs[0 := Prepended(vs[0], d)]
    else [NewSlice(d, |d|)] + vs
  }

  function DrainViews(vs: seq<SliceView>, n: nat): seq<SliceView> {
    if n == 0 || vs == [] then vs
    else if n >= |vs[0].data| then DrainViews(vs[1..], n - |vs[0].data|)
    else vs[0 := Drained(vs[0], n)]
  }

  /** The tracker calls a drain makes, in order. */
  function DrainNotices(vs: seq<SliceView>, n: nat): seq<Notice> {
    if n == 0 || vs == [] then []
    else if n >= |vs[0].data| then
      NoticesFor(vs[0].trackers, |vs[0].data|) + DrainNotices(vs[1..], n - |vs[0].data|)
    else []
  }

  /** The source and the destination after moving n bytes. */
  function MoveViews(src: seq<SliceView>, dst: seq<SliceView>, n: nat): (seq<SliceView>, seq<SliceView>)
    decreases |src|
  {
    if n == 0 || src == [] then (src, dst)
    else if n >= |src[0].data| then MoveViews(src[1..], dst + [src[0]], n - |src[0].data|)
    else (src[0 := Drained(src[0], n)], AddViews(dst, src[0].data[..n]))
  }

  function LinearizeViews(vs: seq<SliceView>, size: nat): seq<SliceView> {
    var n := Min(size, |Flat(vs)|);
    if n == 0 || (vs != [] && |vs[0].data| >= n) then vs
    else [NewSlice(Flat(vs)[..n], n)] + DrainViews(vs, n)
  }

  function LinearizeNotices(vs: seq<SliceView>, size: nat): seq<Notice> {
    var n := Min(size, |Flat(vs)|);
    if n == 0 || (vs != [] && |vs[0].data| >= n) then []
    else DrainNotices(vs, n)
  }

  function Attached(v: SliceView, t: TrackerId): SliceView {
    if |v.data| > 0 then v.(trackers := v.trackers + [t]) else v
  }

  function AttachViews(vs: seq<SliceView>, t: TrackerId): seq<SliceView> {
    if vs == [] then []
    else [Attached(vs[0], t)] + AttachViews(vs[1..], t)
  }

  function NonEmpty(vs: seq<SliceView>): seq<SliceView> {
    if vs == [] then []
    else if |vs[0].data| > 0 then [vs[0]] + NonEmpty(vs[1..])
    else NonEmpty(vs[1..])
  }

  /** The views a raw-slice query with room for `max` entries sees. */
  function RawViews(vs: seq<SliceView>, max: nat): seq<SliceView> {
    NonEmpty(vs)[..Min(max, |NonEmpty(vs)|)]
  }

  /** Adding the data of some slices, one after another. */
  function AddEach(vs: seq<SliceView>, from: seq<SliceView>): seq<SliceView>
    decreases |from|
  {
    if from == [] then vs else AddEach(AddViews(vs, from[0].data), from[1..])
  }

  /** The first slice a read reservation can use: one with room, or a new one at the end. */
  function ReserveIndex(vs: seq<SliceView>): (i: nat)
    ensures i <= |vs|
    ensures forall k :: 0 <= k < i ==> vs[k].immutable || vs[k].room == 0
    ensures i < |vs| ==> !vs[i].immutable && vs[i].room > 0
  {
    if vs == [] || (!vs[0].immutable && vs[0].room > 0) then 0 else 1 + ReserveIndex(vs[1..])
  }

  function ReserveViews(vs: seq<SliceView>): seq<SliceView> {
    if ReserveIndex(vs) < |vs| then vs else vs + [NewSlice([], DEFAULT_RESERVATION_SIZE)]
  }

  function AddBufferViews(vs: seq<SliceView>, source: seq<SliceView>): seq<SliceView> {
    AddEach(vs, RawViews(source, MAX_COPIED_SLICES))
  }

  /** How many slices a drain takes whole. */
  function Whole(vs: seq<SliceView>, n: nat): (r: nat)
    ensures r <= |vs|
  {
    if n == 0 || vs == [] || n < |vs[0].data| then 0 else 1 + Whole(vs[1..], n - |vs[0].data|)
  }

  // ----- what they do to the byte queue -----

  lemma {:induction false} FlatAppend(a: seq<SliceView>, b: seq<SliceView>)
    ensures Flat(a + b) == Flat(a) + Flat(b)
  {
    if a == [] {
      assert a + b == b;
    } else {
      var ab := a + b;
      assert ab[0] == a[0] && ab[1..] == a[1..] + b;
      FlatAppend(a[1..], b);
      Assoc(a[0].data, Flat(a[1..]), Flat(b));
    }
  }

  lemma Assoc(a: seq<byte>, b: seq<byte>, c: seq<byte>)
    ensures a + b + c == a + (b + c)
  {
  }

  /** A slice of a slice. */
  lemma Subslice(s: seq<byte>, a: nat, b: nat, c: nat, d: nat)
    requires a <= b <= |s| && c <= d <= b - a
    ensures s[a..b][c..d] == s[a + c..a + d]
  {
    var inner := s[a..b];
    forall k | 0 <= k < d - c
      ensures inner[c..d][k] == s[a + c..a + d][k]
    {
      assert inner[c..d][k] == inner[c + k] == s[a + c + k];
    }
  }

  lemma FlatSingle(v: SliceView)
    ensures Flat([v]) == v.data
  {
    assert Flat([v][1..]) == [];
  }

  lemma FlatUpdateLast(vs: seq<SliceView>, v: SliceView)
    requires vs != []
    ensures Flat(vs) == Flat(vs[..|vs| - 1]) + vs[|vs| - 1].data
    ensures Flat(vs[|vs| - 1 := v]) == Flat(vs[..|vs| - 1]) + v.data
  {
    var front := vs[..|vs| - 1];
    assert vs == front + [vs[|vs| - 1]];
    assert vs[|vs| - 1 := v] == front + [v];
    FlatAppend(front, [vs[|vs| - 1]]);
    FlatAppend(front, [v]);
    FlatSingle(v);
    FlatSingle(vs[|vs| - 1]);
  }

  /** Replacing a slice by one with the same data changes no byte. */
  lemma FlatUpdate(vs: seq<SliceView>, at: nat, v: SliceView)
    requires at < |vs| && v.data == vs[at].data
    ensures Flat(vs[at := v]) == Flat(vs)
  {
    var updated := vs[at := v];
    FlatSplit(vs, at);
    FlatSplit(updated, at);
    assert updated[..at] == vs[..at] && updated[at + 1..] == vs[at + 1..];
  }

  lemma SizeAppend(vs: seq<SliceView>, at: nat, d: seq<byte>)
    requires at < |vs| && |d| <= vs[at].room
    ensures |Flat(vs[at := Appended(vs[at], d)])| == |Flat(vs)| + |d|
  {
    var updated := vs[at := Appended(vs[at], d)];
    FlatSplit(vs, at);
    FlatSplit(updated, at);
    assert updated[..at] == vs[..at] && updated[at + 1..] == vs[at + 1..];
  }

  lemma SizeAppendLast(vs: seq<SliceView>, d: seq<byte>)
    requires vs != [] && |d| <= vs[|vs| - 1].room
    ensures |Flat(vs[|vs| - 1 := Appended(vs[|vs| - 1], d)])| == |Flat(vs)| + |d|
  {
    FlatUpdateLast(vs, Appended(vs[|vs| - 1], d));
  }

  lemma SizePrependFront(vs: seq<SliceView>, d: seq<byte>)
    requires vs != [] && |d| <= vs[0].room
    ensures |Flat(vs[0 := Prepended(vs[0], d)])| == |Flat(vs)| + |d|
  {
    FlatUpdateFront(vs, Prepended(vs[0], d));
  }

  /** The bytes in front of slice i, and the ones from it on. */
  lemma FlatSplit(vs: seq<SliceView>, i: nat)
    requires i <= |vs|
    ensures Flat(vs) == Flat(vs[..i]) + Flat(vs[i..])
    ensures i < |vs| ==>
              Flat(vs[..i + 1]) == Flat(vs[..i]) + vs[i].data && Flat(vs[i..]) == vs[i].data + Flat(vs[i + 1..])
  {
    var front, back := vs[..i], vs[i..];
    assert front + back == vs;
    FlatAppend(front, back);
    if i < |vs| {
      assert back[0] == vs[i] && back[1..] == vs[i + 1..];
      FlatNext(vs, i);
    }
  }

  lemma FlatNext(vs: seq<SliceView>, i: nat)
    requires i < |vs|
    ensures Flat(vs[..i + 1]) == Flat(vs[..i]) + vs[i].data
  {
    assert vs[..i + 1] == vs[..i] + [vs[i]];
    FlatAppend(vs[..i], [vs[i]]);
    FlatSingle(vs[i]);
  }

  /** How many bytes lie in front of slice i. */
  function Start(vs: seq<SliceView>, i: nat): nat
    requires i <= |vs|
  {
    |Flat(vs[..i])|
  }

  /**
   A read reservation is made in the last slice, where its commit goes, exactly
   when no slice before the last has room.
   */
  lemma ReservedLast(vs: seq<SliceView>)
    ensures ReserveIndex(vs) == |ReserveViews(vs)| - 1 <==>
            forall i :: 0 <= i < |vs| - 1 ==> vs[i].immutable || vs[i].room == 0
  {
    var at := ReserveIndex(vs);
    if at < |vs| - 1 {
      assert !(vs[at].immutable || vs[at].room == 0);
    }
  }

  /** Data, then a fragment: the reservation goes to the first slice and cannot be committed. */
  lemma ReservedBehindFragment(d: seq<byte>, fragment: seq<byte>)
    requires 0 < |d| < DEFAULT_SLICE_SIZE
    ensures var vs := AddViews([], d) + [FragmentSlice(fragment)];
            ReserveIndex(vs) == 0 && |ReserveViews(vs)| == 2
  {
    var vs := AddViews([], d) + [FragmentSlice(fragment)];
    assert vs[0] == NewSlice(d, DEFAULT_SLICE_SIZE) && vs[0].room > 0;
  }

  /** Where slice i's data lies in the byte queue. */
  lemma SliceAt(vs: seq<SliceView>, i: nat)
    requires i < |vs|
    ensures Start(vs, i + 1) == Start(vs, i) + |vs[i].data| <= |Flat(vs)|
    ensures Flat(vs)[Start(vs, i)..Start(vs, i + 1)] == vs[i].data
  {
    FlatSplit(vs, i);
    FlatSplit(vs, i + 1);
  }

  lemma StartBounds(vs: seq<SliceView>)
    ensures Start(vs, 0) == 0 && Start(vs, |vs|) == |Flat(vs)|
  {
    assert vs[..|vs|] == vs;
  }

  lemma StartInside(vs: seq<SliceView>, i: nat)
    requires i <= |vs| && Start(vs, i) < |Flat(vs)|
    ensures i < |vs|
  {
    StartBounds(vs);
  }

  lemma FlatUpdateFront(vs: seq<SliceView>, v: SliceView)
    requires vs != []
    ensures Flat(vs[0 := v]) == v.data + Flat(vs[1..])
  {
    assert vs[0 := v][1..] == vs[1..];
  }

  lemma FlatAdd(vs: seq<SliceView>, d: seq<byte>)
    ensures Flat(AddViews(vs, d)) == Flat(vs) + d
  {
    if d != [] {
      if vs == [] || vs[|vs| - 1].immutable {
        var v := NewSlice(d, Max(|d|, DEFAULT_SLICE_SIZE));
        FlatAppend(vs, [v]);
        FlatSingle(v);
      } else {
        var last := vs[|vs| - 1];
        var k := Min(|d|, last.room);
        var filled := vs[|vs| - 1 := Appended(last, d[..k])];
        FlatUpdateLast(vs, Appended(last, d[..k]));
        assert Flat(filled) == Flat(vs) + d[..k];
        assert d == d[..k] + d[k..];
        if k < |d| {
          var v := NewSlice(d[k..], Max(|d| - k, DEFAULT_SLICE_SIZE));
          FlatAppend(filled, [v]);
          FlatSingle(v);
        }
      }
    }
  }

  lemma FlatPrepend(vs: seq<SliceView>, d: seq<byte>)
    ensures Flat(PrependViews(vs, d)) == d + Flat(vs)
  {
    if d != [] && vs != [] && !vs[0].immutable && |d| <= vs[0].room {
      FlatUpdateFront(vs, Prepended(vs[0], d));
      assert d + vs[0].data + Flat(vs[1..]) == d + (vs[0].data + Flat(vs[1..]));
    } else if d != [] {
      var v := NewSlice(d, |d|);
      assert ([v] + vs)[1..] == vs;
    }
  }

  lemma {:induction false} FlatDrain(vs: seq<SliceView>, n: nat)
    requires n <= |Flat(vs)|
    ensures Flat(DrainViews(vs, n)) == Flat(vs)[n..]
  {
    if n != 0 && vs != [] {
      if n >= |vs[0].data| {
        FlatDrain(vs[1..], n - |vs[0].data|);
      } else {
        FlatUpdateFront(vs, Drained(vs[0], n));
      }
    }
  }

  /** A move takes the first n bytes off the source and puts them, in order, behind the destination. */
  lemma {:induction false} FlatMove(src: seq<SliceView>, dst: seq<SliceView>, n: nat)
    requires n <= |Flat(src)|
    ensures Flat(MoveViews(src, dst, n).0) == Flat(src)[n..]
    ensures Flat(MoveViews(src, dst, n).1) == Flat(dst) + Flat(src)[..n]
    decreases |src|
  {
    if n != 0 && src != [] {
      var front := src[0].data;
      if n >= |front| {
        FlatMove(src[1..], dst + [src[0]], n - |front|);
        FlatAppend(dst, [src[0]]);
        FlatSingle(src[0]);
        Cut(front, Flat(src[1..]), n);
        Assoc(Flat(dst), front, Flat(src[1..])[..n - |front|]);
      } else {
        FlatUpdateFront(src, Drained(src[0], n));
        FlatAdd(dst, front[..n]);
        assert Flat(src)[..n] == front[..n];
      }
    }
  }

  lemma Cut(a: seq<byte>, b: seq<byte>, n: nat)
    requires |a| <= n <= |a + b|
    ensures (a + b)[..n] == a + b[..n - |a|] && (a + b)[n..] == b[n - |a|..]
  {
  }

  /** Coalescing changes no byte and makes the asked-for prefix contiguous in the front slice. */
  lemma FlatLinearize(vs: seq<SliceView>, size: nat)
    ensures Flat(LinearizeViews(vs, size)) == Flat(vs)
    ensures var n := Min(size, |Flat(vs)|);
            n > 0 ==> LinearizeViews(vs, size) != [] && |LinearizeViews(vs, size)[0].data| >= n
                      && LinearizeViews(vs, size)[0].data[..n] == Flat(vs)[..n]
  {
    var n := Min(size, |Flat(vs)|);
    if n == 0 {
    } else if vs != [] && |vs[0].data| >= n {
      assert Flat(vs)[..n] == vs[0].data[..n];
    } else {
      FlatDrain(vs, n);
      var v := NewSlice(Flat(vs)[..n], n);
      assert ([v] + DrainViews(vs, n))[1..] == DrainViews(vs, n);
    }
  }

  lemma {:induction false} FlatAttach(vs: seq<SliceView>, t: TrackerId)
    ensures Flat(AttachViews(vs, t)) == Flat(vs)
    ensures |AttachViews(vs, t)| == |vs|
    ensures forall i :: 0 <= i < |vs| ==> AttachViews(vs, t)[i] == Attached(vs[i], t)
  {
    if vs != [] {
      FlatAttach(vs[1..], t);
      assert AttachViews(vs, t)[1..] == AttachViews(vs[1..], t);
    }
  }

  lemma {:induction false} FlatNonEmpty(vs: seq<SliceView>)
    ensures Flat(NonEmpty(vs)) == Flat(vs)
    ensures forall i :: 0 <= i < |NonEmpty(vs)| ==> |NonEmpty(vs)[i].data| > 0
  {
    if vs != [] {
      FlatNonEmpty(vs[1..]);
      if |vs[0].data| > 0 {
        assert NonEmpty(vs)[1..] == NonEmpty(vs[1..]);
      }
    }
  }

  lemma {:induction false} NonEmptyAppend(a: seq<SliceView>, b: seq<SliceView>)
    ensures NonEmpty(a + b) == NonEmpty(a) + NonEmpty(b)
  {
    if a == [] {
      assert a + b == b;
    } else {
      var ab := a + b;
      assert ab[0] == a[0] && ab[1..] == a[1..] + b;
      NonEmptyAppend(a[1..], b);
    }
  }

  lemma {:induction false} FlatAddEach(vs: seq<SliceView>, from: seq<SliceView>)
    ensures Flat(AddEach(vs, from)) == Flat(vs) + Flat(from)
    decreases |from|
  {
    if from == [] {
      assert Flat(vs) + [] == Flat(vs);
    } else {
      FlatAdd(vs, from[0].data);
      Assoc(Flat(vs), from[0].data, Flat(from[1..]));
      FlatAddEach(AddViews(vs, from[0].data), from[1..]);
    }
  }

  /**
   Adding another buffer appends the bytes of its first 16 non-empty slices,
   so it appends the whole of it exactly when it has no more than 16.
   */
  lemma FlatAddBuffer(vs: seq<SliceView>, source: seq<SliceView>)
    ensures Flat(AddBufferViews(vs, source)) == Flat(vs) + Flat(RawViews(source, MAX_COPIED_SLICES))
    ensures Flat(AddBufferViews(vs, source)) == Flat(vs) + Flat(source) <==> |NonEmpty(source)| <= MAX_COPIED_SLICES
  {
    var all := NonEmpty(source);
    var taken := RawViews(source, MAX_COPIED_SLICES);
    FlatAddEach(vs, taken);
    FlatNonEmpty(source);
    if |all| > MAX_COPIED_SLICES {
      assert all == taken + all[MAX_COPIED_SLICES..];
      FlatAppend(taken, all[MAX_COPIED_SLICES..]);
      assert |Flat(all[MAX_COPIED_SLICES..])| > 0;
    } else {
      assert taken == all;
    }
  }

  // ----- what they do to the drain trackers -----

  /** A slice that a tracker waits on holds data. */
  ghost predicate TrackersOnData(vs: seq<SliceView>) {
    forall i :: 0 <= i < |vs| && vs[i].trackers != [] ==> |vs[i].data| > 0
  }

  lemma {:induction false} PendingAppend(a: seq<SliceView>, b: seq<SliceView>, t: TrackerId)
    ensures Pending(a + b, t) == Pending(a, t) + Pending(b, t)
  {
    if a == [] {
      assert a + b == b;
    } else {
      var ab := a + b;
      assert ab[0] == a[0] && ab[1..] == a[1..] + b;
      PendingAppend(a[1..], b, t);
    }
  }

  lemma PendingPush(vs: seq<SliceView>, v: SliceView, t: TrackerId)
    ensures Pending(vs + [v], t) == Pending(vs, t) + Occurrences(v.trackers, t)
    ensures Pending([v] + vs, t) == Pending(vs, t) + Occurrences(v.trackers, t)
  {
    PendingAppend(vs, [v], t);
    PendingAppend([v], vs, t);
    assert Pending([v][1..], t) == 0;
  }

  lemma PendingUpdate(vs: seq<SliceView>, i: nat, v: SliceView, t: TrackerId)
    requires i < |vs| && v.trackers == vs[i].trackers
    ensures Pending(vs[i := v], t) == Pending(vs, t)
  {
    var front, back := vs[..i], vs[i + 1..];
    assert vs == (front + [vs[i]]) + back && vs[i := v] == (front + [v]) + back;
    PendingAppend(front + [vs[i]], back, t);
    PendingAppend(front + [v], back, t);
    PendingPush(front, vs[i], t);
    PendingPush(front, v, t);
  }

  lemma PendingAdd(vs: seq<SliceView>, d: seq<byte>, t: TrackerId)
    ensures Pending(AddViews(vs, d), t) == Pending(vs, t)
  {
    if d != [] {
      if vs == [] || vs[|vs| - 1].immutable {
        PendingPush(vs, NewSlice(d, Max(|d|, DEFAULT_SLICE_SIZE)), t);
      } else {
        var last := vs[|vs| - 1];
        var k := Min(|d|, last.room);
        PendingUpdate(vs, |vs| - 1, Appended(last, d[..k]), t);
        if k < |d| {
          PendingPush(vs[|vs| - 1 := Appended(last, d[..k])], NewSlice(d[k..], Max(|d| - k, DEFAULT_SLICE_SIZE)), t);
        }
      }
    }
  }

  lemma PendingPrepend(vs: seq<SliceView>, d: seq<byte>, t: TrackerId)
    ensures Pending(PrependViews(vs, d), t) == Pending(vs, t)
  {
    if d != [] && vs != [] && !vs[0].immutable && |d| <= vs[0].room {
      PendingUpdate(vs, 0, Prepended(vs[0], d), t);
    } else if d != [] {
      PendingPush(vs, NewSlice(d, |d|), t);
    }
  }

  lemma {:induction false} FiredAppend(a: seq<Notice>, b: seq<Notice>, t: TrackerId)
    ensures Fired(a + b, t) == Fired(a, t) + Fired(b, t)
  {
    if a == [] {
      assert a + b == b;
    } else {
      var ab := a + b;
      assert ab[0] == a[0] && ab[1..] == a[1..] + b;
      FiredAppend(a[1..], b, t);
    }
  }

  lemma {:induction false} FiredNotices(ts: seq<TrackerId>, n: nat, t: TrackerId)
    ensures Fired(NoticesFor(ts, n), t) == Occurrences(ts, t)
  {
    if ts != [] {
      assert NoticesFor(ts, n)[1..] == NoticesFor(ts[1..], n);
      assert ts == [ts[0]] + ts[1..];
      FiredNotices(ts[1..], n, t);
    }
  }

  /** Every attachment a drain lets go is told exactly once, and no other is. */
  lemma {:induction false} PendingDrain(vs: seq<SliceView>, n: nat, t: TrackerId)
    ensures Pending(vs, t) == Pending(DrainViews(vs, n), t) + Fired(DrainNotices(vs, n), t)
  {
    if n != 0 && vs != [] {
      if n >= |vs[0].data| {
        var rest := n - |vs[0].data|;
        var first := NoticesFor(vs[0].trackers, |vs[0].data|);
        FiredAppend(first, DrainNotices(vs[1..], rest), t);
        FiredNotices(vs[0].trackers, |vs[0].data|, t);
        PendingDrain(vs[1..], rest, t);
      } else {
        PendingUpdate(vs, 0, Drained(vs[0], n), t);
      }
    }
  }

  lemma {:induction false} PendingMove(src: seq<SliceView>, dst: seq<SliceView>, n: nat, t: TrackerId)
    ensures Pending(MoveViews(src, dst, n).0, t) + Pending(MoveViews(src, dst, n).1, t) == Pending(src, t)
            + Pending(dst, t)
    decreases |src|
  {
    if n != 0 && src != [] {
      if n >= |src[0].data| {
        PendingPush(dst, src[0], t);
        PendingMove(src[1..], dst + [src[0]], n - |src[0].data|, t);
      } else {
        PendingUpdate(src, 0, Drained(src[0], n), t);
        PendingAdd(dst, src[0].data[..n], t);
      }
    }
  }

  lemma PendingLinearize(vs: seq<SliceView>, size: nat, t: TrackerId)
    ensures Pending(vs, t) == Pending(LinearizeViews(vs, size), t) + Fired(LinearizeNotices(vs, size), t)
  {
    var n := Min(size, |Flat(vs)|);
    if !(n == 0 || (vs != [] && |vs[0].data| >= n)) {
      PendingDrain(vs, n, t);
      PendingPush(DrainViews(vs, n), NewSlice(Flat(vs)[..n], n), t);
    }
  }

  /** Attaching makes one attachment for each slice that holds data. */
  lemma {:induction false} PendingAttach(vs: seq<SliceView>, a: TrackerId, t: TrackerId)
    ensures Pending(AttachViews(vs, a), t) == Pending(vs, t) + if a == t then |NonEmpty(vs)| else 0
  {
    if vs != [] {
      assert AttachViews(vs, a)[1..] == AttachViews(vs[1..], a);
      PendingAttach(vs[1..], a, t);
    }
  }

  lemma {:induction false} PendingAddEach(vs: seq<SliceView>, from: seq<SliceView>, t: TrackerId)
    ensures Pending(AddEach(vs, from), t) == Pending(vs, t)
    decreases |from|
  {
    if from != [] {
      PendingAdd(vs, from[0].data, t);
      PendingAddEach(AddViews(vs, from[0].data), from[1..], t);
    }
  }

  // ----- where there is room -----

  function Capacity(v: SliceView): nat { |v.data| + v.room }

  /** A slice of its own has room for 512 bytes, and for what it was made for; a fragment's is full and read only. */
  lemma NewCapacity(d: seq<byte>, size: nat)
    requires |d| <= size
    ensures Capacity(NewSlice(d, size)) == if size <= 512 then 512 else size
    ensures !NewSlice(d, size).immutable && NewSlice(d, size).trackers == []
    ensures FragmentSlice(d) == SliceView(d, 0, true, [])
  {
  }

  /** Adding fills the last slice before it makes another, of 16384 bytes or what is left; all others stay. */
  lemma AddFills(vs: seq<SliceView>, d: seq<byte>)
    ensures var vs' := AddViews(vs, d);
            var writable := vs != [] && !vs[|vs| - 1].immutable;
            var room := if writable then vs[|vs| - 1].room else 0;
            && (|vs'| == |vs| <==> |d| <= room) && |vs| <= |vs'| <= |vs| + 1
            && (forall i :: 0 <= i < |vs| - (if writable then 1 else 0) ==> vs'[i] == vs[i])
            && (writable ==>
                  vs'[|vs| - 1] == vs[|vs| - 1].(data := vs[|vs| - 1].data + d[..Min(|d|, room)],
                                                 room := room - Min(|d|, room)))
            && (|vs'| > |vs| ==>
                  var left := |d| - room;
                  && vs'[|vs|].data == d[room..] && !vs'[|vs|].immutable && vs'[|vs|].trackers == []
                  && Capacity(vs'[|vs|]) == if left <= 16384 then 16384 else left)
  {
  }

  /** A prepend goes into the front slice exactly when all of it fits there, and else into one of its own. */
  lemma PrependFits(vs: seq<SliceView>, d: seq<byte>)
    requires d != []
    ensures var vs' := PrependViews(vs, d);
            if vs != [] && !vs[0].immutable && |d| <= vs[0].room then
              vs' == [vs[0].(data := d + vs[0].data, room := vs[0].room - |d|)] + vs[1..]
            else
              && |vs'| == |vs| + 1 && vs'[1..] == vs && vs'[0].data == d && !vs'[0].immutable
              && vs'[0].trackers == [] && Capacity(vs'[0]) == if |d| <= 512 then 512 else |d|
  {
  }

  /** A read reservation takes the room of the first slice that has any, or a new slice of 4096 bytes. */
  lemma ReserveRoom(vs: seq<SliceView>)
    ensures var at, vs' := ReserveIndex(vs), ReserveViews(vs);
            if exists i :: 0 <= i < |vs| && !vs[i].immutable && vs[i].room > 0
            then vs' == vs && at < |vs|
            else at == |vs| && vs' == vs + [SliceView([], 4096, false, [])]
  {
  }

  /** Of another buffer at most the first 16 slices with data are added. */
  lemma SixteenRaw(vs: seq<SliceView>, max: nat)
    ensures RawViews(vs, max) <= NonEmpty(vs)
    ensures |RawViews(vs, max)| == if |NonEmpty(vs)| <= max then |NonEmpty(vs)| else max
    ensures |RawViews(vs, MAX_COPIED_SLICES)| == if |NonEmpty(vs)| <= 16 then |NonEmpty(vs)| else 16
  {
  }

  // ----- what the trackers are told -----

  /** How many trackers wait on the slices in front of slice i. */
  function Waiters(vs: seq<SliceView>, i: nat): nat
    requires i <= |vs|
  {
    if i == 0 then 0 else |vs[0].trackers| + Waiters(vs[1..], i - 1)
  }

  /** A call for each tracker of the first r slices, in their order, with the bytes that slice held. */
  ghost predicate Tells(vs: seq<SliceView>, r: nat, ns: seq<Notice>)
    requires r <= |vs|
  {
    && |ns| == Waiters(vs, r)
    && forall i, j :: 0 <= i < r && 0 <= j < |vs[i].trackers| ==> TellsOne(vs, i, j, ns)
  }

  ghost predicate TellsOne(vs: seq<SliceView>, i: nat, j: nat, ns: seq<Notice>)
    requires i < |vs| && j < |vs[i].trackers|
  {
    Waiters(vs, i) + j < |ns| && ns[Waiters(vs, i) + j] == Notice(vs[i].trackers[j], |vs[i].data|)
  }

  /** The slices a drain takes whole are those that end within it, as long as there is something left to drain. */
  lemma {:induction false} WholeAreEmptied(vs: seq<SliceView>, n: nat, i: nat)
    requires i < |vs|
    ensures i < Whole(vs, n) <==> Start(vs, i) < n && Start(vs, i + 1) <= n
    decreases |vs|
  {
    assert vs[..1] == [vs[0]];
    FlatSingle(vs[0]);
    if i > 0 {
      StartNext(vs, i);
      StartNext(vs, i + 1);
      if n >= |vs[0].data| {
        WholeAreEmptied(vs[1..], n - |vs[0].data|, i - 1);
      }
    }
  }

  lemma StartNext(vs: seq<SliceView>, i: nat)
    requires 0 < i <= |vs|
    ensures Start(vs, i) == |vs[0].data| + Start(vs[1..], i - 1)
  {
    assert vs[..i] == [vs[0]] + vs[1..][..i - 1];
    FlatAppend([vs[0]], vs[1..][..i - 1]);
    FlatSingle(vs[0]);
  }

  lemma {:induction false} DrainTells(vs: seq<SliceView>, n: nat)
    ensures Tells(vs, Whole(vs, n), DrainNotices(vs, n))
    decreases |vs|
  {
    if n != 0 && vs != [] && n >= |vs[0].data| {
      var n' := n - |vs[0].data|;
      DrainTells(vs[1..], n');
      TellsNext(vs, Whole(vs[1..], n'), DrainNotices(vs[1..], n'));
    }
  }

  lemma TellsNext(vs: seq<SliceView>, r: nat, ns: seq<Notice>)
    requires r < |vs| && Tells(vs[1..], r, ns)
    ensures Tells(vs, r + 1, NoticesFor(vs[0].trackers, |vs[0].data|) + ns)
  {
    var all := NoticesFor(vs[0].trackers, |vs[0].data|) + ns;
    forall i, j | 0 <= i < r + 1 && 0 <= j < |vs[i].trackers|
      ensures TellsOne(vs, i, j, all)
    {
      if i > 0 {
        assert vs[1..][i - 1] == vs[i];
        assert TellsOne(vs[1..], i - 1, j, ns);
      }
    }
  }

  /** Coalescing tells the trackers of the slices it drains, and nobody when it has nothing to copy together. */
  lemma LinearizeTells(vs: seq<SliceView>, size: nat)
    ensures var n := Min(size, |Flat(vs)|);
            Tells(vs, if n == 0 || (vs != [] && |vs[0].data| >= n) then 0 else Whole(vs, n), LinearizeNotices(vs, size))
  {
    DrainTells(vs, Min(size, |Flat(vs)|));
  }

  // ----- trackers only wait on slices that hold data -----

  lemma {:induction false} OnDataDrain(vs: seq<SliceView>, n: nat)
    requires TrackersOnData(vs)
    ensures TrackersOnData(DrainViews(vs, n))
  {
    if n != 0 && vs != [] && n >= |vs[0].data| {
      assert forall i :: 0 <= i < |vs[1..]| ==> vs[1..][i] == vs[i + 1];
      OnDataDrain(vs[1..], n - |vs[0].data|);
    }
  }

  lemma {:induction false} OnDataMove(src: seq<SliceView>, dst: seq<SliceView>, n: nat)
    requires TrackersOnData(src) && TrackersOnData(dst)
    ensures TrackersOnData(MoveViews(src, dst, n).0) && TrackersOnData(MoveViews(src, dst, n).1)
    decreases |src|
  {
    if n != 0 && src != [] && n >= |src[0].data| {
      assert forall i :: 0 <= i < |src[1..]| ==> src[1..][i] == src[i + 1];
      OnDataMove(src[1..], dst + [src[0]], n - |src[0].data|);
    }
  }

  lemma OnDataLinearize(vs: seq<SliceView>, size: nat)
    requires TrackersOnData(vs)
    ensures TrackersOnData(LinearizeViews(vs, size))
  {
    OnDataDrain(vs, Min(size, |Flat(vs)|));
  }

  lemma OnDataAttach(vs: seq<SliceView>, t: TrackerId)
    requires TrackersOnData(vs)
    ensures TrackersOnData(AttachViews(vs, t))
  {
    FlatAttach(vs, t);
  }

  lemma {:induction false} OnDataAddEach(vs: seq<SliceView>, from: seq<SliceView>)
    requires TrackersOnData(vs)
    ensures TrackersOnData(AddEach(vs, from))
    decreases |from|
  {
    if from != [] {
      OnDataAddEach(AddViews(vs, from[0].data), from[1..]);
    }
  }
}
