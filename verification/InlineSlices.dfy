/**
 Where the bytes of a slice lie, and what moving slices about in their vector does to them.

 A slice of at most 512 bytes keeps them inside itself. Moving it copies them only when
 its pointer is at their start; once it is drained in part the pointer stays behind, in
 an object that is gone or another slice's. This says which operations move such a slice,
 and so exactly which runs leave in the buffers what they leave in byte queues.
 */
module InlineSlices {
  import opened SliceViews
  import opened BufferRuns

  /** Inside the slice itself, `off` bytes after their start; in memory of its own; or where the slice was before. */
  datatype Place = Inside(off: nat) | Outside | Behind

  datatype Placed = Placed(view: SliceView, place: Place)

  /** Drained in part, and inside itself: it must stay where it is. */
  predicate Pinned(p: Placed) { p.place.Inside? && p.place.off > 0 }

  predicate Free(ps: seq<Placed>) { forall i :: 0 <= i < |ps| ==> !Pinned(ps[i]) }

  /** Every slice has its bytes. */
  predicate Sound(ps: seq<Placed>) { forall i :: 0 <= i < |ps| ==> !ps[i].place.Behind? }

  function Views(ps: seq<Placed>): seq<SliceView> { seq(|ps|, i requires 0 <= i < |ps| => ps[i].view) }

  // ----- the vector -----

  function Moved(p: Placed): Placed { if Pinned(p) then p.(place := Behind) else p }

  function AllMoved(ps: seq<Placed>): seq<Placed> { seq(|ps|, i requires 0 <= i < |ps| => Moved(ps[i])) }

  /** Whether the vector has to grow is asked for the size it has by then. */
  function PushBack(ps: seq<Placed>, p: Placed, grows: nat -> bool): seq<Placed> {
    (if grows(|ps|) then AllMoved(ps) else ps) + [Moved(p)]
  }

  function PushFront(p: Placed, ps: seq<Placed>): seq<Placed> { [Moved(p)] + AllMoved(ps) }

  function PopFront(ps: seq<Placed>): seq<Placed>
    requires ps != []
  {
    AllMoved(ps[1..])
  }

  // ----- the operations -----

  function NewPlaced(d: seq<byte>, size: nat): Placed
    requires |d| <= size
  {
    Placed(NewSlice(d, size), if size <= INLINE_DATA_SIZE then Inside(0) else Outside)
  }

  /** The pointer moves on by what is drained. */
  function Nicked(p: Placed, n: nat): Placed
    requires n <= |p.view.data|
  {
    Placed(Drained(p.view, n), if p.place.Inside? then Inside(p.place.off + n) else p.place)
  }

  function AddPlaced(ps: seq<Placed>, d: seq<byte>, grows: nat -> bool): seq<Placed> {
    if d == [] then ps
    else if ps == [] || ps[|ps| - 1].view.immutable then
      PushBack(ps, NewPlaced(d, Max(|d|, DEFAULT_SLICE_SIZE)), grows)
    else
      var last := ps[|ps| - 1];
      var k := Min(|d|, last.view.room);
      var filled := ps[|ps| - 1 := last.(view := Appended(last.view, d[..k]))];
      if k == |d| then filled
      else PushBack(filled, NewPlaced(d[k..], Max(|d| - k, DEFAULT_SLICE_SIZE)), grows)
  }

  function AddEachPlaced(ps: seq<Placed>, from: seq<SliceView>, grows: nat -> bool): seq<Placed>
    decreases |from|
  {
    if from == [] then ps else AddEachPlaced(AddPlaced(ps, from[0].data, grows), from[1..], grows)
  }

  function PrependPlaced(ps: seq<Placed>, d: seq<byte>): seq<Placed> {
    if d == [] then ps
    else if ps != [] && !ps[0].view.immutable && |d| <= ps[0].view.room then
      ps[0 := ps[0].(view := Prepended(ps[0].view, d))]
    else PushFront(NewPlaced(d, |d|), ps)
  }

  function DrainPlaced(ps: seq<Placed>, n: nat): seq<Placed>
    decreases |ps|
  {
    if n == 0 || ps == [] then ps
    else if n >= |ps[0].view.data| then DrainPlaced(PopFront(ps), n - |ps[0].view.data|)
    else ps[0 := Nicked(ps[0], n)]
  }

  function MovePlaced(src: seq<Placed>, dst: seq<Placed>, n: nat, grows: nat -> bool): (seq<Placed>, seq<Placed>)
    decreases |src|
  {
    if n == 0 || src == [] then (src, dst)
    else if n >= |src[0].view.data| then
      MovePlaced(PopFront(src), PushBack(dst, src[0], grows), n - |src[0].view.data|, grows)
    else (src[0 := Nicked(src[0], n)], AddPlaced(dst, src[0].view.data[..n], grows))
  }

  /** The front slice is too short, so that data is copied together. */
  predicate Coalesces(vs: seq<SliceView>, size: nat) {
    var n := Min(size, |Flat(vs)|);
    n > 0 && !(vs != [] && |vs[0].data| >= n)
  }

  /** What is copied together is pushed in front of what the drain leaves. */
  function LinearizePlaced(ps: seq<Placed>, size: nat): seq<Placed> {
    var n := Min(size, |Flat(Views(ps))|);
    if !Coalesces(Views(ps), size) then ps
    else PushFront(NewPlaced(Flat(Views(ps))[..n], n), DrainPlaced(ps, n))
  }

  function AttachPlaced(ps: seq<Placed>, t: TrackerId): seq<Placed> {
    seq(|ps|, i requires 0 <= i < |ps| => ps[i].(view := Attached(ps[i].view, t)))
  }

  function CommittedPlaced(ps: seq<Placed>, at: nat, d: seq<byte>): seq<Placed>
    requires at < |ps|
  {
    if !ps[at].view.immutable && |d| <= ps[at].view.room
    then ps[at := ps[at].(view := Appended(ps[at].view, d))] else ps
  }

  function ReservedPlaced(ps: seq<Placed>, grows: nat -> bool): seq<Placed> {
    if ReserveIndex(Views(ps)) < |ps| then ps else PushBack(ps, NewPlaced([], DEFAULT_RESERVATION_SIZE), grows)
  }

  function ReadPlaced(ps: seq<Placed>, d: seq<byte>, grows: nat -> bool): seq<Placed> {
    var reserved := ReservedPlaced(ps, grows);
    if d != [] && ReserveIndex(Views(ps)) == |reserved| - 1 then CommittedPlaced(reserved, |reserved| - 1, d)
    else reserved
  }

  /** One operation on buffers whose slices have places. */
  function StepPlaced(bs: seq<seq<Placed>>, op: Op, grows: nat -> bool): seq<seq<Placed>>
    requires Meaningful(|bs|, op)
  {
    var ps := bs[op.b];
    match op
    case Add(b, d) => bs[b := AddPlaced(ps, d, grows)]
    case AddBuffer(b, source) => bs[b := AddEachPlaced(ps, RawViews(Views(bs[source]), MAX_COPIED_SLICES), grows)]
    case AddFragment(b, d) => bs[b := PushBack(ps, Placed(FragmentSlice(d), Outside), grows)]
    case Prepend(b, d) => bs[b := PrependPlaced(ps, d)]
    case Drain(b, n) => if n > |Flat(Views(ps))| then bs else bs[b := DrainPlaced(ps, n)]
    case Move(b, dest, n) =>
      var (left, moved) := MovePlaced(ps, bs[dest], Min(n, |Flat(Views(ps))|), grows);
      bs[b := left][dest := moved]
    case Linearize(b, n) => bs[b := LinearizePlaced(ps, n)]
    case Attach(b, t) => bs[b := AttachPlaced(ps, t)]
    case ReserveSingle(b, n, d) =>
      var reserved := PushBack(ps, NewPlaced([], n), grows);
      bs[b := if |d| <= n then CommittedPlaced(reserved, |ps|, d) else reserved]
    case ReserveForRead(b, d) => bs[b := ReadPlaced(ps, d, grows)]
  }

  function AllViews(bs: seq<seq<Placed>>): seq<seq<SliceView>> {
    seq(|bs|, i requires 0 <= i < |bs| => Views(bs[i]))
  }

  /** A slice made for some bytes and drained in part must stay where it is exactly when they are at most 512. */
  lemma MustStay(d: seq<byte>, n: nat)
    requires 0 < n < |d|
    ensures Pinned(Nicked(NewPlaced(d, |d|), n)) <==> |d| <= 512
  {
  }

  // ----- places aside, these are the operations on views -----

  lemma PushViews(ps: seq<Placed>, p: Placed, grows: nat -> bool)
    ensures Views(PushBack(ps, p, grows)) == Views(ps) + [p.view]
    ensures Views(PushFront(p, ps)) == [p.view] + Views(ps)
  {
  }

  lemma AddedViews(ps: seq<Placed>, d: seq<byte>, grows: nat -> bool)
    ensures Views(AddPlaced(ps, d, grows)) == AddViews(Views(ps), d)
  {
    hide PushBack;
    if d != [] {
      if ps == [] || ps[|ps| - 1].view.immutable {
        PushViews(ps, NewPlaced(d, Max(|d|, DEFAULT_SLICE_SIZE)), grows);
      } else {
        var last := ps[|ps| - 1];
        var k := Min(|d|, last.view.room);
        var filled := ps[|ps| - 1 := last.(view := Appended(last.view, d[..k]))];
        assert Views(filled) == Views(ps)[|ps| - 1 := Appended(last.view, d[..k])];
        if k < |d| {
          PushViews(filled, NewPlaced(d[k..], Max(|d| - k, DEFAULT_SLICE_SIZE)), grows);
        }
      }
    }
  }

  lemma {:induction false} AddedEachViews(ps: seq<Placed>, from: seq<SliceView>, grows: nat -> bool)
    ensures Views(AddEachPlaced(ps, from, grows)) == AddEach(Views(ps), from)
    decreases |from|
  {
    if from != [] {
      AddedViews(ps, from[0].data, grows);
      AddedEachViews(AddPlaced(ps, from[0].data, grows), from[1..], grows);
    }
  }

  lemma {:induction false} DrainedViews(ps: seq<Placed>, n: nat)
    ensures Views(DrainPlaced(ps, n)) == DrainViews(Views(ps), n)
    decreases |ps|
  {
    if n > 0 && ps != [] {
      if n >= |ps[0].view.data| {
        DrainedViews(PopFront(ps), n - |ps[0].view.data|);
        assert Views(PopFront(ps)) == Views(ps)[1..];
      } else {
        assert Views(ps[0 := Nicked(ps[0], n)]) == Views(ps)[0 := Drained(ps[0].view, n)];
      }
    }
  }

  lemma {:induction false} MovedViews(src: seq<Placed>, dst: seq<Placed>, n: nat, grows: nat -> bool)
    ensures var (left, moved) := MovePlaced(src, dst, n, grows);
            (Views(left), Views(moved)) == MoveViews(Views(src), Views(dst), n)
    decreases |src|
  {
    hide PushBack;
    if n > 0 && src != [] {
      if n >= |src[0].view.data| {
        PushViews(dst, src[0], grows);
        MovedViews(PopFront(src), PushBack(dst, src[0], grows), n - |src[0].view.data|, grows);
        assert Views(PopFront(src)) == Views(src)[1..];
      } else {
        AddedViews(dst, src[0].view.data[..n], grows);
        assert Views(src[0 := Nicked(src[0], n)]) == Views(src)[0 := Drained(src[0].view, n)];
      }
    }
  }

  lemma LinearizedViews(ps: seq<Placed>, size: nat)
    ensures Views(LinearizePlaced(ps, size)) == LinearizeViews(Views(ps), size)
  {
    hide PushFront, DrainPlaced;
    if Coalesces(Views(ps), size) {
      var n := Min(size, |Flat(Views(ps))|);
      DrainedViews(ps, n);
      PushViews(DrainPlaced(ps, n), NewPlaced(Flat(Views(ps))[..n], n), k => false);
    }
  }

  lemma {:induction false} AttachedViews(ps: seq<Placed>, t: TrackerId)
    ensures Views(AttachPlaced(ps, t)) == AttachViews(Views(ps), t)
    decreases |ps|
  {
    if ps != [] {
      AttachedViews(ps[1..], t);
      assert Views(ps)[1..] == Views(ps[1..]);
      assert Views(AttachPlaced(ps, t)) == [Attached(ps[0].view, t)] + Views(AttachPlaced(ps[1..], t));
    }
  }

  lemma CommittedViews(ps: seq<Placed>, at: nat, d: seq<byte>)
    requires at < |ps|
    ensures Views(CommittedPlaced(ps, at, d)) == Committed(Views(ps), at, d)
  {
  }

  lemma ReadPlacedViews(ps: seq<Placed>, d: seq<byte>, grows: nat -> bool)
    ensures Views(ReadPlaced(ps, d, grows)) == ReadViews(Views(ps), d)
  {
    hide PushBack, CommittedPlaced, Committed;
    PushViews(ps, NewPlaced([], DEFAULT_RESERVATION_SIZE), grows);
    var reserved := ReservedPlaced(ps, grows);
    assert Views(reserved) == ReserveViews(Views(ps));
    assert |reserved| == |ReserveViews(Views(ps))|;
    if |reserved| > 0 {
      CommittedViews(reserved, |reserved| - 1, d);
    }
  }

  lemma ReservedViews(ps: seq<Placed>, n: nat, d: seq<byte>, grows: nat -> bool)
    ensures |PushBack(ps, NewPlaced([], n), grows)| == |ps| + 1
    ensures Views(PushBack(ps, NewPlaced([], n), grows)) == Views(ps) + [NewSlice([], n)]
    ensures Views(CommittedPlaced(PushBack(ps, NewPlaced([], n), grows), |ps|, d))
            == Committed(Views(ps) + [NewSlice([], n)], |ps|, d)
  {
    PushViews(ps, NewPlaced([], n), grows);
    CommittedViews(PushBack(ps, NewPlaced([], n), grows), |ps|, d);
  }

  lemma StepViews(bs: seq<seq<Placed>>, op: Op, grows: nat -> bool, s: System)
    requires Meaningful(|bs|, op) && s.buffers == AllViews(bs)
    ensures AllViews(StepPlaced(bs, op, grows)) == Step(s, op).buffers
  {
    hide AddPlaced, AddEachPlaced, PushBack, PrependPlaced, DrainPlaced, MovePlaced, LinearizePlaced, AttachPlaced,
      CommittedPlaced, ReadPlaced, AddViews, PrependViews, DrainViews, MoveViews, LinearizeViews, AttachViews,
      Committed, ReadViews, AddBufferViews;
    var ps := bs[op.b];
    match op
    case Add(b, d) => AddedViews(ps, d, grows);
    case AddBuffer(b, source) =>
      AddedEachViews(ps, RawViews(Views(bs[source]), MAX_COPIED_SLICES), grows);
      BufferAdded(Views(ps), Views(bs[source]));
    case AddFragment(b, d) => PushViews(ps, Placed(FragmentSlice(d), Outside), grows);
    case Prepend(b, d) => PrependedViews(ps, d);
    case Drain(b, n) => DrainedViews(ps, n);
    case Move(b, dest, n) => MovedViews(ps, bs[dest], Min(n, |Flat(Views(ps))|), grows);
    case Linearize(b, n) => LinearizedViews(ps, n);
    case Attach(b, t) => AttachedViews(ps, t);
    case ReserveSingle(b, n, d) => ReservedViews(ps, n, d, grows);
    case ReserveForRead(b, d) => ReadPlacedViews(ps, d, grows);
  }

  lemma BufferAdded(vs: seq<SliceView>, source: seq<SliceView>)
    ensures AddBufferViews(vs, source) == AddEach(vs, RawViews(source, MAX_COPIED_SLICES))
  {
  }

  lemma PrependedViews(ps: seq<Placed>, d: seq<byte>)
    ensures Views(PrependPlaced(ps, d)) == PrependViews(Views(ps), d)
  {
    hide PushFront;
    PushViews(ps, NewPlaced(d, |d|), k => false);
    if ps != [] && !ps[0].view.immutable && |d| <= ps[0].view.room {
      assert Views(ps[0 := ps[0].(view := Prepended(ps[0].view, d))]) == Views(ps)[0 := Prepended(ps[0].view, d)];
    }
  }

  // ----- which slices an operation moves -----

  /** The vector grows on its way from one size to another. */
  predicate Grew(from: nat, to: nat, grows: nat -> bool) { exists k :: from <= k < to && grows(k) }

  /** How much a drain takes of the slice behind those it takes whole. */
  function Part(vs: seq<SliceView>, n: nat): (m: nat)
    ensures m > 0 && Whole(vs, n) < |vs| ==> m < |vs[Whole(vs, n)].data|
  {
    if n == 0 || vs == [] || n < |vs[0].data| then n else Part(vs[1..], n - |vs[0].data|)
  }

  /**
   The operation moves no slice that is drained in part and inside itself. A slice that
   stays in front is not moved; what is pushed to the back moves the others only when the
   vector grows; all else moves every slice that is left.
   */
  predicate Stays(bs: seq<seq<Placed>>, op: Op, grows: nat -> bool)
    requires Meaningful(|bs|, op)
  {
    var ps := bs[op.b];
    var vs := Views(ps);
    match op
    case Drain(_, n) => n > |Flat(vs)| || Whole(vs, n) == 0 || Free(ps[Whole(vs, n)..])
    case Prepend(_, d) => |PrependViews(vs, d)| == |vs| || Free(ps)
    case Linearize(_, size) =>
      var n := Min(size, |Flat(vs)|);
      Coalesces(vs, size) ==>
        Free(ps[Whole(vs, n)..]) && (Whole(vs, n) < |ps| && Part(vs, n) > 0 ==> !ps[Whole(vs, n)].place.Inside?)
    case Move(_, dest, size) =>
      var n := Min(size, |Flat(vs)|);
      && (Whole(vs, n) == 0 || Free(ps))
      && (Free(bs[dest]) || !Grew(|bs[dest]|, |MoveViews(vs, Views(bs[dest]), n).1|, grows))
    case Attach(_, _) => true
    case _ => Free(ps) || !Grew(|ps|, |Step(System(AllViews(bs), [], []), op).buffers[op.b]|, grows)
  }

  ghost predicate AllSound(bs: seq<seq<Placed>>) { forall i :: 0 <= i < |bs| ==> Sound(bs[i]) }

  lemma MovedSound(ps: seq<Placed>)
    ensures Sound(AllMoved(ps)) <==> Sound(ps) && Free(ps)
    ensures Free(AllMoved(ps))
  {
    if Sound(AllMoved(ps)) {
      forall i | 0 <= i < |ps|
        ensures !Pinned(ps[i]) && !ps[i].place.Behind?
      {
        assert !AllMoved(ps)[i].place.Behind?;
      }
    }
  }

  lemma JoinSound(ps: seq<Placed>, qs: seq<Placed>)
    ensures Sound(ps + qs) <==> Sound(ps) && Sound(qs)
    ensures Free(ps + qs) <==> Free(ps) && Free(qs)
  {
    var all := ps + qs;
    assert forall i :: 0 <= i < |ps| ==> all[i] == ps[i];
    assert forall i :: 0 <= i < |qs| ==> all[|ps| + i] == qs[i];
  }

  lemma PushBackSound(ps: seq<Placed>, p: Placed, grows: nat -> bool)
    ensures Sound(PushBack(ps, p, grows))
            <==> Sound(ps) && !p.place.Behind? && !Pinned(p) && (Free(ps) || !grows(|ps|))
    ensures Free(PushBack(ps, p, grows)) <==> Free(ps) || grows(|ps|)
  {
    MovedSound(ps);
    JoinSound(if grows(|ps|) then AllMoved(ps) else ps, [Moved(p)]);
    assert [Moved(p)][0] == Moved(p);
  }

  lemma PushFrontSound(p: Placed, ps: seq<Placed>)
    ensures Sound(PushFront(p, ps)) <==> Sound(ps) && Free(ps) && !p.place.Behind? && !Pinned(p)
  {
    MovedSound(ps);
    JoinSound([Moved(p)], AllMoved(ps));
    assert [Moved(p)][0] == Moved(p);
  }

  /** Another view changes neither. */
  lemma SamePlaces(ps: seq<Placed>, qs: seq<Placed>)
    requires |ps| == |qs| && forall i :: 0 <= i < |ps| ==> ps[i].place == qs[i].place
    ensures Sound(ps) <==> Sound(qs)
    ensures Free(ps) <==> Free(qs)
  {
    assert forall i :: 0 <= i < |ps| ==> (Pinned(ps[i]) <==> Pinned(qs[i]));
  }

  lemma AddSound(ps: seq<Placed>, d: seq<byte>, grows: nat -> bool)
    ensures var ps' := AddPlaced(ps, d, grows);
            && |ps| <= |ps'|
            && (Sound(ps') <==> Sound(ps) && (Free(ps) || !Grew(|ps|, |ps'|, grows)))
            && (Free(ps') <==> Free(ps) || Grew(|ps|, |ps'|, grows))
  {
    hide PushBack, Sound, Free;
    if d != [] {
      if ps == [] || ps[|ps| - 1].view.immutable {
        PushedOne(ps, NewPlaced(d, Max(|d|, DEFAULT_SLICE_SIZE)), grows);
      } else {
        var last := ps[|ps| - 1];
        var k := Min(|d|, last.view.room);
        var filled := ps[|ps| - 1 := last.(view := Appended(last.view, d[..k]))];
        SamePlaces(ps, filled);
        if k < |d| {
          PushedOne(filled, NewPlaced(d[k..], Max(|d| - k, DEFAULT_SLICE_SIZE)), grows);
        }
      }
    }
  }

  /** A new slice at the back. */
  lemma PushedOne(ps: seq<Placed>, p: Placed, grows: nat -> bool)
    requires !p.place.Behind? && !Pinned(p)
    ensures var ps' := PushBack(ps, p, grows);
            && |ps'| == |ps| + 1
            && (Sound(ps') <==> Sound(ps) && (Free(ps) || !Grew(|ps|, |ps'|, grows)))
            && (Free(ps') <==> Free(ps) || Grew(|ps|, |ps'|, grows))
  {
    hide Sound, Free;
    PushBackSound(ps, p, grows);
    assert Grew(|ps|, |ps| + 1, grows) <==> grows(|ps|);
  }

  lemma GrewOn(from: nat, between: nat, to: nat, grows: nat -> bool)
    requires from <= between <= to
    ensures Grew(from, to, grows) <==> Grew(from, between, grows) || Grew(between, to, grows)
  {
  }

  lemma {:induction false} AddEachSound(ps: seq<Placed>, from: seq<SliceView>, grows: nat -> bool)
    ensures var ps' := AddEachPlaced(ps, from, grows);
            && |ps| <= |ps'|
            && (Sound(ps') <==> Sound(ps) && (Free(ps) || !Grew(|ps|, |ps'|, grows)))
    decreases |from|
  {
    hide AddPlaced, Sound, Free, Grew;
    if from != [] {
      var one := AddPlaced(ps, from[0].data, grows);
      AddSound(ps, from[0].data, grows);
      AddEachSound(one, from[1..], grows);
      GrewOn(|ps|, |one|, |AddEachPlaced(ps, from, grows)|, grows);
    } else {
      assert !Grew(|ps|, |ps|, grows) by {
        NotGrown(|ps|, grows);
      }
    }
  }

  lemma NotGrown(size: nat, grows: nat -> bool)
    ensures !Grew(size, size, grows)
  {
  }

  /** What a drain leaves: moved when a slice went, and drained on in front. */
  function Left(ps: seq<Placed>, r: nat, m: nat): seq<Placed>
    requires r <= |ps| && (m > 0 ==> r < |ps| && m < |ps[r].view.data|)
  {
    var left := if r == 0 then ps else AllMoved(ps[r..]);
    if m == 0 then left else left[0 := Nicked(left[0], m)]
  }

  lemma {:induction false} DrainIs(ps: seq<Placed>, n: nat)
    requires n <= |Flat(Views(ps))|
    ensures var r, m := Whole(Views(ps), n), Part(Views(ps), n);
            (m > 0 ==> r < |ps| && m < |ps[r].view.data|) && DrainPlaced(ps, n) == Left(ps, r, m)
    decreases |ps|
  {
    hide PopFront, Nicked, Flat, Left;
    FlatRest(Views(ps));
    if n == 0 || ps == [] || n < |ps[0].view.data| {
      DrainFront(ps, n);
    } else {
      PopRest(ps, Whole(Views(ps), n) - 1, Part(Views(ps), n));
      DrainIs(PopFront(ps), n - |ps[0].view.data|);
    }
  }

  lemma DrainFront(ps: seq<Placed>, n: nat)
    requires n <= |Flat(Views(ps))| && (n == 0 || ps == [] || n < |ps[0].view.data|)
    ensures n > 0 ==> ps != []
    ensures DrainPlaced(ps, n) == Left(ps, 0, n)
  {
  }

  lemma FlatRest(vs: seq<SliceView>)
    ensures vs != [] ==> |Flat(vs[1..])| == |Flat(vs)| - |vs[0].data|
    ensures vs == [] ==> Flat(vs) == []
  {
  }

  /** Slices moved twice are moved. */
  lemma PopRest(ps: seq<Placed>, r: nat, m: nat)
    requires 1 <= 1 + r <= |ps|
    ensures Views(PopFront(ps)) == Views(ps)[1..] && PopFront(ps) == AllMoved(ps[1..])
    ensures |PopFront(ps)| == |ps| - 1 && AllMoved(PopFront(ps)[r..]) == AllMoved(ps[1 + r..])
    ensures m > 0 && 1 + r < |ps| && m < |ps[1 + r].view.data| ==>
              PopFront(ps)[r].view == ps[1 + r].view && Left(PopFront(ps), r, m) == Left(ps, 1 + r, m)
    ensures m == 0 ==> Left(PopFront(ps), r, m) == Left(ps, 1 + r, m)
  {
    assert PopFront(ps)[r..] == AllMoved(ps[1 + r..]);
  }

  lemma DrainSound(ps: seq<Placed>, n: nat)
    requires n <= |Flat(Views(ps))| && Sound(ps)
    ensures var r, m := Whole(Views(ps), n), Part(Views(ps), n);
            && (Sound(DrainPlaced(ps, n)) <==> r == 0 || Free(ps[r..]))
            && (Sound(DrainPlaced(ps, n)) && Free(DrainPlaced(ps, n))
                <==> Free(ps[r..]) && (r < |ps| && m > 0 ==> !ps[r].place.Inside?))
  {
    hide DrainPlaced;
    var r, m := Whole(Views(ps), n), Part(Views(ps), n);
    DrainIs(ps, n);
    MovedSound(ps[r..]);
    var left := if r == 0 then ps else AllMoved(ps[r..]);
    assert Sound(ps[r..]);
    if m > 0 {
      NickSound(left, m);
      assert left[0] == if r == 0 then ps[0] else Moved(ps[r]);
    }
  }

  /** Draining the front in part pins it when it is inside itself. */
  lemma NickSound(ps: seq<Placed>, m: nat)
    requires ps != [] && 0 < m <= |ps[0].view.data|
    ensures var ps' := ps[0 := Nicked(ps[0], m)];
            && (Sound(ps') <==> Sound(ps))
            && (Free(ps') <==> Free(ps[1..]) && !ps[0].place.Inside?)
  {
    var ps' := ps[0 := Nicked(ps[0], m)];
    JoinSound([ps[0]], ps[1..]);
    JoinSound([ps'[0]], ps[1..]);
    assert ps == [ps[0]] + ps[1..] && ps' == [ps'[0]] + ps[1..];
    assert [ps[0]][0] == ps[0] && [ps'[0]][0] == ps'[0];
  }

  lemma PopSound(ps: seq<Placed>)
    requires ps != []
    ensures Free(PopFront(ps)) && (Sound(PopFront(ps)) <==> Sound(ps[1..]) && Free(ps[1..]))
    ensures Sound(ps) <==> !ps[0].place.Behind? && Sound(ps[1..])
    ensures Free(ps) <==> !Pinned(ps[0]) && Free(ps[1..])
  {
    MovedSound(ps[1..]);
    JoinSound([ps[0]], ps[1..]);
    assert ps == [ps[0]] + ps[1..] && [ps[0]][0] == ps[0];
  }

  lemma {:induction false} MoveSound(src: seq<Placed>, dst: seq<Placed>, n: nat, grows: nat -> bool)
    ensures var (left, moved) := MovePlaced(src, dst, n, grows);
            && |dst| <= |moved|
            && (Sound(left) && Sound(moved)
                <==> && Sound(src) && Sound(dst) && (Whole(Views(src), n) == 0 || Free(src))
                     && (Free(dst) || !Grew(|dst|, |moved|, grows)))
    decreases |src|
  {
    hide Sound, Free, PushBack, AddPlaced, Grew, Moved, Pinned;
    var (left, moved) := MovePlaced(src, dst, n, grows);
    if n == 0 || src == [] {
      NotGrown(|dst|, grows);
    } else if n >= |src[0].view.data| {
      var popped, pushed, n' := PopFront(src), PushBack(dst, src[0], grows), n - |src[0].view.data|;
      PopSound(src);
      PushBackSound(dst, src[0], grows);
      MoveSound(popped, pushed, n', grows);
      PopRest(src, 0, 0);
      assert |pushed| == |dst| + 1 by {
        PushViews(dst, src[0], grows);
        assert |Views(pushed)| == |Views(dst) + [src[0].view]|;
      }
      GrewFirst(|dst|, |moved|, grows);
    } else {
      NickSound(src, n);
      AddSound(dst, src[0].view.data[..n], grows);
    }
  }

  lemma GrewFirst(from: nat, to: nat, grows: nat -> bool)
    requires from < to
    ensures Grew(from, to, grows) <==> grows(from) || Grew(from + 1, to, grows)
  {
  }

  lemma LinearizeSound(ps: seq<Placed>, size: nat)
    requires Sound(ps) && Coalesces(Views(ps), size)
    ensures var n := Min(size, |Flat(Views(ps))|);
            Sound(LinearizePlaced(ps, size))
            <==> && Free(ps[Whole(Views(ps), n)..])
                 && (Whole(Views(ps), n) < |ps| && Part(Views(ps), n) > 0 ==> !ps[Whole(Views(ps), n)].place.Inside?)
  {
    hide Sound, Free, PushFront, DrainPlaced;
    var n := Min(size, |Flat(Views(ps))|);
    DrainSound(ps, n);
    PushFrontSound(NewPlaced(Flat(Views(ps))[..n], n), DrainPlaced(ps, n));
  }

  lemma CommitSound(ps: seq<Placed>, at: nat, d: seq<byte>)
    requires at < |ps|
    ensures Sound(CommittedPlaced(ps, at, d)) <==> Sound(ps)
    ensures |CommittedPlaced(ps, at, d)| == |ps|
  {
    SamePlaces(ps, CommittedPlaced(ps, at, d));
  }

  lemma ReadSound(ps: seq<Placed>, d: seq<byte>, grows: nat -> bool)
    ensures var ps' := ReadPlaced(ps, d, grows);
            Sound(ps') <==> Sound(ps) && (Free(ps) || !Grew(|ps|, |ps'|, grows))
  {
    hide Sound, Free, Grew, PushBack, CommittedPlaced;
    NotGrown(|ps|, grows);
    PushedOne(ps, NewPlaced([], DEFAULT_RESERVATION_SIZE), grows);
    var reserved := ReservedPlaced(ps, grows);
    if |reserved| > 0 {
      CommitSound(reserved, |reserved| - 1, d);
    }
  }

  lemma PrependSound(ps: seq<Placed>, d: seq<byte>)
    requires Sound(ps)
    ensures Sound(PrependPlaced(ps, d)) <==> |PrependPlaced(ps, d)| == |ps| || Free(ps)
  {
    hide Sound, Free;
    if d != [] {
      if ps != [] && !ps[0].view.immutable && |d| <= ps[0].view.room {
        SamePlaces(ps, ps[0 := ps[0].(view := Prepended(ps[0].view, d))]);
      } else {
        PushFrontSound(NewPlaced(d, |d|), ps);
      }
    }
  }

  lemma ReserveSound(ps: seq<Placed>, n: nat, d: seq<byte>, grows: nat -> bool)
    ensures var reserved := PushBack(ps, NewPlaced([], n), grows);
            && |reserved| == |CommittedPlaced(reserved, |ps|, d)| == |ps| + 1
            && (Sound(reserved) <==> Sound(ps) && (Free(ps) || !Grew(|ps|, |ps| + 1, grows)))
            && (Sound(CommittedPlaced(reserved, |ps|, d)) <==> Sound(reserved))
  {
    hide Sound, Free, Grew, PushBack, CommittedPlaced;
    PushedOne(ps, NewPlaced([], n), grows);
    CommitSound(PushBack(ps, NewPlaced([], n), grows), |ps|, d);
  }

  /** The part of a step's theorem that is about the buffer it names, moves aside. */
  lemma BufferSound(bs: seq<seq<Placed>>, op: Op, grows: nat -> bool)
    requires Meaningful(|bs|, op) && !op.Move? && Sound(bs[op.b])
    ensures Sound(StepPlaced(bs, op, grows)[op.b]) <==> Stays(bs, op, grows)
  {
    hide Sound, Free, Grew, PushBack, AddPlaced, AddEachPlaced, PrependPlaced, DrainPlaced, LinearizePlaced,
      AttachPlaced, CommittedPlaced, ReadPlaced, Step, Flat, Whole, Part, Coalesces;
    var ps := bs[op.b];
    SizeAlike(bs, op, grows);
    match op
    case Add(_, d) => AddSound(ps, d, grows);
    case AddBuffer(_, source) => AddEachSound(ps, RawViews(Views(bs[source]), MAX_COPIED_SLICES), grows);
    case AddFragment(_, d) => PushedOne(ps, Placed(FragmentSlice(d), Outside), grows);
    case Prepend(_, d) =>
      PrependedViews(ps, d);
      assert |Views(PrependPlaced(ps, d))| == |PrependPlaced(ps, d)|;
      PrependSound(ps, d);
    case Drain(_, n) =>
      if n <= |Flat(Views(ps))| {
        DrainSound(ps, n);
      }
    case Linearize(_, n) =>
      if Coalesces(Views(ps), n) {
        LinearizeSound(ps, n);
      } else {
        LinearizedNot(ps, n);
      }
    case Attach(_, t) => AttachSound(ps, t);
    case ReserveSingle(_, n, d) => ReserveSound(ps, n, d, grows);
    case ReserveForRead(_, d) => ReadSound(ps, d, grows);
  }

  lemma LinearizedNot(ps: seq<Placed>, size: nat)
    requires !Coalesces(Views(ps), size)
    ensures LinearizePlaced(ps, size) == ps
  {
  }

  lemma AttachSound(ps: seq<Placed>, t: TrackerId)
    ensures Sound(AttachPlaced(ps, t)) <==> Sound(ps)
  {
    SamePlaces(ps, AttachPlaced(ps, t));
  }

  /** A buffer has as many slices as it has views. */
  lemma SizeAlike(bs: seq<seq<Placed>>, op: Op, grows: nat -> bool)
    requires Meaningful(|bs|, op)
    ensures var s' := Step(System(AllViews(bs), [], []), op);
            |s'.buffers| == |bs| && |StepPlaced(bs, op, grows)[op.b]| == |s'.buffers[op.b]|
  {
    hide StepPlaced, Step;
    StepViews(bs, op, grows, System(AllViews(bs), [], []));
    StepSize(bs, op, grows);
    var bs' := StepPlaced(bs, op, grows);
    assert AllViews(bs')[op.b] == Views(bs'[op.b]);
  }

  lemma StepSize(bs: seq<seq<Placed>>, op: Op, grows: nat -> bool)
    requires Meaningful(|bs|, op)
    ensures |StepPlaced(bs, op, grows)| == |bs|
    ensures forall i :: 0 <= i < |bs| && i != op.b && !(op.Move? && i == op.dest) ==>
              StepPlaced(bs, op, grows)[i] == bs[i]
  {
  }

  lemma MoveStepSound(bs: seq<seq<Placed>>, op: Op, grows: nat -> bool)
    requires Meaningful(|bs|, op) && op.Move? && Sound(bs[op.b]) && Sound(bs[op.dest])
    ensures var bs' := StepPlaced(bs, op, grows);
            Sound(bs'[op.b]) && Sound(bs'[op.dest]) <==> Stays(bs, op, grows)
  {
    hide Sound, Free, Grew, MovePlaced, MoveViews, Flat, Whole;
    var n := Min(op.size, |Flat(Views(bs[op.b]))|);
    MoveSound(bs[op.b], bs[op.dest], n, grows);
    MovedViews(bs[op.b], bs[op.dest], n, grows);
    var (left, moved) := MovePlaced(bs[op.b], bs[op.dest], n, grows);
    assert |Views(moved)| == |moved|;
  }

  /** An operation leaves every slice its bytes exactly when it moves none that must stay. */
  lemma StepSound(bs: seq<seq<Placed>>, op: Op, grows: nat -> bool)
    requires Meaningful(|bs|, op) && AllSound(bs)
    ensures AllSound(StepPlaced(bs, op, grows)) <==> Stays(bs, op, grows)
  {
    hide Sound, StepPlaced, Stays;
    var bs' := StepPlaced(bs, op, grows);
    StepSize(bs, op, grows);
    if op.Move? {
      MoveStepSound(bs, op, grows);
    } else {
      BufferSound(bs, op, grows);
    }
  }

  // ----- runs -----

  /** An operation, and when the vector it pushes to grows. */
  datatype Done = Done(op: Op, grows: nat -> bool)

  ghost predicate AllMeaningful(count: nat, run: seq<Done>) {
    forall i :: 0 <= i < |run| ==> Meaningful(count, run[i].op)
  }

  function Ops(run: seq<Done>): seq<Op> { seq(|run|, i requires 0 <= i < |run| => run[i].op) }

  /** Every slice has its bytes, and together they are the queues. */
  ghost predicate Holds(bs: seq<seq<Placed>>, q: seq<seq<byte>>) {
    AllSound(bs) && |bs| == |q| && forall i :: 0 <= i < |bs| ==> Flat(Views(bs[i])) == q[i]
  }

  /** They are so before the run and after each of its operations. */
  ghost predicate HoldsThroughout(bs: seq<seq<Placed>>, q: seq<seq<byte>>, run: seq<Done>)
    requires |bs| == |q| && AllMeaningful(|bs|, run)
    decreases |run|
  {
    && Holds(bs, q)
    && (run != [] ==>
          HoldsThroughout(StepPlaced(bs, run[0].op, run[0].grows), QueueStep(q, run[0].op), run[1..]))
  }

  ghost predicate StaysThroughout(bs: seq<seq<Placed>>, run: seq<Done>)
    requires AllMeaningful(|bs|, run)
    decreases |run|
  {
    run != [] ==>
      Stays(bs, run[0].op, run[0].grows) && StaysThroughout(StepPlaced(bs, run[0].op, run[0].grows), run[1..])
  }

  lemma HoldsNow(bs: seq<seq<Placed>>, s: System)
    requires s.buffers == AllViews(bs)
    ensures Holds(bs, Queues(s)) <==> AllSound(bs)
  {
    hide AllSound, Flat;
  }

  lemma OpsOn(run: seq<Done>)
    requires run != []
    ensures Ops(run) != [] && Ops(run)[0] == run[0].op && Ops(run)[1..] == Ops(run[1..])
  {
  }

  /**
   The buffers hold what plain byte queues hold, with every slice having its bytes, all
   through a run exactly when no operation moves a slice that is drained in part and
   inside itself.
   */
  lemma {:induction false} RunInPlace(s: System, bs: seq<seq<Placed>>, run: seq<Done>)
    requires s.buffers == AllViews(bs) && AllSound(bs) && AllMeaningful(|bs|, run)
    requires FaithfulRun(s, Ops(run))
    ensures HoldsThroughout(bs, Queues(s), run) <==> StaysThroughout(bs, run)
    decreases |run|
  {
    hide Step, StepPlaced, QueueStep, Stays, AllSound, Faithful, Queues, AllViews, Holds;
    HoldsNow(bs, s);
    SameCount(s, bs);
    if run != [] {
      var op, grows := run[0].op, run[0].grows;
      var s', bs' := Step(s, op), StepPlaced(bs, op, grows);
      OpsOn(run);
      StepViews(bs, op, grows, s);
      StepSize(bs, op, grows);
      StepSound(bs, op, grows);
      StepIsQueueStep(s, op);
      HoldsNow(bs', s');
      SameCount(s', bs');
      if Stays(bs, op, grows) {
        RunInPlace(s', bs', run[1..]);
      }
    }
  }

  lemma SameCount(s: System, bs: seq<seq<Placed>>)
    requires s.buffers == AllViews(bs)
    ensures |s.buffers| == |bs| == |Queues(s)|
  {
  }

  /** One byte left of two, in a slice inside itself. */
  function OneLeft(b: byte): Placed { Placed(SliceView([b], INLINE_DATA_SIZE - 2, false, []), Inside(1)) }

  lemma TwoPrepended(a: byte, b: byte, grows: nat -> bool)
    ensures var bs := StepPlaced([[]], Prepend(0, [a, b]), grows);
            && Stays([[]], Prepend(0, [a, b]), grows) && Meaningful(|bs|, Drain(0, 1))
            && Stays(bs, Drain(0, 1), grows) && StepPlaced(bs, Drain(0, 1), grows) == [[OneLeft(b)]]
  {
    var none: seq<seq<Placed>> := [[]];
    var slice := NewPlaced([a, b], 2);
    assert PrependPlaced(none[0], [a, b]) == [slice];
    assert none[0 := [slice]] == [[slice]];
    assert [[slice]][0 := [OneLeft(b)]] == [[OneLeft(b)]] && [slice][0 := OneLeft(b)] == [OneLeft(b)];
    assert Nicked(slice, 1) == OneLeft(b);
    assert Flat(Views([slice])) == [a, b];
  }

  lemma StaysOn(bs: seq<seq<Placed>>, x: Done, run: seq<Done>)
    requires AllMeaningful(|bs|, [x] + run)
    ensures Meaningful(|bs|, x.op) && AllMeaningful(|StepPlaced(bs, x.op, x.grows)|, run)
    ensures StaysThroughout(bs, [x] + run)
            <==> Stays(bs, x.op, x.grows) && StaysThroughout(StepPlaced(bs, x.op, x.grows), run)
  {
    hide Stays, StepPlaced;
    assert ([x] + run)[0] == x && ([x] + run)[1..] == run;
    StepSize(bs, x.op, x.grows);
  }

  /**
   A prepend of two bytes, a drain of one and a prepend that needs a slice of its own: the
   second prepend leaves the byte behind that the queue has at its end.
   */
  lemma PrependLosesInline(a: byte, b: byte, d: seq<byte>, grows: nat -> bool)
    requires |d| > INLINE_DATA_SIZE - 2
    ensures var last := Done(Prepend(0, d), grows);
            var run := [Done(Prepend(0, [a, b]), grows)] + ([Done(Drain(0, 1), grows)] + ([last] + []));
            !StaysThroughout([[]], run) && QueueRun([[]], Ops(run)) == [d + [b]]
    ensures StaysThroughout([[]], [Done(Prepend(0, [a, b]), grows)] + ([Done(Drain(0, 1), grows)] + []))
    ensures var ps := StepPlaced([[OneLeft(b)]], Prepend(0, d), grows)[0];
            |ps| == 2 && ps[1] == OneLeft(b).(place := Behind)
  {
    hide StepPlaced, Stays, QueueStep, QueueRun, StaysThroughout;
    var x, y, z := Done(Prepend(0, [a, b]), grows), Done(Drain(0, 1), grows), Done(Prepend(0, d), grows);
    var bs1 := StepPlaced([[]], x.op, grows);
    TwoPrepended(a, b, grows);
    LastPrepend(b, d, grows);
    StepSize([[]], x.op, grows);
    StaysOn([[]], x, [y] + ([z] + []));
    StaysOn(bs1, y, [z] + []);
    StaysOn([[OneLeft(b)]], z, []);
    StaysOn([[]], x, [y] + []);
    StaysOn(bs1, y, []);
    StaysNothing([[OneLeft(b)]]);
    QueueExample(a, b, d, Ops([x] + ([y] + ([z] + []))));
  }

  lemma StaysNothing(bs: seq<seq<Placed>>)
    ensures StaysThroughout(bs, [])
  {
  }

  lemma LastPrepend(b: byte, d: seq<byte>, grows: nat -> bool)
    requires |d| > INLINE_DATA_SIZE - 2
    ensures !Stays([[OneLeft(b)]], Prepend(0, d), grows)
    ensures var ps := StepPlaced([[OneLeft(b)]], Prepend(0, d), grows)[0];
            |ps| == 2 && ps[1] == OneLeft(b).(place := Behind)
  {
    assert Pinned([OneLeft(b)][0]);
    assert Views([OneLeft(b)])[0] == OneLeft(b).view;
  }

  lemma QueueExample(a: byte, b: byte, d: seq<byte>, ops: seq<Op>)
    requires ops == [Prepend(0, [a, b]), Drain(0, 1), Prepend(0, d)]
    ensures QueueRun([[]], ops) == [d + [b]]
  {
    assert ops[1..] == [Drain(0, 1), Prepend(0, d)] && ops[1..][1..] == [Prepend(0, d)];
    var none: seq<seq<byte>> := [[]];
    assert [a, b] + none[0] == [a, b] && none[0 := [a, b]] == [[a, b]];
    assert [a, b][1..] == [b] && [[a, b]][0 := [b]] == [[b]];
    assert [[b]][0 := d + [b]] == [d + [b]];
    QueueOn([[]], ops);
    QueueOn([[a, b]], ops[1..]);
    QueueOn([[b]], ops[1..][1..]);
    assert ops[1..][1..][1..] == [];
  }

  lemma QueueOn(q: seq<seq<byte>>, ops: seq<Op>)
    requires ops != [] && forall i :: 0 <= i < |ops| ==> Meaningful(|q|, ops[i])
    ensures forall i :: 0 <= i < |ops| - 1 ==> Meaningful(|QueueStep(q, ops[0])|, ops[1..][i])
    ensures QueueRun(q, ops) == QueueRun(QueueStep(q, ops[0]), ops[1..])
  {
  }

  // ----- runs that are never concerned -----

  /** The operations that make no slice that keeps its bytes inside itself, whatever the buffer holds. */
  predicate NothingSmall(op: Op) {
    match op
    case Prepend(_, d) => |d| > INLINE_DATA_SIZE
    case Linearize(_, _) => false
    case ReserveSingle(_, n, _) => n > INLINE_DATA_SIZE
    case _ => true
  }

  ghost predicate AllOutside(ps: seq<Placed>) { forall i :: 0 <= i < |ps| ==> ps[i].place == Outside }

  lemma PushOutside(ps: seq<Placed>, p: Placed, grows: nat -> bool)
    requires AllOutside(ps) && p.place == Outside
    ensures AllOutside(PushBack(ps, p, grows)) && AllOutside(PushFront(p, ps))
  {
  }

  lemma AddOutside(ps: seq<Placed>, d: seq<byte>, grows: nat -> bool)
    requires AllOutside(ps)
    ensures AllOutside(AddPlaced(ps, d, grows))
  {
  }

  lemma {:induction false} AddEachOutside(ps: seq<Placed>, from: seq<SliceView>, grows: nat -> bool)
    requires AllOutside(ps)
    ensures AllOutside(AddEachPlaced(ps, from, grows))
    decreases |from|
  {
    if from != [] {
      AddOutside(ps, from[0].data, grows);
      AddEachOutside(AddPlaced(ps, from[0].data, grows), from[1..], grows);
    }
  }

  lemma {:induction false} DrainOutside(ps: seq<Placed>, n: nat)
    requires AllOutside(ps)
    ensures AllOutside(DrainPlaced(ps, n))
    decreases |ps|
  {
    if n > 0 && ps != [] && n >= |ps[0].view.data| {
      DrainOutside(PopFront(ps), n - |ps[0].view.data|);
    }
  }

  lemma {:induction false} MoveOutside(src: seq<Placed>, dst: seq<Placed>, n: nat, grows: nat -> bool)
    requires AllOutside(src) && AllOutside(dst)
    ensures var (left, moved) := MovePlaced(src, dst, n, grows);
            AllOutside(left) && AllOutside(moved)
    decreases |src|
  {
    hide PushBack, AddPlaced;
    if n > 0 && src != [] {
      if n >= |src[0].view.data| {
        PushOutside(dst, src[0], grows);
        MoveOutside(PopFront(src), PushBack(dst, src[0], grows), n - |src[0].view.data|, grows);
      } else {
        AddOutside(dst, src[0].view.data[..n], grows);
      }
    }
  }

  lemma ReserveOutside(ps: seq<Placed>, n: nat, d: seq<byte>, grows: nat -> bool)
    requires AllOutside(ps) && n > INLINE_DATA_SIZE
    ensures var reserved := PushBack(ps, NewPlaced([], n), grows);
            |reserved| == |ps| + 1 && AllOutside(reserved) && AllOutside(CommittedPlaced(reserved, |ps|, d))
  {
    PushOutside(ps, NewPlaced([], n), grows);
  }

  lemma StepOutside(bs: seq<seq<Placed>>, op: Op, grows: nat -> bool)
    requires Meaningful(|bs|, op) && NothingSmall(op) && forall i :: 0 <= i < |bs| ==> AllOutside(bs[i])
    ensures forall i :: 0 <= i < |bs| ==> AllOutside(StepPlaced(bs, op, grows)[i])
  {
    hide PushBack, AddPlaced, AddEachPlaced, DrainPlaced, MovePlaced;
    var ps := bs[op.b];
    assert AllOutside(ps);
    match op
    case Add(_, d) => AddOutside(ps, d, grows);
    case AddBuffer(_, source) => AddEachOutside(ps, RawViews(Views(bs[source]), MAX_COPIED_SLICES), grows);
    case AddFragment(_, d) => PushOutside(ps, Placed(FragmentSlice(d), Outside), grows);
    case Prepend(_, d) => PushOutside(ps, NewPlaced(d, |d|), grows);
    case Drain(_, n) => DrainOutside(ps, n);
    case Move(_, dest, size) => MoveOutside(ps, bs[dest], Min(size, |Flat(Views(ps))|), grows);
    case Attach(_, _) =>
    case ReserveSingle(_, n, d) => ReserveOutside(ps, n, d, grows);
    case ReserveForRead(_, _) => PushOutside(ps, NewPlaced([], DEFAULT_RESERVATION_SIZE), grows);
  }

  /** A run that makes no small slice moves none. */
  lemma {:induction false} NothingSmallStays(bs: seq<seq<Placed>>, run: seq<Done>)
    requires AllMeaningful(|bs|, run) && forall i :: 0 <= i < |run| ==> NothingSmall(run[i].op)
    requires forall i :: 0 <= i < |bs| ==> AllOutside(bs[i])
    ensures StaysThroughout(bs, run)
    decreases |run|
  {
    hide StepPlaced, Stays, AllOutside, NothingSmall;
    if run != [] {
      var bs' := StepPlaced(bs, run[0].op, run[0].grows);
      StepSize(bs, run[0].op, run[0].grows);
      OutsideSound(bs);
      StepOutside(bs, run[0].op, run[0].grows);
      OutsideSound(bs');
      StepSound(bs, run[0].op, run[0].grows);
      NothingSmallStays(bs', run[1..]);
    }
  }

  lemma OutsideSound(bs: seq<seq<Placed>>)
    requires forall i :: 0 <= i < |bs| ==> AllOutside(bs[i])
    ensures AllSound(bs)
  {
  }
}
