/**
 The owned buffer: a list of slices that behaves as one byte queue.

 `slices` and the cached byte count change in place; the ghost field `Views`
 says what the slices mean and `Valid()` ties the two together. Each method says
 how `Views` changes, and what that does to the byte queue.
 */
module Buffers {
  import opened SliceViews
  import opened Slices
  import opened TypedInts
  import opened BufferSearch

  datatype ReadResult = Value(value: int) | Underflow

  datatype SearchResult = SearchResult(position: nat, found: bool)

  /** A buffer may write its slices and the memory they own, but not a fragment's memory. */
  ghost predicate Held(s: Slice, repr: set<object>, borrowed: set<object>) {
    s in repr && if s.immutable then s.mem in borrowed else s.mem in repr
  }

  ghost predicate AllHeld(ss: seq<Slice>, repr: set<object>, borrowed: set<object>) {
    forall i {:trigger ss[i]} :: 0 <= i < |ss| ==> Held(ss[i], repr, borrowed)
  }

  /** Two slices that share nothing either of them can write. */
  ghost predicate Apart(a: Slice, b: Slice) {
    a != b && ((a.immutable && b.immutable) || a.mem != b.mem)
  }

  ghost predicate AllApart(ss: seq<Slice>) {
    forall i, j :: 0 <= i < j < |ss| ==> Apart(ss[i], ss[j])
  }

  /** Writing one slice and the memory it owns leaves every other slice as it was. */
  lemma OnlyOne(ss: seq<Slice>, at: nat, repr: set<object>, borrowed: set<object>)
    requires AllApart(ss) && AllHeld(ss, repr, borrowed) && at < |ss|
    ensures ss[at] in repr && (!ss[at].immutable ==> ss[at].mem in repr)
    ensures forall i {:trigger ss[i]} :: 0 <= i < |ss| && i != at ==>
              ss[i] != ss[at] && (ss[at].immutable || ss[i].mem != ss[at].mem)
  {
    forall i | 0 <= i < |ss| && i != at
      ensures ss[i] != ss[at] && (ss[at].immutable || ss[i].mem != ss[at].mem)
    {
      assert if i < at then Apart(ss[i], ss[at]) else Apart(ss[at], ss[i]);
    }
  }

  lemma HeldTail(ss: seq<Slice>, repr: set<object>, borrowed: set<object>)
    requires AllApart(ss) && AllHeld(ss, repr, borrowed) && ss != []
    ensures AllApart(ss[1..]) && AllHeld(ss[1..], repr, borrowed)
  {
  }

  lemma HeldFront(s: Slice, ss: seq<Slice>, repr: set<object>, borrowed: set<object>)
    requires AllApart(ss) && AllHeld(ss, repr, borrowed)
    requires Held(s, repr, borrowed) && forall i :: 0 <= i < |ss| ==> Apart(s, ss[i])
    ensures AllApart([s] + ss) && AllHeld([s] + ss, repr, borrowed)
  {
  }

  lemma HeldBack(ss: seq<Slice>, s: Slice, repr: set<object>, borrowed: set<object>)
    requires AllApart(ss) && AllHeld(ss, repr, borrowed)
    requires Held(s, repr, borrowed) && forall i :: 0 <= i < |ss| ==> Apart(ss[i], s)
    ensures AllApart(ss + [s]) && AllHeld(ss + [s], repr, borrowed)
  {
  }

  ghost predicate HasRoom(vs: seq<SliceView>) {
    vs != [] && !vs[|vs| - 1].immutable && vs[|vs| - 1].room > 0
  }

  lemma AddNothing(vs: seq<SliceView>)
    ensures AddViews(vs, []) == vs
  {
  }

  lemma AddStep(vs: seq<SliceView>, d: seq<byte>)
    requires d != []
    ensures vs == [] || vs[|vs| - 1].immutable ==>
      AddViews(vs, d) == AddViews(vs + [NewSlice([], Max(|d|, DEFAULT_SLICE_SIZE))], d)
    ensures vs != [] && !vs[|vs| - 1].immutable ==>
      var k := Min(|d|, vs[|vs| - 1].room);
      var filled := vs[|vs| - 1 := Appended(vs[|vs| - 1], d[..k])];
      AddViews(vs, d) == if k == |d| then filled
                         else AddViews(filled + [NewSlice([], Max(|d| - k, DEFAULT_SLICE_SIZE))], d[k..])
  {
    if vs == [] || vs[|vs| - 1].immutable {
      AddToNewSlice(vs, d);
    } else {
      var k := Min(|d|, vs[|vs| - 1].room);
      if k < |d| {
        AddToNewSlice(vs[|vs| - 1 := Appended(vs[|vs| - 1], d[..k])], d[k..]);
      }
    }
  }

  lemma AddToNewSlice(vs: seq<SliceView>, d: seq<byte>)
    requires d != []
    ensures AddViews(vs + [NewSlice([], Max(|d|, DEFAULT_SLICE_SIZE))], d) ==
            vs + [NewSlice(d, Max(|d|, DEFAULT_SLICE_SIZE))]
  {
    var v := NewSlice([], Max(|d|, DEFAULT_SLICE_SIZE));
    var all := vs + [v];
    assert d[..|d|] == d && [] + d == d;
    assert all[|all| - 1 := Appended(v, d)] == vs + [Appended(v, d)];
  }

  lemma HeldWithout(ss: seq<Slice>, repr: set<object>, borrowed: set<object>)
    requires AllApart(ss) && AllHeld(ss, repr, borrowed) && ss != [] && repr !! borrowed
    ensures AllHeld(ss[1..], repr - {ss[0]} - (if ss[0].immutable then {} else {ss[0].mem}), borrowed)
  {
    OnlyOne(ss, 0, repr, borrowed);
  }

  lemma MoveStep(src: seq<SliceView>, dst: seq<SliceView>, n: nat)
    requires n > 0 && src != []
    ensures n >= |src[0].data| ==> MoveViews(src, dst, n) == MoveViews(src[1..], dst + [src[0]], n - |src[0].data|)
    ensures n < |src[0].data| ==>
              MoveViews(src, dst, n) == MoveViews(src[0 := Drained(src[0], n)], AddViews(dst, src[0].data[..n]), 0)
  {
  }

  lemma MoveDone(src: seq<SliceView>, dst: seq<SliceView>, n: nat)
    requires n == 0 || src == []
    ensures MoveViews(src, dst, n) == (src, dst)
  {
  }

  /** A raw slice points at memory that holds exactly these bytes. */
  ghost predicate Shows(raw: RawSlice, data: seq<byte>)
    reads raw.mem
  {
    raw.mem != null && raw.off + raw.len <= raw.mem.Length && raw.mem[raw.off..raw.off + raw.len] == data
  }

  lemma RawStep(vs: seq<SliceView>, i: nat, max: nat)
    requires i < |vs|
    ensures |RawViews(vs[..i], max)| >= max ==>
              RawViews(vs, max) == RawViews(vs[..i], max) == RawViews(vs[..i + 1], max)
    ensures |RawViews(vs[..i], max)| < max ==>
              RawViews(vs[..i + 1], max) == RawViews(vs[..i], max) + if |vs[i].data| > 0 then [vs[i]] else []
  {
    assert vs == vs[..i] + vs[i..] && vs[..i + 1] == vs[..i] + [vs[i]];
    NonEmptyAppend(vs[..i], vs[i..]);
    NonEmptyAppend(vs[..i], [vs[i]]);
  }

  lemma NothingToCopy(vs: seq<SliceView>, source: seq<SliceView>)
    ensures Flat(source) == [] ==> AddBufferViews(vs, source) == vs
  {
    FlatNonEmpty(source);
    if NonEmpty(source) != [] {
      assert |Flat(NonEmpty(source))| >= |NonEmpty(source)[0].data|;
    }
  }

  /** What copying out of a byte queue gives: as much as there is from `start` on, up to `size`. */
  function CopiedOut(bytes: seq<byte>, start: nat, size: nat): seq<byte> {
    if start >= |bytes| then [] else bytes[start..start + Min(size, |bytes| - start)]
  }

  /** A piece of one slice continues what was copied from `start` on. */
  lemma PieceFits(bytes: seq<byte>, start: nat, position: nat, data: seq<byte>, offset: nat, size: nat)
    requires start < |bytes| && position + |data| <= |bytes| && bytes[position..position + |data|] == data
    requires offset + size <= |data| && offset == if position < start then start - position else 0
    ensures bytes[start..position + offset] + data[offset..offset + size] == bytes[start..position + offset + size]
  {
    Subslice(bytes, position, position + |data|, offset, offset + size);
  }

  lemma DrainStep(vs: seq<SliceView>, n: nat)
    requires n > 0 && vs != []
    ensures n >= |vs[0].data| ==>
              DrainViews(vs, n) == DrainViews(vs[1..], n - |vs[0].data|)
              && DrainNotices(vs, n) == NoticesFor(vs[0].trackers, |vs[0].data|)
                 + DrainNotices(vs[1..], n - |vs[0].data|)
    ensures n < |vs[0].data| ==>
              DrainViews(vs, n) == DrainViews(vs[0 := Drained(vs[0], n)], 0)
              && DrainNotices(vs, n) == DrainNotices(vs[0 := Drained(vs[0], n)], 0)
  {
  }

  lemma DrainDone(vs: seq<SliceView>, n: nat)
    requires n == 0 || vs == []
    ensures DrainViews(vs, n) == vs && DrainNotices(vs, n) == []
  {
  }

  lemma NoticesAssoc(a: seq<Notice>, b: seq<Notice>, c: seq<Notice>)
    ensures a + b + c == a + (b + c)
  {
  }

  class OwnedBuffer {
    var slices: seq<Slice>
    var byteSize: int
    /** Every call made to a drain tracker so far. */
    var notices: seq<Notice>
    ghost var Views: seq<SliceView>
    /** What the methods may write: this object, its slices and the memory they own. */
    ghost var Repr: set<object>
    /** The memory of fragments, which is only read. */
    ghost var Borrowed: set<object>

    ghost predicate ValidSlices()
      reads this, Repr, Borrowed
    {
      && this in Repr && Repr !! Borrowed
      && AllHeld(slices, Repr, Borrowed)
      && AllApart(slices)
      && |Views| == |slices|
      && forall i {:trigger slices[i]} :: 0 <= i < |slices| ==> slices[i].Valid() && slices[i].view == Views[i]
    }

    ghost predicate Valid()
      reads this, Repr, Borrowed
      ensures Valid() ==> this in Repr && |Views| == |slices| && byteSize == |Contents()|
    {
      ValidSlices() && byteSize == |Flat(Views)|
    }

    /** The byte queue this buffer stands for. */
    ghost function Contents(): seq<byte>
      reads this
    {
      Flat(Views)
    }

    /** Neither buffer can write anything the other one reads. */
    ghost predicate Separate(other: OwnedBuffer)
      reads this, other
    {
      Repr !! other.Repr && Repr !! other.Borrowed && Borrowed !! other.Repr
    }

    constructor ()
      ensures Valid() && Views == [] && notices == [] && fresh(Repr) && Borrowed == {}
    {
      slices, byteSize, notices, Views := [], 0, [], [];
      Repr, Borrowed := {this}, {};
    }

    function Length(): int
      reads this
    {
      byteSize
    }

    // ----- the slice list -----

    /** Replaces the whole of the buffer's own state at once. */
    method Become(slices: seq<Slice>, byteSize: int, ghost views: seq<SliceView>, notices: seq<Notice>)
      modifies this`slices, this`byteSize, this`Views, this`notices
      ensures this.slices == slices && this.byteSize == byteSize && Views == views && this.notices == notices
    {
      this.slices, this.byteSize, Views, this.notices := slices, byteSize, views, notices;
    }

    method PushBack(slice: Slice)
      requires Valid() && slice.Valid() && Held(slice, Repr, Borrowed) && forall i ::
                 0 <= i < |slices| ==> Apart(slices[i], slice)
      modifies this`slices, this`byteSize, this`notices, this`Views
      ensures Valid() && slices == old(slices) + [slice] && Views == old(Views) + [slice.view]
              && notices == old(notices)
    {
      ghost var v := slice.view;
      assert slice.reservable == |v.data|;
      FlatAppend(Views, [v]);
      FlatSingle(v);
      HeldBack(slices, slice, Repr, Borrowed);
      hide Slice.Valid, Flat, AllApart, AllHeld, Held, Apart;
      Become(slices + [slice], byteSize + slice.reservable, Views + [v], notices);
    }

    method PushFront(slice: Slice)
      requires Valid() && slice.Valid() && Held(slice, Repr, Borrowed) && forall i ::
                 0 <= i < |slices| ==> Apart(slice, slices[i])
      modifies this`slices, this`byteSize, this`notices, this`Views
      ensures Valid() && slices == [slice] + old(slices) && Views == [slice.view] + old(Views)
              && notices == old(notices)
    {
      ghost var v := slice.view;
      assert slice.reservable == |v.data|;
      FlatAppend([v], Views);
      FlatSingle(v);
      HeldFront(slice, slices, Repr, Borrowed);
      hide Slice.Valid, Flat, AllApart, AllHeld, Held, Apart;
      Become([slice] + slices, byteSize + slice.reservable, [v] + Views, notices);
    }

    method PushNewSlice(size: nat)
      requires Valid()
      modifies this`slices, this`byteSize, this`notices, this`Views, this`Repr
      ensures Valid() && fresh(Repr - old(Repr)) && old(Repr) <= Repr
      ensures Views == old(Views) + [NewSlice([], size)] && notices == old(notices)
      ensures |slices| == |old(slices)| + 1 && slices[..|slices| - 1] == old(slices)
      ensures var last := slices[|slices| - 1];
              fresh(last) && fresh(last.mem) && !last.immutable && last.base == 0 && last.reservable == 0
                  && last.mem.Length == Allocated(size)
    {
      var slice := new Slice(size);
      assert slice.reservable == 0 && slice.mem.Length == Allocated(size);
      hide Slice.Valid;
      Repr := Repr + {slice, slice.mem};
      PushBack(slice);
    }

    /** Takes note of what became of one slice. */
    method Refresh(at: nat, delta: int)
      requires this in Repr && Repr !! Borrowed && AllHeld(slices, Repr, Borrowed) && AllApart(slices)
      requires |Views| == |slices| && at < |slices|
      requires forall i {:trigger slices[i]} :: 0 <= i < |slices| ==>
                 slices[i].Valid() && (i != at ==> slices[i].view == Views[i])
      requires byteSize + delta == |Flat(Views[at := slices[at].view])|
      modifies this`byteSize, this`Views
      ensures Valid() && Views == old(Views)[at := slices[at].view]
    {
      hide Slice.Valid, Flat, AllApart, AllHeld;
      byteSize, Views := byteSize + delta, Views[at := slices[at].view];
    }

    method UpdateByteSize()
      requires ValidSlices()
      modifies this`byteSize
      ensures Valid()
    {
      byteSize := 0;
      for i := 0 to |slices|
        invariant byteSize == |Flat(Views[..i])|
      {
        byteSize := byteSize + slices[i].reservable;
        FlatSplit(Views, i);
      }
      assert Views[..|slices|] == Views;
    }

    /** Whether the last slice can take more data. */
    predicate LastWritable()
      requires Valid()
      reads this, Repr, Borrowed
      ensures LastWritable() <==> Views != [] && !Views[|Views| - 1].immutable
    {
      |slices| > 0 && !slices[|slices| - 1].immutable
    }

    /** Whether data can go in front of the first slice. */
    predicate FrontWritable()
      requires Valid()
      reads this, Repr, Borrowed
      ensures FrontWritable() <==> Views != [] && !Views[0].immutable
    {
      |slices| > 0 && !slices[0].immutable
    }

    function FrontData(): (data: seq<byte>)
      requires Valid() && slices != []
      reads this, Repr, Borrowed
      ensures data == Views[0].data
    {
      slices[0].Data()
    }

    function FrontRoom(): (room: nat)
      requires Valid() && slices != []
      reads this, Repr, Borrowed
      ensures room == Views[0].room
    {
      slices[0].ReservableSize()
    }

    method AppendToLast(data: seq<byte>) returns (copied: nat)
      requires Valid() && LastWritable()
      modifies Repr
      ensures Valid() && slices == old(slices) && Repr == old(Repr) && Borrowed == old(Borrowed)
      ensures notices == old(notices)
      ensures copied == Min(|data|, old(Views[|Views| - 1].room))
      ensures Views == old(Views)[|old(Views)| - 1 := Appended(old(Views[|Views| - 1]), data[..copied])]
    {
      var last := |slices| - 1;
      OnlyOne(slices, last, Repr, Borrowed);
      hide Slice.Valid, Flat, AllApart, AllHeld, Appended;
      copied := slices[last].Append(data);
      SizeAppendLast(Views, data[..copied]);
      Refresh(last, copied);
    }

    method PrependToFront(data: seq<byte>) returns (prepended: nat)
      requires Valid() && FrontWritable()
      modifies Repr
      ensures Valid() && slices == old(slices) && Repr == old(Repr) && Borrowed == old(Borrowed)
      ensures notices == old(notices)
      ensures prepended == if |data| <= old(Views[0].room) then |data| else 0
      ensures Views == if |data| <= old(Views[0].room) then old(Views)[0 := Prepended(old(Views[0]), data)]
              else old(Views)
    {
      if |data| > FrontRoom() {
        return 0;
      }
      PrependFitting(data);
      return |data|;
    }

    method PrependFitting(data: seq<byte>)
      requires Valid() && FrontWritable() && |data| <= Views[0].room
      modifies Repr
      ensures Valid() && slices == old(slices) && Repr == old(Repr) && Borrowed == old(Borrowed)
      ensures notices == old(notices)
      ensures Views == old(Views)[0 := Prepended(old(Views[0]), data)]
    {
      OnlyOne(slices, 0, Repr, Borrowed);
      SizePrependFront(Views, data);
      hide Slice.Valid, Flat, AllApart, AllHeld, Prepended;
      var prepended := slices[0].Prepend(data);
      Refresh(0, prepended);
    }

    method DrainWholeFront()
      requires Valid() && slices != []
      modifies Repr
      ensures Valid() && slices == old(slices)[1..] && Repr == old(Repr) && Borrowed == old(Borrowed)
      ensures Views == old(Views)[1..]
      ensures notices == old(notices) + NoticesFor(old(Views[0].trackers), old(|Views[0].data|))
    {
      var size := |FrontData()|;
      assert slices[0].reservable == size && slices[0].trackers == Views[0].trackers;
      HeldTail(slices, Repr, Borrowed);
      OnlyOne(slices, 0, Repr, Borrowed);
      FlatSplit(Views, 0);
      hide Slice.Valid, Flat, AllApart, AllHeld;
      var ok, told := slices[0].Drain(size);
      Become(slices[1..], byteSize - size, Views[1..], notices + told);
    }

    method DrainPartFront(size: nat)
      requires Valid() && slices != [] && size < |Views[0].data|
      modifies Repr
      ensures Valid() && slices == old(slices) && Repr == old(Repr) && Borrowed == old(Borrowed)
      ensures Views == old(Views)[0 := Drained(old(Views[0]), size)]
      ensures notices == old(notices)
    {
      assert slices[0].reservable == |Views[0].data|;
      OnlyOne(slices, 0, Repr, Borrowed);
      FlatSplit(Views, 0);
      hide Slice.Valid, Flat, AllApart, AllHeld;
      var ok, told := slices[0].Drain(size);
      FlatUpdateFront(Views, slices[0].view);
      Refresh(0, 0 - size);
    }

    // ----- adding -----

    method Add(data: seq<byte>)
      requires Valid()
      modifies Repr
      ensures Valid() && fresh(Repr - old(Repr)) && Borrowed == old(Borrowed)
      ensures Views == AddViews(old(Views), data)
      ensures Contents() == old(Contents()) + data
      ensures notices == old(notices)
    {
      FlatAdd(Views, data);
      hide Valid, AddViews, Flat;
      var rest := data;
      while |rest| > 0
        invariant Valid() && fresh(Repr - old(Repr)) && Borrowed == old(Borrowed) && notices == old(notices)
        invariant AddViews(Views, rest) == AddViews(old(Views), data)
        decreases |rest|, if HasRoom(Views) then 0 else 1
      {
        var copied := AddSome(rest);
        rest := rest[copied..];
      }
      AddNothing(Views);
    }

    /** One round of adding: fill the last slice, then make a new one for what is left. */
    method AddSome(rest: seq<byte>) returns (copied: nat)
      requires Valid() && rest != []
      modifies Repr
      ensures Valid() && fresh(Repr - old(Repr)) && Borrowed == old(Borrowed)
      ensures copied <= |rest| && AddViews(Views, rest[copied..]) == AddViews(old(Views), rest)
      ensures copied == 0 ==> !HasRoom(old(Views)) && HasRoom(Views)
      ensures notices == old(notices)
    {
      AddStep(Views, rest);
      hide Valid, AddViews, Flat;
      copied := 0;
      if LastWritable() {
        copied := AppendToLast(rest);
        if copied == |rest| {
          AddNothing(Views);
          return;
        }
      }
      PushNewSlice(Max(|rest| - copied, DEFAULT_SLICE_SIZE));
    }

    method AddBufferFragment(fragment: array<byte>)
      requires Valid() && fragment !in Repr
      modifies this
      ensures Valid() && fresh(Repr - old(Repr)) && Borrowed == old(Borrowed) + {fragment}
      ensures Views == old(Views) + [FragmentSlice(fragment[..])]
      ensures Contents() == old(Contents()) + fragment[..]
      ensures notices == old(notices)
    {
      FlatAppend(Views, [FragmentSlice(fragment[..])]);
      FlatSingle(FragmentSlice(fragment[..]));
      hide Valid, Flat, Slice.Valid;
      var slice := new Slice.FromFragment(fragment);
      TakeIn(slice);
    }

    method Prepend(data: seq<byte>)
      requires Valid()
      modifies Repr
      ensures Valid() && fresh(Repr - old(Repr)) && Borrowed == old(Borrowed)
      ensures Views == PrependViews(old(Views), data)
      ensures Contents() == data + old(Contents())
      ensures notices == old(notices)
    {
      FlatPrepend(Views, data);
      if |data| == 0 {
        return;
      }
      hide Valid, Flat;
      if FrontWritable() {
        var prepended := PrependToFront(data);
        if prepended == |data| {
          return;
        }
      }
      PushFilledFront(data);
    }

    method PushFilledFront(data: seq<byte>)
      requires Valid()
      modifies this
      ensures Valid() && fresh(Repr - old(Repr)) && Borrowed == old(Borrowed) && notices == old(notices)
      ensures Views == [NewSlice(data, |data|)] + old(Views)
    {
      hide Flat, Slice.Valid;
      var slice := new Slice(|data|);
      var copied := slice.Append(data);
      assert slice.view == NewSlice(data, |data|);
      Repr := Repr + {slice, slice.mem};
      PushFront(slice);
    }

    // ----- removing -----

    /** Draining more than there is fails and changes nothing. */
    method Drain(size: nat) returns (ok: bool)
      requires Valid()
      modifies Repr
      ensures Valid() && Repr == old(Repr) && Borrowed == old(Borrowed)
      ensures ok <==> size <= |old(Contents())|
      ensures ok ==> Views == DrainViews(old(Views), size)
                     && Contents() == old(Contents())[size..]
                     && notices == old(notices) + DrainNotices(old(Views), size)
                     && Tells(old(Views), Whole(old(Views), size), notices[|old(notices)|..])
      ensures !ok ==> Views == old(Views) && notices == old(notices)
    {
      if size > Length() {
        return false;
      }
      FlatDrain(Views, size);
      hide Valid, Flat, DrainViews, DrainNotices;
      var left: nat := size;
      while left > 0 && |slices| > 0
        invariant Valid() && Repr == old(Repr) && Borrowed == old(Borrowed)
        invariant DrainViews(Views, left) == DrainViews(old(Views), size)
        invariant notices + DrainNotices(Views, left) == old(notices) + DrainNotices(old(Views), size)
        decreases |slices|, left
      {
        var sliceSize := |FrontData()|;
        DrainStep(Views, left);
        if left >= sliceSize {
          NoticesAssoc(notices, NoticesFor(Views[0].trackers, sliceSize), DrainNotices(Views[1..], left - sliceSize));
          left := left - sliceSize;
          DrainWholeFront();
        } else {
          DrainPartFront(left);
          left := 0;
        }
      }
      DrainDone(Views, left);
      DrainTells(old(Views), size);
      assert notices + [] == notices && notices[|old(notices)|..] == DrainNotices(old(Views), size);
      return true;
    }

    // ----- moving to another buffer -----

    /**
     Takes up to `length` bytes off this buffer and puts them, in order, behind the
     destination: whole slices travel as they are, the last one may be split.
     */
    method Move(dest: OwnedBuffer, length: nat)
      requires Valid() && dest.Valid() && Separate(dest)
      modifies Repr, dest.Repr
      ensures Valid() && dest.Valid() && Separate(dest)
      ensures Repr <= old(Repr) && fresh(dest.Repr - old(dest.Repr) - old(Repr))
      ensures Borrowed == old(Borrowed) && dest.Borrowed <= old(Borrowed + dest.Borrowed)
      ensures var n := Min(length, |old(Contents())|);
              && (Views, dest.Views) == MoveViews(old(Views), old(dest.Views), n)
              && Contents() == old(Contents())[n..]
              && dest.Contents() == old(dest.Contents()) + old(Contents())[..n]
      ensures notices == old(notices) && dest.notices == old(dest.notices)
    {
      var n := Min(length, Length());
      FlatMove(Views, dest.Views, n);
      hide Valid, ValidSlices, Flat, MoveViews;
      var remaining: nat := n;
      while remaining > 0 && |slices| > 0
        invariant Valid() && dest.Valid() && Separate(dest)
        invariant Repr <= old(Repr) && fresh(dest.Repr - old(dest.Repr) - old(Repr))
        invariant Borrowed == old(Borrowed) && dest.Borrowed <= old(Borrowed + dest.Borrowed)
        invariant notices == old(notices) && dest.notices == old(dest.notices)
        invariant MoveViews(Views, dest.Views, remaining) == MoveViews(old(Views), old(dest.Views), n)
        decreases |slices|, remaining
      {
        MoveStep(Views, dest.Views, remaining);
        var sliceSize := |FrontData()|;
        if remaining >= sliceSize {
          remaining := remaining - sliceSize;
          MoveWholeFront(dest);
        } else {
          SplitFront(dest, remaining);
          remaining := 0;
        }
      }
      MoveDone(Views, dest.Views, remaining);
    }

    /** Hands the front slice, whole, to another buffer. */
    method MoveWholeFront(dest: OwnedBuffer)
      requires Valid() && dest.Valid() && Separate(dest) && slices != []
      modifies this, dest
      ensures Valid() && dest.Valid() && Separate(dest)
      ensures Repr <= old(Repr) && dest.Repr <= old(Repr + dest.Repr)
      ensures Borrowed == old(Borrowed) && dest.Borrowed <= old(Borrowed + dest.Borrowed)
      ensures Views == old(Views)[1..] && dest.Views == old(dest.Views) + [old(Views)[0]]
      ensures |slices| == |old(slices)| - 1
      ensures notices == old(notices) && dest.notices == old(dest.notices)
    {
      var front := LetGoFront();
      hide Flat, Slice.Valid, AllHeld, AllApart;
      dest.TakeIn(front);
      UpdateByteSize();
    }

    method LetGoFront() returns (front: Slice)
      requires Valid() && slices != []
      modifies this`slices, this`Views, this`Repr
      ensures ValidSlices() && slices == old(slices)[1..] && Views == old(Views)[1..]
      ensures front == old(slices)[0] && front.Valid() && front.view == old(Views)[0]
      ensures Held(front, old(Repr), Borrowed)
      ensures Repr == old(Repr) - {front} - (if front.immutable then {} else {front.mem})
    {
      front := slices[0];
      OnlyOne(slices, 0, Repr, Borrowed);
      HeldTail(slices, Repr, Borrowed);
      HeldWithout(slices, Repr, Borrowed);
      hide Flat, Slice.Valid, AllHeld, AllApart;
      slices, Views := slices[1..], Views[1..];
      Repr := Repr - {front} - if front.immutable then {} else {front.mem};
    }

    method TakeIn(slice: Slice)
      requires Valid() && slice.Valid() && slice !in Repr && slice !in Borrowed
      requires slice.mem !in Repr && (slice.mem in Borrowed ==> slice.immutable)
      modifies this
      ensures Valid() && notices == old(notices)
      ensures Views == old(Views) + [slice.view]
      ensures Repr == old(Repr) + {slice} + if slice.immutable then {} else {slice.mem}
      ensures Borrowed == old(Borrowed) + if slice.immutable then {slice.mem} else {}
    {
      hide Flat, Slice.Valid;
      Repr := Repr + {slice} + if slice.immutable then {} else {slice.mem};
      Borrowed := Borrowed + if slice.immutable then {slice.mem} else {};
      PushBack(slice);
    }

    /** Copies the first bytes of the front slice behind another buffer and drains them here. */
    method SplitFront(dest: OwnedBuffer, size: nat)
      requires Valid() && dest.Valid() && Separate(dest) && slices != [] && size < |Views[0].data|
      modifies Repr, dest.Repr
      ensures Valid() && dest.Valid() && Separate(dest)
      ensures Repr == old(Repr) && fresh(dest.Repr - old(dest.Repr))
      ensures Borrowed == old(Borrowed) && dest.Borrowed == old(dest.Borrowed)
      ensures Views == old(Views)[0 := Drained(old(Views)[0], size)]
      ensures dest.Views == AddViews(old(dest.Views), old(Views)[0].data[..size])
      ensures slices == old(slices)
      ensures notices == old(notices) && dest.notices == old(dest.notices)
    {
      var data := FrontData()[..size];
      hide Valid, ValidSlices, Flat, AddViews;
      dest.Add(data);
      DrainPartFront(size);
    }

    // ----- looking -----

    /** Where slice i's data lies in memory. */
    function RawOf(i: nat): (raw: RawSlice)
      requires Valid() && i < |slices|
      reads this, Repr, Borrowed
      ensures raw.mem == slices[i].mem && Shows(raw, Views[i].data) && (raw.mem in Repr || raw.mem in Borrowed)
    {
      RawSlice(slices[i].mem, slices[i].base, slices[i].reservable)
    }

    function DataOf(i: nat): (data: seq<byte>)
      requires Valid() && i < |slices|
      reads this, Repr, Borrowed
      ensures data == Views[i].data
    {
      slices[i].Data()
    }

    /** The places of the first `maxSlices` non-empty slices. */
    method GetRawSlices(maxSlices: nat) returns (out: seq<RawSlice>)
      requires Valid()
      ensures |out| == |RawViews(Views, maxSlices)|
      ensures forall k :: 0 <= k < |out| ==>
                Shows(out[k], RawViews(Views, maxSlices)[k].data) && (out[k].mem in Repr || out[k].mem in Borrowed)
    {
      hide Valid, Flat;
      out := [];
      for i := 0 to |slices|
        invariant |out| == |RawViews(Views[..i], maxSlices)|
        invariant forall k :: 0 <= k < |out| ==>
                    Shows(out[k], RawViews(Views[..i], maxSlices)[k].data)
                        && (out[k].mem in Repr || out[k].mem in Borrowed)
      {
        RawStep(Views, i, maxSlices);
        if |out| >= maxSlices {
          return;
        }
        if |DataOf(i)| > 0 {
          out := out + [RawOf(i)];
        }
      }
      assert Views[..|slices|] == Views;
    }

    method FrontSlice() returns (raw: RawSlice)
      requires Valid()
      ensures if Views != [] && Views[0].data != [] then Shows(raw, Views[0].data) else raw == RawSlice(null, 0, 0)
    {
      if |slices| > 0 && |DataOf(0)| > 0 {
        return RawOf(0);
      }
      return RawSlice(null, 0, 0);
    }

    /** Copies what the first 16 non-empty slices of another buffer hold. */
    method AddBuffer(source: OwnedBuffer)
      requires Valid() && source.Valid() && Separate(source)
      modifies Repr
      ensures Valid() && fresh(Repr - old(Repr)) && Borrowed == old(Borrowed) && notices == old(notices)
      ensures source.Valid() && source.Views == old(source.Views) && Separate(source)
      ensures Views == AddBufferViews(old(Views), source.Views)
      ensures Contents() == old(Contents()) + source.Contents() <==> |NonEmpty(source.Views)| <= MAX_COPIED_SLICES
    {
      FlatAddBuffer(Views, source.Views);
      NothingToCopy(Views, source.Views);
      hide Valid, ValidSlices, Flat, AddBufferViews, NonEmpty;
      var offset := 0;
      while offset < source.Length()
        invariant Valid() && fresh(Repr - old(Repr)) && Borrowed == old(Borrowed) && notices == old(notices)
        invariant source.Valid() && source.Views == old(source.Views) && Separate(source)
        invariant offset == 0 || offset == source.Length()
        invariant Views == if offset == 0 then old(Views) else AddBufferViews(old(Views), source.Views)
        decreases source.Length() - offset
      {
        CopySlices(source);
        offset := offset + source.Length();
      }
    }

    method CopySlices(source: OwnedBuffer)
      requires Valid() && source.Valid() && Separate(source)
      modifies Repr
      ensures Valid() && fresh(Repr - old(Repr)) && Borrowed == old(Borrowed) && notices == old(notices)
      ensures source.Valid() && source.Views == old(source.Views) && Separate(source)
      ensures source.byteSize == old(source.byteSize)
      ensures Views == AddBufferViews(old(Views), source.Views)
    {
      hide Valid, ValidSlices, Flat, NonEmpty;
      var raws := source.GetRawSlices(MAX_COPIED_SLICES);
      AddRaws(source, raws, RawViews(source.Views, MAX_COPIED_SLICES));
    }

    method AddRaws(source: OwnedBuffer, raws: seq<RawSlice>, ghost views: seq<SliceView>)
      requires Valid() && source.Valid() && Separate(source) && |raws| == |views|
      requires forall k :: 0 <= k < |raws| ==>
                 Shows(raws[k], views[k].data) && (raws[k].mem in source.Repr || raws[k].mem in source.Borrowed)
      modifies Repr
      ensures Valid() && fresh(Repr - old(Repr)) && Borrowed == old(Borrowed) && notices == old(notices)
      ensures source.Valid() && source.Views == old(source.Views) && Separate(source)
      ensures source.Repr == old(source.Repr) && source.byteSize == old(source.byteSize)
      ensures Views == AddEach(old(Views), views)
    {
      hide Valid, ValidSlices, Flat;
      assert views[0..] == views;
      for i := 0 to |raws|
        invariant Valid() && fresh(Repr - old(Repr)) && Borrowed == old(Borrowed) && notices == old(notices)
        invariant source.Valid() && Separate(source)
        invariant source.Views == old(source.Views) && source.Repr == old(source.Repr)
                  && source.byteSize == old(source.byteSize)
        invariant source.Borrowed == old(source.Borrowed)
        invariant forall k :: 0 <= k < |raws| ==> Shows(raws[k], views[k].data)
        invariant AddEach(Views, views[i..]) == AddEach(old(Views), views)
      {
        assert views[i..][1..] == views[i + 1..];
        Add(raws[i].mem[raws[i].off..raws[i].off + raws[i].len]);
      }
    }

    /** Copies bytes out of the queue; the slicing does not show. */
    method CopyOut(start: nat, size: nat) returns (out: seq<byte>)
      requires Valid()
      ensures out == CopiedOut(Contents(), start, size)
    {
      ghost var vs, bytes := Views, Contents();
      StartBounds(vs);
      hide Valid, Flat, Start;
      if start >= Length() {
        return [];
      }
      var wanted := Min(size, Length() - start);
      var position := 0;
      out := [];
      for i := 0 to |slices|
        invariant position == Start(vs, i) && position <= |bytes|
        invariant out == bytes[start..Max(start, position)] && (position > start ==> |out| < wanted)
      {
        SliceAt(vs, i);
        var data := DataOf(i);
        if position + |data| > start {
          var offset := if position < start then start - position else 0;
          var toCopy := Min(wanted - |out|, |data| - offset);
          PieceFits(bytes, start, position, data, offset, toCopy);
          out := out + data[offset..offset + toCopy];
          if |out| >= wanted {
            return;
          }
        }
        position := position + |data|;
      }
    }

    method StartsWith(pattern: seq<byte>) returns (yes: bool)
      requires Valid()
      ensures yes <==> pattern <= Contents()
    {
      ghost var vs, bytes := Views, Contents();
      StartBounds(vs);
      hide Valid, Flat, Start;
      if |pattern| == 0 {
        return true;
      }
      if |pattern| > Length() {
        return false;
      }
      // The slices cannot run out first: there are at least as many bytes as the pattern has.
      var compared, i := 0, 0;
      while compared < |pattern|
        invariant i <= |slices| && compared <= |pattern|
        invariant compared == Min(|pattern|, Start(vs, i)) && Start(vs, i) <= |bytes|
        invariant pattern[..compared] == bytes[..compared]
        decreases |slices| - i
      {
        StartInside(vs, i);
        SliceAt(vs, i);
        var data := DataOf(i);
        var toCompare := Min(|pattern| - compared, |data|);
        Subslice(bytes, compared, compared + |data|, 0, toCompare);
        if data[..toCompare] != pattern[compared..compared + toCompare] {
          return false;
        }
        assert pattern[..compared + toCompare] == pattern[..compared] + pattern[compared..compared + toCompare];
        compared := compared + toCompare;
        i := i + 1;
      }
      return true;
    }

    method ToString() returns (out: seq<byte>)
      requires Valid()
      ensures out == Contents()
    {
      hide Valid;
      out := [];
      for i := 0 to |slices|
        invariant out == Flat(Views[..i])
      {
        FlatSplit(Views, i);
        out := out + DataOf(i);
      }
      assert Views[..|slices|] == Views;
    }

    /** Looks for the pattern inside each slice in turn. */
    method Search(pattern: seq<byte>, start: nat) returns (r: SearchResult)
      requires Valid()
      ensures SearchPost(Views, pattern, start, r.position, r.found)
    {
      if |pattern| == 0 {
        return SearchResult(start, true);
      }
      ghost var vs := Views;
      StartBounds(vs);
      hide Valid, Flat, Start;
      var position := 0;
      for i := 0 to |slices|
        invariant position == Start(vs, i) && NoneBefore(vs, pattern, start, i)
      {
        SliceAt(vs, i);
        var data := DataOf(i);
        if position + |data| > start {
          var j: nat := if position < start then start - position else 0;
          while j + |pattern| <= |data|
            invariant forall o: nat :: o < j && MatchInSlice(vs, i, o, pattern) ==> position + o < start
          {
            if data[j..j + |pattern|] == pattern {
              FoundIn(vs, pattern, start, i, j);
              return SearchResult(position + j, true);
            }
            j := j + 1;
          }
        }
        position := position + |data|;
      }
      return SearchResult(0, false);
    }

    // ----- coalescing -----

    /**
     Makes the first bytes contiguous and says where they are. The front slice may
     be new, and what it replaces is drained.
     */
    method Linearize(size: nat) returns (raw: RawSlice)
      requires Valid()
      modifies Repr
      ensures Valid() && fresh(Repr - old(Repr)) && Borrowed == old(Borrowed)
      ensures Views == LinearizeViews(old(Views), size)
      ensures Contents() == old(Contents())
      ensures notices == old(notices) + LinearizeNotices(old(Views), size)
      ensures var n := Min(size, |old(Contents())|);
              Tells(old(Views), if n == 0 || |old(Views)[0].data| >= n then 0 else Whole(old(Views), n),
                    notices[|old(notices)|..])
      ensures var n := Min(size, |old(Contents())|);
              if n == 0 then raw == RawSlice(null, 0, 0) else Shows(raw, old(Contents())[..n])
    {
      var n := Min(size, Length());
      FlatLinearize(Views, size);
      LinearizeTells(Views, size);
      hide Valid, ValidSlices, Flat;
      if n == 0 {
        return RawSlice(null, 0, 0);
      }
      if |slices| > 0 && |DataOf(0)| >= n {
        return FrontPart(n);
      }
      var slice := GatherFront(n);
      hide Slice.Valid;
      var ok := Drain(n);
      Repr := Repr + {slice, slice.mem};
      PushFront(slice);
      return FrontPart(n);
    }

    function FrontPart(n: nat): (raw: RawSlice)
      requires Valid() && slices != [] && n <= |Views[0].data|
      reads this, Repr, Borrowed
      ensures Shows(raw, Views[0].data[..n])
    {
      assert slices[0].mem[slices[0].base..slices[0].base + n] == slices[0].Data()[..n];
      RawSlice(slices[0].mem, slices[0].base, n)
    }

    /** A new slice with the first bytes of the queue. */
    method GatherFront(size: nat) returns (slice: Slice)
      requires Valid() && 0 < size <= |Contents()|
      ensures fresh(slice) && fresh(slice.mem) && !slice.immutable
      ensures slice.Valid() && slice.view == NewSlice(Contents()[..size], size)
    {
      slice := new Slice(size);
      ghost var vs, bytes := Views, Contents();
      StartBounds(vs);
      hide Valid, Flat, Start;
      var offset: nat := 0;
      for i := 0 to |slices|
        invariant offset == Min(size, Start(vs, i)) && Start(vs, i) <= |bytes|
        invariant slice.Valid() && slice.base == 0 && slice.view == NewSlice([], size)
        invariant forall k :: 0 <= k < offset ==> slice.mem[k] == bytes[k]
      {
        if offset >= size {
          break;
        }
        SliceAt(vs, i);
        var data := DataOf(i);
        var toCopy := Min(size - offset, |data|);
        assert data == bytes[offset..offset + |data|];
        CopyInto(slice.mem, offset, data[..toCopy]);
        offset := offset + toCopy;
      }
      assert offset == size;
      slice.Fill(bytes[..size], size);
    }

    method AttachDrainTracker(tracker: TrackerId)
      requires Valid()
      modifies Repr
      ensures Valid() && Repr == old(Repr) && Borrowed == old(Borrowed)
      ensures Views == AttachViews(old(Views), tracker)
      ensures Contents() == old(Contents()) && notices == old(notices)
    {
      FlatAttach(Views, tracker);
      hide Valid, Flat, AttachViews;
      for i := 0 to |slices|
        invariant Valid() && Repr == old(Repr) && Borrowed == old(Borrowed) && slices == old(slices)
        invariant notices == old(notices)
        invariant |Views| == |old(Views)|
        invariant forall k :: 0 <= k < i ==> Views[k] == Attached(old(Views)[k], tracker)
        invariant forall k :: i <= k < |Views| ==> Views[k] == old(Views)[k]
      {
        if |DataOf(i)| > 0 {
          AttachTo(i, tracker);
        }
      }
      assert Views == AttachViews(old(Views), tracker);
    }

    method AttachTo(at: nat, tracker: TrackerId)
      requires Valid() && at < |slices|
      modifies Repr
      ensures Valid() && Repr == old(Repr) && Borrowed == old(Borrowed) && slices == old(slices)
      ensures Views == old(Views)[at := old(Views)[at].(trackers := old(Views)[at].trackers + [tracker])]
      ensures notices == old(notices)
    {
      OnlyOne(slices, at, Repr, Borrowed);
      FlatUpdate(Views, at, Views[at].(trackers := Views[at].trackers + [tracker]));
      hide Slice.Valid, Flat, AllApart, AllHeld;
      slices[at].AttachDrainTracker(tracker);
      Refresh(at, 0);
    }

    // ----- reserving and committing -----

    /** The raw slice is the free memory right behind slice `at`'s data. */
    ghost predicate Names(at: nat, raw: RawSlice)
      requires ValidSlices()
      reads this, Repr, Borrowed
    {
      && at < |slices| && !slices[at].immutable
      && raw.mem == slices[at].mem && raw.off == slices[at].base + slices[at].reservable
      && raw.len <= Views[at].room
    }

    /** The raw slice points into the memory slice `at` still covers. */
    predicate PointsInto(at: nat, raw: RawSlice)
      requires ValidSlices() && at < |slices|
      reads this, Repr, Borrowed
    {
      raw.mem == slices[at].mem && slices[at].base <= raw.off < slices[at].base + slices[at].capacity
    }

    /** A new last slice, all of it free. */
    method ReserveSingleSlice(length: nat) returns (raw: RawSlice)
      requires Valid()
      modifies this`slices, this`byteSize, this`notices, this`Views, this`Repr
      ensures Valid() && fresh(Repr - old(Repr)) && Borrowed == old(Borrowed) && notices == old(notices)
      ensures Views == old(Views) + [NewSlice([], length)] && slices[..|slices| - 1] == old(slices)
      ensures raw.mem != null && fresh(raw.mem) && raw.len == length && raw.off + raw.len <= raw.mem.Length
      ensures Names(|slices| - 1, raw) && PointsInto(|slices| - 1, raw)
    {
      PushNewSlice(length);
      hide Flat;
      var ok;
      ok, raw := slices[|slices| - 1].Reserve(length);
    }

    /** Commits to slice `at`; fails when the raw slice does not lie right behind its data. */
    method CommitAt(at: nat, raw: RawSlice, size: nat) returns (ok: bool)
      requires Valid() && at < |slices|
      requires raw.mem != null ==> raw.off + raw.len <= raw.mem.Length
      modifies Repr
      ensures Valid() && Repr == old(Repr) && Borrowed == old(Borrowed) && slices == old(slices)
              && notices == old(notices)
      ensures ok <==> !slices[at].immutable && raw.mem == slices[at].mem
                      && raw.off == old(slices[at].base + slices[at].reservable) && size <= raw.len
      ensures ok ==> size <= old(Views[at].room)
                     && Views == old(Views)[at := Appended(old(Views[at]), old(raw.mem[raw.off..raw.off + size]))]
      ensures !ok ==> Views == old(Views)
    {
      OnlyOne(slices, at, Repr, Borrowed);
      hide Slice.Valid, Flat, AllApart, AllHeld, Appended;
      ok := slices[at].Commit(raw, size);
      if ok {
        SizeAppend(Views, at, old(raw.mem[raw.off..raw.off + size]));
        Refresh(at, size);
      } else {
        FlatUpdate(Views, at, slices[at].view);
        Refresh(at, 0);
      }
    }

    /** Commits to the first slice the raw slice points into; fails when there is none. */
    method Commit(raw: RawSlice, size: nat) returns (ok: bool, ghost at: nat)
      requires Valid()
      requires raw.mem != null ==> raw.off + raw.len <= raw.mem.Length
      modifies Repr
      ensures Valid() && Repr == old(Repr) && Borrowed == old(Borrowed) && slices == old(slices)
              && notices == old(notices)
      ensures at <= |slices| && (at < |slices| ==> old(PointsInto(at, raw)))
      ensures forall k :: 0 <= k < at ==> !old(PointsInto(k, raw))
      ensures ok <==> at < |slices| && !slices[at].immutable
                      && raw.off == old(slices[at].base + slices[at].reservable) && size <= raw.len
      ensures ok ==> size <= old(Views[at].room)
                     && Views == old(Views)[at := Appended(old(Views[at]), old(raw.mem[raw.off..raw.off + size]))]
      ensures !ok ==> Views == old(Views)
    {
      hide Flat, Slice.Valid, AllHeld, AllApart;
      for i := 0 to |slices|
        invariant forall k :: 0 <= k < i ==> !old(PointsInto(k, raw))
        invariant Views == old(Views) && slices == old(slices)
      {
        if PointsInto(i, raw) {
          ok := CommitAt(i, raw, size);
          return ok, i;
        }
      }
      return false, |slices|;
    }

    /** What a caller does with reserved memory: write to it. */
    method WriteReserved(ghost at: nat, raw: RawSlice, written: seq<byte>)
      requires Valid() && Names(at, raw) && |written| <= raw.len
      modifies raw.mem
      ensures Valid() && Names(at, raw) && (old(PointsInto(at, raw)) ==> PointsInto(at, raw))
      ensures raw.mem[raw.off..raw.off + |written|] == written
    {
      OnlyOne(slices, at, Repr, Borrowed);
      hide Flat, AllApart, AllHeld;
      CopyInto(raw.mem, raw.off, written);
      assert raw.mem[slices[at].base..raw.off] == Views[at].data;
    }

    lemma OnlyHolder(at: nat, raw: RawSlice)
      requires Valid() && Names(at, raw)
      ensures forall k {:trigger slices[k]} :: 0 <= k < |slices| && k != at ==> slices[k].mem != raw.mem
    {
      OnlyOne(slices, at, Repr, Borrowed);
    }

    /**
     Reserving a slice, writing to it and committing, with nothing in between,
     appends exactly the committed bytes.
     */
    method ReserveWriteCommit(length: nat, written: seq<byte>, size: nat) returns (ok: bool)
      requires Valid() && size <= |written| <= length
      modifies Repr
      ensures Valid() && fresh(Repr - old(Repr)) && ok
      ensures Contents() == old(Contents()) + written[..size] && byteSize == old(byteSize) + size
    {
      FlatAppend(Views, [NewSlice(written[..size], length)]);
      FlatSingle(NewSlice(written[..size], length));
      var raw := ReserveSingleSlice(length);
      ghost var last := |slices| - 1;
      hide Flat, Slice.Valid, AllHeld, AllApart;
      WriteReserved(last, raw, written);
      OnlyHolder(last, raw);
      assert raw.mem[raw.off..raw.off + |written|][..size] == raw.mem[raw.off..raw.off + size];
      ghost var at;
      ok, at := Commit(raw, size);
      assert at == last;
      assert Appended(NewSlice([], length), written[..size]) == NewSlice(written[..size], length);
      assert Views == old(Views) + [NewSlice(written[..size], length)];
    }

    // ----- typed integers -----

    method WriteLEInt(t: IntType, value: int)
      requires Valid() && InRange(t, value)
      modifies Repr
      ensures Valid() && fresh(Repr - old(Repr)) && Borrowed == old(Borrowed) && notices == old(notices)
      ensures Views == AddViews(old(Views), Written(IntWrite(t, false, value)))
      ensures Contents() == old(Contents()) + Memory(t, value)
    {
      Add(Memory(t, value));
    }

    method WriteBEInt(t: IntType, value: int)
      requires Valid() && InRange(t, value)
      modifies Repr
      ensures Valid() && fresh(Repr - old(Repr)) && Borrowed == old(Borrowed) && notices == old(notices)
      ensures Views == AddViews(old(Views), Written(IntWrite(t, true, value)))
      ensures Contents() == old(Contents()) + Reversed(Memory(t, value))
    {
      SwappedMemory(t, value);
      var swapped := SwapBytes(t, value);
      Add(Memory(t, swapped));
    }

    method ReadLEInt(t: IntType) returns (r: ReadResult)
      requires Valid() && t.width > 0
      modifies Repr
      ensures Valid() && Repr == old(Repr) && Borrowed == old(Borrowed)
      ensures if |old(Contents())| < t.width
              then r == Underflow && Views == old(Views)
              else r == Value(Read(t, false, old(Contents())[..t.width])) && Views == DrainViews(old(Views), t.width)
    {
      hide Valid, Flat, DrainViews;
      if Length() < t.width {
        return Underflow;
      }
      var bytes := CopyOut(0, t.width);
      var ok := Drain(t.width);
      return Value(Load(t, bytes));
    }

    method ReadBEInt(t: IntType) returns (r: ReadResult)
      requires Valid() && t.width > 0
      modifies Repr
      ensures Valid() && Repr == old(Repr) && Borrowed == old(Borrowed)
      ensures if |old(Contents())| < t.width
              then r == Underflow && Views == old(Views)
              else r == Value(Read(t, true, old(Contents())[..t.width])) && Views == DrainViews(old(Views), t.width)
    {
      hide Valid, Flat, DrainViews;
      r := ReadLEInt(t);
      if r.Value? {
        var swapped := SwapBytes(t, r.value);
        r := Value(swapped);
      }
    }

    method PeekLEInt(t: IntType, offset: nat) returns (r: ReadResult)
      requires Valid() && t.width > 0
      ensures r == if |Contents()| < offset + t.width then Underflow
                   else Value(Read(t, false, Contents()[offset..offset + t.width]))
    {
      hide Valid, Flat;
      if Length() < offset + t.width {
        return Underflow;
      }
      var bytes := CopyOut(offset, t.width);
      return Value(Load(t, bytes));
    }

    method PeekBEInt(t: IntType, offset: nat) returns (r: ReadResult)
      requires Valid() && t.width > 0
      ensures r == if |Contents()| < offset + t.width then Underflow
                   else Value(Read(t, true, Contents()[offset..offset + t.width]))
    {
      hide Valid, Flat;
      r := PeekLEInt(t, offset);
      if r.Value? {
        var swapped := SwapBytes(t, r.value);
        r := Value(swapped);
      }
    }
  }
}
