/**
 Reserving space in a buffer to read into, and committing what was read.

 The reservation is made in the first slice that has room, wherever it is, but the
 commit goes to the last slice. So it succeeds exactly when those are the same one.
 */
module Reservations {
  import opened SliceViews
  import opened Slices
  import opened Buffers

  class ReservationImpl {
    const deque: OwnedBuffer
    var raws: seq<RawSlice>
    var length: nat
    /** The slice reserved in. */
    ghost var at: nat

    /** The reservation still names the free memory of the slice it was made in. */
    ghost predicate Reserved()
      reads this, deque, deque.Repr, deque.Borrowed
    {
      this !in deque.Repr && deque.Valid() && |raws| == 1 && raws[0].len == length && deque.Names(at, raws[0])
    }

    constructor (deque: OwnedBuffer)
      requires deque.Valid()
      modifies deque.Repr
      ensures this.deque == deque && Reserved() && at == ReserveIndex(old(deque.Views))
      ensures fresh(deque.Repr - old(deque.Repr)) && deque.Borrowed == old(deque.Borrowed)
      ensures deque.Views == ReserveViews(old(deque.Views)) && deque.Contents() == old(deque.Contents())
      ensures length == if at < |old(deque.Views)| then deque.Views[at].room else DEFAULT_RESERVATION_SIZE
    {
      this.deque := deque;
      raws, length, at := [], 0, 0;
      new;
      var found := ReserveInExisting();
      var spaceNeeded := if found then 0 else DEFAULT_RESERVATION_SIZE;
      while spaceNeeded > 0
        invariant spaceNeeded == 0 || (spaceNeeded == DEFAULT_RESERVATION_SIZE && !found)
        invariant this !in deque.Repr && deque.Valid() && fresh(deque.Repr - old(deque.Repr))
                  && deque.Borrowed == old(deque.Borrowed)
        invariant spaceNeeded > 0 ==> deque.Views == old(deque.Views) && raws == [] && length == 0
        invariant spaceNeeded == 0 ==>
                    Reserved() && at == ReserveIndex(old(deque.Views))
                    && deque.Views == ReserveViews(old(deque.Views)) && deque.Contents() == old(deque.Contents())
                    && length == if at < |old(deque.Views)| then deque.Views[at].room else DEFAULT_RESERVATION_SIZE
      {
        var allocSize := Min(spaceNeeded, DEFAULT_SLICE_SIZE);
        ReserveInNew(allocSize);
        spaceNeeded := spaceNeeded - allocSize;
      }
    }

    /** All the room of the first slice that has any. */
    method ReserveInExisting() returns (found: bool)
      requires this !in deque.Repr && deque.Valid() && raws == [] && length == 0
      modifies this
      ensures found <==> ReserveIndex(deque.Views) < |deque.Views|
      ensures found ==> Reserved() && at == ReserveIndex(deque.Views) && length == deque.Views[at].room
      ensures !found ==> raws == [] && length == 0
    {
      for i := 0 to |deque.slices|
        invariant raws == [] && length == 0
        invariant forall k :: 0 <= k < i ==> deque.Views[k].immutable || deque.Views[k].room == 0
      {
        if !deque.slices[i].immutable && deque.slices[i].ReservableSize() > 0 {
          var ok, raw := deque.slices[i].Reserve(deque.slices[i].ReservableSize());
          raws, length, at := raws + [raw], length + raw.len, i;
          return true;
        }
      }
      return false;
    }

    method ReserveInNew(size: nat)
      requires this !in deque.Repr && deque.Valid() && raws == [] && length == 0
      modifies this, deque`slices, deque`byteSize, deque`notices, deque`Views, deque`Repr
      ensures Reserved() && at == |old(deque.Views)| && length == size
      ensures fresh(deque.Repr - old(deque.Repr)) && deque.Borrowed == old(deque.Borrowed)
      ensures deque.Views == old(deque.Views) + [NewSlice([], size)] && deque.Contents() == old(deque.Contents())
    {
      FlatAppend(deque.Views, [NewSlice([], size)]);
      FlatSingle(NewSlice([], size));
      hide OwnedBuffer.Valid, Flat;
      var raw := deque.ReserveSingleSlice(size);
      raws, length, at := raws + [raw], length + raw.len, |deque.slices| - 1;
    }

    /**
     Commits to the last slice. With nothing in between, a commit of something
     succeeds exactly when the slice reserved in is the last one.
     */
    method Commit(size: nat) returns (ok: bool)
      requires Reserved()
      modifies deque.Repr
      ensures deque.Valid() && deque.Repr == old(deque.Repr) && deque.Borrowed == old(deque.Borrowed)
      ensures ok <==> size == 0 || (size <= length && at == |deque.slices| - 1)
      ensures ok && size > 0 ==>
                && deque.Views == old(deque.Views)[at := Appended(old(deque.Views[at]),
                   old(raws[0].mem[raws[0].off..raws[0].off + size]))]
                && deque.Contents() == old(deque.Contents()) + old(raws[0].mem[raws[0].off..raws[0].off + size])
      ensures !ok || size == 0 ==> deque.Views == old(deque.Views)
    {
      if size > length {
        return false;
      }
      ghost var written := raws[0].mem[raws[0].off..raws[0].off + size];
      ghost var committedViews := deque.Views[at := Appended(deque.Views[at], written)];
      ghost var committedBytes := deque.Contents() + written;
      hide OwnedBuffer.Valid, OwnedBuffer.ValidSlices, OwnedBuffer.Names, Flat;
      var remaining := size;
      var sliceIdx := |deque.slices| - |raws|;
      for k := 0 to |raws|
        invariant deque.Valid() && deque.Repr == old(deque.Repr) && deque.Borrowed == old(deque.Borrowed)
        invariant deque.slices == old(deque.slices) && raws == old(raws) && at == old(at) && length == old(length)
        invariant k == 0 ==> remaining == size && sliceIdx == |deque.slices| - 1 && unchanged(deque.Repr)
        invariant k == 0 ==> deque.Views == old(deque.Views) && raws[0].mem[raws[0].off..raws[0].off + size] == written
        invariant k == 1 ==> remaining == 0 && size > 0 && at == |deque.slices| - 1
        invariant k == 1 ==> deque.Views == committedViews && deque.Contents() == committedBytes
      {
        if remaining == 0 {
          break;
        }
        var toCommit := Min(remaining, raws[k].len);
        var committed := CommitOne(k, sliceIdx, toCommit);
        if !committed {
          return false;
        }
        remaining := remaining - toCommit;
        sliceIdx := sliceIdx + 1;
      }
      return true;
    }

    method CommitOne(k: nat, sliceIdx: nat, size: nat) returns (ok: bool)
      requires Reserved() && k == 0 && sliceIdx == |deque.slices| - 1 && size <= raws[k].len
      modifies deque.Repr
      ensures deque.Valid() && deque.Repr == old(deque.Repr) && deque.Borrowed == old(deque.Borrowed)
      ensures deque.slices == old(deque.slices) && raws == old(raws) && at == old(at) && length == old(length)
      ensures ok <==> at == sliceIdx
      ensures ok ==>
                && deque.Views == old(deque.Views)[at := Appended(old(deque.Views[at]),
                   old(raws[0].mem[raws[0].off..raws[0].off + size]))]
                && deque.Contents() == old(deque.Contents()) + old(raws[0].mem[raws[0].off..raws[0].off + size])
      ensures !ok ==> deque.Views == old(deque.Views)
    {
      deque.OnlyHolder(at, raws[0]);
      assert at != sliceIdx ==> deque.slices[sliceIdx].mem != raws[0].mem;
      ghost var written := raws[0].mem[raws[0].off..raws[0].off + size];
      if at == sliceIdx {
        FlatUpdateLast(deque.Views, Appended(deque.Views[at], written));
      }
      hide OwnedBuffer.Valid, Flat, AllApart, AllHeld, Slice.Valid;
      ok := deque.CommitAt(sliceIdx, raws[k], size);
    }
  }
}
