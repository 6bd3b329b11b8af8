/**
 One contiguous region of buffer memory.

 `base` moves forward as data is drained, so the region in use is
 mem[base..base + capacity], of which the first `reservable` bytes hold data.
 Either the slice owns its memory, or it is immutable and borrows a fragment.
 */
module Slices {
  import opened SliceViews

  /** A pointer into slice memory and a length; no memory stands for a null pointer. */
  datatype RawSlice = RawSlice(mem: array?<byte>, off: nat, len: nat)

  /** memcpy into a region: the rest of the memory stays as it is. */
  method CopyInto(mem: array<byte>, off: nat, data: seq<byte>)
    requires off + |data| <= mem.Length
    modifies mem
    ensures forall i :: 0 <= i < mem.Length ==>
      mem[i] == if off <= i < off + |data| then data[i - off] else old(mem[i])
  {
    forall i | 0 <= i < |data| {
      mem[off + i] := data[i];
    }
  }

  /** memmove and memcpy: what lies at `off` moves forward, and the new data comes in front of it. */
  method CopyInFront(mem: array<byte>, off: nat, size: nat, data: seq<byte>)
    requires off + size + |data| <= mem.Length
    modifies mem
    ensures mem[off..off + size + |data|] == data + old(mem[off..off + size])
  {
    if size > 0 {
      CopyInto(mem, off + |data|, mem[off..off + size]);
    }
    CopyInto(mem, off, data);
  }

  class Slice {
    const mem: array<byte>
    const immutable: bool
    var base: nat
    var capacity: nat
    var reservable: nat
    var trackers: seq<TrackerId>
    /** What the slice means. */
    ghost var view: SliceView

    ghost predicate Valid()
      reads this, mem
    {
      && base + capacity == mem.Length
      && reservable <= capacity
      && (immutable ==> reservable == capacity)
      && view == SliceView(mem[base..base + reservable], ReservableSize(), immutable, trackers)
    }

    function Data(): (data: seq<byte>)
      requires Valid()
      reads this, mem
      ensures data == view.data
    {
      mem[base..base + reservable]
    }

    function ReservableSize(): nat
      requires immutable || reservable <= capacity
      reads this
    {
      if immutable then 0 else capacity - reservable
    }

    constructor (size: nat)
      ensures Valid() && fresh(mem) && !immutable && base == 0
      ensures view == NewSlice([], size)
    {
      mem := new byte[Allocated(size)];
      immutable := false;
      base, capacity, reservable := 0, Allocated(size), 0;
      trackers := [];
      view := NewSlice([], size);
    }

    constructor FromFragment(fragment: array<byte>)
      ensures Valid() && mem == fragment && immutable
      ensures view == FragmentSlice(fragment[..])
    {
      mem := fragment;
      immutable := true;
      base, capacity, reservable := 0, fragment.Length, fragment.Length;
      trackers := [];
      view := FragmentSlice(fragment[..]);
    }

    /** Counts memory that was written from outside as data. */
    method Fill(ghost data: seq<byte>, size: nat)
      requires Valid() && !immutable && reservable == 0 && size == |data| <= capacity
      requires forall k :: 0 <= k < size ==> mem[base + k] == data[k]
      modifies this
      ensures Valid() && view == Appended(old(view), data)
    {
      reservable := size;
      view := Appended(view, data);
    }

    /** The first free byte, as far as `size` bytes fit; fails otherwise. */
    method Reserve(size: nat) returns (ok: bool, raw: RawSlice)
      requires Valid()
      ensures ok <==> !immutable && size <= view.room
      ensures ok ==> raw == RawSlice(mem, base + reservable, size)
    {
      if immutable || size > ReservableSize() {
        return false, RawSlice(null, 0, 0);
      }
      return true, RawSlice(mem, base + reservable, size);
    }

    /** Bytes written behind the data become data, when the raw slice names exactly that place. */
    method Commit(raw: RawSlice, size: nat) returns (ok: bool)
      requires Valid()
      requires raw.mem == mem ==> raw.off + raw.len <= mem.Length
      modifies this
      ensures Valid()
      ensures ok <==> !immutable && raw.mem == mem && raw.off == old(base + reservable) && size <= raw.len
      ensures ok ==> size <= old(view.room)
                     && view == Appended(old(view), old(mem[raw.off..raw.off + size]))
      ensures !ok ==> view == old(view)
      ensures base == old(base)
    {
      if immutable {
        return false;
      }
      if raw.mem != mem || raw.off != base + reservable || size > raw.len {
        return false;
      }
      reservable := reservable + size;
      view := Appended(view, mem[raw.off..raw.off + size]);
      return true;
    }

    method Append(data: seq<byte>) returns (copied: nat)
      requires Valid()
      modifies this, if immutable then {} else {mem}
      ensures Valid()
      ensures copied == if immutable then 0 else Min(|data|, old(view.room))
      ensures view == Appended(old(view), data[..copied])
      ensures base == old(base)
    {
      if immutable {
        return 0;
      }
      copied := Min(|data|, ReservableSize());
      if copied > 0 {
        CopyInto(mem, base + reservable, data[..copied]);
        reservable := reservable + copied;
        view := Appended(view, data[..copied]);
      }
    }

    /** All or nothing: existing data moves forward to let the new data in. */
    method Prepend(data: seq<byte>) returns (prepended: nat)
      requires Valid()
      modifies this, if immutable then {} else {mem}
      ensures Valid()
      ensures prepended == if !immutable && |data| <= old(view.room) then |data| else 0
      ensures !immutable && |data| <= old(view.room) ==> view == Prepended(old(view), data)
      ensures immutable || |data| > old(view.room) ==> view == old(view)
    {
      if immutable || |data| > capacity - reservable {
        return 0;
      }
      CopyInFront(mem, base, reservable, data);
      reservable := reservable + |data|;
      view := Prepended(view, data);
      return |data|;
    }

    /** Draining more than there is fails; draining everything tells the trackers. */
    method Drain(size: nat) returns (ok: bool, notices: seq<Notice>)
      requires Valid()
      modifies this
      ensures Valid()
      ensures ok <==> size <= old(reservable)
      ensures ok ==> view == Drained(old(view), size)
                     && view.data == old(view.data)[size..] && view.room == old(view.room)
                     && view.trackers == if size == old(reservable) then [] else old(trackers)
      ensures |notices| == if ok && size == old(reservable) then |old(trackers)| else 0
      ensures forall i :: 0 <= i < |notices| ==> notices[i] == Notice(old(trackers)[i], size)
      ensures !ok ==> view == old(view)
    {
      if size > reservable {
        return false, [];
      }
      if size == reservable {
        base := base + size;
        reservable := 0;
        capacity := capacity - size;
        notices := NoticesFor(trackers, size);
        trackers := [];
      } else {
        base := base + size;
        reservable := reservable - size;
        capacity := capacity - size;
        notices := [];
      }
      view := Drained(view, size);
      return true, notices;
    }

    method AttachDrainTracker(tracker: TrackerId)
      requires Valid()
      modifies this
      ensures Valid() && view == old(view).(trackers := old(trackers) + [tracker])
    {
      trackers := trackers + [tracker];
      view := view.(trackers := trackers);
    }
  }
}
