/**
 Flow control on a buffer.

 After each add, drain or move-out the length is compared with three marks, and
 callbacks are made when it crossed one.
 */
module Watermarks {
  import opened SliceViews
  import opened Slices
  import opened Buffers

  const UINT32_SIZE: nat := 0x1_0000_0000

  type uint32 = x: nat | x < UINT32_SIZE

  datatype Marks = Marks(high: uint32, low: uint32, overflow: uint32)

  datatype Callback = AboveOverflow | AboveHigh | BelowLow

  /** What the flow control sees and says: length, marks, flags and the callbacks made. */
  datatype Flow = Flow(length: nat, marks: Marks, aboveHigh: bool, aboveOverflow: bool, calls: seq<Callback>)

  /** The marks for a high mark: low is half of it, overflow a multiple that wraps at 32 bits. */
  function MarksFor(high: uint32, multiplier: uint32): Marks {
    Marks(high, high / 2, high * multiplier % UINT32_SIZE)
  }

  function CheckOverflow(f: Flow, oldLength: nat): Flow {
    if oldLength <= f.marks.overflow < f.length
    then f.(aboveOverflow := true, calls := f.calls + [AboveOverflow]) else f
  }

  function CheckHigh(f: Flow, oldLength: nat): Flow {
    if oldLength <= f.marks.high < f.length
    then f.(aboveHigh := true, calls := f.calls + [AboveHigh]) else f
  }

  function CheckLow(f: Flow, oldLength: nat): Flow {
    if f.length < f.marks.low <= oldLength && f.aboveHigh
    then f.(aboveHigh := false, calls := f.calls + [BelowLow]) else f
  }

  /** The marks are checked in their order, against the length there was before. */
  function Checked(f: Flow, oldLength: nat): Flow {
    CheckLow(CheckHigh(CheckOverflow(f, oldLength), oldLength), oldLength)
  }

  /** The length becomes `length`, and the marks are checked. */
  function Resized(f: Flow, length: nat): Flow { Checked(f.(length := length), f.length) }

  /** Pieces are added one by one, each with a check of its own. */
  function Grown(f: Flow, sizes: seq<nat>): Flow
    decreases |sizes|
  {
    if sizes == [] then f else Grown(Resized(f, f.length + sizes[0]), sizes[1..])
  }

  function Sizes(vs: seq<SliceView>): seq<nat> { seq(|vs|, i requires 0 <= i < |vs| => |vs[i].data|) }

  class WatermarkBuffer {
    const buffer: OwnedBuffer
    var marks: Marks
    var aboveHigh: bool
    var aboveOverflow: bool
    /** The callbacks made so far. */
    var calls: seq<Callback>

    ghost predicate Valid()
      reads this, buffer, buffer.Repr, buffer.Borrowed
    {
      buffer.Valid() && this !in buffer.Repr && this !in buffer.Borrowed
    }

    ghost function State(): Flow
      requires Valid()
      reads this, buffer, buffer.Repr, buffer.Borrowed
    {
      Flow(|buffer.Contents()|, marks, aboveHigh, aboveOverflow, calls)
    }

    constructor ()
      ensures Valid() && fresh(buffer) && fresh(buffer.Repr)
      ensures State() == Flow(0, Marks(0, 0, 0), false, false, []) && buffer.Views == []
    {
      buffer := new OwnedBuffer();
      marks, aboveHigh, aboveOverflow, calls := Marks(0, 0, 0), false, false, [];
    }

    method SetWatermarks(high: uint32, multiplier: uint32)
      requires Valid()
      modifies this
      ensures Valid() && State() == old(State()).(marks := MarksFor(high, multiplier))
    {
      marks := MarksFor(high, multiplier);
    }

    method CheckWatermarks(oldLength: nat)
      requires Valid()
      modifies this
      ensures Valid()
      ensures State() == Checked(old(State()), oldLength)
    {
      var length := buffer.Length();
      if oldLength <= marks.overflow && length > marks.overflow {
        aboveOverflow := true;
        calls := calls + [AboveOverflow];
      }
      if oldLength <= marks.high && length > marks.high {
        aboveHigh := true;
        calls := calls + [AboveHigh];
      }
      if oldLength >= marks.low && length < marks.low && aboveHigh {
        aboveHigh := false;
        calls := calls + [BelowLow];
      }
    }

    method Add(data: seq<byte>)
      requires Valid()
      modifies this, buffer.Repr
      ensures Valid() && fresh(buffer.Repr - old(buffer.Repr)) && buffer.Borrowed == old(buffer.Borrowed)
      ensures buffer.Views == AddViews(old(buffer.Views), data)
      ensures State() == Resized(old(State()), old(State()).length + |data|)
    {
      hide OwnedBuffer.Valid, AddViews, Flat;
      var oldLength := buffer.Length();
      buffer.Add(data);
      CheckWatermarks(oldLength);
    }

    /** Adds another buffer: each of its slices is added and checked, and then the whole is checked once more. */
    method AddBuffer(source: OwnedBuffer)
      requires Valid() && source.Valid() && buffer.Separate(source) && this !in source.Repr && this !in source.Borrowed
      modifies this, buffer.Repr
      ensures Valid() && fresh(buffer.Repr - old(buffer.Repr))
      ensures source.Valid() && source.Views == old(source.Views)
      ensures buffer.Views == AddBufferViews(old(buffer.Views), source.Views)
      ensures State() == ChangeLength(old(State()), GrowPieces(Sizes(RawViews(source.Views, MAX_COPIED_SLICES))))
    {
      hide OwnedBuffer.Valid, OwnedBuffer.ValidSlices, Flat, RawViews, Checked;
      var oldLength := buffer.Length();
      if source.Length() > 0 {
        var raws := source.GetRawSlices(MAX_COPIED_SLICES);
        AddPieces(source, raws, RawViews(source.Views, MAX_COPIED_SLICES));
      } else {
        NothingRaw(source.Views);
      }
      CheckWatermarks(oldLength);
    }

    method AddPieces(source: OwnedBuffer, raws: seq<RawSlice>, ghost views: seq<SliceView>)
      requires Valid() && source.Valid() && buffer.Separate(source) && this !in source.Repr && this !in source.Borrowed
      requires |raws| == |views|
      requires forall k :: 0 <= k < |raws| ==>
                 Shows(raws[k], views[k].data) && (raws[k].mem in source.Repr || raws[k].mem in source.Borrowed)
      modifies this, buffer.Repr
      ensures Valid() && fresh(buffer.Repr - old(buffer.Repr)) && buffer.Borrowed == old(buffer.Borrowed)
      ensures source.Valid() && source.Views == old(source.Views)
      ensures buffer.Views == AddEach(old(buffer.Views), views)
      ensures State() == Grown(old(State()), Sizes(views))
    {
      hide OwnedBuffer.Valid, OwnedBuffer.ValidSlices, Flat, Resized, AddViews, AddEach, Grown, Sizes;
      assert views[0..] == views;
      for i := 0 to |raws|
        invariant Valid() && fresh(buffer.Repr - old(buffer.Repr)) && buffer.Borrowed == old(buffer.Borrowed)
        invariant source.Valid() && buffer.Separate(source)
        invariant source.Views == old(source.Views) && source.Repr == old(source.Repr)
        invariant source.Borrowed == old(source.Borrowed)
        invariant forall k :: 0 <= k < |raws| ==> Shows(raws[k], views[k].data)
        invariant AddEach(buffer.Views, views[i..]) == AddEach(old(buffer.Views), views)
        invariant Grown(State(), Sizes(views[i..])) == Grown(old(State()), Sizes(views))
      {
        assert views[i..][1..] == views[i + 1..];
        PieceStep(buffer.Views, State(), views[i..]);
        Add(raws[i].mem[raws[i].off..raws[i].off + raws[i].len]);
      }
      NoPieces(buffer.Views, State());
    }

    method Drain(size: nat) returns (ok: bool)
      requires Valid()
      modifies this, buffer.Repr
      ensures Valid() && buffer.Repr == old(buffer.Repr)
      ensures ok <==> size <= old(State()).length
      ensures ok ==> buffer.Views == DrainViews(old(buffer.Views), size)
                     && State() == Resized(old(State()), old(State()).length - size)
      ensures !ok ==> State() == old(State())
    {
      hide OwnedBuffer.Valid, DrainViews, Flat;
      var oldLength := buffer.Length();
      ok := buffer.Drain(size);
      if ok {
        CheckWatermarks(oldLength);
      }
    }

    method Move(dest: OwnedBuffer, length: nat)
      requires Valid() && dest.Valid() && buffer.Separate(dest) && this !in dest.Repr && this !in dest.Borrowed
      modifies this, buffer.Repr, dest.Repr
      ensures Valid() && dest.Valid() && buffer.Separate(dest)
      ensures (buffer.Views, dest.Views) ==
              MoveViews(old(buffer.Views), old(dest.Views), Min(length, old(State()).length))
      ensures State() == Resized(old(State()), old(State()).length - Min(length, old(State()).length))
    {
      hide OwnedBuffer.Valid, MoveViews, Flat;
      var oldLength := buffer.Length();
      buffer.Move(dest, length);
      CheckWatermarks(oldLength);
    }
  }

  // ----- runs -----

  lemma PieceStep(to: seq<SliceView>, f: Flow, vs: seq<SliceView>)
    requires vs != []
    ensures AddEach(to, vs) == AddEach(AddViews(to, vs[0].data), vs[1..])
    ensures Grown(f, Sizes(vs)) == Grown(Resized(f, f.length + |vs[0].data|), Sizes(vs[1..]))
  {
    hide Resized, AddViews;
    assert Sizes(vs)[1..] == Sizes(vs[1..]);
  }

  lemma NoPieces(to: seq<SliceView>, f: Flow)
    ensures AddEach(to, []) == to && Grown(f, Sizes([])) == f
  {
  }

  /** A buffer with nothing in it has nothing to copy. */
  lemma NothingRaw(vs: seq<SliceView>)
    ensures Flat(vs) == [] ==> RawViews(vs, MAX_COPIED_SLICES) == []
  {
    FlatNonEmpty(vs);
    if NonEmpty(vs) != [] {
      assert |Flat(NonEmpty(vs))| >= |NonEmpty(vs)[0].data|;
    }
  }

  /** One checked change of the length, or the pieces of another buffer with a check behind them. */
  datatype Change = Grow(size: nat) | Shrink(size: nat) | GrowPieces(sizes: seq<nat>)

  /** Draining more than there is fails and changes nothing; a move takes what there is. */
  function ChangeLength(f: Flow, c: Change): Flow {
    match c
    case Grow(n) => Resized(f, f.length + n)
    case GrowPieces(sizes) => Checked(Grown(f, sizes), f.length)
    case Shrink(n) => if n > f.length then f else Resized(f, f.length - n)
  }

  function RunChanges(f: Flow, cs: seq<Change>): Flow
    decreases |cs|
  {
    if cs == [] then f else RunChanges(ChangeLength(f, cs[0]), cs[1..])
  }

  /** The high and low callbacks among the calls. */
  function HighLow(calls: seq<Callback>): seq<Callback> {
    if calls == [] then []
    else HighLow(calls[..|calls| - 1]) + if calls[|calls| - 1] == AboveOverflow then [] else [calls[|calls| - 1]]
  }

  /** (high+ low)* high*: every low comes right behind a high. */
  ghost predicate Alternates(hl: seq<Callback>) {
    forall i :: 0 <= i < |hl| && hl[i] == BelowLow ==> i > 0 && hl[i - 1] == AboveHigh
  }

  /** The flag says which of the two marks was crossed last, and the other whether overflow was ever called. */
  ghost predicate TraceFits(f: Flow) {
    && Alternates(HighLow(f.calls)) && (f.aboveOverflow <==> AboveOverflow in f.calls)
    && (f.aboveHigh <==> HighLow(f.calls) != [] && HighLow(f.calls)[|HighLow(f.calls)| - 1] == AboveHigh)
  }

  /** What the marks mean: outside the band between them the flag is right. */
  ghost predicate Consistent(f: Flow) {
    && f.marks.low <= f.marks.high
    && (f.length > f.marks.high ==> f.aboveHigh)
    && (f.length < f.marks.low ==> !f.aboveHigh)
    && TraceFits(f)
  }

  lemma CallAppended(calls: seq<Callback>, c: Callback)
    ensures HighLow(calls + [c]) == HighLow(calls) + if c == AboveOverflow then [] else [c]
  {
    assert (calls + [c])[..|calls|] == calls;
  }

  lemma AlternatesPush(hl: seq<Callback>, c: Callback)
    requires Alternates(hl)
    requires c == BelowLow ==> hl != [] && hl[|hl| - 1] == AboveHigh
    ensures Alternates(hl + [c])
  {
  }

  /** One call more, and the flag of what was called. */
  lemma CallFits(f: Flow, f': Flow, c: Callback)
    requires TraceFits(f) && f'.calls == f.calls + [c]
    requires c == BelowLow ==> f.aboveHigh
    requires f'.aboveHigh == if c == AboveOverflow then f.aboveHigh else c == AboveHigh
    requires f'.aboveOverflow <==> f.aboveOverflow || c == AboveOverflow
    ensures TraceFits(f')
  {
    CallAppended(f.calls, c);
    var hl := HighLow(f.calls);
    hide HighLow;
    if c == AboveOverflow {
      assert hl + [] == hl;
    } else {
      AlternatesPush(hl, c);
      hide Alternates;
    }
  }

  lemma ChecksFit(f: Flow, oldLength: nat)
    requires TraceFits(f)
    ensures TraceFits(CheckOverflow(f, oldLength))
    ensures TraceFits(CheckHigh(f, oldLength))
    ensures TraceFits(CheckLow(f, oldLength))
  {
    hide TraceFits;
    if oldLength <= f.marks.overflow < f.length {
      CallFits(f, CheckOverflow(f, oldLength), AboveOverflow);
    }
    if oldLength <= f.marks.high < f.length {
      CallFits(f, CheckHigh(f, oldLength), AboveHigh);
    }
    if f.length < f.marks.low <= oldLength && f.aboveHigh {
      CallFits(f, CheckLow(f, oldLength), BelowLow);
    }
  }

  function Total(sizes: seq<nat>): nat { if sizes == [] then 0 else sizes[0] + Total(sizes[1..]) }

  /** The length a change leads to. */
  function NewLength(f: Flow, c: Change): nat {
    match c
    case Grow(n) => f.length + n
    case GrowPieces(sizes) => f.length + Total(sizes)
    case Shrink(n) => if n > f.length then f.length else f.length - n
  }

  lemma ResizedConsistent(f: Flow, length: nat)
    requires Consistent(f)
    ensures Consistent(Resized(f, length))
  {
    var f0 := f.(length := length);
    var f1 := CheckOverflow(f0, f.length);
    var f2 := CheckHigh(f1, f.length);
    hide HighLow;
    assert TraceFits(f0);
    ChecksFit(f0, f.length);
    ChecksFit(f1, f.length);
    ChecksFit(f2, f.length);
    hide TraceFits;
  }

  /** Checking once more, against a length from before an add, keeps the meaning. */
  lemma CheckedConsistent(f: Flow, oldLength: nat)
    requires Consistent(f) && oldLength <= f.length
    ensures Consistent(Checked(f, oldLength)) && Checked(f, oldLength).length == f.length
  {
    var f1 := CheckOverflow(f, oldLength);
    var f2 := CheckHigh(f1, oldLength);
    hide HighLow;
    ChecksFit(f, oldLength);
    ChecksFit(f1, oldLength);
    ChecksFit(f2, oldLength);
    hide TraceFits;
  }

  lemma {:induction false} GrownConsistent(f: Flow, sizes: seq<nat>)
    requires Consistent(f)
    ensures Consistent(Grown(f, sizes)) && Grown(f, sizes).length == f.length + Total(sizes)
    ensures Grown(f, sizes).marks == f.marks && (f.aboveOverflow ==> Grown(f, sizes).aboveOverflow)
    decreases |sizes|
  {
    hide Consistent;
    if sizes != [] {
      ResizedConsistent(f, f.length + sizes[0]);
      GrownConsistent(Resized(f, f.length + sizes[0]), sizes[1..]);
    }
  }

  lemma ChangeKeepsConsistent(f: Flow, c: Change)
    requires Consistent(f)
    ensures Consistent(ChangeLength(f, c))
    ensures ChangeLength(f, c).marks == f.marks
    ensures f.aboveOverflow ==> ChangeLength(f, c).aboveOverflow
  {
    hide Consistent, Grown;
    match c
    case GrowPieces(sizes) =>
      GrownConsistent(f, sizes);
      CheckedConsistent(Grown(f, sizes), f.length);
    case _ => ResizedConsistent(f, NewLength(f, c));
  }

  /**
   Over every run of adds, adds of whole buffers, drains and move-outs the flag and the callbacks keep
   their meaning.
   */
  lemma {:induction false} RunKeepsConsistent(f: Flow, cs: seq<Change>)
    requires Consistent(f)
    ensures Consistent(RunChanges(f, cs)) && RunChanges(f, cs).marks == f.marks
    ensures f.aboveOverflow ==> RunChanges(f, cs).aboveOverflow
    decreases |cs|
  {
    if cs != [] {
      ChangeKeepsConsistent(f, cs[0]);
      RunKeepsConsistent(ChangeLength(f, cs[0]), cs[1..]);
    }
  }

  /** With marks set on an empty buffer that has made no call, every run is consistent. */
  lemma RunFromEmpty(high: uint32, multiplier: uint32, cs: seq<Change>)
    ensures Consistent(RunChanges(Flow(0, MarksFor(high, multiplier), false, false, []), cs))
  {
    RunKeepsConsistent(Flow(0, MarksFor(high, multiplier), false, false, []), cs);
  }

  /** Setting marks anew keeps that meaning exactly when the flag fits the length under the new marks. */
  lemma SetMarksConsistent(f: Flow, high: uint32, multiplier: uint32)
    requires Consistent(f)
    ensures Consistent(f.(marks := MarksFor(high, multiplier))) <==>
            (f.length > high ==> f.aboveHigh) && (f.length < high / 2 ==> !f.aboveHigh)
  {
  }

  /** Which callbacks one check makes: overflow and high on crossing upwards, low on crossing down with the flag set. */
  function CheckCalls(f: Flow, oldLength: nat): seq<Callback> {
    (if oldLength <= f.marks.overflow < f.length then [AboveOverflow] else [])
    + (if oldLength <= f.marks.high < f.length then [AboveHigh] else [])
    + (if f.length < f.marks.low <= oldLength && (f.aboveHigh || oldLength <= f.marks.high < f.length) then [BelowLow]
        else [])
  }

  lemma CheckedCalls(f: Flow, oldLength: nat)
    ensures Checked(f, oldLength).calls == f.calls + CheckCalls(f, oldLength)
    ensures Checked(f, oldLength).length == f.length && Checked(f, oldLength).marks == f.marks
  {
    var f1 := CheckOverflow(f, oldLength);
    var f2 := CheckHigh(f1, oldLength);
    assert f2.calls == f.calls + ((if oldLength <= f.marks.overflow < f.length then [AboveOverflow] else [])
                                  + (if oldLength <= f.marks.high < f.length then [AboveHigh] else []));
  }

  /** The callbacks of a change checked once. */
  lemma NewCalls(f: Flow, c: Change)
    requires !c.GrowPieces?
    ensures var n := NewLength(f, c);
            && ChangeLength(f, c).length == n && ChangeLength(f, c).marks == f.marks
            && ChangeLength(f, c).calls == f.calls + CheckCalls(f.(length := n), f.length)
  {
    hide Checked;
    CheckedCalls(f.(length := NewLength(f, c)), f.length);
  }

  function Count(calls: seq<Callback>, c: Callback): nat { multiset(calls)[c] }

  lemma CountAppend(a: seq<Callback>, b: seq<Callback>, c: Callback)
    ensures Count(a + b, c) == Count(a, c) + Count(b, c)
  {
  }

  lemma CheckCounts(f: Flow, oldLength: nat)
    ensures Count(CheckCalls(f, oldLength), AboveHigh) == if oldLength <= f.marks.high < f.length then 1 else 0
    ensures Count(CheckCalls(f, oldLength), AboveOverflow) == if oldLength <= f.marks.overflow < f.length then 1 else 0
    ensures oldLength <= f.length ==> Count(CheckCalls(f, oldLength), BelowLow) == 0
  {
  }

  /** One check adds to the calls what it makes. */
  lemma CheckedCounts(f: Flow, oldLength: nat)
    ensures var f' := Checked(f, oldLength);
            && f'.length == f.length && f'.marks == f.marks && f.calls <= f'.calls
            && Count(f'.calls, AboveHigh) == Count(f.calls, AboveHigh)
               + (if oldLength <= f.marks.high < f.length then 1 else 0)
            && Count(f'.calls, AboveOverflow) == Count(f.calls, AboveOverflow)
               + (if oldLength <= f.marks.overflow < f.length then 1 else 0)
            && (oldLength <= f.length ==> Count(f'.calls, BelowLow) == Count(f.calls, BelowLow))
  {
    hide Checked, Count, CheckCalls;
    CheckedCalls(f, oldLength);
    CheckCounts(f, oldLength);
    CountAppend(f.calls, CheckCalls(f, oldLength), AboveHigh);
    CountAppend(f.calls, CheckCalls(f, oldLength), AboveOverflow);
    CountAppend(f.calls, CheckCalls(f, oldLength), BelowLow);
  }

  /** Pieces make each upward callback once, in all, when they cross its mark, and no low callback. */
  lemma {:induction false} GrownCalls(f: Flow, sizes: seq<nat>)
    ensures var f', n := Grown(f, sizes), f.length + Total(sizes);
            && f'.length == n && f'.marks == f.marks && f.calls <= f'.calls
            && Count(f'.calls, AboveHigh) == Count(f.calls, AboveHigh) + (if f.length <= f.marks.high < n then 1 else 0)
            && Count(f'.calls, AboveOverflow) == Count(f.calls, AboveOverflow)
               + (if f.length <= f.marks.overflow < n then 1 else 0)
            && Count(f'.calls, BelowLow) == Count(f.calls, BelowLow)
    decreases |sizes|
  {
    hide Checked, Count;
    if sizes != [] {
      CheckedCounts(f.(length := f.length + sizes[0]), f.length);
      GrownCalls(Resized(f, f.length + sizes[0]), sizes[1..]);
    }
  }

  /** How often a change that crosses a mark upwards makes its callback. */
  function Times(c: Change): nat { if c.GrowPieces? then 2 else 1 }

  /**
   The flag does not hold the high callback back: it is made on every crossing of the
   high mark, and twice when another buffer is added, by the piece that crosses it and
   by the check behind the pieces. The overflow callback is made alike.
   */
  lemma HighCallback(f: Flow, c: Change)
    ensures var f' := ChangeLength(f, c);
            && f'.length == NewLength(f, c) && f'.marks == f.marks && f.calls <= f'.calls
            && Count(f'.calls, AboveHigh)
               == Count(f.calls, AboveHigh) + (if f.length <= f.marks.high < f'.length then Times(c) else 0)
            && Count(f'.calls, AboveOverflow)
               == Count(f.calls, AboveOverflow) + (if f.length <= f.marks.overflow < f'.length then Times(c) else 0)
  {
    hide Checked, Grown, Count;
    match c
    case GrowPieces(sizes) =>
      GrownCalls(f, sizes);
      CheckedCounts(Grown(f, sizes), f.length);
    case _ => CheckedCounts(f.(length := NewLength(f, c)), f.length);
  }

  /** So a callback is doubled exactly when another buffer is added and crosses the mark. */
  lemma HighDoubled(f: Flow, c: Change)
    ensures var f' := ChangeLength(f, c);
            Count(f'.calls, AboveHigh) == Count(f.calls, AboveHigh) + 2
            <==> c.GrowPieces? && f.length <= f.marks.high < f.length + Total(c.sizes)
  {
    hide ChangeLength;
    HighCallback(f, c);
  }

  /** One slice of 150 bytes into an empty buffer, the high mark at 100: the callback is made twice. */
  lemma PieceTwice()
    ensures var f := ChangeLength(Flow(0, MarksFor(100, 5), false, false, []), GrowPieces([150]));
            f.calls == [AboveHigh, AboveHigh]
  {
    var f0 := Flow(0, MarksFor(100, 5), false, false, []);
    var f1 := Resized(f0, 150);
    assert Grown(f0, [150]) == Grown(f1, []) == f1;
  }

  /** 0 -> 150 -> 80 -> 150 with the high mark at 100 makes the high callback twice and no other. */
  lemma HighTwice()
    ensures var f := RunChanges(Flow(0, MarksFor(100, 5), false, false, []), [Grow(150), Shrink(70), Grow(70)]);
            f.calls == [AboveHigh, AboveHigh] && f.aboveHigh
  {
    var f0 := Flow(0, MarksFor(100, 5), false, false, []);
    var f1 := ChangeLength(f0, Grow(150));
    var f2 := ChangeLength(f1, Shrink(70));
    assert RunChanges(f0, [Grow(150), Shrink(70), Grow(70)]) == RunChanges(f1, [Shrink(70), Grow(70)]);
    assert RunChanges(f1, [Shrink(70), Grow(70)]) == RunChanges(f2, [Grow(70)]);
    assert RunChanges(f2, [Grow(70)]) == RunChanges(ChangeLength(f2, Grow(70)), []);
  }

  /** A change that reports overflow leaves the buffer above its high mark as well. */
  ghost predicate OverflowIsHigh(f: Flow, c: Change) {
    var f' := ChangeLength(f, c);
    Count(f'.calls, AboveOverflow) > Count(f.calls, AboveOverflow) ==> f'.aboveHigh && f'.length > f'.marks.high
  }

  /**
   Overflow implies high, for every buffer and every change, exactly when the product in
   32 bits is not below the high mark; a product that does not wrap is not.
   */
  lemma OverflowImpliesHigh(high: uint32, multiplier: uint32)
    ensures (forall f, c :: Consistent(f) && f.marks == MarksFor(high, multiplier) ==> OverflowIsHigh(f, c))
            <==> high * multiplier % UINT32_SIZE >= high
    ensures multiplier >= 1 && high * multiplier < UINT32_SIZE ==> high * multiplier % UINT32_SIZE >= high
  {
    hide Consistent, OverflowIsHigh;
    var m := MarksFor(high, multiplier);
    if m.overflow >= high {
      forall f, c | Consistent(f) && f.marks == m
        ensures OverflowIsHigh(f, c)
      {
        OverflowAbove(f, c);
      }
    } else {
      OverflowBelow(m);
    }
    if multiplier >= 1 && high * multiplier < UINT32_SIZE {
      NoWrap(high, multiplier);
    }
  }

  lemma OverflowAbove(f: Flow, c: Change)
    requires Consistent(f) && f.marks.overflow >= f.marks.high
    ensures OverflowIsHigh(f, c)
  {
    hide TraceFits, ChangeLength, Count;
    HighCallback(f, c);
    ChangeKeepsConsistent(f, c);
  }

  /** An overflow mark below the high one is crossed alone by one byte more than it. */
  lemma OverflowBelow(m: Marks)
    requires m.overflow < m.high && m.low <= m.high
    ensures var f := Flow(0, m, false, false, []);
            Consistent(f) && !OverflowIsHigh(f, Grow(m.overflow + 1))
  {
    var f := Flow(0, m, false, false, []);
    var f' := ChangeLength(f, Grow(m.overflow + 1));
    assert f'.calls == [AboveOverflow];
  }

  lemma NoWrap(high: uint32, multiplier: uint32)
    requires multiplier >= 1 && high * multiplier < UINT32_SIZE
    ensures high <= MarksFor(high, multiplier).overflow
  {
    assert high * multiplier >= high;
    assert high * multiplier % UINT32_SIZE == high * multiplier;
  }

  /** Wrapped, the overflow mark can lie below the high one: one byte overflows and is not high. */
  lemma WrappedOverflow()
    ensures var f := ChangeLength(Flow(0, MarksFor(0x8000_0000, 2), false, false, []), Grow(1));
            f.calls == [AboveOverflow] && !f.aboveHigh
  {
  }
}
