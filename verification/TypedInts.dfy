/**
 Integers of fixed width as bytes.

 The host stores integers least significant byte first, so the little-endian
 calls copy the value's memory and the big-endian calls swap it.
 */
module TypedInts {
  import opened SliceViews

  /** An integral type: its width in bytes and whether it has a sign. */
  datatype IntType = IntType(width: nat, signed: bool)

  function Pow256(n: nat): (p: nat)
    ensures p >= 1
  {
    if n == 0 then 1 else 256 * Pow256(n - 1)
  }

  /** Half the range, where the sign of a signed type begins; 128 * 256^(width - 1). */
  function Half(t: IntType): int {
    if t.width == 0 then 0 else 128 * Pow256(t.width - 1)
  }

  ghost predicate InRange(t: IntType, v: int) {
    t.width > 0 && if t.signed then -Half(t) <= v < Half(t) else 0 <= v < Pow256(t.width)
  }

  function LeBytes(u: nat, w: nat): (bs: seq<byte>)
    ensures |bs| == w
  {
    if w == 0 then [] else [(u % 256) as byte] + LeBytes(u / 256, w - 1)
  }

  function LeValue(bs: seq<byte>): (u: nat)
    ensures u < Pow256(|bs|)
  {
    if bs == [] then 0 else bs[0] as int + 256 * LeValue(bs[1..])
  }

  /** A value as it lies in memory. */
  function Memory(t: IntType, v: int): (bs: seq<byte>)
    requires InRange(t, v)
    ensures |bs| == t.width
  {
    LeBytes(if v < 0 then v + Pow256(t.width) else v, t.width)
  }

  /** The value that some memory holds. */
  function Load(t: IntType, bs: seq<byte>): (v: int)
    requires t.width > 0 && |bs| == t.width
    ensures InRange(t, v)
  {
    var u := LeValue(bs);
    if t.signed && u >= Half(t) then u - Pow256(t.width) else u
  }

  function Reversed(bs: seq<byte>): (r: seq<byte>)
    ensures |r| == |bs|
    ensures forall i :: 0 <= i < |bs| ==> r[i] == bs[|bs| - 1 - i]
  {
    if bs == [] then [] else Reversed(bs[1..]) + [bs[0]]
  }

  function Swapped(t: IntType, v: int): (r: int)
    requires InRange(t, v)
    ensures InRange(t, r)
  {
    Load(t, Reversed(Memory(t, v)))
  }

  method SwapBytes(t: IntType, value: int) returns (swapped: int)
    requires InRange(t, value)
    ensures InRange(t, swapped) && swapped == Swapped(t, value)
  {
    var src := Memory(t, value);
    var dst: seq<byte> := [];
    for i := 0 to t.width
      invariant |dst| == i
      invariant forall k :: 0 <= k < i ==> dst[k] == src[t.width - 1 - k]
    {
      dst := dst + [src[t.width - 1 - i]];
    }
    assert dst == Reversed(src);
    swapped := Load(t, dst);
  }

  lemma {:induction false} LeRoundTrip(u: nat, w: nat)
    requires u < Pow256(w)
    ensures LeValue(LeBytes(u, w)) == u
  {
    if w > 0 {
      LeRoundTrip(u / 256, w - 1);
      assert LeBytes(u, w)[1..] == LeBytes(u / 256, w - 1);
    }
  }

  lemma {:induction false} LeUnique(bs: seq<byte>)
    ensures LeBytes(LeValue(bs), |bs|) == bs
  {
    if bs != [] {
      LeUnique(bs[1..]);
      var u := LeValue(bs);
      assert u % 256 == bs[0] as int && u / 256 == LeValue(bs[1..]);
    }
  }

  /** Loading a value's memory gives the value, and storing a loaded value gives the memory. */
  lemma LoadMemory(t: IntType, v: int)
    requires InRange(t, v)
    ensures Load(t, Memory(t, v)) == v
  {
    LeRoundTrip(if v < 0 then v + Pow256(t.width) else v, t.width);
  }

  lemma MemoryLoad(t: IntType, bs: seq<byte>)
    requires t.width > 0 && |bs| == t.width
    ensures Memory(t, Load(t, bs)) == bs
  {
    LeUnique(bs);
  }

  lemma ReversedTwice(bs: seq<byte>)
    ensures Reversed(Reversed(bs)) == bs
  {
  }

  /** Swapping reverses the bytes in memory and undoes itself. */
  lemma SwappedMemory(t: IntType, v: int)
    requires InRange(t, v)
    ensures Memory(t, Swapped(t, v)) == Reversed(Memory(t, v))
    ensures Swapped(t, Swapped(t, v)) == v
  {
    MemoryLoad(t, Reversed(Memory(t, v)));
    ReversedTwice(Memory(t, v));
    LoadMemory(t, v);
  }

  // ----- runs of typed writes and reads -----

  /** One typed write: the type, the byte order and the value. */
  datatype IntWrite = IntWrite(t: IntType, big: bool, value: int)

  ghost predicate Fits(w: IntWrite) { InRange(w.t, w.value) }

  /** What a write hands to `add`. */
  function Written(w: IntWrite): seq<byte>
    requires Fits(w)
  {
    Memory(w.t, if w.big then Swapped(w.t, w.value) else w.value)
  }

  /** What a read of that type and byte order makes of the bytes copied out. */
  function Read(t: IntType, big: bool, bs: seq<byte>): int
    requires t.width > 0 && |bs| == t.width
  {
    if big then Swapped(t, Load(t, bs)) else Load(t, bs)
  }

  function WriteAll(vs: seq<SliceView>, ws: seq<IntWrite>): seq<SliceView>
    requires forall i :: 0 <= i < |ws| ==> Fits(ws[i])
    decreases |ws|
  {
    if ws == [] then vs else WriteAll(AddViews(vs, Written(ws[0])), ws[1..])
  }

  datatype ReadRun = ReadRun(values: seq<int>, left: seq<SliceView>, underflow: bool)

  /** Reads in turn with the types and byte orders of `ws`, stopping at the first underflow. */
  function ReadAll(vs: seq<SliceView>, ws: seq<IntWrite>): ReadRun
    requires forall i :: 0 <= i < |ws| ==> ws[i].t.width > 0
    decreases |ws|
  {
    if ws == [] then ReadRun([], vs, false)
    else if |Flat(vs)| < ws[0].t.width then ReadRun([], vs, true)
    else
      var v := Read(ws[0].t, ws[0].big, Flat(vs)[..ws[0].t.width]);
      var rest := ReadAll(DrainViews(vs, ws[0].t.width), ws[1..]);
      rest.(values := [v] + rest.values)
  }

  function TotalWidth(ws: seq<IntWrite>): nat { if ws == [] then 0 else ws[0].t.width + TotalWidth(ws[1..]) }

  /** Reading runs out exactly when there are fewer bytes than the values take; what it leaves is the rest. */
  lemma {:induction false} ReadsRunOut(vs: seq<SliceView>, ws: seq<IntWrite>)
    requires forall i :: 0 <= i < |ws| ==> ws[i].t.width > 0
    ensures var run := ReadAll(vs, ws);
            && (run.underflow <==> |Flat(vs)| < TotalWidth(ws))
            && (!run.underflow ==> |run.values| == |ws| && Flat(run.left) == Flat(vs)[TotalWidth(ws)..])
    decreases |ws|
  {
    if ws != [] && |Flat(vs)| >= ws[0].t.width {
      FlatDrain(vs, ws[0].t.width);
      ReadsRunOut(DrainViews(vs, ws[0].t.width), ws[1..]);
    }
  }

  function Encoded(ws: seq<IntWrite>): seq<byte>
    requires forall i :: 0 <= i < |ws| ==> Fits(ws[i])
  {
    if ws == [] then [] else Written(ws[0]) + Encoded(ws[1..])
  }

  function Values(ws: seq<IntWrite>): seq<int> {
    seq(|ws|, i requires 0 <= i < |ws| => ws[i].value)
  }

  /** Little-endian writes put the least significant byte first, big-endian writes the most significant. */
  lemma WrittenOrder(w: IntWrite)
    requires Fits(w)
    ensures Written(w) == if w.big then Reversed(Memory(w.t, w.value)) else Memory(w.t, w.value)
    ensures LeValue(if w.big then Reversed(Written(w)) else Written(w)) ==
            if w.value < 0 then w.value + Pow256(w.t.width) else w.value
  {
    SwappedMemory(w.t, w.value);
    ReversedTwice(Memory(w.t, w.value));
    LeRoundTrip(if w.value < 0 then w.value + Pow256(w.t.width) else w.value, w.t.width);
  }

  lemma ReadWritten(w: IntWrite)
    requires Fits(w)
    ensures Read(w.t, w.big, Written(w)) == w.value
  {
    LoadMemory(w.t, w.value);
    if w.big {
      LoadMemory(w.t, Swapped(w.t, w.value));
      SwappedMemory(w.t, w.value);
    }
  }

  lemma {:induction false} FlatWriteAll(vs: seq<SliceView>, ws: seq<IntWrite>)
    requires forall i :: 0 <= i < |ws| ==> Fits(ws[i])
    ensures Flat(WriteAll(vs, ws)) == Flat(vs) + Encoded(ws)
    decreases |ws|
  {
    if ws == [] {
      assert Flat(vs) + [] == Flat(vs);
    } else {
      FlatAdd(vs, Written(ws[0]));
      Assoc(Flat(vs), Written(ws[0]), Encoded(ws[1..]));
      FlatWriteAll(AddViews(vs, Written(ws[0])), ws[1..]);
    }
  }

  /**
   However the slices cut the bytes, a buffer that starts with the encoding of
   some writes gives their values back in order and is left with the rest.
   */
  lemma {:induction false} ReadBackEncoded(vs: seq<SliceView>, ws: seq<IntWrite>, rest: seq<byte>)
    requires forall i :: 0 <= i < |ws| ==> Fits(ws[i])
    requires Flat(vs) == Encoded(ws) + rest
    ensures var r := ReadAll(vs, ws); r.values == Values(ws) && Flat(r.left) == rest && !r.underflow
    decreases |ws|
  {
    if ws != [] {
      var first := Written(ws[0]);
      Assoc(first, Encoded(ws[1..]), rest);
      assert Flat(vs)[..|first|] == first && Flat(vs)[|first|..] == Encoded(ws[1..]) + rest;
      ReadWritten(ws[0]);
      FlatDrain(vs, |first|);
      ReadBackEncoded(DrainViews(vs, |first|), ws[1..], rest);
      assert Values(ws) == [ws[0].value] + Values(ws[1..]);
    }
  }

  /** Any mixed sequence of typed writes to an empty buffer reads back as it was written. */
  lemma ReadBack(vs: seq<SliceView>, ws: seq<IntWrite>)
    requires Flat(vs) == []
    requires forall i :: 0 <= i < |ws| ==> Fits(ws[i])
    ensures var r := ReadAll(WriteAll(vs, ws), ws); r.values == Values(ws) && Flat(r.left) == [] && !r.underflow
  {
    FlatWriteAll(vs, ws);
    assert [] + Encoded(ws) == Encoded(ws) + [];
    ReadBackEncoded(WriteAll(vs, ws), ws, []);
  }
}
