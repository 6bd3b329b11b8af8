/**
 Searching a sliced buffer.

 The search compares within one slice at a time, so it finds exactly the matches
 that no slice boundary cuts.
 */
module BufferSearch {
  import opened SliceViews

  /** The pattern lies at this offset of slice i. */
  ghost predicate MatchInSlice(vs: seq<SliceView>, i: nat, off: nat, pattern: seq<byte>) {
    i < |vs| && off + |pattern| <= |vs[i].data| && vs[i].data[off..off + |pattern|] == pattern
  }

  /** The pattern lies at this position of the buffer, inside one slice. */
  ghost predicate InsideMatch(vs: seq<SliceView>, pattern: seq<byte>, pos: nat) {
    exists i: nat, off: nat :: MatchInSlice(vs, i, off, pattern) && pos == Start(vs, i) + off
  }

  /** The pattern lies at this position of the byte queue. */
  ghost predicate FlatMatch(bytes: seq<byte>, pattern: seq<byte>, pos: nat) {
    pos + |pattern| <= |bytes| && bytes[pos..pos + |pattern|] == pattern
  }

  lemma {:induction false} StartMonotone(vs: seq<SliceView>, i: nat, j: nat)
    requires i <= j <= |vs|
    ensures Start(vs, i) <= Start(vs, j) <= |Flat(vs)|
    decreases j
  {
    FlatSplit(vs, j);
    if i < j {
      SliceAt(vs, j - 1);
      StartMonotone(vs, i, j - 1);
    }
  }

  /** A match inside a slice is a match in the byte queue. */
  lemma InsideIsFlat(vs: seq<SliceView>, pattern: seq<byte>, i: nat, off: nat)
    requires MatchInSlice(vs, i, off, pattern)
    ensures FlatMatch(Flat(vs), pattern, Start(vs, i) + off)
  {
    SliceAt(vs, i);
    var at := Start(vs, i);
    Subslice(Flat(vs), at, at + |vs[i].data|, off, off + |pattern|);
  }

  /** What a search promises: the leftmost match at or after the start that lies inside a slice. */
  ghost predicate SearchPost(vs: seq<SliceView>, pattern: seq<byte>, start: nat, position: nat, found: bool) {
    if pattern == [] then found && position == start
    else if found then
      position >= start && InsideMatch(vs, pattern, position)
      && forall q: nat :: start <= q < position ==> !InsideMatch(vs, pattern, q)
    else position == 0 && forall q: nat :: start <= q ==> !InsideMatch(vs, pattern, q)
  }

  /** No slice before the i-th holds a match at or after the start. */
  ghost predicate NoneBefore(vs: seq<SliceView>, pattern: seq<byte>, start: nat, i: nat)
    requires i <= |vs|
  {
    forall k: nat, off: nat :: k < i && MatchInSlice(vs, k, off, pattern) ==> Start(vs, k) + off < start
  }

  lemma FoundIn(vs: seq<SliceView>, pattern: seq<byte>, start: nat, i: nat, off: nat)
    requires pattern != [] && i < |vs| && NoneBefore(vs, pattern, start, i)
    requires MatchInSlice(vs, i, off, pattern) && Start(vs, i) + off >= start
    requires forall o: nat :: MatchInSlice(vs, i, o, pattern) && o < off ==> Start(vs, i) + o < start
    ensures SearchPost(vs, pattern, start, Start(vs, i) + off, true)
  {
    SliceAt(vs, i);
    forall k: nat, o: nat | MatchInSlice(vs, k, o, pattern)
      ensures Start(vs, k) + o < start || Start(vs, k) + o >= Start(vs, i) + off
    {
      if k > i {
        StartMonotone(vs, i + 1, k);
      }
    }
  }

  /** What a naive search of the byte queue finds: its leftmost match at or after the start. */
  ghost predicate NaivePost(bytes: seq<byte>, pattern: seq<byte>, start: nat, position: nat, found: bool) {
    if pattern == [] then found && position == start
    else if found then
      position >= start && FlatMatch(bytes, pattern, position)
      && forall q: nat :: start <= q < position ==> !FlatMatch(bytes, pattern, q)
    else position == 0 && forall q: nat :: start <= q ==> !FlatMatch(bytes, pattern, q)
  }

  lemma InsideMatchIsFlat(vs: seq<SliceView>, pattern: seq<byte>, pos: nat)
    requires InsideMatch(vs, pattern, pos)
    ensures FlatMatch(Flat(vs), pattern, pos)
  {
    var i: nat, off: nat :| MatchInSlice(vs, i, off, pattern) && pos == Start(vs, i) + off;
    InsideIsFlat(vs, pattern, i, off);
  }

  /**
   The search answers as a naive one would exactly when no slice boundary cuts
   the match the naive one finds.
   */
  lemma SearchAgreesWithNaive(vs: seq<SliceView>, pattern: seq<byte>, start: nat,
                              position: nat, found: bool, naivePosition: nat, naiveFound: bool)
    requires SearchPost(vs, pattern, start, position, found)
    requires NaivePost(Flat(vs), pattern, start, naivePosition, naiveFound)
    ensures (position, found) == (naivePosition, naiveFound) <==>
            (pattern == [] || (naiveFound ==> InsideMatch(vs, pattern, naivePosition)))
    ensures found ==> pattern == [] || FlatMatch(Flat(vs), pattern, position)
  {
    if pattern != [] {
      if found {
        InsideMatchIsFlat(vs, pattern, position);
        assert naiveFound && naivePosition <= position;
      }
      if naiveFound && InsideMatch(vs, pattern, naivePosition) {
        assert found && position <= naivePosition;
      }
    }
  }

  /** When the first slice holds every byte, each match of the byte queue lies inside it. */
  lemma FlatIsInside(vs: seq<SliceView>, pattern: seq<byte>, pos: nat)
    requires vs != [] && |vs[0].data| >= |Flat(vs)|
    requires FlatMatch(Flat(vs), pattern, pos)
    ensures InsideMatch(vs, pattern, pos)
  {
    FlatSplit(vs, 0);
    assert Flat(vs)[pos..pos + |pattern|] == vs[0].data[pos..pos + |pattern|];
    assert MatchInSlice(vs, 0, pos, pattern) && pos == Start(vs, 0) + pos;
  }

  /** After coalescing everything, the search is the naive one. */
  lemma SearchAfterLinearize(vs: seq<SliceView>, pattern: seq<byte>, start: nat,
                             position: nat, found: bool, naivePosition: nat, naiveFound: bool)
    requires SearchPost(LinearizeViews(vs, |Flat(vs)|), pattern, start, position, found)
    requires NaivePost(Flat(vs), pattern, start, naivePosition, naiveFound)
    ensures (position, found) == (naivePosition, naiveFound)
  {
    var lin := LinearizeViews(vs, |Flat(vs)|);
    FlatLinearize(vs, |Flat(vs)|);
    SearchAgreesWithNaive(lin, pattern, start, position, found, naivePosition, naiveFound);
    if pattern != [] && naiveFound {
      FlatIsInside(lin, pattern, naivePosition);
    }
  }

  /** "lo" in "hel" + "lo" is found at 3, but "ll" in "hel" + "lo" is cut by the boundary and is not. */
  lemma BoundaryHidesMatch()
    ensures var vs := [FragmentSlice([104, 101, 108]), FragmentSlice([108, 111])];
            && InsideMatch(vs, [108, 111], 3)
            && FlatMatch(Flat(vs), [108, 108], 2)
            && forall pos: nat :: !InsideMatch(vs, [108, 108], pos)
  {
    var a: SliceView, b: SliceView := FragmentSlice([104, 101, 108]), FragmentSlice([108, 111]);
    var vs := [a, b];
    assert vs[1..] == [b];
    FlatSingle(b);
    assert Flat(vs) == [104, 101, 108, 108, 111];
    assert Flat(vs)[2..4] == [108, 108];
    assert vs[..1] == [a];
    FlatSingle(a);
    assert b.data[0..2] == [108, 111];
    assert MatchInSlice(vs, 1, 0, [108, 111]) && 3 == Start(vs, 1) + 0;
    forall i: nat, off: nat
      ensures !MatchInSlice(vs, i, off, [108, 108])
    {
      if i < |vs| && off + 2 <= |vs[i].data| {
        var here := vs[i].data[off..off + 2];
        assert here[0] == vs[i].data[off] && here[1] == vs[i].data[off + 1];
      }
    }
  }
}
