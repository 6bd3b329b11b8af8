/**
 Runs over a set of buffers.

 Any sequence of operations, moves between buffers included, does to the sliced
 buffers what the same sequence does to plain byte queues, and neither loses nor
 repeats a drain-tracker attachment.
 */
module BufferRuns {
  import opened SliceViews

  datatype Op =
    | Add(b: nat, data: seq<byte>)
    | AddBuffer(b: nat, source: nat)
    | AddFragment(b: nat, data: seq<byte>)
    | Prepend(b: nat, data: seq<byte>)
    | Drain(b: nat, size: nat)
    | Move(b: nat, dest: nat, size: nat)
    | Linearize(b: nat, size: nat)
    | Attach(b: nat, tracker: TrackerId)
    | ReserveSingle(b: nat, size: nat, written: seq<byte>) // reserve `size`, write and commit `written`
    | ReserveForRead(b: nat, written: seq<byte>)           // reserve, write and commit `written`

  /** The buffers, the tracker calls made, and one entry for each slice a tracker was attached to. */
  datatype System = System(buffers: seq<seq<SliceView>>, notices: seq<Notice>, attached: seq<TrackerId>)

  /** The operation names buffers of the system, and two different ones where it takes two. */
  ghost predicate Meaningful(count: nat, op: Op) {
    && op.b < count
    && (op.AddBuffer? ==> op.source < count && op.source != op.b)
    && (op.Move? ==> op.dest < count && op.dest != op.b)
  }

  /** Commits the bytes behind slice `at`'s data, as far as they fit; otherwise nothing happens. */
  function Committed(vs: seq<SliceView>, at: nat, d: seq<byte>): seq<SliceView>
    requires at < |vs|
  {
    if !vs[at].immutable && |d| <= vs[at].room then vs[at := Appended(vs[at], d)] else vs
  }

  /**
   Reserving for a read and committing: a commit of something fails when the last slice is not the one
   reserved in.
   */
  function ReadViews(vs: seq<SliceView>, d: seq<byte>): seq<SliceView> {
    var reserved := ReserveViews(vs);
    if d != [] && ReserveIndex(vs) == |reserved| - 1 then Committed(reserved, |reserved| - 1, d) else reserved
  }

  function Copies(t: TrackerId, n: nat): seq<TrackerId> { seq(n, _ => t) }

  /** One operation. A drain of more than there is and a failing commit change nothing. */
  function Step(s: System, op: Op): System
    requires Meaningful(|s.buffers|, op)
  {
    var vs := s.buffers[op.b];
    match op
    case Add(b, d) => s.(buffers := s.buffers[b := AddViews(vs, d)])
    case AddBuffer(b, source) => s.(buffers := s.buffers[b := AddBufferViews(vs, s.buffers[source])])
    case AddFragment(b, d) => s.(buffers := s.buffers[b := vs + [FragmentSlice(d)]])
    case Prepend(b, d) => s.(buffers := s.buffers[b := PrependViews(vs, d)])
    case Drain(b, n) =>
      if n > |Flat(vs)| then s
      else s.(buffers := s.buffers[b := DrainViews(vs, n)], notices := s.notices + DrainNotices(vs, n))
    case Move(b, dest, n) =>
      var (left, moved) := MoveViews(vs, s.buffers[dest], Min(n, |Flat(vs)|));
      s.(buffers := s.buffers[b := left][dest := moved])
    case Linearize(b, n) =>
      s.(buffers := s.buffers[b := LinearizeViews(vs, n)], notices := s.notices + LinearizeNotices(vs, n))
    case Attach(b, t) =>
      s.(buffers := s.buffers[b := AttachViews(vs, t)], attached := s.attached + Copies(t, |NonEmpty(vs)|))
    case ReserveSingle(b, n, d) =>
      var reserved := vs + [NewSlice([], n)];
      s.(buffers := s.buffers[b := if |d| <= n then Committed(reserved, |vs|, d) else reserved])
    case ReserveForRead(b, d) => s.(buffers := s.buffers[b := ReadViews(vs, d)])
  }

  function Run(s: System, ops: seq<Op>): System
    requires forall i :: 0 <= i < |ops| ==> Meaningful(|s.buffers|, ops[i])
    decreases |ops|
  {
    if ops == [] then s else Run(Step(s, ops[0]), ops[1..])
  }

  // ----- the byte queues -----

  function Queues(s: System): seq<seq<byte>> {
    seq(|s.buffers|, i requires 0 <= i < |s.buffers| => Flat(s.buffers[i]))
  }

  /** What the operation does to plain byte queues. */
  function QueueStep(q: seq<seq<byte>>, op: Op): seq<seq<byte>>
    requires Meaningful(|q|, op)
  {
    match op
    case Add(b, d) => q[b := q[b] + d]
    case AddBuffer(b, source) => q[b := q[b] + q[source]]
    case AddFragment(b, d) => q[b := q[b] + d]
    case Prepend(b, d) => q[b := d + q[b]]
    case Drain(b, n) => if n > |q[b]| then q else q[b := q[b][n..]]
    case Move(b, dest, n) =>
      var k := Min(n, |q[b]|);
      q[b := q[b][k..]][dest := q[dest] + q[b][..k]]
    case Linearize(b, n) => q
    case Attach(b, t) => q
    case ReserveSingle(b, n, d) => if |d| <= n then q[b := q[b] + d] else q
    case ReserveForRead(b, d) => q[b := q[b] + d]
  }

  function QueueRun(q: seq<seq<byte>>, ops: seq<Op>): seq<seq<byte>>
    requires forall i :: 0 <= i < |ops| ==> Meaningful(|q|, ops[i])
    decreases |ops|
  {
    if ops == [] then q else QueueRun(QueueStep(q, ops[0]), ops[1..])
  }

  /**
   The operation keeps what the interface promises: an added buffer has at most 16
   non-empty slices, and a read reservation is committed within its space with the
   slice reserved in being the last.
   */
  ghost predicate Faithful(s: System, op: Op)
    requires Meaningful(|s.buffers|, op)
  {
    var vs := s.buffers[op.b];
    match op
    case AddBuffer(b, source) => |NonEmpty(s.buffers[source])| <= MAX_COPIED_SLICES
    case ReserveForRead(b, d) =>
      d == [] || (ReserveIndex(vs) == |ReserveViews(vs)| - 1 && |d| <= ReserveViews(vs)[ReserveIndex(vs)].room)
    case _ => true
  }

  ghost predicate FaithfulRun(s: System, ops: seq<Op>)
    requires forall i :: 0 <= i < |ops| ==> Meaningful(|s.buffers|, ops[i])
    decreases |ops|
  {
    ops == [] || (Faithful(s, ops[0]) && FaithfulRun(Step(s, ops[0]), ops[1..]))
  }

  lemma FlatCommitted(vs: seq<SliceView>, d: seq<byte>)
    requires vs != [] && !vs[|vs| - 1].immutable && |d| <= vs[|vs| - 1].room
    ensures Flat(Committed(vs, |vs| - 1, d)) == Flat(vs) + d
  {
    FlatUpdateLast(vs, Appended(vs[|vs| - 1], d));
  }

  lemma FlatReserve(vs: seq<SliceView>, size: nat)
    ensures Flat(vs + [NewSlice([], size)]) == Flat(vs)
  {
    FlatAppend(vs, [NewSlice([], size)]);
    FlatSingle(NewSlice([], size));
  }

  lemma FlatRead(vs: seq<SliceView>, d: seq<byte>)
    requires d == [] || (ReserveIndex(vs) == |ReserveViews(vs)| - 1 && |d| <= ReserveViews(vs)[ReserveIndex(vs)].room)
    ensures Flat(ReadViews(vs, d)) == Flat(vs) + d
  {
    FlatReserve(vs, DEFAULT_RESERVATION_SIZE);
    if d != [] {
      FlatCommitted(ReserveViews(vs), d);
    }
  }

  lemma FlatReserveSingle(vs: seq<SliceView>, n: nat, d: seq<byte>)
    requires |d| <= n
    ensures Flat(Committed(vs + [NewSlice([], n)], |vs|, d)) == Flat(vs) + d
  {
    FlatReserve(vs, n);
    FlatCommitted(vs + [NewSlice([], n)], d);
  }

  lemma QueuesUpdate(s: System, b: nat, vs: seq<SliceView>)
    requires b < |s.buffers|
    ensures Queues(s.(buffers := s.buffers[b := vs])) == Queues(s)[b := Flat(vs)]
  {
  }

  lemma StepIsQueueStep(s: System, op: Op)
    requires Meaningful(|s.buffers|, op)
    requires Faithful(s, op)
    ensures Queues(Step(s, op)) == QueueStep(Queues(s), op)
  {
    var vs := s.buffers[op.b];
    QueuesUpdate(s, op.b, Step(s, op).buffers[op.b]);
    match op
    case Add(b, d) => FlatAdd(vs, d);
    case AddBuffer(b, source) => FlatAddBuffer(vs, s.buffers[source]);
    case AddFragment(b, d) =>
      FlatAppend(vs, [FragmentSlice(d)]);
      FlatSingle(FragmentSlice(d));
    case Prepend(b, d) => FlatPrepend(vs, d);
    case Drain(b, n) => if n <= |Flat(vs)| { FlatDrain(vs, n); }
    case Move(b, dest, n) =>
      var k := Min(n, |Flat(vs)|);
      var (left, moved) := MoveViews(vs, s.buffers[dest], k);
      QueuesUpdate(s.(buffers := s.buffers[b := left]), dest, moved);
      FlatMove(vs, s.buffers[dest], k);
    case Linearize(b, n) => FlatLinearize(vs, n);
    case Attach(b, t) => FlatAttach(vs, t);
    case ReserveSingle(b, n, d) =>
      FlatReserve(vs, n);
      if |d| <= n { FlatReserveSingle(vs, n, d); }
    case ReserveForRead(b, d) => FlatRead(vs, d);
  }

  /** However the slices come to lie, a run leaves in the buffers what it leaves in byte queues. */
  lemma {:induction false} RunIsQueueRun(s: System, ops: seq<Op>)
    requires forall i :: 0 <= i < |ops| ==> Meaningful(|s.buffers|, ops[i])
    requires FaithfulRun(s, ops)
    ensures Queues(Run(s, ops)) == QueueRun(Queues(s), ops)
    decreases |ops|
  {
    if ops != [] {
      StepIsQueueStep(s, ops[0]);
      RunIsQueueRun(Step(s, ops[0]), ops[1..]);
    }
  }

  // ----- the drain trackers -----

  /** How often a tracker waits in the whole system. */
  function PendingAll(bs: seq<seq<SliceView>>, t: TrackerId): nat {
    if bs == [] then 0 else Pending(bs[0], t) + PendingAll(bs[1..], t)
  }

  /** Attachments made are attachments waiting and attachments fired, and they wait on data only. */
  ghost predicate Conserved(s: System) {
    && (forall t: TrackerId :: Occurrences(s.attached, t) == PendingAll(s.buffers, t) + Fired(s.notices, t))
    && (forall i :: 0 <= i < |s.buffers| ==> TrackersOnData(s.buffers[i]))
  }

  lemma {:induction false} PendingAllUpdate(bs: seq<seq<SliceView>>, b: nat, vs: seq<SliceView>, t: TrackerId)
    requires b < |bs|
    ensures PendingAll(bs[b := vs], t) + Pending(bs[b], t) == PendingAll(bs, t) + Pending(vs, t)
  {
    var updated := bs[b := vs];
    if b == 0 {
      assert updated[1..] == bs[1..];
    } else {
      assert updated[1..] == bs[1..][b - 1 := vs] && updated[0] == bs[0];
      PendingAllUpdate(bs[1..], b - 1, vs, t);
    }
  }

  lemma OccurrencesAppend(a: seq<TrackerId>, tracker: TrackerId, n: nat, t: TrackerId)
    ensures Occurrences(a + Copies(tracker, n), t) == Occurrences(a, t) + if tracker == t then n else 0
  {
    OccurrencesCopies(tracker, n, t);
  }

  lemma {:induction false} OccurrencesCopies(tracker: TrackerId, n: nat, t: TrackerId)
    ensures Occurrences(Copies(tracker, n), t) == if tracker == t then n else 0
  {
    if n > 0 {
      assert Copies(tracker, n) == Copies(tracker, n - 1) + [tracker];
      OccurrencesCopies(tracker, n - 1, t);
    }
  }

  /**
   One buffer's part of the balance: what it held before is what it holds and what was fired, less what
   was attached.
   */
  lemma StepBalance(s: System, op: Op, t: TrackerId)
    requires Meaningful(|s.buffers|, op)
    ensures var s' := Step(s, op);
            Occurrences(s'.attached, t) + PendingAll(s.buffers, t) + Fired(s.notices, t)
            == Occurrences(s.attached, t) + PendingAll(s'.buffers, t) + Fired(s'.notices, t)
  {
    var s' := Step(s, op);
    var vs := s.buffers[op.b];
    match op
    case Move(b, dest, n) =>
      var k := Min(n, |Flat(vs)|);
      var (left, moved) := MoveViews(vs, s.buffers[dest], k);
      PendingMove(vs, s.buffers[dest], k, t);
      PendingAllUpdate(s.buffers, b, left, t);
      PendingAllUpdate(s.buffers[b := left], dest, moved, t);
    case Drain(b, n) =>
      if n <= |Flat(vs)| {
        PendingDrain(vs, n, t);
        FiredAppend(s.notices, DrainNotices(vs, n), t);
        PendingAllUpdate(s.buffers, b, DrainViews(vs, n), t);
      }
    case Linearize(b, n) =>
      PendingLinearize(vs, n, t);
      FiredAppend(s.notices, LinearizeNotices(vs, n), t);
      PendingAllUpdate(s.buffers, b, LinearizeViews(vs, n), t);
    case Attach(b, tracker) =>
      PendingAttach(vs, tracker, t);
      OccurrencesAppend(s.attached, tracker, |NonEmpty(vs)|, t);
      PendingAllUpdate(s.buffers, b, AttachViews(vs, tracker), t);
    case _ =>
      QuietStep(s, op, t);
      PendingAllUpdate(s.buffers, op.b, s'.buffers[op.b], t);
  }

  ghost predicate Quiet(op: Op) {
    op.Add? || op.AddBuffer? || op.AddFragment? || op.Prepend? || op.ReserveSingle? || op.ReserveForRead?
  }

  /** Adding in any way neither attaches nor fires. */
  lemma QuietStep(s: System, op: Op, t: TrackerId)
    requires Meaningful(|s.buffers|, op) && Quiet(op)
    ensures var s' := Step(s, op);
            s' == s.(buffers := s.buffers[op.b := s'.buffers[op.b]])
                && Pending(s'.buffers[op.b], t) == Pending(s.buffers[op.b], t)
  {
    var vs := s.buffers[op.b];
    match op
    case Add(b, d) => PendingAdd(vs, d, t);
    case AddBuffer(b, source) => PendingAddEach(vs, RawViews(s.buffers[source], MAX_COPIED_SLICES), t);
    case AddFragment(b, d) => PendingPush(vs, FragmentSlice(d), t);
    case Prepend(b, d) => PendingPrepend(vs, d, t);
    case ReserveSingle(b, n, d) => PendingReserved(vs, n, d, t);
    case ReserveForRead(b, d) => PendingRead(vs, d, t);
  }

  lemma PendingReserved(vs: seq<SliceView>, n: nat, d: seq<byte>, t: TrackerId)
    ensures Pending(vs + [NewSlice([], n)], t) == Pending(vs, t)
    ensures Pending(Committed(vs + [NewSlice([], n)], |vs|, d), t) == Pending(vs, t)
  {
    PendingPush(vs, NewSlice([], n), t);
    PendingCommitted(vs + [NewSlice([], n)], |vs|, d, t);
  }

  lemma PendingRead(vs: seq<SliceView>, d: seq<byte>, t: TrackerId)
    ensures Pending(ReadViews(vs, d), t) == Pending(vs, t)
  {
    PendingPush(vs, NewSlice([], DEFAULT_RESERVATION_SIZE), t);
    if |ReserveViews(vs)| > 0 {
      PendingCommitted(ReserveViews(vs), |ReserveViews(vs)| - 1, d, t);
    }
  }

  lemma PendingCommitted(vs: seq<SliceView>, at: nat, d: seq<byte>, t: TrackerId)
    requires at < |vs|
    ensures Pending(Committed(vs, at, d), t) == Pending(vs, t)
  {
    if !vs[at].immutable && |d| <= vs[at].room {
      PendingUpdate(vs, at, Appended(vs[at], d), t);
    }
  }

  lemma StepOnData(s: System, op: Op)
    requires Meaningful(|s.buffers|, op)
    requires forall i :: 0 <= i < |s.buffers| ==> TrackersOnData(s.buffers[i])
    ensures forall i :: 0 <= i < |s.buffers| ==> TrackersOnData(Step(s, op).buffers[i])
  {
    var vs := s.buffers[op.b];
    assert TrackersOnData(vs);
    match op
    case Move(b, dest, n) => OnDataMove(vs, s.buffers[dest], Min(n, |Flat(vs)|));
    case Drain(b, n) => OnDataDrain(vs, n);
    case Linearize(b, n) => OnDataLinearize(vs, n);
    case Attach(b, t) => OnDataAttach(vs, t);
    case AddBuffer(b, source) => OnDataAddEach(vs, RawViews(s.buffers[source], MAX_COPIED_SLICES));
    case Add(b, d) =>
    case AddFragment(b, d) =>
    case Prepend(b, d) =>
    case ReserveSingle(b, n, d) =>
    case ReserveForRead(b, d) =>
  }

  /**
   Over every run, no attachment is lost, doubled or fired twice: those made are
   those waiting and those fired, and each one waiting sits on a slice with data.
   */
  lemma {:induction false} RunConserves(s: System, ops: seq<Op>)
    requires forall i :: 0 <= i < |ops| ==> Meaningful(|s.buffers|, ops[i])
    requires Conserved(s)
    ensures Conserved(Run(s, ops))
    decreases |ops|
  {
    if ops != [] {
      var s' := Step(s, ops[0]);
      StepOnData(s, ops[0]);
      forall t: TrackerId
        ensures Occurrences(s'.attached, t) == PendingAll(s'.buffers, t) + Fired(s'.notices, t)
      {
        StepBalance(s, ops[0], t);
      }
      RunConserves(s', ops[1..]);
    }
  }

  function EmptySystem(count: nat): System { System(seq(count, _ => []), [], []) }

  lemma {:induction false} NothingPending(bs: seq<seq<SliceView>>, t: TrackerId)
    requires forall i :: 0 <= i < |bs| ==> bs[i] == []
    ensures PendingAll(bs, t) == 0
  {
    if bs != [] {
      NothingPending(bs[1..], t);
    }
  }

  /** Starting from empty buffers, every attachment ever made waits on data or was fired, as often as it was made. */
  lemma RunFromEmpty(count: nat, ops: seq<Op>)
    requires forall i :: 0 <= i < |ops| ==> Meaningful(count, ops[i])
    ensures Conserved(Run(EmptySystem(count), ops))
  {
    hide Run;
    var s := EmptySystem(count);
    forall t: TrackerId
      ensures PendingAll(s.buffers, t) == 0
    {
      NothingPending(s.buffers, t);
    }
    RunConserves(s, ops);
  }
}
