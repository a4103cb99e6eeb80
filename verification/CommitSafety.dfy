/** Commit safety of one partition shared by any number of consumers: whatever the order of
    deliveries, late acks, commits, failed commits and rebalances, every offset at or below a
    record handed to a commit was acked in some delivery, as long as no record is tracked, after the
    partition it was fetched from was released, with something missing below it; and exactly when
    such a record does harm. */
module CommitSafety {
  import opened Offsets

  function OffsetsOf(q: seq<Tracked>): set<nat> {
    if q == [] then {} else {q[0].record.offset} + OffsetsOf(q[1..])
  }

  ghost predicate AllBelow(n: nat, acked: set<nat>) {
    forall o: nat | o < n :: o in acked
  }

  /** Everything below a queued record is acked, or queued before it. */
  ghost predicate NoGaps(q: seq<Tracked>, seen: set<nat>) {
    q == [] || (AllBelow(q[0].record.offset, seen) && NoGaps(q[1..], seen + {q[0].record.offset}))
  }

  ghost predicate DoneIsAcked(q: seq<Tracked>, acked: set<nat>) {
    q == [] || ((q[0].done ==> q[0].record.offset in acked) && DoneIsAcked(q[1..], acked))
  }

  ghost predicate LaneSafe(l: Lane, acked: set<nat>) {
    && NoGaps(l.queue, acked)
    && DoneIsAcked(l.queue, acked)
    && (l.due.Some? ==> AllBelow(l.due.value.offset + 1, acked))
  }

  lemma {:induction false} NoGapsGrows(q: seq<Tracked>, seen: set<nat>, more: set<nat>)
    requires NoGaps(q, seen) && seen <= more
    ensures NoGaps(q, more)
  {
    if q != [] {
      NoGapsGrows(q[1..], seen + {q[0].record.offset}, more + {q[0].record.offset});
    }
  }

  lemma {:induction false} DoneIsAckedGrows(q: seq<Tracked>, acked: set<nat>, more: set<nat>)
    requires DoneIsAcked(q, acked) && acked <= more
    ensures DoneIsAcked(q, more)
  {
    if q != [] {
      DoneIsAckedGrows(q[1..], acked, more);
    }
  }

  lemma {:induction false} NoGapsAppend(q: seq<Tracked>, x: Tracked, seen: set<nat>)
    requires NoGaps(q, seen)
    requires AllBelow(x.record.offset, seen + OffsetsOf(q))
    ensures NoGaps(q + [x], seen)
  {
    if q == [] {
      assert seen + {} == seen;
    } else {
      assert (q + [x])[1..] == q[1..] + [x];
      assert seen + OffsetsOf(q) == seen + {q[0].record.offset} + OffsetsOf(q[1..]);
      NoGapsAppend(q[1..], x, seen + {q[0].record.offset});
    }
  }

  lemma {:induction false} DoneIsAckedAppend(q: seq<Tracked>, x: Tracked, acked: set<nat>)
    requires DoneIsAcked(q, acked) && !x.done
    ensures DoneIsAcked(q + [x], acked)
  {
    if q != [] {
      assert (q + [x])[1..] == q[1..] + [x];
      DoneIsAckedAppend(q[1..], x, acked);
    }
  }

  lemma {:induction false} MarkDoneSafe(q: seq<Tracked>, r: Record, seen: set<nat>, acked: set<nat>)
    requires NoGaps(q, seen) && DoneIsAcked(q, acked) && r.offset in acked
    ensures NoGaps(MarkDone(q, r), seen) && DoneIsAcked(MarkDone(q, r), acked)
    ensures OffsetsOf(MarkDone(q, r)) == OffsetsOf(q)
  {
    if q != [] && q[0].record != r {
      MarkDoneSafe(q[1..], r, seen + {q[0].record.offset}, acked);
      assert MarkDone(q, r)[1..] == MarkDone(q[1..], r);
    } else if q != [] {
      assert MarkDone(q, r)[1..] == q[1..];
    }
  }

  /** Leaving out the done records at the head loses nothing: they are acked. */
  lemma {:induction false} PopSafe(q: seq<Tracked>, acked: set<nat>)
    requires NoGaps(q, acked) && DoneIsAcked(q, acked)
    ensures var n := DonePrefix(q);
      && NoGaps(q[n..], acked) && DoneIsAcked(q[n..], acked)
      && OffsetsOf(q) <= acked + OffsetsOf(q[n..])
      && (n > 0 ==> AllBelow(q[n - 1].record.offset + 1, acked))
  {
    if q != [] && q[0].done {
      assert q == [q[0]] + q[1..];
      assert acked + {q[0].record.offset} == acked;
      PopSafe(q[1..], acked);
      var n := DonePrefix(q);
      assert q[n..] == q[1..][n - 1..];
      if n > 1 {
        assert q[n - 1] == q[1..][n - 2];
      }
    } else {
      assert q[0..] == q;
    }
  }

  lemma {:induction false} DoneSafe(l: Lane, r: Record, acked: set<nat>)
    requires LaneSafe(l, acked)
    ensures LaneSafe(Done(l, r), acked + {r.offset})
    ensures OffsetsOf(l.queue) <= acked + {r.offset} + OffsetsOf(Done(l, r).queue)
  {
    var acked' := acked + {r.offset};
    NoGapsGrows(l.queue, acked, acked');
    DoneIsAckedGrows(l.queue, acked, acked');
    MarkDoneSafe(l.queue, r, acked', acked');
    PopSafe(MarkDone(l.queue, r), acked');
  }

  lemma {:induction false} TrackSafe(l: Lane, r: Record, acked: set<nat>)
    requires LaneSafe(l, acked)
    requires AllBelow(r.offset, acked + OffsetsOf(l.queue))
    ensures LaneSafe(Track(l, r), acked)
    ensures OffsetsOf(Track(l, r).queue) == OffsetsOf(l.queue) + {r.offset}
  {
    var x := Tracked(r, false);
    NoGapsAppend(l.queue, x, acked);
    DoneIsAckedAppend(l.queue, x, acked);
    OffsetsOfAppend(l.queue, x);
  }

  // ---- When tracking a record is safe ------------------------------------------------------

  function AckAll(l: Lane, acks: seq<Record>): Lane
    decreases |acks|
  {
    if acks == [] then l else AckAll(Done(l, acks[0]), acks[1..])
  }

  function AckedOffsets(acks: seq<Record>): set<nat> {
    set r | r in acks :: r.offset
  }

  /** The next take hands out nothing with an unacked offset at or below it. */
  ghost predicate HandsOutOnlyAcked(l: Lane, acked: set<nat>) {
    l.due.Some? ==> AllBelow(l.due.value.offset + 1, acked)
  }

  lemma {:induction false} AckAllSafe(l: Lane, acks: seq<Record>, acked: set<nat>)
    requires LaneSafe(l, acked)
    ensures LaneSafe(AckAll(l, acks), acked + AckedOffsets(acks))
    decreases |acks|
  {
    if acks == [] {
      assert acked + AckedOffsets(acks) == acked;
    } else {
      DoneSafe(l, acks[0], acked);
      AckAllSafe(Done(l, acks[0]), acks[1..], acked + {acks[0].offset});
      assert acks == [acks[0]] + acks[1..];
      assert acked + {acks[0].offset} + AckedOffsets(acks[1..]) == acked + AckedOffsets(acks);
    }
  }

  /** Acks that empty the queue: the head's record, again and again. */
  function HeadFirst(l: Lane): seq<Record>
    decreases |l.queue|
  {
    if l.queue == [] then []
    else
      var r := l.queue[0].record;
      assert DonePrefix(MarkDone(l.queue, r)) > 0 && |MarkDone(l.queue, r)| == |l.queue|;
      [r] + HeadFirst(Done(l, r))
  }

  lemma {:induction false} OffsetsOfSuffix(q: seq<Tracked>, n: nat)
    requires n <= |q|
    ensures OffsetsOf(q[n..]) <= OffsetsOf(q)
  {
    if n > 0 {
      assert q[n..] == q[1..][n - 1..];
      OffsetsOfSuffix(q[1..], n - 1);
    } else {
      assert q[n..] == q;
    }
  }

  lemma {:induction false} HeadFirstDrains(l: Lane)
    ensures AckAll(l, HeadFirst(l)).queue == []
    ensures l.queue != [] ==> AckAll(l, HeadFirst(l)).due == Some(l.queue[|l.queue| - 1].record)
    ensures AckedOffsets(HeadFirst(l)) <= OffsetsOf(l.queue)
    decreases |l.queue|
  {
    if l.queue != [] {
      var r := l.queue[0].record;
      var marked := [l.queue[0].(done := true)] + l.queue[1..];
      assert MarkDone(l.queue, r) == marked && marked[1..] == l.queue[1..];
      var rest := Done(l, r);
      OffsetsOfSuffix(marked, DonePrefix(marked));
      HeadFirstDrains(rest);
      assert HeadFirst(l)[1..] == HeadFirst(rest);
    }
  }

  lemma {:induction false} OffsetsOfAppend(q: seq<Tracked>, x: Tracked)
    ensures OffsetsOf(q + [x]) == OffsetsOf(q) + {x.record.offset}
  {
    if q != [] {
      assert (q + [x])[1..] == q[1..] + [x];
      OffsetsOfAppend(q[1..], x);
    }
  }

  /** A record may be tracked exactly when no offset below it is missing: neither acked nor in
      flight. If one is missing, acking what is in flight hands a commit point past it. A fetch
      still being handed out when its partition is released breaks this rule. */
  lemma {:induction false} TrackSafeIff(l: Lane, r: Record, acked: set<nat>)
    requires LaneSafe(l, acked)
    ensures AllBelow(r.offset, acked + OffsetsOf(l.queue))
      <==> forall acks: seq<Record> :: HandsOutOnlyAcked(AckAll(Track(l, r), acks), acked + AckedOffsets(acks))
  {
    if AllBelow(r.offset, acked + OffsetsOf(l.queue)) {
      TrackSafe(l, r, acked);
      forall acks: seq<Record>
        ensures HandsOutOnlyAcked(AckAll(Track(l, r), acks), acked + AckedOffsets(acks))
      {
        AckAllSafe(Track(l, r), acks, acked);
      }
    } else {
      var o: nat :| o < r.offset && o !in acked + OffsetsOf(l.queue);
      var acks := HeadFirst(Track(l, r));
      HeadFirstDrains(Track(l, r));
      OffsetsOfAppend(l.queue, Tracked(r, false));
      assert o !in acked + AckedOffsets(acks);
      assert !HandsOutOnlyAcked(AckAll(Track(l, r), acks), acked + AckedOffsets(acks));
    }
  }

  // ---- All consumers of a partition --------------------------------------------------------

  type Consumer = nat

  /** `next` is where each owner's fetch stands, `stale` where a fetch stands whose partition was
      released while it was still being handed out, `acked` what was acked in any delivery,
      `pending` the records handed to a commit whose outcome is open. */
  datatype Group = Group(
    lanes: map<Consumer, Lane>,
    next: map<Consumer, nat>,
    stale: map<Consumer, nat>,
    acked: set<nat>,
    committed: nat,
    pending: set<(Consumer, Record)>)
  {
    function LaneOf(c: Consumer): Lane {
      if c in lanes then lanes[c] else EmptyLane
    }

    function HandOut(c: Consumer): set<(Consumer, Record)> {
      if LaneOf(c).due.Some? then {(c, LaneOf(c).due.value)} else {}
    }
  }

  datatype Step =
    | Assign(c: Consumer, start: nat)
    | Deliver(c: Consumer, r: Record)
    | DeliverLate(c: Consumer, r: Record)
    | Ack(c: Consumer, r: Record)
    | TakeDue(c: Consumer)
    | CommitOk(c: Consumer, r: Record)
    | CommitFailed(c: Consumer, r: Record)
    | CommitReplyLost(c: Consumer, r: Record)
    | Revoke(c: Consumer)
    | Lose(c: Consumer)

  /** The committed position moves to just past the record. */
  predicate Commits(step: Step) {
    step.CommitOk? || step.CommitReplyLost?
  }

  const EmptyGroup := Group(map[], map[], map[], {}, 0, {})

  /** A new ownership starts no later than the committed position. A consumer tracks what it
      fetched in order; the rest of a fetch goes on after the partition was released, until the
      consumer fetches anew. */
  ghost predicate Enabled(g: Group, step: Step) {
    match step
    case Assign(_, start) => start <= g.committed
    case Deliver(c, r) => c in g.next && r.offset == g.next[c]
    case DeliverLate(c, r) => c in g.stale && r.offset == g.stale[c]
    case CommitOk(c, r) => (c, r) in g.pending
    case CommitFailed(c, r) => (c, r) in g.pending
    case CommitReplyLost(c, r) => (c, r) in g.pending
    case _ => true
  }

  function Apply(g: Group, step: Step): Group {
    match step
    case Assign(c, start) => g.(next := g.next[c := start])
    case Deliver(c, r) =>
      g.(lanes := g.lanes[c := Track(g.LaneOf(c), r)], next := g.next[c := r.offset + 1], stale := g.stale - {c})
    case DeliverLate(c, r) =>
      g.(lanes := g.lanes[c := Track(g.LaneOf(c), r)], stale := g.stale[c := r.offset + 1])
    case Ack(c, r) => g.(lanes := g.lanes[c := Done(g.LaneOf(c), r)], acked := g.acked + {r.offset})
    case TakeDue(c) => g.(lanes := g.lanes[c := Take(g.LaneOf(c))], pending := g.pending + g.HandOut(c))
    case CommitOk(c, r) => g.(committed := r.offset + 1, pending := g.pending - {(c, r)})
    case CommitFailed(c, r) =>
      g.(lanes := g.lanes[c := Restore(g.LaneOf(c), r)], pending := g.pending - {(c, r)})
    case CommitReplyLost(c, r) =>
      g.(lanes := g.lanes[c := Restore(g.LaneOf(c), r)], committed := r.offset + 1, pending := g.pending - {(c, r)})
    case Revoke(c) => Released(g, c).(pending := g.pending + g.HandOut(c))
    case Lose(c) => Released(g, c)
  }

  /** The tracker forgets the partition; what was fetched from it and not handed out is stale. */
  function Released(g: Group, c: Consumer): Group {
    g.(lanes := g.lanes - {c}, next := g.next - {c},
       stale := if c in g.next then g.stale[c := g.next[c]] else g.stale)
  }

  ghost predicate GroupSafe(g: Group) {
    && (forall c :: LaneSafe(g.LaneOf(c), g.acked))
    && (forall c | c in g.next :: AllBelow(g.next[c], g.acked + OffsetsOf(g.LaneOf(c).queue)))
    && AllBelow(g.committed, g.acked)
    && (forall p | p in g.pending :: AllBelow(p.1.offset + 1, g.acked))
  }

  /** Only one consumer's lane changed, and that one is safe. */
  lemma {:induction false} OthersKept(g: Group, g': Group, c: Consumer)
    requires GroupSafe(g) && g'.acked == g.acked
    requires forall d | d != c :: g'.LaneOf(d) == g.LaneOf(d)
    requires LaneSafe(g'.LaneOf(c), g.acked)
    ensures forall d :: LaneSafe(g'.LaneOf(d), g'.acked)
  {
    forall d ensures LaneSafe(g'.LaneOf(d), g'.acked) {
      if d != c {
        assert LaneSafe(g.LaneOf(d), g.acked);
      }
    }
  }

  lemma {:induction false} AckKeepsLane(l: Lane, r: Record, acked: set<nat>)
    requires LaneSafe(l, acked)
    ensures LaneSafe(l, acked + {r.offset})
  {
    NoGapsGrows(l.queue, acked, acked + {r.offset});
    DoneIsAckedGrows(l.queue, acked, acked + {r.offset});
  }

  lemma {:induction false} AckKeepsGroup(g: Group, c: Consumer, r: Record)
    requires GroupSafe(g)
    ensures GroupSafe(Apply(g, Ack(c, r)))
  {
    var g' := Apply(g, Ack(c, r));
    DoneSafe(g.LaneOf(c), r, g.acked);
    forall d ensures LaneSafe(g'.LaneOf(d), g'.acked) {
      if d != c {
        AckKeepsLane(g.LaneOf(d), r, g.acked);
      }
    }
    forall d | d in g'.next ensures AllBelow(g'.next[d], g'.acked + OffsetsOf(g'.LaneOf(d).queue)) {
      assert AllBelow(g.next[d], g.acked + OffsetsOf(g.LaneOf(d).queue));
      assert g.acked + OffsetsOf(g.LaneOf(d).queue) <= g'.acked + OffsetsOf(g'.LaneOf(d).queue);
    }
  }

  lemma {:induction false} DeliverKeepsGroup(g: Group, c: Consumer, r: Record)
    requires GroupSafe(g) && Enabled(g, Deliver(c, r))
    ensures GroupSafe(Apply(g, Deliver(c, r)))
  {
    var g' := Apply(g, Deliver(c, r));
    TrackSafe(g.LaneOf(c), r, g.acked);
    OthersKept(g, g', c);
    assert g.acked + OffsetsOf(g'.LaneOf(c).queue) == g.acked + OffsetsOf(g.LaneOf(c).queue) + {r.offset};
  }

  /** A record from a released partition is harmless if no offset below it is missing. */
  lemma {:induction false} LateKeepsGroup(g: Group, c: Consumer, r: Record)
    requires GroupSafe(g) && NothingMissing(g, c, r)
    ensures GroupSafe(Apply(g, DeliverLate(c, r)))
  {
    var g' := Apply(g, DeliverLate(c, r));
    TrackSafe(g.LaneOf(c), r, g.acked);
    OthersKept(g, g', c);
    assert g.acked + OffsetsOf(g'.LaneOf(c).queue) == g.acked + OffsetsOf(g.LaneOf(c).queue) + {r.offset};
  }

  lemma {:induction false} RebalanceKeepsGroup(g: Group, step: Step)
    requires GroupSafe(g) && Enabled(g, step)
    requires step.Assign? || step.Revoke? || step.Lose?
    ensures GroupSafe(Apply(g, step))
  {
    var g' := Apply(g, step);
    assert LaneSafe(EmptyLane, g.acked) && LaneSafe(g.LaneOf(step.c), g.acked);
    assert g'.LaneOf(step.c) == (if step.Assign? then g.LaneOf(step.c) else EmptyLane);
    OthersKept(g, g', step.c);
  }

  lemma {:induction false} CommitKeepsGroup(g: Group, step: Step)
    requires GroupSafe(g) && Enabled(g, step)
    requires step.TakeDue? || Commits(step) || step.CommitFailed?
    ensures GroupSafe(Apply(g, step))
  {
    assert LaneSafe(g.LaneOf(step.c), g.acked);
    OthersKept(g, Apply(g, step), step.c);
  }

  /** Every offset below the record was acked or is in flight at this consumer. */
  ghost predicate NothingMissing(g: Group, c: Consumer, r: Record) {
    AllBelow(r.offset, g.acked + OffsetsOf(g.LaneOf(c).queue))
  }

  lemma {:induction false} StepKeepsGroup(g: Group, step: Step)
    requires GroupSafe(g) && Enabled(g, step)
    requires step.DeliverLate? ==> NothingMissing(g, step.c, step.r)
    ensures GroupSafe(Apply(g, step))
  {
    match step {
      case Ack(c, r) => AckKeepsGroup(g, c, r);
      case Deliver(c, r) => DeliverKeepsGroup(g, c, r);
      case DeliverLate(c, r) => LateKeepsGroup(g, c, r);
      case Assign(_, _) => RebalanceKeepsGroup(g, step);
      case Revoke(_) => RebalanceKeepsGroup(g, step);
      case Lose(_) => RebalanceKeepsGroup(g, step);
      case _ => CommitKeepsGroup(g, step);
    }
  }

  ghost predicate Run(g: Group, steps: seq<Step>, g': Group)
    decreases |steps|
  {
    if steps == [] then g == g' else Enabled(g, steps[0]) && Run(Apply(g, steps[0]), steps[1..], g')
  }

  /** Whatever is tracked after the partition it was fetched from was released has nothing missing
      below it. */
  ghost predicate InOrder(g: Group, steps: seq<Step>)
    decreases |steps|
  {
    steps != [] ==>
      && (steps[0].DeliverLate? ==> NothingMissing(g, steps[0].c, steps[0].r))
      && InOrder(Apply(g, steps[0]), steps[1..])
  }

  lemma {:induction false} RunKeepsGroup(g: Group, steps: seq<Step>, g': Group)
    requires GroupSafe(g) && Run(g, steps, g') && InOrder(g, steps)
    ensures GroupSafe(g')
    decreases |steps|
  {
    if steps != [] {
      StepKeepsGroup(g, steps[0]);
      RunKeepsGroup(Apply(g, steps[0]), steps[1..], g');
    }
  }

  /** The committed position, and every record handed to a commit, has nothing unacked before it. */
  ghost predicate CommitsAreAcked(g: Group) {
    AllBelow(g.committed, g.acked) && forall p | p in g.pending :: AllBelow(p.1.offset + 1, g.acked)
  }

  /** The theorem: so it is in every state that is reached without tracking a record that has
      something missing below it. */
  lemma {:induction false} CommitsOnlyAcked(steps: seq<Step>, g: Group)
    requires Run(EmptyGroup, steps, g) && InOrder(EmptyGroup, steps)
    ensures CommitsAreAcked(g)
    ensures forall p, o: nat | p in g.pending && o <= p.1.offset :: o in g.acked
  {
    assert LaneSafe(EmptyLane, {});
    RunKeepsGroup(EmptyGroup, steps, g);
  }

  // ---- Only records of the log ---------------------------------------------------------------

  ghost predicate QueueWithin(q: seq<Tracked>, n: nat) {
    forall x | x in q :: x.record.offset < n
  }

  ghost predicate LaneWithin(l: Lane, n: nat) {
    QueueWithin(l.queue, n) && (l.due.Some? ==> l.due.value.offset < n)
  }

  /** What is tracked, acked, handed out or committed lies within a log of this length. */
  ghost predicate Within(g: Group, n: nat) {
    && (forall c :: LaneWithin(g.LaneOf(c), n))
    && (forall p | p in g.pending :: p.1.offset < n)
    && (forall o | o in g.acked :: o < n)
    && g.committed <= n
  }

  lemma {:induction false} WithinGrows(g: Group, n: nat, more: nat)
    requires Within(g, n) && n <= more
    ensures Within(g, more)
  {
    forall c ensures LaneWithin(g.LaneOf(c), more) {
      assert LaneWithin(g.LaneOf(c), n);
    }
  }

  predicate HasRecord(step: Step) {
    step.Deliver? || step.DeliverLate? || step.Ack? || Commits(step) || step.CommitFailed?
  }

  lemma {:induction false} MarkDoneWithin(q: seq<Tracked>, r: Record, n: nat)
    requires QueueWithin(q, n)
    ensures QueueWithin(MarkDone(q, r), n)
  {
    if q != [] {
      assert q == [q[0]] + q[1..];
      if q[0].record != r {
        MarkDoneWithin(q[1..], r, n);
      }
    }
  }

  lemma {:induction false} DoneWithin(l: Lane, r: Record, n: nat)
    requires LaneWithin(l, n)
    ensures LaneWithin(Done(l, r), n)
  {
    MarkDoneWithin(l.queue, r, n);
    var q := MarkDone(l.queue, r);
    var d := DonePrefix(q);
    if d > 0 {
      assert q[d - 1] in q;
    }
  }

  lemma {:induction false} LaneStaysWithin(g: Group, step: Step, n: nat)
    requires Within(g, n) && Enabled(g, step) && (HasRecord(step) ==> step.r.offset < n)
    ensures LaneWithin(Apply(g, step).LaneOf(step.c), n)
  {
    assert LaneWithin(g.LaneOf(step.c), n);
    if step.Ack? {
      DoneWithin(g.LaneOf(step.c), step.r, n);
    }
  }

  lemma {:induction false} OtherLanesKept(g: Group, step: Step, d: Consumer)
    requires d != step.c
    ensures Apply(g, step).LaneOf(d) == g.LaneOf(d)
  {
  }

  lemma {:induction false} StepStaysWithin(g: Group, step: Step, n: nat)
    requires Within(g, n) && Enabled(g, step) && (HasRecord(step) ==> step.r.offset < n)
    ensures Within(Apply(g, step), n)
  {
    var g' := Apply(g, step);
    forall d ensures LaneWithin(g'.LaneOf(d), n) {
      if d == step.c {
        LaneStaysWithin(g, step, n);
      } else {
        OtherLanesKept(g, step, d);
        assert LaneWithin(g.LaneOf(d), n);
      }
    }
    assert LaneWithin(g.LaneOf(step.c), n);
  }

  // ---- When tracking a record late is safe -------------------------------------------------

  /** From here on, as long as nothing more is tracked with something missing below it, only what is
      acked is committed. */
  ghost predicate SafeFromHere(g: Group) {
    forall later, g' | Run(g, later, g') && InOrder(g, later) :: CommitsAreAcked(g')
  }

  lemma {:induction false} AcksAreARun(g: Group, c: Consumer, acks: seq<Record>) returns (steps: seq<Step>, g': Group)
    ensures Run(g, steps, g') && InOrder(g, steps)
    ensures g'.LaneOf(c) == AckAll(g.LaneOf(c), acks) && g'.acked == g.acked + AckedOffsets(acks)
    decreases |acks|
  {
    if acks == [] {
      steps, g' := [], g;
      assert g.acked + AckedOffsets(acks) == g.acked;
    } else {
      var p := Apply(g, Ack(c, acks[0]));
      var rest;
      rest, g' := AcksAreARun(p, c, acks[1..]);
      steps := [Ack(c, acks[0])] + rest;
      assert steps[1..] == rest && acks == [acks[0]] + acks[1..];
      assert p.acked + AckedOffsets(acks[1..]) == g.acked + AckedOffsets(acks);
    }
  }

  lemma {:induction false} OneMoreStep(g: Group, steps: seq<Step>, p: Group, step: Step)
    requires Run(g, steps, p) && Enabled(p, step)
    ensures Run(g, steps + [step], Apply(p, step))
    ensures InOrder(g, steps) && !step.DeliverLate? ==> InOrder(g, steps + [step])
    decreases |steps|
  {
    if steps == [] {
      assert [step][1..] == [] && steps + [step] == [step];
    } else {
      OneMoreStep(Apply(g, steps[0]), steps[1..], p, step);
      assert (steps + [step])[1..] == steps[1..] + [step];
    }
  }

  /** With an offset missing below the last record of a queue, the acks of what is in flight and
      a commit pass over it. */
  lemma {:induction false} CommitPassesOver(g: Group, c: Consumer, o: nat) returns (steps: seq<Step>, g': Group)
    requires var q := g.LaneOf(c).queue; q != [] && o < q[|q| - 1].record.offset && o !in g.acked + OffsetsOf(q)
    ensures Run(g, steps, g') && InOrder(g, steps) && !CommitsAreAcked(g')
  {
    var l := g.LaneOf(c);
    var p;
    steps, p := AcksAreARun(g, c, HeadFirst(l));
    HeadFirstDrains(l);
    OneMoreStep(g, steps, p, TakeDue(c));
    steps, g' := steps + [TakeDue(c)], Apply(p, TakeDue(c));
    assert (c, l.queue[|l.queue| - 1].record) in g'.pending && o !in g'.acked;
  }

  lemma {:induction false} SafeStaysSafe(g: Group)
    requires GroupSafe(g)
    ensures SafeFromHere(g)
  {
    forall later, g' | Run(g, later, g') && InOrder(g, later) ensures CommitsAreAcked(g') {
      RunKeepsGroup(g, later, g');
    }
  }

  /** A record may be tracked late if and only if no offset below it is missing. */
  lemma {:induction false} LateSafeIff(g: Group, c: Consumer, r: Record)
    requires GroupSafe(g) && Enabled(g, DeliverLate(c, r))
    ensures NothingMissing(g, c, r) <==> SafeFromHere(Apply(g, DeliverLate(c, r)))
  {
    var p := Apply(g, DeliverLate(c, r));
    if NothingMissing(g, c, r) {
      LateKeepsGroup(g, c, r);
      SafeStaysSafe(p);
    } else {
      var o: nat :| o < r.offset && o !in g.acked + OffsetsOf(g.LaneOf(c).queue);
      OffsetsOfAppend(g.LaneOf(c).queue, Tracked(r, false));
      var _, _ := CommitPassesOver(p, c, o);
    }
  }

  /** Releasing a partition in the middle of a fetch and tracking the next record of that fetch is
      safe if and only if everything fetched before was acked by then. */
  lemma {:induction false} ReleasedMidFetchIff(g: Group, c: Consumer, r: Record)
    requires GroupSafe(g) && c in g.next && r.offset == g.next[c]
    ensures Enabled(Apply(g, Revoke(c)), DeliverLate(c, r))
    ensures AllBelow(g.next[c], g.acked) <==> SafeFromHere(Apply(Apply(g, Revoke(c)), DeliverLate(c, r)))
  {
    var p := Apply(g, Revoke(c));
    RebalanceKeepsGroup(g, Revoke(c));
    LateSafeIff(p, c, r);
    assert p.LaneOf(c) == EmptyLane && p.acked + {} == p.acked;
  }

  /** Record 0 is fetched and tracked, the partition is released, and record 1 of the same fetch is
      tracked, acked and handed to a commit: offset 0 was never acked. */
  lemma {:induction false} ReleaseThenTrack(c: Consumer, r0: Record, r1: Record) returns (steps: seq<Step>, g: Group)
    requires r0.offset == 0 && r1.offset == 1
    ensures steps == [Assign(c, 0), Deliver(c, r0), Revoke(c)] + [DeliverLate(c, r1), Ack(c, r1), TakeDue(c)]
    ensures Run(EmptyGroup, steps, g) && (c, r1) in g.pending && 0 !in g.acked && !CommitsAreAcked(g)
  {
    var p := ReleasedAtOne(c, r0);
    var q := Apply(p, DeliverLate(c, r1));
    assert q.LaneOf(c) == Lane([Tracked(r1, false)], None) && q.acked == {};
    assert MarkDone([Tracked(r1, false)], r1) == [Tracked(r1, true)];
    var o := Apply(q, Ack(c, r1));
    assert o.LaneOf(c).due == Some(r1) && o.acked == {1};
    g := Apply(o, TakeDue(c));
    steps := [Assign(c, 0), Deliver(c, r0), Revoke(c)];
    OneMoreStep(EmptyGroup, steps, p, DeliverLate(c, r1));
    OneMoreStep(EmptyGroup, steps + [DeliverLate(c, r1)], q, Ack(c, r1));
    OneMoreStep(EmptyGroup, steps + [DeliverLate(c, r1)] + [Ack(c, r1)], o, TakeDue(c));
    steps := steps + [DeliverLate(c, r1)] + [Ack(c, r1)] + [TakeDue(c)];
  }

  lemma {:induction false} ReleasedAtOne(c: Consumer, r0: Record) returns (g: Group)
    requires r0.offset == 0
    ensures Run(EmptyGroup, [Assign(c, 0), Deliver(c, r0), Revoke(c)], g)
    ensures g.LaneOf(c) == EmptyLane && c in g.stale && g.stale[c] == 1 && g.acked == {} && g.pending == {}
  {
    var p := Apply(EmptyGroup, Assign(c, 0));
    var q := Apply(p, Deliver(c, r0));
    g := Apply(q, Revoke(c));
    assert q.LaneOf(c) == Lane([Tracked(r0, false)], None);
    OneMoreStep(EmptyGroup, [], EmptyGroup, Assign(c, 0));
    OneMoreStep(EmptyGroup, [] + [Assign(c, 0)], p, Deliver(c, r0));
    OneMoreStep(EmptyGroup, [] + [Assign(c, 0)] + [Deliver(c, r0)], q, Revoke(c));
    assert [] + [Assign(c, 0)] + [Deliver(c, r0)] + [Revoke(c)] == [Assign(c, 0), Deliver(c, r0), Revoke(c)];
  }

  /** Along a run there is no state from which a commit can pass over an unacked record without
      another one being tracked so. */
  ghost predicate SafeAlong(g: Group, steps: seq<Step>)
    decreases |steps|
  {
    SafeFromHere(g) && (steps != [] ==> SafeAlong(Apply(g, steps[0]), steps[1..]))
  }

  lemma {:induction false} SafeAlongFrom(g: Group, steps: seq<Step>, g': Group)
    requires GroupSafe(g) && Run(g, steps, g')
    ensures SafeAlong(g, steps) <==> InOrder(g, steps)
    decreases |steps|
  {
    SafeStaysSafe(g);
    if steps != [] {
      var step := steps[0];
      if step.DeliverLate? && !NothingMissing(g, step.c, step.r) {
        LateSafeIff(g, step.c, step.r);
        assert !SafeAlong(Apply(g, step), steps[1..]);
      } else {
        StepKeepsGroup(g, step);
        SafeAlongFrom(Apply(g, step), steps[1..], g');
      }
    }
  }

  /** A run stays safe exactly up to the first record that is tracked, after its partition was
      released, with something missing below it. */
  lemma {:induction false} SafeAlongIff(steps: seq<Step>, g: Group)
    requires Run(EmptyGroup, steps, g)
    ensures SafeAlong(EmptyGroup, steps) <==> InOrder(EmptyGroup, steps)
  {
    assert LaneSafe(EmptyLane, {});
    SafeAlongFrom(EmptyGroup, steps, g);
  }
}
