/** The order in which a consumer is handed records to commit. A failed commit is put back unless a
    newer one is due; when the newer one was taken already, the older one is handed out again. */
module CommitOrder {
  import opened Offsets
  import opened CommitSafety

  /** The next take hands out an older offset than one handed out before, of which `handed` is one
      past the newest. */
  predicate GoesBack(g: Group, c: Consumer, handed: nat) {
    g.LaneOf(c).due.Some? && g.LaneOf(c).due.value.offset + 1 < handed
  }

  function HandedAfter(g: Group, step: Step, c: Consumer, handed: nat): nat {
    if (step.TakeDue? || step.Revoke?) && step.c == c && g.LaneOf(c).due.Some?
      && g.LaneOf(c).due.value.offset >= handed
    then g.LaneOf(c).due.value.offset + 1 else handed
  }

  /** An older commit than one handed out is put back while nothing is due. */
  predicate RestoresOlder(g: Group, step: Step, c: Consumer, handed: nat) {
    && (step.CommitFailed? || step.CommitReplyLost?) && step.c == c
    && step.r.offset + 1 < handed && g.LaneOf(c).due.None?
  }

  // ---- One step ----------------------------------------------------------------------------

  ghost predicate Rising(q: seq<Tracked>, from: nat, to: nat) {
    && (forall i | 0 <= i < |q| :: from <= q[i].record.offset < to)
    && forall i, j | 0 <= i < j < |q| :: q[i].record.offset < q[j].record.offset
  }

  /** Where the consumer's fetch stands, of this ownership or of one that is over. */
  ghost predicate FetchAt(g: Group, c: Consumer, at: nat) {
    (c in g.next && g.next[c] == at && c !in g.stale) || (c !in g.next && c in g.stale && g.stale[c] == at)
  }

  /** What was handed out, what is due, what is in flight and what will be fetched follow each other. */
  ghost predicate InSequence(g: Group, c: Consumer, handed: nat, at: nat) {
    && handed <= at && Rising(g.LaneOf(c).queue, handed, at) && FetchAt(g, c, at)
    && (g.LaneOf(c).due.Some? ==>
          g.LaneOf(c).due.value.offset < at && Rising(g.LaneOf(c).queue, g.LaneOf(c).due.value.offset + 1, at))
    && forall p | p in g.pending && p.0 == c :: p.1.offset < handed
  }

  lemma {:induction false} MarkKeepsOffsets(q: seq<Tracked>, r: Record)
    ensures |MarkDone(q, r)| == |q|
    ensures forall i | 0 <= i < |q| :: MarkDone(q, r)[i].record == q[i].record
  {
    if q != [] && q[0].record != r {
      MarkKeepsOffsets(q[1..], r);
    }
  }

  lemma {:induction false} MarkRises(q: seq<Tracked>, r: Record, from: nat, to: nat)
    requires Rising(q, from, to)
    ensures Rising(MarkDone(q, r), from, to)
  {
    MarkKeepsOffsets(q, r);
  }

  lemma {:induction false} SuffixRises(q: seq<Tracked>, n: nat, from: nat, to: nat)
    requires Rising(q, from, to) && n <= |q|
    ensures Rising(q[n..], from, to)
    ensures n > 0 ==> from <= q[n - 1].record.offset < to && Rising(q[n..], q[n - 1].record.offset + 1, to)
  {
  }

  lemma {:induction false} DoneRises(l: Lane, r: Record, from: nat, to: nat)
    requires Rising(l.queue, from, to)
    ensures Rising(Done(l, r).queue, from, to)
    ensures Done(l, r).due == l.due
      || (Done(l, r).due.Some? && from <= Done(l, r).due.value.offset < to
          && Rising(Done(l, r).queue, Done(l, r).due.value.offset + 1, to))
  {
    var q := MarkDone(l.queue, r);
    MarkRises(l.queue, r, from, to);
    SuffixRises(q, DonePrefix(q), from, to);
  }

  lemma {:induction false} TrackInSequence(g: Group, step: Step, c: Consumer, handed: nat, at: nat)
    requires InSequence(g, c, handed, at) && Enabled(g, step) && step.c == c && (step.Deliver? || step.DeliverLate?)
    ensures InSequence(Apply(g, step), c, handed, at + 1)
  {
    assert step.r.offset == at;
    assert Apply(g, step).LaneOf(c).queue == g.LaneOf(c).queue + [Tracked(step.r, false)];
  }

  lemma {:induction false} AckInSequence(g: Group, r: Record, c: Consumer, handed: nat, at: nat)
    requires InSequence(g, c, handed, at) && !GoesBack(g, c, handed)
    ensures InSequence(Apply(g, Ack(c, r)), c, handed, at) && !GoesBack(Apply(g, Ack(c, r)), c, handed)
  {
    DoneRises(g.LaneOf(c), r, handed, at);
    if g.LaneOf(c).due.Some? {
      DoneRises(g.LaneOf(c), r, g.LaneOf(c).due.value.offset + 1, at);
    }
  }

  lemma {:induction false} HandInSequence(g: Group, step: Step, c: Consumer, handed: nat, at: nat)
    requires InSequence(g, c, handed, at) && !GoesBack(g, c, handed)
    requires step.c == c && (step.TakeDue? || step.Revoke? || step.Lose?)
    ensures var g', h := Apply(g, step), HandedAfter(g, step, c, handed);
      InSequence(g', c, h, at) && !GoesBack(g', c, h)
  {
  }

  lemma {:induction false} CommitInSequence(g: Group, step: Step, c: Consumer, handed: nat, at: nat)
    requires InSequence(g, c, handed, at) && !GoesBack(g, c, handed) && Enabled(g, step) && step.c == c
    requires step.CommitOk? || step.CommitFailed? || step.CommitReplyLost?
    ensures RestoresOlder(g, step, c, handed) ==> GoesBack(Apply(g, step), c, handed)
    ensures !RestoresOlder(g, step, c, handed) ==>
      InSequence(Apply(g, step), c, handed, at) && !GoesBack(Apply(g, step), c, handed)
  {
    assert (c, step.r) in g.pending;
  }

  lemma {:induction false} OtherInSequence(g: Group, step: Step, c: Consumer, handed: nat, at: nat)
    requires InSequence(g, c, handed, at) && !GoesBack(g, c, handed) && step.c != c
    ensures InSequence(Apply(g, step), c, handed, at) && !GoesBack(Apply(g, step), c, handed)
  {
    OtherLanesKept(g, step, c);
  }

  /** A step makes the next take go back exactly if it puts an older commit back while nothing is due. */
  lemma {:induction false} StepGoesBackIff(g: Group, step: Step, c: Consumer, handed: nat, at: nat) returns (at': nat)
    requires InSequence(g, c, handed, at) && !GoesBack(g, c, handed)
    requires Enabled(g, step) && !(step.Assign? && step.c == c)
    ensures var g', h := Apply(g, step), HandedAfter(g, step, c, handed);
      && (GoesBack(g', c, h) <==> RestoresOlder(g, step, c, handed))
      && (!GoesBack(g', c, h) ==> InSequence(g', c, h, at'))
  {
    at' := at;
    if step.c != c {
      OtherInSequence(g, step, c, handed, at);
    } else if step.Deliver? || step.DeliverLate? {
      at' := at + 1;
      TrackInSequence(g, step, c, handed, at);
    } else if step.Ack? {
      AckInSequence(g, step.r, c, handed, at);
    } else if step.CommitOk? || step.CommitFailed? || step.CommitReplyLost? {
      CommitInSequence(g, step, c, handed, at);
    } else {
      HandInSequence(g, step, c, handed, at);
    }
  }

  // ---- Whole runs --------------------------------------------------------------------------

  /** The consumer is not given the partition anew. */
  ghost predicate NotReassigned(steps: seq<Step>, c: Consumer) {
    forall step | step in steps :: !(step.Assign? && step.c == c)
  }

  /** In no state of the run would a take go back. */
  ghost predicate Forward(g: Group, steps: seq<Step>, c: Consumer, handed: nat)
    decreases |steps|
  {
    && !GoesBack(g, c, handed)
    && (steps != [] ==> Forward(Apply(g, steps[0]), steps[1..], c, HandedAfter(g, steps[0], c, handed)))
  }

  ghost predicate NeverRestoresOlder(g: Group, steps: seq<Step>, c: Consumer, handed: nat)
    decreases |steps|
  {
    steps != [] ==>
      && !RestoresOlder(g, steps[0], c, handed)
      && NeverRestoresOlder(Apply(g, steps[0]), steps[1..], c, HandedAfter(g, steps[0], c, handed))
  }

  lemma {:induction false} ForwardFrom(g: Group, steps: seq<Step>, g': Group, c: Consumer, handed: nat, at: nat)
    requires InSequence(g, c, handed, at) && !GoesBack(g, c, handed) && Run(g, steps, g') && NotReassigned(steps, c)
    ensures Forward(g, steps, c, handed) <==> NeverRestoresOlder(g, steps, c, handed)
    decreases |steps|
  {
    if steps != [] {
      var at' := StepGoesBackIff(g, steps[0], c, handed, at);
      if !RestoresOlder(g, steps[0], c, handed) {
        ForwardFrom(Apply(g, steps[0]), steps[1..], g', c, HandedAfter(g, steps[0], c, handed), at');
      }
    }
  }

  /** The consumer has just been given the partition, and nothing is left of an earlier ownership. */
  ghost predicate Begins(g: Group, c: Consumer) {
    c in g.next && c !in g.stale && g.LaneOf(c) == EmptyLane && forall p | p in g.pending :: p.0 != c
  }

  /** The theorem: from the beginning of an ownership, through its end and whatever is tracked, acked,
      committed or put back later, what the consumer is handed goes back exactly if an older commit
      is put back while nothing newer is due. */
  lemma {:induction false} GoesBackIff(g: Group, steps: seq<Step>, g': Group, c: Consumer)
    requires Begins(g, c) && Run(g, steps, g') && NotReassigned(steps, c)
    ensures Forward(g, steps, c, 0) <==> NeverRestoresOlder(g, steps, c, 0)
  {
    ForwardFrom(g, steps, g', c, 0, g.next[c]);
  }

  // ---- A run that goes back ----------------------------------------------------------------

  /** The next record is fetched and acked. */
  lemma {:induction false} NextAcked(g: Group, c: Consumer, r: Record) returns (g': Group)
    requires c in g.next && g.next[c] == r.offset && g.LaneOf(c) == EmptyLane
    ensures Enabled(g, Deliver(c, r)) && g' == Apply(Apply(g, Deliver(c, r)), Ack(c, r))
    ensures g'.LaneOf(c) == Lane([], Some(r)) && g'.pending == g.pending && g'.committed == g.committed
    ensures c in g'.next && g'.next[c] == r.offset + 1
  {
    assert Apply(g, Deliver(c, r)).LaneOf(c) == Lane([Tracked(r, false)], None);
    assert MarkDone([Tracked(r, false)], r) == [Tracked(r, true)];
    g' := Apply(Apply(g, Deliver(c, r)), Ack(c, r));
  }

  /** A record goes to a commit. */
  lemma {:induction false} OneHandedOut(c: Consumer, r0: Record) returns (steps: seq<Step>, g: Group)
    requires r0.offset == 0
    ensures steps == [Assign(c, 0), Deliver(c, r0), Ack(c, r0), TakeDue(c)] && Run(EmptyGroup, steps, g)
    ensures g.LaneOf(c) == EmptyLane && g.pending == {(c, r0)} && c in g.next && g.next[c] == 1
  {
    var p := Apply(EmptyGroup, Assign(c, 0));
    var q := NextAcked(p, c, r0);
    OneMoreStep(EmptyGroup, [], EmptyGroup, Assign(c, 0));
    steps := [] + [Assign(c, 0)];
    OneMoreStep(EmptyGroup, steps, p, Deliver(c, r0));
    OneMoreStep(EmptyGroup, steps + [Deliver(c, r0)], Apply(p, Deliver(c, r0)), Ack(c, r0));
    OneMoreStep(EmptyGroup, steps + [Deliver(c, r0)] + [Ack(c, r0)], q, TakeDue(c));
    steps := steps + [Deliver(c, r0)] + [Ack(c, r0)] + [TakeDue(c)];
    g := Apply(q, TakeDue(c));
  }

  /** Then another one, because the partition is taken away. */
  lemma {:induction false} TwoHandedOut(c: Consumer, r0: Record, r1: Record) returns (steps: seq<Step>, g: Group)
    requires r0.offset == 0 && r1.offset == 1
    ensures steps == [Assign(c, 0), Deliver(c, r0), Ack(c, r0), TakeDue(c)]
        + [Deliver(c, r1), Ack(c, r1), Revoke(c)]
    ensures Run(EmptyGroup, steps, g) && g.LaneOf(c) == EmptyLane && g.pending == {(c, r0), (c, r1)}
  {
    var p;
    steps, p := OneHandedOut(c, r0);
    var q := NextAcked(p, c, r1);
    OneMoreStep(EmptyGroup, steps, p, Deliver(c, r1));
    OneMoreStep(EmptyGroup, steps + [Deliver(c, r1)], Apply(p, Deliver(c, r1)), Ack(c, r1));
    OneMoreStep(EmptyGroup, steps + [Deliver(c, r1)] + [Ack(c, r1)], q, Revoke(c));
    assert steps + [Deliver(c, r1)] + [Ack(c, r1)] + [Revoke(c)] == steps + [Deliver(c, r1), Ack(c, r1), Revoke(c)];
    steps := steps + [Deliver(c, r1), Ack(c, r1), Revoke(c)];
    g := Apply(q, Revoke(c));
  }

  /** The older commit fails after the newer one succeeded: it is put back, taken again, and its
      commit moves the committed position back from 2 to 1. */
  lemma {:induction false} CommitMovesBack(c: Consumer, r0: Record, r1: Record)
      returns (steps: seq<Step>, p: Group, g: Group)
    requires r0.offset == 0 && r1.offset == 1
    ensures Run(EmptyGroup, steps, p) && p.committed == 2
    ensures RestoresOlder(p, CommitFailed(c, r0), c, 2)
    ensures Run(p, [CommitFailed(c, r0), TakeDue(c), CommitOk(c, r0)], g) && g.committed == 1
  {
    var q;
    steps, q := TwoHandedOut(c, r0, r1);
    OneMoreStep(EmptyGroup, steps, q, CommitOk(c, r1));
    steps, p := steps + [CommitOk(c, r1)], Apply(q, CommitOk(c, r1));
    var back := Apply(p, CommitFailed(c, r0));
    assert back.LaneOf(c).due == Some(r0);
    var again := Apply(back, TakeDue(c));
    g := Apply(again, CommitOk(c, r0));
    OneMoreStep(p, [], p, CommitFailed(c, r0));
    OneMoreStep(p, [] + [CommitFailed(c, r0)], back, TakeDue(c));
    OneMoreStep(p, [] + [CommitFailed(c, r0)] + [TakeDue(c)], again, CommitOk(c, r0));
    assert [] + [CommitFailed(c, r0)] + [TakeDue(c)] + [CommitOk(c, r0)]
      == [CommitFailed(c, r0), TakeDue(c), CommitOk(c, r0)];
  }
}
