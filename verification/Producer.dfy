/** The batching producer of a queue: callers put payloads on a bounded channel under a shared
    lock, one loop batches and flushes them, and on stop it takes the lock alone, seals the
    channel and drains what is left. */
module Producer {
  datatype Payload = Payload(bytes: seq<nat>)

  /** The loop's two locals that matter: the batch being filled and the batches flushed so far. */
  datatype Batching = Batching(items: seq<Payload>, flushed: seq<seq<Payload>>)
  {
    function All(): seq<Payload> {
      Concat(flushed) + items
    }

    predicate Sized(batchSize: nat) {
      && (forall b | b in flushed :: 1 <= |b| <= Limit(batchSize))
      && |items| < Limit(batchSize)
    }
  }

  /** A batch size of zero flushes every payload at once. */
  function Limit(batchSize: nat): (n: nat)
    ensures n >= 1
  {
    if batchSize == 0 then 1 else batchSize
  }

  function Concat(batches: seq<seq<Payload>>): seq<Payload> {
    if batches == [] then [] else Concat(batches[..|batches| - 1]) + batches[|batches| - 1]
  }

  function FlushBatch(b: Batching): (b': Batching)
    ensures b'.All() == b.All() && b'.items == []
    ensures forall n | b.Sized(n) :: b'.Sized(n)
  {
    if b.items == [] then b
    else
      assert (b.flushed + [b.items])[..|b.flushed|] == b.flushed;
      Batching([], b.flushed + [b.items])
  }

  function AddItem(b: Batching, p: Payload, batchSize: nat): (b': Batching)
    ensures b'.All() == b.All() + [p]
    ensures b.Sized(batchSize) ==> b'.Sized(batchSize)
  {
    var added := b.(items := b.items + [p]);
    if |added.items| >= batchSize then
      assert (added.flushed + [added.items])[..|added.flushed|] == added.flushed;
      FlushBatch(added)
    else added
  }

  // ---- The loop ----------------------------------------------------------------------------

  /** What one turn of the loop's select received. */
  datatype Event = Received(p: Payload) | Ticked

  function ItemsOf(events: seq<Event>): seq<Payload> {
    if events == [] then []
    else
      var last := events[|events| - 1];
      ItemsOf(events[..|events| - 1]) + (if last.Received? then [last.p] else [])
  }

  lemma {:induction false} ItemsOfNext(events: seq<Event>, i: nat)
    requires i < |events|
    ensures ItemsOf(events[..i + 1])
      == ItemsOf(events[..i]) + if events[i].Received? then [events[i].p] else []
  {
    assert events[..i + 1][..i] == events[..i];
  }

  /** For each payload received, whether a tick came after it and before the next one. */
  function TicksOf(events: seq<Event>): (ticked: seq<bool>)
    ensures |ticked| == |ItemsOf(events)|
  {
    if events == [] then []
    else
      var n := |events| - 1;
      var before := TicksOf(events[..n]);
      if events[n].Received? then before + [false] else if before == [] then [] else before[..|before| - 1] + [true]
  }

  /** Where batches end: with the payload that fills one, and with the last one before a tick; each
      batch begins where the one before it ended. */
  ghost predicate CutAt(flushed: seq<seq<Payload>>, payloads: seq<Payload>, ticked: seq<bool>, batchSize: nat)
    requires |ticked| == |payloads|
    decreases |flushed|
  {
    if flushed == [] then payloads == []
    else
      var n, m := |payloads|, |flushed[|flushed| - 1]|;
      && 1 <= m <= n && m <= Limit(batchSize) && flushed[|flushed| - 1] == payloads[n - m..]
      && (m == Limit(batchSize) || ticked[n - 1]) && (forall i | n - m <= i < n - 1 :: !ticked[i])
      && CutAt(flushed[..|flushed| - 1], payloads[..n - m], ticked[..n - m], batchSize)
  }

  /** All batches are cut like this, but the last, which holds what was left and may end earlier. */
  ghost predicate BatchedBy(flushed: seq<seq<Payload>>, payloads: seq<Payload>, ticked: seq<bool>, batchSize: nat)
    requires |ticked| == |payloads|
  {
    exists items: seq<Payload> :: Cutting(flushed, items, payloads, ticked, batchSize)
  }

  /** The items come after the last cut: too few to be flushed, and without a tick. */
  ghost predicate Pending(flushed: seq<seq<Payload>>, items: seq<Payload>, payloads: seq<Payload>, ticked: seq<bool>,
      batchSize: nat)
    requires |ticked| == |payloads|
  {
    var n := |payloads|;
    && |items| <= n && items == payloads[n - |items|..] && |items| < Limit(batchSize)
    && (forall i | n - |items| <= i < n :: !ticked[i])
    && CutAt(flushed, payloads[..n - |items|], ticked[..n - |items|], batchSize)
  }

  ghost predicate Cutting(flushed: seq<seq<Payload>>, items: seq<Payload>, payloads: seq<Payload>, ticked: seq<bool>,
      batchSize: nat)
    requires |ticked| == |payloads|
  {
    if items == [] then Pending(flushed, [], payloads, ticked, batchSize)
    else
      && flushed != [] && flushed[|flushed| - 1] == items
      && Pending(flushed[..|flushed| - 1], items, payloads, ticked, batchSize)
  }

  lemma {:induction false} OneMoreCut(flushed: seq<seq<Payload>>, batch: seq<Payload>, payloads: seq<Payload>,
      ticked: seq<bool>, batchSize: nat)
    requires |ticked| == |payloads| && 1 <= |batch| <= |payloads| && |batch| <= Limit(batchSize)
    requires var n, m := |payloads|, |batch|;
      && batch == payloads[n - m..] && (m == Limit(batchSize) || ticked[n - 1])
      && (forall i | n - m <= i < n - 1 :: !ticked[i])
      && CutAt(flushed, payloads[..n - m], ticked[..n - m], batchSize)
    ensures CutAt(flushed + [batch], payloads, ticked, batchSize)
  {
    assert (flushed + [batch])[..|flushed|] == flushed;
  }

  lemma {:induction false} AllCut(flushed: seq<seq<Payload>>, payloads: seq<Payload>, ticked: seq<bool>, batchSize: nat)
    requires |ticked| == |payloads| && CutAt(flushed, payloads, ticked, batchSize)
    ensures Pending(flushed, [], payloads, ticked, batchSize)
  {
    assert payloads[..|payloads|] == payloads && ticked[..|ticked|] == ticked;
  }

  /** The payloads up to the pending ones, when one more comes. */
  lemma {:induction false} SameBefore(payloads: seq<Payload>, ticked: seq<bool>, m: nat, p: Payload)
    requires |ticked| == |payloads| && m <= |payloads|
    ensures var n := |payloads|;
      && (payloads + [p])[..n - m] == payloads[..n - m] && (ticked + [false])[..n - m] == ticked[..n - m]
      && (payloads + [p])[n - m..] == payloads[n - m..] + [p]
  {
  }

  lemma {:induction false} OneMorePending(b: Batching, payloads: seq<Payload>, ticked: seq<bool>, batchSize: nat,
      p: Payload)
    requires |ticked| == |payloads| && Pending(b.flushed, b.items, payloads, ticked, batchSize)
    ensures var b' := AddItem(b, p, batchSize);
      Pending(b'.flushed, b'.items, payloads + [p], ticked + [false], batchSize)
  {
    SameBefore(payloads, ticked, |b.items|, p);
    if |b.items| + 1 >= batchSize {
      OneMoreCut(b.flushed, b.items + [p], payloads + [p], ticked + [false], batchSize);
      AllCut(b.flushed + [b.items + [p]], payloads + [p], ticked + [false], batchSize);
    }
  }

  lemma {:induction false} TickCuts(b: Batching, payloads: seq<Payload>, ticked: seq<bool>, batchSize: nat)
    requires |ticked| == |payloads| && Pending(b.flushed, b.items, payloads, ticked, batchSize)
    ensures var flags := if ticked == [] then [] else ticked[..|ticked| - 1] + [true];
      |flags| == |payloads| && Pending(FlushBatch(b).flushed, [], payloads, flags, batchSize)
  {
    var n, m := |payloads|, |b.items|;
    if n > 0 {
      var flags := ticked[..n - 1] + [true];
      if m > 0 {
        assert flags[..n - m] == ticked[..n - m];
        OneMoreCut(b.flushed, b.items, payloads, flags, batchSize);
      } else {
        LastTicked(b.flushed, payloads, ticked, batchSize);
      }
      AllCut(FlushBatch(b).flushed, payloads, flags, batchSize);
    }
  }

  /** A tick with nothing to flush: the last batch ended there anyway. */
  lemma {:induction false} LastTicked(flushed: seq<seq<Payload>>, payloads: seq<Payload>, ticked: seq<bool>,
      batchSize: nat)
    requires |ticked| == |payloads| > 0 && CutAt(flushed, payloads[..|payloads|], ticked[..|payloads|], batchSize)
    ensures CutAt(flushed, payloads, ticked[..|ticked| - 1] + [true], batchSize)
  {
    var n := |payloads|;
    assert payloads[..n] == payloads && ticked[..n] == ticked;
    var m := |flushed[|flushed| - 1]|;
    assert (ticked[..n - 1] + [true])[..n - m] == ticked[..n - m];
  }

  function NoTicks(n: nat): seq<bool> {
    seq(n, _ => false)
  }

  lemma {:induction false} OneMoreUnticked(ticked: seq<bool>, j: nat)
    ensures ticked + NoTicks(j + 1) == ticked + NoTicks(j) + [false]
  {
  }

  lemma {:induction false} TicksOfNext(events: seq<Event>, i: nat)
    requires i < |events|
    ensures var before := TicksOf(events[..i]);
      TicksOf(events[..i + 1]) == if events[i].Received? then before + [false]
                                  else if before == [] then [] else before[..|before| - 1] + [true]
  {
    assert events[..i + 1][..i] == events[..i];
  }

  lemma {:induction false} TakeOneMore(before: seq<Payload>, left: seq<Payload>, j: nat)
    requires j < |left|
    ensures before + left[..j + 1] == before + left[..j] + [left[j]]
  {
  }

  /** Batches that are cut like this hold all payloads, in order, and are of legal size. */
  lemma {:induction false} CutsAreAll(flushed: seq<seq<Payload>>, payloads: seq<Payload>, ticked: seq<bool>,
      batchSize: nat)
    requires |ticked| == |payloads| && CutAt(flushed, payloads, ticked, batchSize)
    ensures Concat(flushed) == payloads && forall b | b in flushed :: 1 <= |b| <= Limit(batchSize)
    decreases |flushed|
  {
    if flushed != [] {
      var n, m := |payloads|, |flushed[|flushed| - 1]|;
      CutsAreAll(flushed[..|flushed| - 1], payloads[..n - m], ticked[..n - m], batchSize);
      assert payloads == payloads[..n - m] + payloads[n - m..];
      assert flushed == flushed[..|flushed| - 1] + [flushed[|flushed| - 1]];
    }
  }

  /** What is flushed at the end is what was cut, and the rest. */
  lemma {:induction false} FlushedAtEnd(b: Batching, payloads: seq<Payload>, ticked: seq<bool>, batchSize: nat)
    requires |ticked| == |payloads| && Pending(b.flushed, b.items, payloads, ticked, batchSize)
    ensures BatchedBy(FlushBatch(b).flushed, payloads, ticked, batchSize)
    ensures Concat(FlushBatch(b).flushed) == payloads
    ensures forall batch | batch in FlushBatch(b).flushed :: 1 <= |batch| <= Limit(batchSize)
  {
    var n, m := |payloads|, |b.items|;
    CutsAreAll(b.flushed, payloads[..n - m], ticked[..n - m], batchSize);
    assert payloads == payloads[..n - m] + payloads[n - m..];
    if m > 0 {
      assert (b.flushed + [b.items])[..|b.flushed|] == b.flushed;
    }
    assert Cutting(FlushBatch(b).flushed, b.items, payloads, ticked, batchSize);
  }

  /** The loop, given what its selects received before the stop and what was still in the channel
      after the seal. A batch is flushed when it is full and at every tick, what is left at the end. */
  method RunProducer(events: seq<Event>, left: seq<Payload>, batchSize: nat) returns (flushed: seq<seq<Payload>>)
    ensures Concat(flushed) == ItemsOf(events) + left
    ensures forall b | b in flushed :: 1 <= |b| <= Limit(batchSize)
    ensures BatchedBy(flushed, ItemsOf(events) + left, TicksOf(events) + NoTicks(|left|), batchSize)
  {
    var items: seq<Payload> := [];
    flushed := [];
    for i := 0 to |events|
      invariant Pending(flushed, items, ItemsOf(events[..i]), TicksOf(events[..i]), batchSize)
    {
      flushed, items := Turn(flushed, items, events, i, batchSize);
    }
    assert events[..|events|] == events;
    assert ItemsOf(events) + left[..0] == ItemsOf(events) && TicksOf(events) + NoTicks(0) == TicksOf(events);
    for j := 0 to |left|
      invariant Pending(flushed, items, ItemsOf(events) + left[..j], TicksOf(events) + NoTicks(j), batchSize)
    {
      TakeOneMore(ItemsOf(events), left, j);
      OneMoreUnticked(TicksOf(events), j);
      OneMorePending(Batching(items, flushed), ItemsOf(events) + left[..j], TicksOf(events) + NoTicks(j), batchSize,
        left[j]);
      flushed, items := Add(flushed, items, left[j], batchSize);
    }
    assert left[..|left|] == left;
    FlushedAtEnd(Batching(items, flushed), ItemsOf(events) + left, TicksOf(events) + NoTicks(|left|), batchSize);
    flushed, items := Send(flushed, items);
  }

  /** One turn of the select. */
  method Turn(flushed: seq<seq<Payload>>, items: seq<Payload>, events: seq<Event>, i: nat, batchSize: nat)
      returns (flushed': seq<seq<Payload>>, items': seq<Payload>)
    requires i < |events| && Pending(flushed, items, ItemsOf(events[..i]), TicksOf(events[..i]), batchSize)
    ensures Pending(flushed', items', ItemsOf(events[..i + 1]), TicksOf(events[..i + 1]), batchSize)
  {
    ItemsOfNext(events, i);
    TicksOfNext(events, i);
    match events[i] {
      case Received(p) =>
        OneMorePending(Batching(items, flushed), ItemsOf(events[..i]), TicksOf(events[..i]), batchSize, p);
        flushed', items' := Add(flushed, items, p, batchSize);
      case Ticked =>
        assert ItemsOf(events[..i]) + [] == ItemsOf(events[..i]);
        TickCuts(Batching(items, flushed), ItemsOf(events[..i]), TicksOf(events[..i]), batchSize);
        flushed', items' := Send(flushed, items);
    }
  }

  /** Appends to the batch and sends it once it is full. */
  method Add(flushed: seq<seq<Payload>>, items: seq<Payload>, p: Payload, batchSize: nat)
      returns (flushed': seq<seq<Payload>>, items': seq<Payload>)
    ensures Batching(items', flushed') == AddItem(Batching(items, flushed), p, batchSize)
  {
    flushed', items' := flushed, items + [p];
    if |items'| >= batchSize {
      flushed', items' := Send(flushed', items');
    }
  }

  /** Flushes a batch that is not empty. */
  method Send(flushed: seq<seq<Payload>>, items: seq<Payload>)
      returns (flushed': seq<seq<Payload>>, items': seq<Payload>)
    ensures Batching(items', flushed') == FlushBatch(Batching(items, flushed))
  {
    flushed', items' := flushed, items;
    if |items| > 0 {
      flushed', items' := flushed + [items], [];
    }
  }

  // ---- Callers and loop together -----------------------------------------------------------

  datatype LoopPhase = Running | WaitingForLock | Draining | Returned

  /** `holders` are the Produce calls inside the shared lock, `ended` those whose context is over;
      `accepted` is the history of payloads whose Produce returned without an error, in channel
      order. */
  datatype Queue = Queue(
    capacity: nat,
    batchSize: nat,
    channel: seq<Payload>,
    holders: map<nat, Payload>,
    ended: set<nat>,
    stopped: bool,
    sealed: bool,
    phase: LoopPhase,
    batching: Batching,
    accepted: seq<Payload>)

  datatype Step =
    | Enter(call: nat, p: Payload)
    | Put(call: nat)
    | HandOver(call: nat)
    | LeaveOnStop(call: nat)
    | LeaveOnContext(call: nat)
    | Stop
    | EndContext(call: nat)
    | Receive
    | Tick
    | SeeStop
    | Seal
    | Drain
    | Finish

  function NewQueue(capacity: nat, batchSize: nat): Queue {
    Queue(capacity, batchSize, [], map[], {}, false, false, Running, Batching([], []), [])
  }

  /** A waiting writer keeps new readers out of the lock; a blocked Produce gives up only once the
      queue has stopped or its own context is over. */
  predicate Enabled(q: Queue, step: Step) {
    match step
    case Enter(call, _) => call !in q.holders && !q.sealed && !q.phase.WaitingForLock?
    case Put(call) => call in q.holders && |q.channel| < q.capacity
    case HandOver(call) => call in q.holders && q.channel == [] && q.phase.Running?
    case LeaveOnStop(call) => call in q.holders && q.stopped
    case LeaveOnContext(call) => call in q.holders && call in q.ended
    case Stop => true
    case EndContext(_) => true
    case Receive => q.phase.Running? && q.channel != []
    case Tick => q.phase.Running?
    case SeeStop => q.phase.Running? && q.stopped
    case Seal => q.phase.WaitingForLock? && q.holders == map[]
    case Drain => q.phase.Draining? && q.channel != []
    case Finish => q.phase.Draining? && q.channel == []
  }

  function Next(q: Queue, step: Step): Queue
    requires Enabled(q, step)
  {
    match step
    case Enter(call, p) => q.(holders := q.holders[call := p])
    case Put(call) =>
      var p := q.holders[call];
      q.(channel := q.channel + [p], accepted := q.accepted + [p], holders := q.holders - {call})
    case HandOver(call) =>
      var p := q.holders[call];
      q.(batching := AddItem(q.batching, p, q.batchSize), accepted := q.accepted + [p], holders := q.holders - {call})
    case LeaveOnStop(call) => q.(holders := q.holders - {call})
    case LeaveOnContext(call) => q.(holders := q.holders - {call})
    case Stop => q.(stopped := true)
    case EndContext(call) => q.(ended := q.ended + {call})
    case Receive => q.(channel := q.channel[1..], batching := AddItem(q.batching, q.channel[0], q.batchSize))
    case Tick => q.(batching := FlushBatch(q.batching))
    case SeeStop => q.(phase := WaitingForLock)
    case Seal => q.(sealed := true, phase := Draining)
    case Drain => q.(channel := q.channel[1..], batching := AddItem(q.batching, q.channel[0], q.batchSize))
    case Finish => q.(batching := FlushBatch(q.batching), phase := Returned)
  }

  ghost predicate Consistent(q: Queue) {
    && q.accepted == q.batching.All() + q.channel
    && q.batching.Sized(q.batchSize)
    && (q.sealed <==> q.phase.Draining? || q.phase.Returned?)
    && (q.sealed ==> q.holders == map[])
    && (q.phase.Returned? ==> q.channel == [] && q.batching.items == [])
    && (!q.phase.Running? ==> q.stopped)
  }

  predicate Moves(step: Step) {
    step.HandOver? || step.Receive? || step.Drain?
  }

  lemma {:induction false} FrontMoves(taken: seq<Payload>, channel: seq<Payload>)
    requires channel != []
    ensures taken + [channel[0]] + channel[1..] == taken + channel
  {
  }

  /** A payload moves from the front of the channel, or past it, into the batch. */
  lemma {:induction false} MoveKeepsConsistent(q: Queue, step: Step)
    requires Consistent(q) && Enabled(q, step) && Moves(step)
    ensures Consistent(Next(q, step))
  {
    var taken := q.batching.All();
    if step.HandOver? {
      assert taken + q.channel == taken && taken + [q.holders[step.call]] + q.channel == taken + [q.holders[step.call]];
    } else {
      FrontMoves(taken, q.channel);
    }
  }

  lemma {:induction false} FlushKeepsConsistent(q: Queue, step: Step)
    requires Consistent(q) && Enabled(q, step) && (step.Tick? || step.Finish?)
    ensures Consistent(Next(q, step))
  {
  }

  lemma {:induction false} StepKeepsConsistent(q: Queue, step: Step)
    requires Consistent(q) && Enabled(q, step)
    ensures Consistent(Next(q, step))
  {
    if Moves(step) {
      MoveKeepsConsistent(q, step);
    } else if step.Tick? || step.Finish? {
      FlushKeepsConsistent(q, step);
    }
  }

  ghost predicate Run(q: Queue, steps: seq<Step>, q': Queue)
    decreases |steps|
  {
    if steps == [] then q == q' else Enabled(q, steps[0]) && Run(Next(q, steps[0]), steps[1..], q')
  }

  lemma {:induction false} RunKeepsConsistent(q: Queue, steps: seq<Step>, q': Queue)
    requires Consistent(q) && Run(q, steps, q')
    ensures Consistent(q') && q'.batchSize == q.batchSize
    decreases |steps|
  {
    if steps != [] {
      StepKeepsConsistent(q, steps[0]);
      RunKeepsConsistent(Next(q, steps[0]), steps[1..], q');
    }
  }

  /** The theorem: when the loop has returned, its flushes are exactly the accepted payloads, once
      each and in channel order, in batches of legal size, and that is final. */
  lemma {:induction false} Conservation(capacity: nat, batchSize: nat, steps: seq<Step>, q: Queue)
    requires Run(NewQueue(capacity, batchSize), steps, q) && q.phase.Returned?
    ensures Concat(q.batching.flushed) == q.accepted
    ensures forall b | b in q.batching.flushed :: 1 <= |b| <= Limit(batchSize)
    ensures forall later, q' :: Run(q, later, q') ==> q'.accepted == q.accepted && q'.batching == q.batching
  {
    RunKeepsConsistent(NewQueue(capacity, batchSize), steps, q);
    assert q.batching.All() + [] == Concat(q.batching.flushed);
    forall later, q' | Run(q, later, q') ensures q'.accepted == q.accepted && q'.batching == q.batching {
      ReturnedIsFinal(q, later, q');
    }
  }

  lemma {:induction false} ReturnedIsFinal(q: Queue, later: seq<Step>, q': Queue)
    requires Consistent(q) && q.phase.Returned? && Run(q, later, q')
    ensures q'.accepted == q.accepted && q'.batching == q.batching
    decreases |later|
  {
    if later != [] {
      StepKeepsConsistent(q, later[0]);
      ReturnedIsFinal(Next(q, later[0]), later[1..], q');
    }
  }

  /** Nothing enters the channel after the seal. */
  lemma {:induction false} NothingAfterSeal(q: Queue, later: seq<Step>, q': Queue)
    requires Consistent(q) && q.sealed && Run(q, later, q')
    ensures q'.sealed && q'.accepted == q.accepted && |q'.channel| <= |q.channel|
    decreases |later|
  {
    if later != [] {
      StepKeepsConsistent(q, later[0]);
      NothingAfterSeal(Next(q, later[0]), later[1..], q');
    }
  }

  // ---- The seal cannot deadlock ------------------------------------------------------------

  /** A step of the loop or of a call inside the lock. */
  predicate Advances(step: Step) {
    !step.Stop? && !step.EndContext?
  }

  predicate Leaves(step: Step) {
    step.Put? || step.LeaveOnStop? || step.LeaveOnContext?
  }

  /** While the loop waits for the lock no call can enter it: the callers inside leave one by one,
      and the seal comes only after the last. */
  lemma {:induction false} HoldersOnlyLeave(q: Queue, step: Step)
    requires Enabled(q, step) && q.phase.WaitingForLock?
    ensures !Advances(step) || Leaves(step) || (step.Seal? && q.holders == map[])
    ensures !Advances(step) ==> Next(q, step).phase.WaitingForLock? && Next(q, step).holders == q.holders
    ensures Leaves(step) ==> Next(q, step).phase.WaitingForLock? && Next(q, step).holders == q.holders - {step.call}
    ensures Leaves(step) ==> |Next(q, step).holders| + 1 == |q.holders|
  {
    if Leaves(step) {
      assert (q.holders - {step.call}).Keys == q.holders.Keys - {step.call};
      assert |q.holders| == |q.holders.Keys| && |q.holders - {step.call}| == |(q.holders - {step.call}).Keys|;
    }
  }

  /** When the loop, waiting for the lock, and the callers inside can go on at all. Without the
      closed stop channel a full queue with patient callers would be stuck. */
  lemma {:induction false} GoesOnIff(q: Queue)
    requires q.phase.WaitingForLock?
    ensures (exists step :: Enabled(q, step) && Advances(step)) <==>
      || q.holders == map[] || |q.channel| < q.capacity || q.stopped
      || exists call :: call in q.holders && call in q.ended
  {
    if q.holders == map[] {
      assert Enabled(q, Seal) && Advances(Seal);
    } else {
      var call :| call in q.holders;
      if |q.channel| < q.capacity {
        assert Enabled(q, Put(call)) && Advances(Put(call));
      } else if q.stopped {
        assert Enabled(q, LeaveOnStop(call)) && Advances(LeaveOnStop(call));
      } else if c :| c in q.holders && c in q.ended {
        assert Enabled(q, LeaveOnContext(c)) && Advances(LeaveOnContext(c));
      } else {
        forall step | Enabled(q, step) ensures !Advances(step) {
        }
      }
    }
  }

  /** The loop waits for the lock only once the queue has stopped, so it never gets stuck. */
  lemma {:induction false} NeverStuck(capacity: nat, batchSize: nat, steps: seq<Step>, q: Queue)
    requires Run(NewQueue(capacity, batchSize), steps, q) && q.phase.WaitingForLock?
    ensures forall call | call in q.holders :: Enabled(q, LeaveOnStop(call))
    ensures exists step :: Enabled(q, step) && Advances(step)
  {
    RunKeepsConsistent(NewQueue(capacity, batchSize), steps, q);
    GoesOnIff(q);
  }

  /** However the callers inside leave, the seal has happened after one step for each and one more. */
  lemma {:induction false} SealIsInevitable(q: Queue, steps: seq<Step>, q': Queue)
    requires Consistent(q) && q.phase.WaitingForLock? && Run(q, steps, q')
    requires forall step | step in steps :: Advances(step)
    requires |steps| > |q.holders|
    ensures q'.sealed
    decreases |steps|
  {
    var rest := Next(q, steps[0]);
    HoldersOnlyLeave(q, steps[0]);
    StepKeepsConsistent(q, steps[0]);
    if Leaves(steps[0]) {
      SealIsInevitable(rest, steps[1..], q');
    } else {
      NothingAfterSeal(rest, steps[1..], q');
    }
  }

  /** From any state in which the loop waits for the lock, the closed stop channel alone lets the
      callers inside leave, full channel or not, and then the seal happens. */
  lemma {:induction false} SealIsReachable(q: Queue) returns (steps: seq<Step>, q': Queue)
    requires Consistent(q) && q.phase.WaitingForLock?
    ensures Run(q, steps, q') && q'.sealed && |steps| == |q.holders| + 1
    ensures forall step | step in steps :: step.LeaveOnStop? || step.Seal?
    decreases |q.holders|
  {
    if q.holders == map[] {
      q' := Next(q, Seal);
      steps := [Seal];
      assert Run(q', [], q') && steps[1..] == [];
    } else {
      var call :| call in q.holders;
      var q1 := Next(q, LeaveOnStop(call));
      HoldersOnlyLeave(q, LeaveOnStop(call));
      StepKeepsConsistent(q, LeaveOnStop(call));
      var rest;
      rest, q' := SealIsReachable(q1);
      steps := [LeaveOnStop(call)] + rest;
      assert steps[1..] == rest;
    }
  }
}
