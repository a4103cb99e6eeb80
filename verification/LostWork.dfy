/** What becomes of a task that nothing carries any more: it stays queued until the run's keys go,
    its run is never found finished, and there are runs from the start that get there. */
module LostWork {
  import opened RunState
  import opened Protocol
  import opened NoLostWork
  import opened Termination
  import opened Restarts

  /** The worker sends the task, or has a record of it in hand that it has not settled. */
  ghost predicate Handles(x: Actor, t: TaskID) {
    x.Pending(t) || (x.source.FromQueue? && x.source.task.id == t && (x.phase.Received? || x.Busy()))
  }

  /** Nobody handles the task. */
  ghost predicate Unhandled(s: State, t: TaskID) {
    forall a | a in s.actors :: !Handles(s.actors[a], t)
  }

  /** Queued, but not in any producer's buffer, and no worker handles it. */
  ghost predicate Orphaned(s: State, t: TaskID) {
    s.Queued(t) && !Buffered(s, t) && Unhandled(s, t)
  }

  /** The log holds no record of the task, so none can be delivered. */
  ghost predicate NoRecord(s: State, t: TaskID) {
    forall p: nat, o: nat | o < |s.Log(p)| :: s.Log(p)[o].id != t
  }

  /** An old record of the task is delivered once more. */
  ghost predicate Redelivers(cfg: Settings, s: State, step: Step, t: TaskID)
    requires Enabled(cfg, s, step)
  {
    step.Deliver? && s.Log(step.partition)[Fetches(s, step.partition, step.late)[step.node]].id == t
  }

  // ---- One step ----------------------------------------------------------------------------

  /** A worker takes up nothing new with this move. */
  ghost predicate TakesUpNothing(x: Actor, x': Actor) {
    && x'.source == x.source && !x'.phase.Received? && (x'.Busy() ==> x.Busy() || x.phase.Received?)
    && (x'.Sends() ==> x.Sends() && x'.phase.child == x.phase.child)
  }

  lemma {:induction false} HandlesNothingNew(x: Actor, x': Actor, t: TaskID)
    requires TakesUpNothing(x, x') && !Handles(x, t)
    ensures !Handles(x', t)
  {
  }

  lemma {:induction false} ReadHands(cfg: Settings, s: State, step: Step)
    requires Enabled(cfg, s, step) && (step.ReadState? || step.ReadStateFailed?)
    ensures step.a in Next(cfg, s, step).actors && TakesUpNothing(s.actors[step.a], Next(cfg, s, step).actors[step.a])
  {
  }

  lemma {:induction false} WorkHands(cfg: Settings, s: State, step: Step)
    requires Enabled(cfg, s, step) && (step.AcquireSlot? || step.WorkFailed? || step.WorkDone?)
    ensures step.a in Next(cfg, s, step).actors && TakesUpNothing(s.actors[step.a], Next(cfg, s, step).actors[step.a])
  {
  }

  lemma {:induction false} StartHands(cfg: Settings, s: State, step: Step)
    requires Enabled(cfg, s, step) && StartsWork(step)
    ensures step.a in Next(cfg, s, step).actors && TakesUpNothing(s.actors[step.a], Next(cfg, s, step).actors[step.a])
  {
    if step.ReadState? || step.ReadStateFailed? {
      ReadHands(cfg, s, step);
    } else {
      WorkHands(cfg, s, step);
    }
  }

  lemma {:induction false} SendHands(cfg: Settings, s: State, step: Step)
    requires Enabled(cfg, s, step) && SendsWork(step) && !step.AdmitChild?
    ensures step.a in Next(cfg, s, step).actors && TakesUpNothing(s.actors[step.a], Next(cfg, s, step).actors[step.a])
  {
  }

  lemma {:induction false} EndHands(cfg: Settings, s: State, step: Step)
    requires Enabled(cfg, s, step) && EndsWork(step)
    ensures step.a in Next(cfg, s, step).actors && TakesUpNothing(s.actors[step.a], Next(cfg, s, step).actors[step.a])
  {
  }

  /** A queued task is not admitted again. */
  lemma {:induction false} AdmitHands(cfg: Settings, s: State, a: nat, t: TaskID)
    requires s.Queued(t) && AtSend(s, a) && !Handles(s.actors[a], t)
    ensures a in AdmitStep(cfg, s, a).actors && !Handles(AdmitStep(cfg, s, a).actors[a], t)
  {
    if s.actors[a].phase.todo[0].id == t {
      KnownIsDuplicate(cfg, s, a);
    }
  }

  lemma {:induction false} MoveHands(cfg: Settings, s: State, step: Step, t: TaskID)
    requires Orphaned(s, t) && Enabled(cfg, s, step) && MovesOneActor(step)
    ensures step.a in Next(cfg, s, step).actors && !Handles(Next(cfg, s, step).actors[step.a], t)
  {
    assert !Handles(s.actors[step.a], t);
    if step.AdmitChild? {
      AdmitHands(cfg, s, step.a, t);
    } else {
      if StartsWork(step) {
        StartHands(cfg, s, step);
      } else if SendsWork(step) {
        SendHands(cfg, s, step);
      } else {
        EndHands(cfg, s, step);
      }
      HandlesNothingNew(s.actors[step.a], Next(cfg, s, step).actors[step.a], t);
    }
  }

  lemma {:induction false} AdmitQueued(s: Store, now: int, c: TaskID, maxLinks: int, t: TaskID)
    requires s.IsQueued(t.run, t)
    ensures Admit(s, now, c.run, c, maxLinks).0.IsQueued(t.run, t)
  {
  }

  lemma {:induction false} CompleteQueued(s: Store, now: int, c: TaskID, lease: int, t: TaskID)
    requires s.IsQueued(t.run, t) && c != t
    ensures Complete(s, now, c.run, c, lease).0.IsQueued(t.run, t)
  {
  }

  lemma {:induction false} UnadmitQueued(s: Store, c: TaskID, t: TaskID)
    requires s.IsQueued(t.run, t) && c != t
    ensures Unadmit(s, c.run, c).IsQueued(t.run, t)
  {
  }

  lemma {:induction false} CleanupQueued(s: Store, q: RunID, t: TaskID)
    requires s.IsQueued(t.run, t) && q != t.run
    ensures Cleanup(s, q).IsQueued(t.run, t)
  {
  }

  lemma {:induction false} QuietQueued(cfg: Settings, s: State, step: Step, t: TaskID)
    requires s.Queued(t) && Enabled(cfg, s, step) && !ChangesTables(step)
    ensures Next(cfg, s, step).Queued(t)
  {
    QuietTables(cfg, s, step, t.run);
  }

  lemma {:induction false} KeysGoQueued(cfg: Settings, s: State, step: Step, t: TaskID)
    requires s.Queued(t) && Enabled(cfg, s, step) && (step.CleanUp? || step.Evict?) && !EndsIncarnation(s, step, t.run)
    ensures Next(cfg, s, step).Queued(t)
  {
    CleanupQueued(s.store, if step.Evict? then step.r else s.actors[step.a].RunOf(), t);
  }

  lemma {:induction false} StaysQueued(cfg: Settings, s: State, step: Step, t: TaskID)
    requires Orphaned(s, t) && Enabled(cfg, s, step) && !EndsIncarnation(s, step, t.run)
    ensures Next(cfg, s, step).Queued(t)
  {
    if !ChangesTables(step) {
      QuietQueued(cfg, s, step, t);
    } else {
      assert step.Evict? || !Handles(s.actors[step.a], t);
      match step {
        case AdmitChild(a) => AdmitStaysQueued(cfg, s, a, t);
        case AdmitReplyLost(a) => AdmitStaysQueued(cfg, s, a, t);
        case UndoAdmission(a) => UnadmitQueued(s.store, s.actors[a].phase.child.id, t);
        case CompleteOwn(a) => CompleteQueued(s.store, s.now, s.actors[a].source.task.id, cfg.redis.lease, t);
        case CompleteReplyLost(a) => CompleteQueued(s.store, s.now, s.actors[a].source.task.id, cfg.redis.lease, t);
        case CleanUp(_) => KeysGoQueued(cfg, s, step, t);
        case Evict(_) => KeysGoQueued(cfg, s, step, t);
      }
    }
  }

  lemma {:induction false} AdmitStaysQueued(cfg: Settings, s: State, a: nat, t: TaskID)
    requires s.Queued(t) && AtSend(s, a)
    ensures AdmitStep(cfg, s, a).Queued(t)
  {
    var c := s.actors[a].phase.todo[0].id;
    AdmitQueued(s.store, s.now, c, cfg.redis.maxLinks(c.run), t);
  }

  /** While a task is queued, no completion of its run finds nothing left. */
  lemma {:induction false} NoFinish(cfg: Settings, s: State, step: Step, t: TaskID)
    requires TableOk(cfg, s, t.run) && Enabled(cfg, s, step) && Next(cfg, s, step).Queued(t)
    ensures Next(cfg, s, step).finishes[t.run] == s.finishes[t.run]
  {
    if step.CompleteOwn? {
      CompletionLeavesOne(cfg, s, step.a, t);
    } else {
      OnlyCompletionsFinish(cfg, s, step);
    }
  }

  lemma {:induction false} StartFinishesNothing(cfg: Settings, s: State, step: Step)
    requires Enabled(cfg, s, step) && (StartsWork(step) || !MovesOneActor(step))
    ensures Next(cfg, s, step).finishes == s.finishes
  {
  }

  lemma {:induction false} SendFinishesNothing(cfg: Settings, s: State, step: Step)
    requires Enabled(cfg, s, step) && SendsWork(step)
    ensures Next(cfg, s, step).finishes == s.finishes
  {
  }

  lemma {:induction false} EndFinishesNothing(cfg: Settings, s: State, step: Step)
    requires Enabled(cfg, s, step) && EndsWork(step) && !step.CompleteOwn?
    ensures Next(cfg, s, step).finishes == s.finishes
  {
  }

  lemma {:induction false} OnlyCompletionsFinish(cfg: Settings, s: State, step: Step)
    requires Enabled(cfg, s, step) && !step.CompleteOwn?
    ensures Next(cfg, s, step).finishes == s.finishes
  {
    if SendsWork(step) {
      SendFinishesNothing(cfg, s, step);
    } else if EndsWork(step) {
      EndFinishesNothing(cfg, s, step);
    } else {
      StartFinishesNothing(cfg, s, step);
    }
  }

  lemma {:induction false} CompletionLeavesOne(cfg: Settings, s: State, a: nat, t: TaskID)
    requires TableOk(cfg, s, t.run) && Enabled(cfg, s, CompleteOwn(a)) && CompleteStep(cfg, s, a).Queued(t)
    ensures CompleteStep(cfg, s, a).finishes[t.run] == s.finishes[t.run]
  {
    var u := s.actors[a].source.task.id;
    if u.run == t.run {
      CompleteTableOk(cfg, s, u, CompleteStep(cfg, s, a), t.run);
      QueuedLeavesActive(cfg.redis, CompleteStep(cfg, s, a).store, t);
      LeftIsActive(s.store, s.now, u, cfg.redis.lease);
    }
  }

  lemma {:induction false} QueuedLeavesActive(cfg: Config, s: Store, t: TaskID)
    requires CountersMatch(cfg, s, t.run) && s.IsQueued(t.run, t)
    ensures s.Active(t.run) >= 1
  {
    assert t in QueuedTasks(s.Tasks(t.run));
  }

  lemma {:induction false} LeftIsActive(s: Store, now: int, u: TaskID, lease: int)
    ensures var (s', reply) := Complete(s, now, u.run, u, lease); reply.counted ==> reply.left == s'.Active(u.run)
  {
  }

  lemma {:induction false} MoveKeepsOrphan(cfg: Settings, s: State, step: Step, t: TaskID)
    requires Orphaned(s, t) && Enabled(cfg, s, step) && MovesOneActor(step) && !EndsIncarnation(s, step, t.run)
    ensures Orphaned(Next(cfg, s, step), t)
  {
    StaysQueued(cfg, s, step, t);
    MoveShape(cfg, s, step);
    MoveHands(cfg, s, step, t);
    if step.Produce? {
      assert !Handles(s.actors[step.a], t);
    }
  }

  lemma {:induction false} OutsideKeepsOrphan(cfg: Settings, s: State, step: Step, t: TaskID)
    requires Orphaned(s, t) && Enabled(cfg, s, step) && !MovesOneActor(step) && !EndsIncarnation(s, step, t.run)
    requires !Redelivers(cfg, s, step, t)
    ensures Orphaned(Next(cfg, s, step), t)
  {
    StaysQueued(cfg, s, step, t);
    OutsideHandsKept(cfg, s, step, t);
    OutsideBuffer(cfg, s, step, t);
  }

  lemma {:induction false} DeliverHands(cfg: Settings, s: State, a: nat, n: nat, p: nat, late: bool, t: TaskID)
    requires Unhandled(s, t) && Enabled(cfg, s, Deliver(a, n, p, late))
    requires !Redelivers(cfg, s, Deliver(a, n, p, late), t)
    ensures Unhandled(Next(cfg, s, Deliver(a, n, p, late)), t)
  {
  }

  /** Workers stay where they are, let go, or have just started a run. */
  lemma {:induction false} NothingTakenUp(s: State, s': State, t: TaskID)
    requires Unhandled(s, t)
    requires forall a | a in s'.actors ::
      || (a in s.actors && (s'.actors[a] == s.actors[a] || TakesUpNothing(s.actors[a], s'.actors[a])))
      || (s'.actors[a].source.FromRun? && s'.actors[a].phase.Received?)
    ensures Unhandled(s', t)
  {
    forall a | a in s'.actors ensures !Handles(s'.actors[a], t) {
      assert a in s.actors ==> !Handles(s.actors[a], t);
    }
  }

  lemma {:induction false} CrashHands(cfg: Settings, s: State, n: nat, t: TaskID)
    requires Unhandled(s, t) && Enabled(cfg, s, Crash(n))
    ensures Unhandled(Next(cfg, s, Crash(n)), t)
  {
    NothingTakenUp(s, Next(cfg, s, Crash(n)), t);
  }

  lemma {:induction false} AckHands(cfg: Settings, s: State, a: nat, t: TaskID)
    requires Unhandled(s, t) && Enabled(cfg, s, Ack(a))
    ensures Unhandled(Next(cfg, s, Ack(a)), t)
  {
    NothingTakenUp(s, AckStep(s, a), t);
  }

  lemma {:induction false} RestHands(cfg: Settings, s: State, step: Step, t: TaskID)
    requires Unhandled(s, t) && Enabled(cfg, s, step)
    requires step.Tick? || step.StartRun? || step.Flush? || step.Dropped? || step.Rebalance? || step.Evict?
    ensures Unhandled(Next(cfg, s, step), t)
  {
    NothingTakenUp(s, Next(cfg, s, step), t);
  }

  lemma {:induction false} OutsideHandsKept(cfg: Settings, s: State, step: Step, t: TaskID)
    requires Unhandled(s, t) && Enabled(cfg, s, step) && !MovesOneActor(step) && !Redelivers(cfg, s, step, t)
    ensures Unhandled(Next(cfg, s, step), t)
  {
    match step {
      case Deliver(a, n, p, late) => DeliverHands(cfg, s, a, n, p, late, t);
      case Crash(n) => CrashHands(cfg, s, n, t);
      case Ack(a) => AckHands(cfg, s, a, t);
      case _ => RestHands(cfg, s, step, t);
    }
  }

  lemma {:induction false} OutsideBuffer(cfg: Settings, s: State, step: Step, t: TaskID)
    requires !Buffered(s, t) && Enabled(cfg, s, step) && !MovesOneActor(step)
    ensures !Buffered(Next(cfg, s, step), t)
  {
    if step.Flush? {
      FlushBuffer(cfg, s, step.node, step.task, step.partition, t);
    } else if !step.Dropped? {
      OutsideSameQueue(cfg, s, step);
    }
  }

  lemma {:induction false} FlushBuffer(cfg: Settings, s: State, n: nat, task: Task, p: nat, t: TaskID)
    requires !Buffered(s, t) && Enabled(cfg, s, Flush(n, task, p))
    ensures !Buffered(Next(cfg, s, Flush(n, task, p)), t)
  {
  }

  lemma {:induction false} StepKeepsOrphan(cfg: Settings, s: State, step: Step, t: TaskID)
    requires Orphaned(s, t) && Enabled(cfg, s, step) && !EndsIncarnation(s, step, t.run)
    requires !Redelivers(cfg, s, step, t)
    ensures Orphaned(Next(cfg, s, step), t)
  {
    if MovesOneActor(step) {
      MoveKeepsOrphan(cfg, s, step, t);
    } else {
      OutsideKeepsOrphan(cfg, s, step, t);
    }
  }

  // ---- Whole runs --------------------------------------------------------------------------

  /** A run of the system in which the keys of r stay. */
  ghost predicate KeyedRun(cfg: Settings, s: State, steps: seq<Step>, s': State, r: RunID)
    decreases |steps|
  {
    if steps == [] then s == s'
    else
      && Enabled(cfg, s, steps[0]) && !EndsIncarnation(s, steps[0], r)
      && KeyedRun(cfg, Next(cfg, s, steps[0]), steps[1..], s', r)
  }

  /** No step of the run delivers an old record of t. */
  ghost predicate NeverRedelivered(cfg: Settings, s: State, steps: seq<Step>, t: TaskID)
    decreases |steps|
  {
    steps != [] ==>
      && Enabled(cfg, s, steps[0]) && !Redelivers(cfg, s, steps[0], t)
      && NeverRedelivered(cfg, Next(cfg, s, steps[0]), steps[1..], t)
  }

  lemma {:induction false} RunKeepsOrphan(cfg: Settings, s: State, steps: seq<Step>, s': State, t: TaskID)
    requires Orphaned(s, t) && TableOk(cfg, s, t.run)
    requires KeyedRun(cfg, s, steps, s', t.run) && NeverRedelivered(cfg, s, steps, t)
    ensures Orphaned(s', t) && s'.finishes[t.run] == s.finishes[t.run]
    decreases |steps|
  {
    if steps != [] {
      StepKeepsOrphan(cfg, s, steps[0], t);
      NoFinish(cfg, s, steps[0], t);
      StepTableOk(cfg, s, steps[0], t.run);
      RunKeepsOrphan(cfg, Next(cfg, s, steps[0]), steps[1..], s', t);
    }
  }

  lemma {:induction false} FlushNoRecord(cfg: Settings, s: State, n: nat, task: Task, p: nat, t: TaskID)
    requires NoRecord(s, t) && !Buffered(s, t) && Enabled(cfg, s, Flush(n, task, p))
    ensures NoRecord(Next(cfg, s, Flush(n, task, p)), t)
  {
    var s' := Next(cfg, s, Flush(n, task, p));
    assert (n, task).1.id != t;
    forall q: nat, o: nat | o < |s'.Log(q)| ensures s'.Log(q)[o].id != t {
      assert o < |s.Log(q)| ==> s'.Log(q)[o] == s.Log(q)[o];
    }
  }

  lemma {:induction false} SameLogNoRecord(s: State, s': State, t: TaskID)
    requires NoRecord(s, t) && s'.log == s.log
    ensures NoRecord(s', t)
  {
    forall p: nat, o: nat | o < |s'.Log(p)| ensures s'.Log(p)[o].id != t {
      assert s'.Log(p) == s.Log(p);
    }
  }

  lemma {:induction false} StepNoRecord(cfg: Settings, s: State, step: Step, t: TaskID)
    requires NoRecord(s, t) && !Buffered(s, t) && Enabled(cfg, s, step)
    ensures NoRecord(Next(cfg, s, step), t) && !Redelivers(cfg, s, step, t)
  {
    if step.Flush? {
      FlushNoRecord(cfg, s, step.node, step.task, step.partition, t);
    } else {
      if MovesOneActor(step) {
        MoveShape(cfg, s, step);
      } else if !step.Dropped? {
        OutsideSameQueue(cfg, s, step);
      }
      SameLogNoRecord(s, Next(cfg, s, step), t);
    }
  }

  lemma {:induction false} NoRecordNoDelivery(cfg: Settings, s: State, steps: seq<Step>, s': State, t: TaskID)
    requires Orphaned(s, t) && NoRecord(s, t) && KeyedRun(cfg, s, steps, s', t.run)
    ensures NeverRedelivered(cfg, s, steps, t)
    decreases |steps|
  {
    if steps != [] {
      StepNoRecord(cfg, s, steps[0], t);
      StepKeepsOrphan(cfg, s, steps[0], t);
      NoRecordNoDelivery(cfg, Next(cfg, s, steps[0]), steps[1..], s', t);
    }
  }

  /** The task waits in the table for nobody: its run is not found finished while it does, and
      whoever wants to send it again is told Duplicate. */
  ghost predicate LostIn(cfg: Settings, s: State, s': State, t: TaskID) {
    && s'.Queued(t) && s'.finishes[t.run] == s.finishes[t.run]
    && forall a | AtSend(s', a) && s'.actors[a].phase.todo[0].id == t ::
         AdmitStep(cfg, s', a).store == s'.store && !AdmitStep(cfg, s', a).actors[a].phase.Producing?
  }

  /** A queued task that nobody handles stays queued, and its run unfinished, until the run's keys
      go or an old record of it is delivered again. */
  lemma {:induction false} LostForGood(cfg: Settings, before: seq<Step>, s: State, steps: seq<Step>, s': State,
      t: TaskID)
    requires FirstsOwn(cfg) && Run(cfg, Start, before, s) && Orphaned(s, t)
    requires KeyedRun(cfg, s, steps, s', t.run) && NeverRedelivered(cfg, s, steps, t)
    ensures LostIn(cfg, s, s', t)
  {
    EmptyTableOk(cfg, Start, t.run);
    RunTableOk(cfg, Start, before, s, t.run);
    RunKeepsOrphan(cfg, s, steps, s', t);
    forall a | AtSend(s', a) && s'.actors[a].phase.todo[0].id == t
      ensures AdmitStep(cfg, s', a).store == s'.store && !AdmitStep(cfg, s', a).actors[a].phase.Producing?
    {
      KnownIsDuplicate(cfg, s', a);
    }
  }

  // ---- The ways in which a worker loses a task ---------------------------------------------

  lemma {:induction false} PlainThen(cfg: Settings, s: State, steps: seq<Step>, p: State, step: Step)
    requires Run(cfg, s, steps, p) && Enabled(cfg, p, step)
    ensures Run(cfg, s, steps + [step], Next(cfg, p, step))
  {
    assert [step][1..] == [];
    PlainRunsJoin(cfg, s, steps, p, [step], Next(cfg, p, step));
  }

  lemma {:induction false} NobodyHandles(s: State, a: nat, t: TaskID)
    requires QueueOk(s) && NoRecord(s, t) && a in s.actors && !s.actors[a].Pending(t)
    ensures !Handles(s.actors[a], t)
  {
    assert RecordOk(s, s.actors[a]);
  }

  /** An admission of a new task takes effect and its answer is lost: while the run's keys stay
      the run is not found finished, whatever else happens. */
  lemma {:induction false} LostAdmissionIsLost(cfg: Settings, before: seq<Step>, s: State, a: nat, steps: seq<Step>,
      s': State)
    requires FirstsOwn(cfg) && Run(cfg, Start, before, s) && Enabled(cfg, s, AdmitReplyLost(a)) && Admits(cfg, s, a)
    requires var t := s.actors[a].phase.todo[0].id; !BeingSent(s, t) && !Buffered(s, t) && NoRecord(s, t)
    requires KeyedRun(cfg, Next(cfg, s, AdmitReplyLost(a)), steps, s', s.actors[a].phase.todo[0].id.run)
    ensures LostIn(cfg, s, s', s.actors[a].phase.todo[0].id)
  {
    var t := s.actors[a].phase.todo[0].id;
    var p := Next(cfg, s, AdmitReplyLost(a));
    AdmissionOrphans(cfg, before, s, a);
    NoRecordNoDelivery(cfg, p, steps, s', t);
    PlainThen(cfg, Start, before, s, AdmitReplyLost(a));
    LostForGood(cfg, before + [AdmitReplyLost(a)], p, steps, s', t);
  }

  /** The task is queued, and nothing but the table and worker a changes. */
  lemma {:induction false} AdmitReplyLostQueues(cfg: Settings, s: State, a: nat)
    requires Enabled(cfg, s, AdmitReplyLost(a)) && Admits(cfg, s, a)
    ensures var p := Next(cfg, s, AdmitReplyLost(a));
      && p.Queued(s.actors[a].phase.todo[0].id) && p.finishes == s.finishes && p.buffer == s.buffer
      && a in p.actors && p.actors == s.actors[a := p.actors[a]]
  {
  }

  lemma {:induction false} AdmissionOrphans(cfg: Settings, before: seq<Step>, s: State, a: nat)
    requires Run(cfg, Start, before, s) && Enabled(cfg, s, AdmitReplyLost(a)) && Admits(cfg, s, a)
    requires var t := s.actors[a].phase.todo[0].id; !BeingSent(s, t) && !Buffered(s, t) && NoRecord(s, t)
    ensures var p, t := Next(cfg, s, AdmitReplyLost(a)), s.actors[a].phase.todo[0].id;
      Orphaned(p, t) && NoRecord(p, t) && p.finishes == s.finishes
  {
    var t := s.actors[a].phase.todo[0].id;
    NobodyHandlesAny(cfg, before, s, t);
    SendHands(cfg, s, AdmitReplyLost(a));
    HandlesNothingNew(s.actors[a], Next(cfg, s, AdmitReplyLost(a)).actors[a], t);
    AdmitReplyLostQueues(cfg, s, a);
    StepNoRecord(cfg, s, AdmitReplyLost(a), t);
  }

  lemma {:induction false} NobodyHandlesAny(cfg: Settings, before: seq<Step>, s: State, t: TaskID)
    requires Run(cfg, Start, before, s) && !BeingSent(s, t) && NoRecord(s, t)
    ensures forall b | b in s.actors :: !Handles(s.actors[b], t)
  {
    StartIsQueueOk();
    RunKeepsQueue(cfg, Start, before, s);
    forall b | b in s.actors ensures !Handles(s.actors[b], t) {
      NobodyHandles(s, b, t);
    }
  }

  /** The undo of a failed send fails: likewise. */
  lemma {:induction false} FailedUndoIsLost(cfg: Settings, before: seq<Step>, s: State, a: nat, steps: seq<Step>,
      s': State)
    requires FirstsOwn(cfg) && Run(cfg, Start, before, s) && Enabled(cfg, s, UndoFailed(a))
    requires var t := s.actors[a].phase.child.id; s.Queued(t) && OnlySender(s, a, t) && NoRecord(s, t)
    requires KeyedRun(cfg, Next(cfg, s, UndoFailed(a)), steps, s', s.actors[a].phase.child.id.run)
    ensures LostIn(cfg, s, s', s.actors[a].phase.child.id)
  {
    var t := s.actors[a].phase.child.id;
    var p := Next(cfg, s, UndoFailed(a));
    UndoOrphans(cfg, before, s, a);
    NoRecordNoDelivery(cfg, p, steps, s', t);
    PlainThen(cfg, Start, before, s, UndoFailed(a));
    LostForGood(cfg, before + [UndoFailed(a)], p, steps, s', t);
  }

  lemma {:induction false} UndoOrphans(cfg: Settings, before: seq<Step>, s: State, a: nat)
    requires Run(cfg, Start, before, s) && Enabled(cfg, s, UndoFailed(a))
    requires var t := s.actors[a].phase.child.id; s.Queued(t) && OnlySender(s, a, t) && NoRecord(s, t)
    ensures var p, t := Next(cfg, s, UndoFailed(a)), s.actors[a].phase.child.id;
      Orphaned(p, t) && NoRecord(p, t) && p.finishes == s.finishes
  {
    var t := s.actors[a].phase.child.id;
    var p := Next(cfg, s, UndoFailed(a));
    StepNoRecord(cfg, s, UndoFailed(a), t);
    PlainThen(cfg, Start, before, s, UndoFailed(a));
    NobodyHandlesAny(cfg, before + [UndoFailed(a)], p, t);
  }

  /** The last payload of a queued task is dropped: likewise. */
  lemma {:induction false} DropIsLost(cfg: Settings, before: seq<Step>, s: State, n: nat, task: Task, steps: seq<Step>,
      s': State)
    requires FirstsOwn(cfg) && Run(cfg, Start, before, s) && Enabled(cfg, s, Dropped(n, task))
    requires s.Queued(task.id) && LastPayload(s, n, task) && NoRecord(s, task.id)
    requires KeyedRun(cfg, Next(cfg, s, Dropped(n, task)), steps, s', task.id.run)
    ensures LostIn(cfg, s, s', task.id)
  {
    var p := Next(cfg, s, Dropped(n, task));
    DropOrphans(cfg, before, s, n, task);
    NoRecordNoDelivery(cfg, p, steps, s', task.id);
    PlainThen(cfg, Start, before, s, Dropped(n, task));
    LostForGood(cfg, before + [Dropped(n, task)], p, steps, s', task.id);
  }

  lemma {:induction false} DropOrphans(cfg: Settings, before: seq<Step>, s: State, n: nat, task: Task)
    requires Run(cfg, Start, before, s) && Enabled(cfg, s, Dropped(n, task))
    requires s.Queued(task.id) && LastPayload(s, n, task) && NoRecord(s, task.id)
    ensures var p := Next(cfg, s, Dropped(n, task)); Orphaned(p, task.id) && NoRecord(p, task.id)
  {
    var p := Next(cfg, s, Dropped(n, task));
    SameLogNoRecord(s, p, task.id);
    PlainThen(cfg, Start, before, s, Dropped(n, task));
    NobodyHandlesAny(cfg, before + [Dropped(n, task)], p, task.id);
  }

  /** The node of the last senders of a queued task crashes: likewise. */
  lemma {:induction false} CrashIsLost(cfg: Settings, before: seq<Step>, s: State, n: nat, t: TaskID,
      steps: seq<Step>, s': State)
    requires FirstsOwn(cfg) && Run(cfg, Start, before, s) && Enabled(cfg, s, Crash(n))
    requires s.Queued(t) && SendsOnlyOn(s, n, t) && NoRecord(s, t)
    requires KeyedRun(cfg, Next(cfg, s, Crash(n)), steps, s', t.run)
    ensures LostIn(cfg, s, s', t)
  {
    var p := Next(cfg, s, Crash(n));
    CrashOrphans(cfg, before, s, n, t);
    NoRecordNoDelivery(cfg, p, steps, s', t);
    PlainThen(cfg, Start, before, s, Crash(n));
    LostForGood(cfg, before + [Crash(n)], p, steps, s', t);
  }

  lemma {:induction false} CrashOrphans(cfg: Settings, before: seq<Step>, s: State, n: nat, t: TaskID)
    requires Run(cfg, Start, before, s) && Enabled(cfg, s, Crash(n))
    requires s.Queued(t) && SendsOnlyOn(s, n, t) && NoRecord(s, t)
    ensures var p := Next(cfg, s, Crash(n)); Orphaned(p, t) && NoRecord(p, t)
  {
    var p := Next(cfg, s, Crash(n));
    SameLogNoRecord(s, p, t);
    CrashLoses(cfg, s, n, t);
    PlainThen(cfg, Start, before, s, Crash(n));
    NobodyHandlesAny(cfg, before + [Crash(n)], p, t);
  }

  /** A worker reads the state of its queued task after the lease has lapsed, and nobody else
      handles the task: it is lost for good unless an old record of it is delivered again. */
  lemma {:induction false} LapsedLeaseIsLost(cfg: Settings, before: seq<Step>, s: State, a: nat, steps: seq<Step>,
      s': State)
    requires FirstsOwn(cfg) && Run(cfg, Start, before, s) && Enabled(cfg, s, ReadState(a))
    requires var t := s.actors[a].source.task.id;
      && s.Queued(t) && !s.store.Live(t.run, s.now) && !Buffered(s, t)
      && forall b | b in s.actors && b != a :: !Handles(s.actors[b], t)
    requires KeyedRun(cfg, Next(cfg, s, ReadState(a)), steps, s', s.actors[a].source.task.id.run)
    requires NeverRedelivered(cfg, Next(cfg, s, ReadState(a)), steps, s.actors[a].source.task.id)
    ensures LostIn(cfg, s, s', s.actors[a].source.task.id)
  {
    PlainThen(cfg, Start, before, s, ReadState(a));
    LostForGood(cfg, before + [ReadState(a)], Next(cfg, s, ReadState(a)), steps, s', s.actors[a].source.task.id);
  }

  // ---- Runs that get there -----------------------------------------------------------------

  lemma {:induction false} FirstIsAdmitted(cfg: Settings, s: State, r: RunID)
    requires CanCrawl(cfg, r) && 0 in s.actors
      && s.actors[0] == Actor(0, FromRun(r), Sending([Task(cfg.first(r), 0)], false))
    requires s.store.Live(r, s.now) && s.store.Tasks(r) == map[] && s.store.Links(r) == 0
    ensures Admits(cfg, s, 0)
  {
  }

  /** From the start: the first task of a run is admitted, and the answer is lost. */
  lemma {:induction false} FirstAdmissionLost(cfg: Settings, r: RunID) returns (before: seq<Step>, s: State)
    requires CanCrawl(cfg, r)
    ensures Run(cfg, Start, before, s) && Orphaned(s, cfg.first(r)) && NoRecord(s, cfg.first(r))
  {
    var p;
    before, p := StarterAcquires(cfg, Start, 0, r);
    IsARun(cfg, Start, before, p, r, {Waiting});
    FirstIsAdmitted(cfg, p, r);
    assert NoRecord(p, cfg.first(r));
    AdmissionOrphans(cfg, before, p, 0);
    RunThen(cfg, Start, before, p, AdmitReplyLost(0), r, {Waiting});
    before, s := before + [AdmitReplyLost(0)], Next(cfg, p, AdmitReplyLost(0));
  }

  lemma {:induction false} FirstIsUndoing(cfg: Settings, s: State, r: RunID)
    requires cfg.first(r).run == r && Books(s, r, map[cfg.first(r) := Queued], 1, 0) && OnlySends(s, 0) && 0 in s.actors
    requires s.actors[0] == Actor(0, FromRun(r), Producing(Task(cfg.first(r), 0), [], false))
    requires s.log == map[] && s.buffer == multiset{}
    ensures Enabled(cfg, s, ProduceFailed(0))
    ensures var p := Next(cfg, s, ProduceFailed(0));
      && Enabled(cfg, p, UndoFailed(0)) && p.actors[0].phase.child.id == cfg.first(r)
      && p.Queued(cfg.first(r)) && OnlySender(p, 0, cfg.first(r)) && NoRecord(p, cfg.first(r))
  {
  }

  /** From the start: the first task of a run cannot be produced, and its admission not undone. */
  lemma {:induction false} FirstUndoFailed(cfg: Settings, r: RunID) returns (before: seq<Step>, s: State)
    requires CanCrawl(cfg, r)
    ensures Run(cfg, Start, before, s) && Orphaned(s, cfg.first(r)) && NoRecord(s, cfg.first(r))
  {
    var p;
    before, p := FirstAsked(cfg, r);
    var q := Next(cfg, p, ProduceFailed(0));
    RunThen(cfg, Start, before, p, ProduceFailed(0), r, {Waiting});
    before := before + [ProduceFailed(0)];
    FirstIsUndoing(cfg, p, r);
    UndoOrphans(cfg, before, q, 0);
    PlainThen(cfg, Start, before, q, UndoFailed(0));
    before, s := before + [UndoFailed(0)], Next(cfg, q, UndoFailed(0));
  }

  lemma {:induction false} FirstIsBuffered(cfg: Settings, s: State, r: RunID)
    requires cfg.first(r).run == r && Books(s, r, map[cfg.first(r) := Queued], 1, 0) && OnlySends(s, 0) && 0 in s.actors
    requires s.actors[0] == Actor(0, FromRun(r), Producing(Task(cfg.first(r), 0), [], false))
    requires s.log == map[] && s.buffer == multiset{}
    ensures Enabled(cfg, s, Produce(0))
    ensures var p, task := Next(cfg, s, Produce(0)), Task(cfg.first(r), 0);
      Enabled(cfg, p, Dropped(0, task)) && p.Queued(task.id) && LastPayload(p, 0, task) && NoRecord(p, task.id)
  {
    var p := Next(cfg, s, Produce(0));
    assert p.buffer == multiset{(0, Task(cfg.first(r), 0))};
    assert p.buffer - multiset{(0, Task(cfg.first(r), 0))} == multiset{};
  }

  /** From the start: the flush of the first task of a run fails. */
  lemma {:induction false} FirstDropped(cfg: Settings, r: RunID) returns (before: seq<Step>, s: State)
    requires CanCrawl(cfg, r)
    ensures Run(cfg, Start, before, s) && Orphaned(s, cfg.first(r)) && NoRecord(s, cfg.first(r))
  {
    var p;
    before, p := FirstAsked(cfg, r);
    var q, task := Next(cfg, p, Produce(0)), Task(cfg.first(r), 0);
    FirstIsBuffered(cfg, p, r);
    RunThen(cfg, Start, before, p, Produce(0), r, {Waiting});
    before := before + [Produce(0)];
    DropOrphans(cfg, before, q, 0, task);
    PlainThen(cfg, Start, before, q, Dropped(0, task));
    before, s := before + [Dropped(0, task)], Next(cfg, q, Dropped(0, task));
  }

  lemma {:induction false} FirstIsOnNode(cfg: Settings, s: State, r: RunID)
    requires cfg.first(r).run == r && Books(s, r, map[cfg.first(r) := Queued], 1, 0) && OnlySends(s, 0) && 0 in s.actors
    requires s.actors[0] == Actor(0, FromRun(r), Producing(Task(cfg.first(r), 0), [], false))
    requires s.log == map[] && s.buffer == multiset{}
    ensures Enabled(cfg, s, Crash(0)) && s.Queued(cfg.first(r)) && SendsOnlyOn(s, 0, cfg.first(r))
    ensures NoRecord(s, cfg.first(r))
  {
    assert s.actors[0].Pending(cfg.first(r));
  }

  /** From the start: the node crashes between the admission of the first task and its message. */
  lemma {:induction false} FirstCrashed(cfg: Settings, r: RunID) returns (before: seq<Step>, s: State)
    requires CanCrawl(cfg, r)
    ensures Run(cfg, Start, before, s) && Orphaned(s, cfg.first(r)) && NoRecord(s, cfg.first(r))
  {
    var p;
    before, p := FirstAsked(cfg, r);
    FirstIsOnNode(cfg, p, r);
    IsARun(cfg, Start, before, p, r, {Waiting});
    CrashOrphans(cfg, before, p, 0, cfg.first(r));
    PlainThen(cfg, Start, before, p, Crash(0));
    before, s := before + [Crash(0)], Next(cfg, p, Crash(0));
  }

  /** From the start: the lease lapses before the worker that has the first task reads its state. */
  lemma {:induction false} FirstLeaseLapsed(cfg: Settings, r: RunID) returns (before: seq<Step>, s: State)
    requires CanCrawl(cfg, r)
    ensures Run(cfg, Start, before, s) && Orphaned(s, cfg.first(r))
  {
    var p;
    before, p := FirstPublished(cfg, r);
    IsARun(cfg, Start, before, p, r, {Waiting});
    s := LeaseLapses(cfg, p, r);
    var more :| Run(cfg, p, more, s);
    PlainRunsJoin(cfg, Start, before, p, more, s);
    before := before + more;
  }

  lemma {:induction false} LeaseLapses(cfg: Settings, p: State, r: RunID) returns (s: State)
    requires cfg.first(r).run == r && Published(cfg, p, r)
    ensures Leads(cfg, p, s) && Orphaned(s, cfg.first(r))
  {
    var steps, q := FirstDelivered(cfg, p, 1, r);
    IsARun(cfg, p, steps, q, r, {Waiting});
    s := ComesLate(cfg, p, q, r);
    LeadsOn(cfg, p, q, s);
  }

  /** At the end of the lease worker 1 reads the state and settles the record. */
  lemma {:induction false} ComesLate(cfg: Settings, p: State, s: State, r: RunID) returns (s': State)
    requires cfg.first(r).run == r && Published(cfg, p, r) && On(s, 1, Task(cfg.first(r), 0), Received)
    requires s == p.(groups := s.groups, actors := s.actors) && s.actors == p.actors[1 := s.actors[1]]
    ensures Leads(cfg, s, s') && Orphaned(s', cfg.first(r))
  {
    var q := s.(now := s.store.slots[r]);
    StepLeads(cfg, s, Tick(s.store.slots[r]));
    StepLeads(cfg, q, ReadState(1));
    s' := Next(cfg, q, ReadState(1));
    LeadsOn(cfg, s, q, s');
    SettledLate(cfg, p, q, r);
  }

  lemma {:induction false} SettledLate(cfg: Settings, p: State, s: State, r: RunID)
    requires cfg.first(r).run == r && Published(cfg, p, r) && On(s, 1, Task(cfg.first(r), 0), Received)
    requires s == p.(groups := s.groups, actors := s.actors, now := s.now) && s.actors == p.actors[1 := s.actors[1]]
    requires !s.store.Live(r, s.now)
    ensures Enabled(cfg, s, ReadState(1)) && Orphaned(Next(cfg, s, ReadState(1)), cfg.first(r))
  {
    assert Next(cfg, s, ReadState(1)) == Move(s, 1, Acking(false));
  }
}
