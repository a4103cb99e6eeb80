/** Settings under which a run cannot go on after its finish, whatever else happens: it never gets a
    live slot, or has room for one link only, or for the first level only. Together with `Restarts`
    this says exactly when runs stay finished, under all settings. */
module Narrow {
  import opened RunState
  import opened Protocol
  import opened NoLostWork
  import opened Termination
  import opened Restarts
  import opened LostWork

  // ---- Depth: only the first task of a run is on the first level -------------------------------

  ghost predicate FirstOnTop(cfg: Settings, todo: seq<Task>) {
    forall c | c in todo :: c.depth == 0 ==> c.id == cfg.first(c.id.run)
  }

  ghost predicate PhaseOnTop(cfg: Settings, f: Phase) {
    match f
    case Sending(todo, _) => FirstOnTop(cfg, todo)
    case Producing(_, todo, _) => FirstOnTop(cfg, todo)
    case Undoing(_, todo, _) => FirstOnTop(cfg, todo)
    case _ => true
  }

  ghost predicate ActorsOnTop(cfg: Settings, s: State) {
    forall a | a in s.actors :: PhaseOnTop(cfg, s.actors[a].phase)
  }

  lemma {:induction false} StartOnTop(cfg: Settings, s: State, step: Step)
    requires FirstsOwn(cfg) && Enabled(cfg, s, step) && StartsWork(step)
    ensures PhaseOnTop(cfg, Next(cfg, s, step).actors[step.a].phase)
  {
  }

  lemma {:induction false} SendOnTop(cfg: Settings, s: State, step: Step)
    requires Enabled(cfg, s, step) && SendsWork(step) && !step.AdmitChild?
    requires PhaseOnTop(cfg, s.actors[step.a].phase)
    ensures PhaseOnTop(cfg, Next(cfg, s, step).actors[step.a].phase)
  {
  }

  lemma {:induction false} AdmitOnTop(cfg: Settings, s: State, a: nat)
    requires AtSend(s, a) && PhaseOnTop(cfg, s.actors[a].phase)
    ensures PhaseOnTop(cfg, AdmitStep(cfg, s, a).actors[a].phase)
  {
  }

  lemma {:induction false} EndOnTop(cfg: Settings, s: State, step: Step)
    requires Enabled(cfg, s, step) && EndsWork(step)
    ensures PhaseOnTop(cfg, Next(cfg, s, step).actors[step.a].phase)
  {
    EndSendsNothing(cfg, s, step);
  }

  lemma {:induction false} EndSendsNothing(cfg: Settings, s: State, step: Step)
    requires Enabled(cfg, s, step) && EndsWork(step)
    ensures var f := Next(cfg, s, step).actors[step.a].phase; f.Acking? || f.Cleaning? || f.Gone?
  {
  }

  lemma {:induction false} MoveOnTop(cfg: Settings, s: State, step: Step)
    requires FirstsOwn(cfg) && ActorsOnTop(cfg, s) && Enabled(cfg, s, step) && MovesOneActor(step)
    ensures ActorsOnTop(cfg, Next(cfg, s, step))
  {
    MoveShape(cfg, s, step);
    assert PhaseOnTop(cfg, s.actors[step.a].phase);
    if step.AdmitChild? {
      AdmitOnTop(cfg, s, step.a);
    } else if StartsWork(step) {
      StartOnTop(cfg, s, step);
    } else if SendsWork(step) {
      SendOnTop(cfg, s, step);
    } else {
      EndOnTop(cfg, s, step);
    }
  }

  lemma {:induction false} StepOnTop(cfg: Settings, s: State, step: Step)
    requires FirstsOwn(cfg) && ActorsOnTop(cfg, s) && Enabled(cfg, s, step)
    ensures ActorsOnTop(cfg, Next(cfg, s, step))
  {
    if MovesOneActor(step) {
      MoveOnTop(cfg, s, step);
    } else {
      forall b | b in Next(cfg, s, step).actors ensures PhaseOnTop(cfg, Next(cfg, s, step).actors[b].phase) {
        OutsideActor(cfg, s, step, b);
        assert b in s.actors ==> PhaseOnTop(cfg, s.actors[b].phase);
      }
    }
  }

  // ---- Leases: none is ever live -------------------------------------------------------------

  ghost predicate NoneLive(s: State) {
    forall q | q in s.store.slots :: s.store.slots[q] <= s.now
  }

  predicate NoLease(cfg: Settings) {
    cfg.redis.maxConcurrent == 0 || cfg.redis.lease == 0
  }

  lemma {:induction false} NothingToRenew(s: State, q: RunID, lease: int)
    requires NoneLive(s)
    ensures Renew(s.store, s.now, q, lease) == s.store
  {
  }

  lemma {:induction false} AcquiredDead(cfg: Settings, s: State, a: nat)
    requires NoLease(cfg) && NoneLive(s) && Enabled(cfg, s, AcquireSlot(a))
    ensures NoneLive(Next(cfg, s, AcquireSlot(a)))
  {
    assert s.store.slots - Expired(s.store.slots, s.now) == map[];
  }

  lemma {:induction false} CompletedDead(cfg: Settings, s: State, a: nat)
    requires NoneLive(s) && a in s.actors && s.actors[a].source.FromQueue?
    ensures CompleteStep(cfg, s, a).store.slots == s.store.slots
  {
  }

  lemma {:induction false} StartDead(cfg: Settings, s: State, step: Step)
    requires NoneLive(s) && Enabled(cfg, s, step) && StartsWork(step) && !step.AcquireSlot?
    ensures Next(cfg, s, step).store == s.store && Next(cfg, s, step).now == s.now
  {
    if step.ReadState? || step.ReadStateFailed? {
      NothingToRenew(s, s.actors[step.a].source.task.id.run, cfg.redis.lease);
    }
  }

  lemma {:induction false} AdmitSlots(cfg: Settings, s: State, a: nat)
    requires AtSend(s, a)
    ensures AdmitStep(cfg, s, a).store.slots == s.store.slots
  {
  }

  lemma {:induction false} UndoSlots(s: Store, c: TaskID)
    ensures Unadmit(s, c.run, c).slots == s.slots
  {
  }

  lemma {:induction false} OtherSendSlots(cfg: Settings, s: State, step: Step)
    requires Enabled(cfg, s, step) && SendsWork(step) && !ChangesTables(step)
    ensures Next(cfg, s, step).store == s.store
  {
  }

  lemma {:induction false} SendDead(cfg: Settings, s: State, step: Step)
    requires Enabled(cfg, s, step) && SendsWork(step)
    ensures Next(cfg, s, step).store.slots == s.store.slots && Next(cfg, s, step).now == s.now
  {
    SameClock(cfg, s, step);
    if !ChangesTables(step) {
      OtherSendSlots(cfg, s, step);
    } else if step.UndoAdmission? {
      UndoSlots(s.store, s.actors[step.a].phase.child.id);
    } else {
      AdmitSlots(cfg, s, step.a);
    }
  }

  lemma {:induction false} SameClock(cfg: Settings, s: State, step: Step)
    requires Enabled(cfg, s, step) && SendsWork(step)
    ensures Next(cfg, s, step).now == s.now
  {
  }

  lemma {:induction false} EndDead(cfg: Settings, s: State, step: Step)
    requires NoneLive(s) && Enabled(cfg, s, step) && EndsWork(step)
    ensures NoneLive(Next(cfg, s, step))
  {
    if step.CompleteOwn? || step.CompleteReplyLost? {
      CompletedDead(cfg, s, step.a);
    }
  }

  lemma {:induction false} OutsideDead(cfg: Settings, s: State, step: Step)
    requires NoneLive(s) && Enabled(cfg, s, step) && !MovesOneActor(step)
    ensures NoneLive(Next(cfg, s, step))
  {
  }

  lemma {:induction false} StepDead(cfg: Settings, s: State, step: Step)
    requires NoLease(cfg) && NoneLive(s) && Enabled(cfg, s, step)
    ensures NoneLive(Next(cfg, s, step))
  {
    if !MovesOneActor(step) {
      OutsideDead(cfg, s, step);
    } else if step.AcquireSlot? {
      AcquiredDead(cfg, s, step.a);
    } else if StartsWork(step) {
      StartDead(cfg, s, step);
    } else if SendsWork(step) {
      SendDead(cfg, s, step);
    } else {
      EndDead(cfg, s, step);
    }
  }

  // ---- A table of one task -------------------------------------------------------------------

  /** With a task in the table, the admission script admits no other. */
  ghost predicate NoSecond(cfg: Settings, s: State, r: RunID) {
    forall a | AtSend(s, a) && s.actors[a].phase.todo[0].id.run == r && s.store.Tasks(r) != map[] ::
      AdmitStep(cfg, s, a).store == s.store && !AdmitStep(cfg, s, a).actors[a].phase.Producing?
  }

  /** At most one task is in the table, and once the finish is counted, it is done. */
  ghost predicate OneAtMost(s: State, r: RunID, past: nat) {
    && |s.store.Tasks(r)| <= 1 && past <= s.finishes[r] <= past + 1
    && (s.finishes[r] > past ==> s.store.Tasks(r) != map[] && NothingQueued(s, r))
  }

  lemma {:induction false} AdmitIntoEmpty(s: Store, now: int, c: TaskID, maxLinks: int)
    requires s.Tasks(c.run) == map[]
    ensures var table := Admit(s, now, c.run, c, maxLinks).0.Tasks(c.run); table == map[] || table == map[c := Queued]
  {
  }

  lemma {:induction false} AdmitStore(cfg: Settings, s: State, a: nat)
    requires AtSend(s, a)
    ensures var c, s' := s.actors[a].phase.todo[0], AdmitStep(cfg, s, a).store;
      s' == s.store || s' == Admit(s.store, s.now, c.id.run, c.id, cfg.redis.maxLinks(c.id.run)).0
  {
  }

  lemma {:induction false} AdmitOne(cfg: Settings, s: State, a: nat, s': State, r: RunID, past: nat)
    requires OneAtMost(s, r, past) && NoSecond(cfg, s, r) && AtSend(s, a)
    requires s'.store == AdmitStep(cfg, s, a).store && s'.finishes == s.finishes
    ensures OneAtMost(s', r, past)
  {
    var c := s.actors[a].phase.todo[0].id;
    AdmitStore(cfg, s, a);
    if c.run != r {
      AdmitElsewhere(s.store, s.now, c, cfg.redis.maxLinks(c.run), r);
    } else if s.store.Tasks(r) == map[] {
      AdmitIntoEmpty(s.store, s.now, c, cfg.redis.maxLinks(r));
    }
  }

  lemma {:induction false} UndoOne(s: State, c: TaskID, s': State, r: RunID, past: nat)
    requires OneAtMost(s, r, past) && s'.store == Unadmit(s.store, c.run, c) && s'.finishes == s.finishes
    ensures OneAtMost(s', r, past)
  {
    if c.run == r && s.Queued(c) {
      assert s'.store.Tasks(r) == s.store.Tasks(r) - {c};
      OnlyKey(s.store.Tasks(r), c);
    }
  }

  lemma {:induction false} OnlyKey(table: map<TaskID, Status>, c: TaskID)
    requires |table| <= 1 && c in table
    ensures table.Keys == {c}
  {
    forall t | t in table ensures t == c {
      if t != c {
        CardinalityMonotone({t, c}, table.Keys);
      }
    }
  }

  lemma {:induction false} CompleteOne(cfg: Settings, s: State, c: TaskID, s': State, r: RunID, past: nat)
    requires OneAtMost(s, r, past) && s'.store == Complete(s.store, s.now, c.run, c, cfg.redis.lease).0
    requires s'.finishes[r] == s.finishes[r]
      || (s'.finishes[r] == s.finishes[r] + 1 && c.run == r && s.Queued(c))
    ensures OneAtMost(s', r, past)
  {
    if c.run == r && s.Queued(c) {
      OnlyKey(s.store.Tasks(r), c);
      assert s'.store.Tasks(r) == s.store.Tasks(r)[c := Done];
      assert s'.store.Tasks(r).Keys == {c};
    } else {
      assert s'.store.Tasks(r) == s.store.Tasks(r);
    }
  }

  lemma {:induction false} CompletionCounts(cfg: Settings, s: State, a: nat, r: RunID)
    requires Enabled(cfg, s, CompleteOwn(a))
    ensures var s', c := CompleteStep(cfg, s, a), s.actors[a].source.task.id;
      s'.finishes[r] == s.finishes[r] || (s'.finishes[r] == s.finishes[r] + 1 && c.run == r && s.Queued(c))
  {
  }

  lemma {:induction false} QuietOne(cfg: Settings, s: State, step: Step, r: RunID, past: nat)
    requires OneAtMost(s, r, past) && Enabled(cfg, s, step) && !ChangesTables(step)
    ensures OneAtMost(Next(cfg, s, step), r, past)
  {
    QuietTables(cfg, s, step, r);
    OnlyCompletionsFinish(cfg, s, step);
  }

  lemma {:induction false} KeysGoOne(cfg: Settings, s: State, step: Step, r: RunID, past: nat)
    requires OneAtMost(s, r, past) && Enabled(cfg, s, step) && (step.CleanUp? || step.Evict?)
    requires !EndsIncarnation(s, step, r)
    ensures OneAtMost(Next(cfg, s, step), r, past)
  {
    OnlyCompletionsFinish(cfg, s, step);
    CleanupTable(s.store, if step.Evict? then step.r else s.actors[step.a].RunOf(), r);
  }

  lemma {:induction false} SendOne(cfg: Settings, s: State, step: Step, r: RunID, past: nat)
    requires OneAtMost(s, r, past) && NoSecond(cfg, s, r) && Enabled(cfg, s, step)
    requires step.AdmitChild? || step.AdmitReplyLost? || step.UndoAdmission?
    ensures OneAtMost(Next(cfg, s, step), r, past)
  {
    OnlyCompletionsFinish(cfg, s, step);
    if step.UndoAdmission? {
      UndoOne(s, s.actors[step.a].phase.child.id, Next(cfg, s, step), r, past);
    } else {
      AdmitOne(cfg, s, step.a, Next(cfg, s, step), r, past);
    }
  }

  lemma {:induction false} EndOne(cfg: Settings, s: State, step: Step, r: RunID, past: nat)
    requires OneAtMost(s, r, past) && Enabled(cfg, s, step) && (step.CompleteOwn? || step.CompleteReplyLost?)
    ensures OneAtMost(Next(cfg, s, step), r, past)
  {
    if step.CompleteOwn? {
      CompletionCounts(cfg, s, step.a, r);
    }
    CompleteOne(cfg, s, s.actors[step.a].source.task.id, Next(cfg, s, step), r, past);
  }

  lemma {:induction false} StepOne(cfg: Settings, s: State, step: Step, r: RunID, past: nat)
    requires OneAtMost(s, r, past) && NoSecond(cfg, s, r) && Enabled(cfg, s, step) && !EndsIncarnation(s, step, r)
    ensures OneAtMost(Next(cfg, s, step), r, past)
  {
    if !ChangesTables(step) {
      QuietOne(cfg, s, step, r, past);
    } else if step.CleanUp? || step.Evict? {
      KeysGoOne(cfg, s, step, r, past);
    } else if step.CompleteOwn? || step.CompleteReplyLost? {
      EndOne(cfg, s, step, r, past);
    } else {
      SendOne(cfg, s, step, r, past);
    }
  }

  // ---- The three kinds of settings -----------------------------------------------------------

  /** The table holds the first task, or nothing. */
  ghost predicate FirstOnly(cfg: Settings, s: State, r: RunID) {
    s.store.Tasks(r).Keys <= {cfg.first(r)}
  }

  /** Why no second task gets in. */
  ghost predicate Alone(cfg: Settings, s: State, r: RunID) {
    || cfg.redis.maxLinks(r) <= 1
    || (cfg.maxDepth(r) <= 1 && FirstOnly(cfg, s, r) && ActorsOnTop(cfg, s))
    || (NoLease(cfg) && NoneLive(s))
  }

  lemma {:induction false} FullIsFull(cfg: Settings, s: State, a: nat, r: RunID)
    requires TableOk(cfg, s, r) && cfg.redis.maxLinks(r) <= 1 && s.store.Tasks(r) != map[]
    requires AtSend(s, a) && s.actors[a].phase.todo[0].id.run == r
    ensures AdmitStep(cfg, s, a).store == s.store && !AdmitStep(cfg, s, a).actors[a].phase.Producing?
  {
    var t :| t in s.store.Tasks(r);
    assert t in s.store.Tasks(r).Keys;
  }

  lemma {:induction false} NotLiveIsInactive(cfg: Settings, s: State, a: nat)
    requires NoneLive(s) && AtSend(s, a)
    ensures AdmitStep(cfg, s, a).store == s.store && !AdmitStep(cfg, s, a).actors[a].phase.Producing?
  {
  }

  lemma {:induction false} TooDeepOrKnown(cfg: Settings, s: State, a: nat, r: RunID)
    requires cfg.maxDepth(r) <= 1 && FirstOnly(cfg, s, r) && ActorsOnTop(cfg, s) && s.store.Tasks(r) != map[]
    requires AtSend(s, a) && s.actors[a].phase.todo[0].id.run == r
    ensures AdmitStep(cfg, s, a).store == s.store && !AdmitStep(cfg, s, a).actors[a].phase.Producing?
  {
    var c := s.actors[a].phase.todo[0];
    assert PhaseOnTop(cfg, s.actors[a].phase) && c in s.actors[a].phase.todo;
    var t :| t in s.store.Tasks(r);
    assert t in s.store.Tasks(r).Keys;
    if c.depth == 0 {
      KnownIsDuplicate(cfg, s, a);
    }
  }

  lemma {:induction false} AloneIsNoSecond(cfg: Settings, s: State, r: RunID)
    requires TableOk(cfg, s, r) && Alone(cfg, s, r)
    ensures NoSecond(cfg, s, r)
  {
    forall a | AtSend(s, a) && s.actors[a].phase.todo[0].id.run == r && s.store.Tasks(r) != map[]
      ensures AdmitStep(cfg, s, a).store == s.store && !AdmitStep(cfg, s, a).actors[a].phase.Producing?
    {
      if cfg.redis.maxLinks(r) <= 1 {
        FullIsFull(cfg, s, a, r);
      } else if NoLease(cfg) && NoneLive(s) {
        NotLiveIsInactive(cfg, s, a);
      } else {
        TooDeepOrKnown(cfg, s, a, r);
      }
    }
  }

  lemma {:induction false} AdmitFirstOnly(cfg: Settings, s: State, a: nat, r: RunID)
    requires cfg.maxDepth(r) <= 1 && FirstOnly(cfg, s, r) && ActorsOnTop(cfg, s) && AtSend(s, a)
    ensures FirstOnly(cfg, AdmitStep(cfg, s, a), r)
  {
    var c := s.actors[a].phase.todo[0];
    assert PhaseOnTop(cfg, s.actors[a].phase) && c in s.actors[a].phase.todo;
  }

  lemma {:induction false} UndoKeys(s: Store, c: TaskID, r: RunID)
    ensures Unadmit(s, c.run, c).Tasks(r).Keys <= s.Tasks(r).Keys
  {
  }

  lemma {:induction false} CompleteKeys(s: Store, now: int, c: TaskID, lease: int, r: RunID)
    ensures Complete(s, now, c.run, c, lease).0.Tasks(r).Keys == s.Tasks(r).Keys
  {
    if c.run == r && s.IsQueued(r, c) {
      assert s.Tasks(r)[c := Done].Keys == s.Tasks(r).Keys;
    }
  }

  lemma {:induction false} ChangeFirstOnly(cfg: Settings, s: State, step: Step, r: RunID)
    requires FirstOnly(cfg, s, r) && Enabled(cfg, s, step) && ChangesTables(step)
    requires !step.AdmitChild? && !step.AdmitReplyLost?
    ensures FirstOnly(cfg, Next(cfg, s, step), r)
  {
    match step {
      case UndoAdmission(a) => UndoKeys(s.store, s.actors[a].phase.child.id, r);
      case CompleteOwn(a) => CompleteKeys(s.store, s.now, s.actors[a].source.task.id, cfg.redis.lease, r);
      case CompleteReplyLost(a) => CompleteKeys(s.store, s.now, s.actors[a].source.task.id, cfg.redis.lease, r);
      case CleanUp(a) => CleanupTable(s.store, s.actors[a].RunOf(), r);
      case Evict(q) => CleanupTable(s.store, q, r);
    }
  }

  lemma {:induction false} StepFirstOnly(cfg: Settings, s: State, step: Step, r: RunID)
    requires cfg.maxDepth(r) <= 1 && FirstOnly(cfg, s, r) && ActorsOnTop(cfg, s) && Enabled(cfg, s, step)
    ensures FirstOnly(cfg, Next(cfg, s, step), r)
  {
    if !ChangesTables(step) {
      QuietTables(cfg, s, step, r);
    } else if step.AdmitChild? || step.AdmitReplyLost? {
      AdmitFirstOnly(cfg, s, step.a, r);
      assert Next(cfg, s, step).store == AdmitStep(cfg, s, step.a).store;
    } else {
      ChangeFirstOnly(cfg, s, step, r);
    }
  }

  lemma {:induction false} StepAlone(cfg: Settings, s: State, step: Step, r: RunID)
    requires FirstsOwn(cfg) && Alone(cfg, s, r) && Enabled(cfg, s, step)
    ensures Alone(cfg, Next(cfg, s, step), r)
  {
    if NoLease(cfg) && NoneLive(s) {
      StepDead(cfg, s, step);
    } else if cfg.redis.maxLinks(r) > 1 {
      StepFirstOnly(cfg, s, step, r);
      StepOnTop(cfg, s, step);
    }
  }

  // ---- Whole runs ----------------------------------------------------------------------------

  /** Settings under which a run cannot have two tasks. */
  predicate CannotGrow(cfg: Settings, r: RunID) {
    cfg.redis.maxLinks(r) <= 1 || cfg.maxDepth(r) <= 1 || NoLease(cfg)
  }

  lemma {:induction false} RunOnTopOrDead(cfg: Settings, s: State, steps: seq<Step>, s': State)
    requires FirstsOwn(cfg) && ActorsOnTop(cfg, s) && (NoLease(cfg) ==> NoneLive(s)) && Run(cfg, s, steps, s')
    ensures ActorsOnTop(cfg, s') && (NoLease(cfg) ==> NoneLive(s'))
    decreases |steps|
  {
    if steps != [] {
      StepOnTop(cfg, s, steps[0]);
      if NoLease(cfg) {
        StepDead(cfg, s, steps[0]);
      }
      RunOnTopOrDead(cfg, Next(cfg, s, steps[0]), steps[1..], s');
    }
  }

  lemma {:induction false} RunOne(cfg: Settings, s: State, steps: seq<Step>, s': State, r: RunID,
      kinds: set<Standing>, past: nat)
    requires FirstsOwn(cfg) && OneAtMost(s, r, past) && TableOk(cfg, s, r) && Alone(cfg, s, r)
    requires SharedRun(cfg, s, steps, s', r, kinds)
    ensures OneAtMost(s', r, past) && TableOk(cfg, s', r) && Alone(cfg, s', r)
    decreases |steps|
  {
    if steps != [] {
      AloneIsNoSecond(cfg, s, r);
      StepOne(cfg, s, steps[0], r, past);
      StepTableOk(cfg, s, steps[0], r);
      StepAlone(cfg, s, steps[0], r);
      RunOne(cfg, Next(cfg, s, steps[0]), steps[1..], s', r, kinds, past);
    }
  }

  lemma {:induction false} NarrowConcludes(cfg: Settings, before: seq<Step>, s: State, steps: seq<Step>, s': State,
      r: RunID, kinds: set<Standing>)
    requires FirstsOwn(cfg) && CannotGrow(cfg, r) && Begins(cfg, before, s, r)
    requires SharedRun(cfg, s, steps, s', r, kinds)
    ensures Concluded(cfg, s, s', r)
  {
    RunOnTopOrDead(cfg, Start, before, s);
    EmptyTableOk(cfg, Start, r);
    RunTableOk(cfg, Start, before, s, r);
    RunOne(cfg, s, steps, s', r, kinds, s.finishes[r]);
    AloneIsNoSecond(cfg, s', r);
  }

  /** The exact condition under all settings: runs are found finished once and for good if and only
      if they cannot grow, or workers start only on tasks that are queued and sent, nobody is left at
      work when a run begins, and no two workers hold the same task. */
  lemma {:induction false} ExactCondition(cfg: Settings, r: RunID, on: Terms)
    requires FirstsOwn(cfg) && Waiting in on.kinds
    ensures SoundFor(cfg, r, on)
      <==> CannotGrow(cfg, r) || (on.kinds == {Waiting} && !on.leftover && !on.shared)
  {
    if CannotGrow(cfg, r) {
      forall before, s, steps, s' | History(cfg, before, s, steps, s', r, on) ensures Concluded(cfg, s, s', r) {
        if !on.shared {
          AloneIsShared(cfg, s, steps, s', r, on.kinds);
        }
        NarrowConcludes(cfg, before, s, steps, s', r, on.kinds);
      }
    } else {
      ExactWhereRunsGrow(cfg, r, on);
    }
  }
}
