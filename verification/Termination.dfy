/** Termination detection: in one incarnation of a run at most one completion is counted with
    nothing left, and from then on the run stays finished: nothing is queued and nothing can be
    admitted any more. */
module Termination {
  import opened RunState
  import opened Protocol
  import opened NoLostWork

  // ---- Who may send what -------------------------------------------------------------------

  /** A worker sends children of its own run, a run starter only the run's first task. */
  ghost predicate MaySend(cfg: Settings, src: Source, c: Task) {
    if src.FromQueue? then c.id.run == src.task.id.run else c.id == cfg.first(src.r) && c.id.run == src.r
  }

  ghost predicate MaySendAll(cfg: Settings, src: Source, todo: seq<Task>) {
    forall c | c in todo :: MaySend(cfg, src, c)
  }

  ghost predicate PhaseOk(cfg: Settings, src: Source, f: Phase) {
    match f
    case Sending(todo, _) => MaySendAll(cfg, src, todo)
    case Producing(child, todo, _) =>
      MaySend(cfg, src, child) && child.depth < cfg.maxDepth(child.id.run) && MaySendAll(cfg, src, todo)
    case Undoing(child, todo, _) => MaySend(cfg, src, child) && MaySendAll(cfg, src, todo)
    case _ => true
  }

  ghost predicate ActorOk(cfg: Settings, x: Actor) {
    PhaseOk(cfg, x.source, x.phase)
  }

  ghost predicate ActorsOk(cfg: Settings, s: State) {
    && (forall r :: cfg.first(r).run == r)
    && (forall a | a in s.actors :: ActorOk(cfg, s.actors[a]))
  }

  lemma {:induction false} AdmissionPhaseOk(cfg: Settings, x: Actor, answer: Admission, c: Task, rest: seq<Task>,
      failed: bool)
    requires MaySend(cfg, x.source, c) && MaySendAll(cfg, x.source, rest) && c.depth < cfg.maxDepth(c.id.run)
    ensures PhaseOk(cfg, x.source, AfterAdmission(x, answer, c, rest, failed))
  {
  }

  lemma {:induction false} AdmitKeepsActor(cfg: Settings, s: State, a: nat)
    requires ActorsOk(cfg, s) && Enabled(cfg, s, AdmitChild(a))
    ensures ActorOk(cfg, AdmitStep(cfg, s, a).actors[a])
  {
    var x := s.actors[a];
    var c, rest := x.phase.todo[0], x.phase.todo[1..];
    assert ActorOk(cfg, x) && c in x.phase.todo;
    if c.depth < cfg.maxDepth(c.id.run) {
      AdmissionPhaseOk(cfg, x, Admit(s.store, s.now, c.id.run, c.id, cfg.redis.maxLinks(c.id.run)).1, c, rest,
        x.phase.failed);
    }
  }

  predicate SendStep(step: Step) {
    step.AdmitChild? || step.AdmitReplyLost? || step.Produce? || step.UndoAdmission? || step.UndoFailed?
  }

  lemma {:induction false} SendKeepsActor(cfg: Settings, s: State, step: Step)
    requires ActorsOk(cfg, s) && Enabled(cfg, s, step) && SendStep(step)
    ensures ActorOk(cfg, Next(cfg, s, step).actors[step.a])
  {
    assert ActorOk(cfg, s.actors[step.a]);
    if step.AdmitChild? {
      AdmitKeepsActor(cfg, s, step.a);
    }
  }

  lemma {:induction false} MoveKeepsActor(cfg: Settings, s: State, step: Step)
    requires ActorsOk(cfg, s) && Enabled(cfg, s, step) && MovesOneActor(step) && !SendStep(step)
    ensures ActorOk(cfg, Next(cfg, s, step).actors[step.a])
  {
    assert ActorOk(cfg, s.actors[step.a]);
    assert step.AcquireSlot? ==> cfg.first(s.actors[step.a].source.r).run == s.actors[step.a].source.r;
  }

  lemma {:induction false} StepKeepsActors(cfg: Settings, s: State, step: Step)
    requires ActorsOk(cfg, s) && Enabled(cfg, s, step)
    ensures ActorsOk(cfg, Next(cfg, s, step))
  {
    var s' := Next(cfg, s, step);
    if MovesOneActor(step) {
      MoveShape(cfg, s, step);
      if SendStep(step) {
        SendKeepsActor(cfg, s, step);
      } else {
        MoveKeepsActor(cfg, s, step);
      }
      forall b | b in s'.actors ensures ActorOk(cfg, s'.actors[b]) {
        assert b != step.a ==> s'.actors[b] == s.actors[b];
      }
    } else {
      OutsideKeepsActors(cfg, s, step);
    }
  }

  lemma {:induction false} OutsideKeepsActors(cfg: Settings, s: State, step: Step)
    requires ActorsOk(cfg, s) && Enabled(cfg, s, step) && !MovesOneActor(step)
    ensures ActorsOk(cfg, Next(cfg, s, step))
  {
    var s' := Next(cfg, s, step);
    forall b | b in s'.actors ensures ActorOk(cfg, s'.actors[b]) {
      OutsideActor(cfg, s, step, b);
      assert b in s.actors ==> ActorOk(cfg, s.actors[b]);
    }
  }

  /** Outside a worker's own moves it appears, stays, or is gone. */
  lemma {:induction false} OutsideActor(cfg: Settings, s: State, step: Step, b: nat)
    requires Enabled(cfg, s, step) && !MovesOneActor(step) && b in Next(cfg, s, step).actors
    ensures var y := Next(cfg, s, step).actors[b];
      || (b in s.actors && y == s.actors[b])
      || y.phase.Received? || y.phase.Gone? || y.phase.Releasing?
  {
  }

  // ---- The invariant of an incarnation -----------------------------------------------------

  /** What had happened before the incarnation: how often each task was sent, and how often the
      run had finished. */
  datatype Past = Past(sent: multiset<TaskID>, finishes: nat)

  /** What was sent in this incarnation is in the table, and was sent once. */
  ghost predicate SentKnown(s: State, r: RunID, past: Past) {
    forall t: TaskID | t.run == r ::
      s.sent[t] == past.sent[t] || (s.sent[t] == past.sent[t] + 1 && t in s.store.Tasks(r))
  }

  /** What is being sent is queued and was not sent before in this incarnation. */
  ghost predicate SenderOk(s: State, x: Actor, r: RunID, past: Past) {
    x.Sends() && x.phase.child.id.run == r ==>
      s.Queued(x.phase.child.id) && s.sent[x.phase.child.id] == past.sent[x.phase.child.id]
  }

  ghost predicate SendersOk(s: State, r: RunID, past: Past) {
    forall a | a in s.actors :: SenderOk(s, s.actors[a], r, past)
  }

  /** What a worker holds is queued. */
  ghost predicate HolderOk(s: State, x: Actor, r: RunID) {
    x.Busy() && x.source.task.id.run == r ==> s.Queued(x.source.task.id)
  }

  ghost predicate HoldersOk(s: State, r: RunID) {
    forall a | a in s.actors :: HolderOk(s, s.actors[a], r)
  }

  ghost predicate NobodySends(s: State, t: TaskID) {
    forall b | b in s.actors :: !s.actors[b].Pending(t)
  }

  /** Nobody is still sending what a worker holds. */
  ghost predicate Apart(s: State, r: RunID) {
    forall a | a in s.actors && s.actors[a].Busy() && s.actors[a].source.task.id.run == r ::
      NobodySends(s, s.actors[a].source.task.id)
  }

  ghost predicate OneSender(s: State, r: RunID) {
    forall a, b | a in s.actors && b in s.actors && s.actors[a].Sends() && s.actors[b].Sends()
      && s.actors[a].phase.child.id == s.actors[b].phase.child.id && s.actors[a].phase.child.id.run == r :: a == b
  }

  /** The first task is in the table whenever anything is, and alone while it is being sent. */
  ghost predicate FirstLeads(cfg: Settings, s: State, r: RunID) {
    && (s.store.Tasks(r) != map[] ==> cfg.first(r) in s.store.Tasks(r))
    && (forall a | a in s.actors && s.actors[a].Pending(cfg.first(r)) :: s.store.Tasks(r).Keys == {cfg.first(r)})
  }

  ghost predicate NothingQueued(s: State, r: RunID) {
    forall t: TaskID | t.run == r :: !s.Queued(t)
  }

  ghost predicate FinishedOnce(s: State, r: RunID, past: Past) {
    && past.finishes <= s.finishes[r] <= past.finishes + 1
    && (s.finishes[r] == past.finishes + 1 ==> s.store.Tasks(r) != map[] && NothingQueued(s, r))
  }

  ghost predicate OwnTable(s: State, r: RunID) {
    forall t | t in s.store.Tasks(r) :: t.run == r
  }

  ghost predicate Incarnation(cfg: Settings, s: State, r: RunID, past: Past) {
    && SentKnown(s, r, past) && SendersOk(s, r, past) && HoldersOk(s, r) && Apart(s, r) && OneSender(s, r)
    && FirstLeads(cfg, s, r) && FinishedOnce(s, r, past) && OwnTable(s, r) && CountersMatch(cfg.redis, s.store, r)
  }

  // ---- Steps that leave the run's bookkeeping alone ----------------------------------------

  ghost predicate SameBooks(s: State, s': State, r: RunID) {
    && s'.store.Tasks(r) == s.store.Tasks(r)
    && s'.store.Active(r) == s.store.Active(r) && s'.store.Links(r) == s.store.Links(r)
    && (forall t: TaskID | t.run == r :: s'.sent[t] == s.sent[t])
    && s'.finishes[r] == s.finishes[r]
  }

  /** Every worker of s' sends and holds no more of run r than it did in s, but may start to hold
      a queued task nobody is sending. */
  ghost predicate NoNewWork(s: State, s': State, r: RunID) {
    forall a | a in s'.actors ::
      && (s'.actors[a].Sends() && s'.actors[a].phase.child.id.run == r ==>
            a in s.actors && s.actors[a].Pending(s'.actors[a].phase.child.id))
      && (s'.actors[a].Busy() && s'.actors[a].source.task.id.run == r ==>
            a in s.actors && HeldOrWaiting(s, s.actors[a], s'.actors[a].source.task.id))
  }

  ghost predicate HeldOrWaiting(s: State, x: Actor, t: TaskID) {
    x.Holds(t) || (s.Queued(t) && NobodySends(s, t))
  }

  lemma {:induction false} CalmKeeps(cfg: Settings, s: State, s': State, r: RunID, past: Past)
    requires Incarnation(cfg, s, r, past) && SameBooks(s, s', r) && NoNewWork(s, s', r)
    requires cfg.first(r).run == r
    ensures Incarnation(cfg, s', r, past)
  {
    forall a | a in s'.actors ensures SenderOk(s', s'.actors[a], r, past) && HolderOk(s', s'.actors[a], r) {
      assert a in s.actors ==> SenderOk(s, s.actors[a], r, past) && HolderOk(s, s.actors[a], r);
    }
    CalmKeepsApart(s, s', r);
    assert OneSender(s', r);
    assert FirstLeads(cfg, s', r);
  }

  lemma {:induction false} CalmKeepsApart(s: State, s': State, r: RunID)
    requires Apart(s, r) && NoNewWork(s, s', r)
    ensures Apart(s', r)
  {
    forall a, b | a in s'.actors && b in s'.actors && s'.actors[a].Busy() && s'.actors[a].source.task.id.run == r
      ensures !s'.actors[b].Pending(s'.actors[a].source.task.id)
    {
      assert NobodySends(s, s'.actors[a].source.task.id);
    }
  }

  lemma {:induction false} CalmMove(cfg: Settings, s: State, s': State, a: nat, r: RunID, past: Past)
    requires Incarnation(cfg, s, r, past) && cfg.first(r).run == r && a in s.actors && a in s'.actors
    requires s'.actors == s.actors[a := s'.actors[a]] && s'.actors[a].source == s.actors[a].source
    requires SameBooks(s, s', r)
    requires forall t: TaskID | t.run == r :: s'.actors[a].Pending(t) ==> s.actors[a].Pending(t)
    requires s'.actors[a].Busy() && s'.actors[a].source.task.id.run == r ==>
      HeldOrWaiting(s, s.actors[a], s'.actors[a].source.task.id)
    ensures Incarnation(cfg, s', r, past)
  {
    assert s'.actors[a].Sends() ==> s'.actors[a].Pending(s'.actors[a].phase.child.id);
    assert NoNewWork(s, s', r);
    CalmKeeps(cfg, s, s', r, past);
  }

  // ---- Steps that change one task of the run -----------------------------------------------

  /** Worker a moved, and of run r only task c changed. */
  ghost predicate OneTask(s: State, s': State, a: nat, c: TaskID, r: RunID) {
    && a in s.actors && a in s'.actors && c.run == r
    && s'.actors == s.actors[a := s'.actors[a]] && s'.actors[a].source == s.actors[a].source
    && (forall t: TaskID | t.run == r && t != c :: s'.Queued(t) == s.Queued(t) && s'.sent[t] == s.sent[t])
  }

  lemma {:induction false} OthersSend(s: State, s': State, a: nat, c: TaskID, r: RunID, past: Past)
    requires OneTask(s, s', a, c, r) && SendersOk(s, r, past)
    requires forall b | b in s.actors && b != a :: !s.actors[b].Pending(c)
    requires SenderOk(s', s'.actors[a], r, past)
    ensures SendersOk(s', r, past)
  {
    forall b | b in s'.actors ensures SenderOk(s', s'.actors[b], r, past) {
      if b != a {
        assert SenderOk(s, s.actors[b], r, past) && !s.actors[b].Pending(c);
      }
    }
  }

  lemma {:induction false} OthersHold(s: State, s': State, a: nat, c: TaskID, r: RunID)
    requires OneTask(s, s', a, c, r) && HoldersOk(s, r)
    requires s'.Queued(c) || forall b | b in s.actors && b != a :: !s.actors[b].Holds(c)
    requires HolderOk(s', s'.actors[a], r)
    ensures HoldersOk(s', r)
  {
    forall b | b in s'.actors ensures HolderOk(s', s'.actors[b], r) {
      if b != a {
        assert HolderOk(s, s.actors[b], r);
      }
    }
  }

  /** Worker a goes on holding its task or lets go of it, and sends c at most, which nobody holds. */
  lemma {:induction false} OthersApart(s: State, s': State, a: nat, c: TaskID, r: RunID)
    requires OneTask(s, s', a, c, r) && Apart(s, r)
    requires s'.actors[a].Busy() ==> s.actors[a].Busy()
    requires s'.actors[a].Sends() ==> s'.actors[a].phase.child.id == c
    requires s'.actors[a].Sends() ==> forall b | b in s.actors :: !s.actors[b].Holds(c)
    ensures Apart(s', r)
  {
    forall d, b | d in s'.actors && b in s'.actors && s'.actors[d].Busy() && s'.actors[d].source.task.id.run == r
      ensures !s'.actors[b].Pending(s'.actors[d].source.task.id)
    {
      assert s.actors[d].Busy() && NobodySends(s, s.actors[d].source.task.id);
      assert s.actors[d].Holds(s.actors[d].source.task.id);
    }
  }

  /** Still one sender per child: a sends c, which no one else does, or sends nothing now. */
  lemma {:induction false} StillOneSender(s: State, s': State, a: nat, c: TaskID, r: RunID)
    requires OneTask(s, s', a, c, r) && OneSender(s, r)
    requires forall b | b in s.actors && b != a :: !s.actors[b].Pending(c)
    requires s'.actors[a].Sends() ==> s'.actors[a].phase.child.id == c
    ensures OneSender(s', r)
  {
  }

  // ---- Admissions --------------------------------------------------------------------------

  /** Whoever admits a task of r for the first time does so while the run is unfinished: a worker's
      own task is still queued, and the run starter only ever admits into an empty table. */
  lemma {:induction false} AdmitterIsEarly(cfg: Settings, s: State, a: nat, c: Task, r: RunID, past: Past)
    requires Incarnation(cfg, s, r, past) && ActorsOk(cfg, s) && a in s.actors
    requires s.actors[a].phase.Sending? && c in s.actors[a].phase.todo && c.id.run == r
    requires c.id !in s.store.Tasks(r)
    ensures s.finishes[r] == past.finishes
    ensures s.sent[c.id] == past.sent[c.id] && NobodySends(s, c.id)
    ensures c.id == cfg.first(r) ==> s.store.Tasks(r) == map[]
    ensures c.id != cfg.first(r) ==> cfg.first(r) in s.store.Tasks(r) && NobodySends(s, cfg.first(r))
  {
    var x := s.actors[a];
    assert ActorOk(cfg, x) && MaySend(cfg, x.source, c);
    forall b | b in s.actors ensures !s.actors[b].Pending(c.id) {
      assert SenderOk(s, s.actors[b], r, past);
    }
    if x.source.FromQueue? {
      WorkerIsEarly(cfg, s, a, r, past);
    }
  }

  lemma {:induction false} WorkerIsEarly(cfg: Settings, s: State, a: nat, r: RunID, past: Past)
    requires Incarnation(cfg, s, r, past) && a in s.actors && s.actors[a].Busy() && s.actors[a].RunOf() == r
    ensures s.finishes[r] == past.finishes && cfg.first(r) in s.store.Tasks(r) && NobodySends(s, cfg.first(r))
  {
    var own := s.actors[a].source.task.id;
    assert HolderOk(s, s.actors[a], r) && s.Queued(own) && own in s.store.Tasks(r).Keys;
    assert NobodySends(s, own);
  }

  lemma {:induction false} UnknownIsUnheld(s: State, c: TaskID, r: RunID)
    requires HoldersOk(s, r) && c.run == r && c !in s.store.Tasks(r)
    ensures forall b | b in s.actors :: !s.actors[b].Holds(c)
  {
    forall b | b in s.actors ensures !s.actors[b].Holds(c) {
      assert HolderOk(s, s.actors[b], r);
    }
  }

  /** The bookkeeping after c is admitted, with or without its sender knowing. */
  lemma {:induction false} AdmittedKeeps(cfg: Settings, s: State, s': State, a: nat, c: Task, r: RunID, past: Past)
    requires Incarnation(cfg, s, r, past) && ActorsOk(cfg, s) && a in s.actors && a in s'.actors
    requires s.actors[a].phase.Sending? && c in s.actors[a].phase.todo && c.id.run == r
    requires Admit(s.store, s.now, r, c.id, cfg.redis.maxLinks(r)) == (s'.store, Admitted)
    requires s'.actors == s.actors[a := s'.actors[a]] && s'.actors[a].source == s.actors[a].source
    requires s'.sent == s.sent && s'.finishes == s.finishes
    requires s'.actors[a].Sends() ==> s'.actors[a].phase.child.id == c.id
    ensures Incarnation(cfg, s', r, past)
  {
    AdmitterIsEarly(cfg, s, a, c, r, past);
    AdmitCounts(cfg.redis, s.store, s.now, r, c.id, r);
    AdmittedTable(s, s', a, c, r, past);
    UnknownIsUnheld(s, c.id, r);
    OthersApart(s, s', a, c.id, r);
    StillOneSender(s, s', a, c.id, r);
    AdmittedFirst(cfg, s, s', a, c, r);
  }

  lemma {:induction false} AdmittedTable(s: State, s': State, a: nat, c: Task, r: RunID, past: Past)
    requires SentKnown(s, r, past) && SendersOk(s, r, past) && HoldersOk(s, r) && OwnTable(s, r)
    requires a in s.actors && a in s'.actors && c.id.run == r && s.actors[a].phase.Sending?
    requires s.sent[c.id] == past.sent[c.id] && NobodySends(s, c.id)
    requires s'.store.tasks == s.store.tasks[r := s.store.Tasks(r)[c.id := Queued]]
    requires s'.actors == s.actors[a := s'.actors[a]] && s'.actors[a].source == s.actors[a].source && s'.sent == s.sent
    requires s'.actors[a].Sends() ==> s'.actors[a].phase.child.id == c.id
    ensures SentKnown(s', r, past) && SendersOk(s', r, past) && HoldersOk(s', r) && OwnTable(s', r)
    ensures OneTask(s, s', a, c.id, r)
  {
    assert s'.store.Tasks(r) == s.store.Tasks(r)[c.id := Queued];
    OthersSend(s, s', a, c.id, r, past);
    assert HolderOk(s, s.actors[a], r);
    OthersHold(s, s', a, c.id, r);
  }

  lemma {:induction false} AdmittedFirst(cfg: Settings, s: State, s': State, a: nat, c: Task, r: RunID)
    requires FirstLeads(cfg, s, r) && a in s.actors && a in s'.actors
    requires s'.store.Tasks(r) == s.store.Tasks(r)[c.id := Queued]
    requires s'.actors == s.actors[a := s'.actors[a]]
    requires s'.actors[a].Sends() ==> s'.actors[a].phase.child.id == c.id
    requires c.id == cfg.first(r) ==> s.store.Tasks(r) == map[]
    requires c.id != cfg.first(r) ==> cfg.first(r) in s.store.Tasks(r) && NobodySends(s, cfg.first(r))
    ensures FirstLeads(cfg, s', r)
  {
  }

  lemma {:induction false} AdmitShape(cfg: Settings, s: State, a: nat)
    requires AtSend(s, a)
    ensures var s' := AdmitStep(cfg, s, a);
      && a in s'.actors
      && s' == s.(store := s'.store, actors := s.actors[a := s.actors[a].(phase := s'.actors[a].phase)])
      && (s'.actors[a].Sends() ==>
            s'.actors[a].phase.Producing? && s'.actors[a].phase.child == s.actors[a].phase.todo[0])
  {
  }

  lemma {:induction false} AdmitElsewhere(s: Store, now: int, c: TaskID, maxLinks: int, r: RunID)
    requires c.run != r || Admit(s, now, c.run, c, maxLinks).1 != Admitted
    ensures var s' := Admit(s, now, c.run, c, maxLinks).0;
      s'.Tasks(r) == s.Tasks(r) && s'.Active(r) == s.Active(r) && s'.Links(r) == s.Links(r)
  {
  }

  /** An admission that took effect for r, or one that left r's table alone. */
  lemma {:induction false} AdmitEffect(cfg: Settings, s: State, a: nat, r: RunID)
    requires AtSend(s, a)
    ensures var c, s' := s.actors[a].phase.todo[0], AdmitStep(cfg, s, a);
      if c.id.run == r && s'.actors[a].phase.Producing?
      then Admit(s.store, s.now, r, c.id, cfg.redis.maxLinks(r)) == (s'.store, Admitted)
      else SameBooks(s, s', r)
  {
    var c := s.actors[a].phase.todo[0];
    if c.id.run != r || Admit(s.store, s.now, c.id.run, c.id, cfg.redis.maxLinks(c.id.run)).1 != Admitted {
      AdmitElsewhere(s.store, s.now, c.id, cfg.redis.maxLinks(c.id.run), r);
    }
  }

  /** The store after the admission, and the sender either producing the child or unaware of it. */
  ghost predicate AfterAdmit(cfg: Settings, s: State, s': State, a: nat)
    requires AtSend(s, a)
  {
    var p := AdmitStep(cfg, s, a);
    && a in s'.actors && a in p.actors
    && s' == s.(store := p.store, actors := s.actors[a := s.actors[a].(phase := s'.actors[a].phase)])
    && (s'.actors[a].phase == p.actors[a].phase || s'.actors[a].phase.Sending?)
  }

  predicate AtSend(s: State, a: nat) {
    a in s.actors && s.actors[a].phase.Sending? && s.actors[a].phase.todo != []
  }

  /** An admission of another run, or none. */
  lemma {:induction false} NotAdmittedKeeps(cfg: Settings, s: State, s': State, a: nat, r: RunID, past: Past)
    requires Incarnation(cfg, s, r, past) && cfg.first(r).run == r && AtSend(s, a) && a in s'.actors
    requires SameBooks(s, s', r) && s'.actors == s.actors[a := s'.actors[a]]
      && s'.actors[a].source == s.actors[a].source
    requires s'.actors[a].Sends() ==> s'.actors[a].phase.child.id.run != r
    ensures Incarnation(cfg, s', r, past)
  {
    assert s'.actors[a].Busy() ==> s.actors[a].Busy();
    CalmMove(cfg, s, s', a, r, past);
  }

  lemma {:induction false} AdmitEffectKeeps(cfg: Settings, s: State, s': State, a: nat, r: RunID, past: Past)
    requires Incarnation(cfg, s, r, past) && ActorsOk(cfg, s) && AtSend(s, a) && AfterAdmit(cfg, s, s', a)
    ensures Incarnation(cfg, s', r, past)
  {
    var c := s.actors[a].phase.todo[0];
    assert c in s.actors[a].phase.todo;
    AdmitShape(cfg, s, a);
    AdmitEffect(cfg, s, a, r);
    var took := c.id.run == r && AdmitStep(cfg, s, a).actors[a].phase.Producing?;
    if took {
      AdmittedKeeps(cfg, s, s', a, c, r, past);
    } else {
      NotAdmittedKeeps(cfg, s, s', a, r, past);
    }
  }

  lemma {:induction false} AdmitKeeps(cfg: Settings, s: State, a: nat, r: RunID, past: Past)
    requires Incarnation(cfg, s, r, past) && ActorsOk(cfg, s) && Enabled(cfg, s, AdmitChild(a))
    ensures Incarnation(cfg, AdmitStep(cfg, s, a), r, past)
  {
    AdmitShape(cfg, s, a);
    AdmitEffectKeeps(cfg, s, AdmitStep(cfg, s, a), a, r, past);
  }

  lemma {:induction false} AdmitReplyLostKeeps(cfg: Settings, s: State, a: nat, r: RunID, past: Past)
    requires Incarnation(cfg, s, r, past) && ActorsOk(cfg, s) && Enabled(cfg, s, AdmitReplyLost(a))
    ensures Incarnation(cfg, Next(cfg, s, AdmitReplyLost(a)), r, past)
  {
    AdmitShape(cfg, s, a);
    var f := Sending(s.actors[a].phase.todo[1..], true);
    AdmitEffectKeeps(cfg, s, Move(s.(store := AdmitStep(cfg, s, a).store), a, f), a, r, past);
  }

  // ---- Sends -------------------------------------------------------------------------------

  lemma {:induction false} ProducedTable(s: State, s': State, a: nat, c: TaskID, r: RunID, past: Past)
    requires SentKnown(s, r, past) && SendersOk(s, r, past) && HoldersOk(s, r) && Apart(s, r) && OneSender(s, r)
    requires a in s.actors && a in s'.actors && s.actors[a].Pending(c) && c.run == r
    requires s'.store == s.store && s'.sent == s.sent + multiset{c}
    requires s'.actors == s.actors[a := s'.actors[a]] && s'.actors[a].source == s.actors[a].source
    requires s'.actors[a].phase.Sending?
    ensures SentKnown(s', r, past) && SendersOk(s', r, past) && HoldersOk(s', r) && Apart(s', r) && OneSender(s', r)
  {
    assert SenderOk(s, s.actors[a], r, past) && HolderOk(s, s.actors[a], r);
    assert OneTask(s, s', a, c, r);
    OthersSend(s, s', a, c, r, past);
    OthersHold(s, s', a, c, r);
    OthersApart(s, s', a, c, r);
    StillOneSender(s, s', a, c, r);
  }

  lemma {:induction false} ProducedKeeps(cfg: Settings, s: State, s': State, a: nat, c: TaskID, r: RunID, past: Past)
    requires Incarnation(cfg, s, r, past) && a in s.actors && a in s'.actors && s.actors[a].Pending(c)
    requires s'.store == s.store && s'.finishes == s.finishes && s'.sent == s.sent + multiset{c}
    requires s'.actors == s.actors[a := s'.actors[a]] && s'.actors[a].source == s.actors[a].source
    requires s'.actors[a].phase.Sending? && cfg.first(r).run == r
    ensures Incarnation(cfg, s', r, past)
  {
    if c.run == r {
      ProducedTable(s, s', a, c, r, past);
      ProducedFirst(cfg, s, s', a, r, past);
    } else {
      ProducedElsewhere(s, s', a, c, r);
      CalmKeeps(cfg, s, s', r, past);
    }
  }

  lemma {:induction false} ProducedFirst(cfg: Settings, s: State, s': State, a: nat, r: RunID, past: Past)
    requires FirstLeads(cfg, s, r) && FinishedOnce(s, r, past) && a in s.actors && a in s'.actors
    requires s'.store == s.store && s'.finishes == s.finishes
    requires s'.actors == s.actors[a := s'.actors[a]] && s'.actors[a].phase.Sending?
    ensures FirstLeads(cfg, s', r) && FinishedOnce(s', r, past)
  {
  }

  lemma {:induction false} ProducedElsewhere(s: State, s': State, a: nat, c: TaskID, r: RunID)
    requires a in s.actors && a in s'.actors && s.actors[a].Pending(c) && c.run != r
    requires s'.store == s.store && s'.finishes == s.finishes && s'.sent == s.sent + multiset{c}
    requires s'.actors == s.actors[a := s'.actors[a]] && s'.actors[a].source == s.actors[a].source
    requires s'.actors[a].phase.Sending?
    ensures SameBooks(s, s', r) && NoNewWork(s, s', r)
  {
  }

  lemma {:induction false} ProduceKeeps(cfg: Settings, s: State, a: nat, r: RunID, past: Past)
    requires Incarnation(cfg, s, r, past) && ActorsOk(cfg, s) && Enabled(cfg, s, Produce(a))
    ensures Incarnation(cfg, Next(cfg, s, Produce(a)), r, past)
  {
    ProducedKeeps(cfg, s, Next(cfg, s, Produce(a)), a, s.actors[a].phase.child.id, r, past);
  }

  lemma {:induction false} SentIsUnheld(s: State, a: nat, c: TaskID, r: RunID)
    requires Apart(s, r) && a in s.actors && s.actors[a].Pending(c) && c.run == r
    ensures forall b | b in s.actors :: !s.actors[b].Holds(c)
  {
    assert !NobodySends(s, c);
  }

  lemma {:induction false} UndoneTable(s: State, s': State, a: nat, c: TaskID, r: RunID, past: Past)
    requires SentKnown(s, r, past) && SendersOk(s, r, past) && HoldersOk(s, r) && Apart(s, r) && OneSender(s, r)
    requires a in s.actors && a in s'.actors && s.actors[a].Pending(c) && c.run == r
    requires s'.store.Tasks(r) == s.store.Tasks(r) - {c} && s'.sent == s.sent
    requires s'.actors == s.actors[a := s'.actors[a]] && s'.actors[a].source == s.actors[a].source
    requires s'.actors[a].phase.Sending?
    ensures SentKnown(s', r, past) && SendersOk(s', r, past) && HoldersOk(s', r) && Apart(s', r) && OneSender(s', r)
  {
    assert SenderOk(s, s.actors[a], r, past) && HolderOk(s, s.actors[a], r);
    SentIsUnheld(s, a, c, r);
    assert OneTask(s, s', a, c, r);
    OthersSend(s, s', a, c, r, past);
    OthersHold(s, s', a, c, r);
    OthersApart(s, s', a, c, r);
    StillOneSender(s, s', a, c, r);
  }

  lemma {:induction false} UndoneFirst(cfg: Settings, s: State, s': State, a: nat, c: TaskID, r: RunID)
    requires FirstLeads(cfg, s, r) && OneSender(s, r) && cfg.first(r).run == r && c.run == r
    requires a in s.actors && a in s'.actors && s.actors[a].Pending(c) && c in s.store.Tasks(r)
    requires s'.store.Tasks(r) == s.store.Tasks(r) - {c}
    requires s'.actors == s.actors[a := s'.actors[a]] && s'.actors[a].phase.Sending?
    ensures FirstLeads(cfg, s', r)
  {
    if c == cfg.first(r) {
      assert s.store.Tasks(r).Keys == {c};
      assert s'.store.Tasks(r).Keys == {};
    }
  }

  lemma {:induction false} UndoKeeps(cfg: Settings, s: State, a: nat, r: RunID, past: Past)
    requires Incarnation(cfg, s, r, past) && ActorsOk(cfg, s) && Enabled(cfg, s, UndoAdmission(a))
    ensures Incarnation(cfg, Next(cfg, s, UndoAdmission(a)), r, past)
  {
    var s' := Next(cfg, s, UndoAdmission(a));
    var c := s.actors[a].phase.child.id;
    if c.run == r {
      UndoneKeeps(cfg, s, s', a, c, r, past);
    } else {
      CalmMove(cfg, s, s', a, r, past);
    }
  }

  lemma {:induction false} UndoneKeeps(cfg: Settings, s: State, s': State, a: nat, c: TaskID, r: RunID, past: Past)
    requires Incarnation(cfg, s, r, past) && cfg.first(r).run == r && a in s.actors && a in s'.actors
    requires s.actors[a].Pending(c) && c.run == r && s'.store == Unadmit(s.store, r, c)
    requires s'.actors == s.actors[a := s'.actors[a]] && s'.actors[a].source == s.actors[a].source
    requires s'.sent == s.sent && s'.finishes == s.finishes
    requires s'.actors[a].phase.Sending?
    ensures Incarnation(cfg, s', r, past)
  {
    assert SenderOk(s, s.actors[a], r, past) && s.Queued(c);
    UnadmitCounts(cfg.redis, s.store, r, c, r);
    assert s'.store.Tasks(r) == s.store.Tasks(r) - {c};
    UndoneTable(s, s', a, c, r, past);
    UndoneFirst(cfg, s, s', a, c, r);
  }

  // ---- Completions -------------------------------------------------------------------------

  /** No two workers hold the same task of r. */
  ghost predicate OneHolder(s: State, r: RunID) {
    forall a, b | a in s.actors && b in s.actors && s.actors[a].Busy() && s.actors[b].Busy()
      && s.actors[a].source.task.id == s.actors[b].source.task.id && s.actors[a].RunOf() == r :: a == b
  }

  lemma {:induction false} CompletedTable(s: State, s': State, a: nat, c: TaskID, r: RunID, past: Past)
    requires SentKnown(s, r, past) && SendersOk(s, r, past) && HoldersOk(s, r) && Apart(s, r) && OneSender(s, r)
    requires OneHolder(s, r) && a in s.actors && a in s'.actors && s.actors[a].Holds(c) && c.run == r
    requires s'.store.Tasks(r) == s.store.Tasks(r)[c := Done] && s'.sent == s.sent
    requires s'.actors == s.actors[a := s'.actors[a]] && s'.actors[a].source == s.actors[a].source
    requires !s'.actors[a].Sends() && !s'.actors[a].Busy()
    ensures SentKnown(s', r, past) && SendersOk(s', r, past) && HoldersOk(s', r) && Apart(s', r) && OneSender(s', r)
  {
    assert OneTask(s, s', a, c, r);
    assert NobodySends(s, s.actors[a].source.task.id);
    OthersSend(s, s', a, c, r, past);
    OthersHold(s, s', a, c, r);
    OthersApart(s, s', a, c, r);
    StillOneSender(s, s', a, c, r);
  }

  lemma {:induction false} CompletedKeeps(cfg: Settings, s: State, s': State, a: nat, c: TaskID, r: RunID, past: Past)
    requires Incarnation(cfg, s, r, past) && OneHolder(s, r)
    requires a in s.actors && a in s'.actors && s.actors[a].Holds(c) && c.run == r
    requires s'.store == Complete(s.store, s.now, r, c, cfg.redis.lease).0 && s'.sent == s.sent
    requires s'.actors == s.actors[a := s'.actors[a]] && s'.actors[a].source == s.actors[a].source
    requires !s'.actors[a].Sends() && !s'.actors[a].Busy() && s.actors[a].phase.Completing?
    requires s'.finishes[r] == s.finishes[r] || (s'.finishes[r] == s.finishes[r] + 1 && s'.store.Active(r) <= 0)
    ensures Incarnation(cfg, s', r, past)
  {
    assert HolderOk(s, s.actors[a], r) && s.Queued(c);
    CompleteCounts(cfg.redis, s.store, s.now, r, c, r);
    CompleteMarksDone(s.store, s.now, c, cfg.redis.lease);
    CompletedTable(s, s', a, c, r, past);
    CompletedFirst(cfg, s, s', a, c, r, past);
    NoneActive(cfg, s', r);
  }

  lemma {:induction false} CompleteMarksDone(s: Store, now: int, c: TaskID, lease: int)
    requires s.IsQueued(c.run, c)
    ensures var s' := Complete(s, now, c.run, c, lease).0;
      s'.Tasks(c.run) == s.Tasks(c.run)[c := Done] && s'.Active(c.run) == s.Active(c.run) - 1
    ensures Complete(s, now, c.run, c, lease).1 == Completion(true, s.Active(c.run) - 1)
  {
  }

  lemma {:induction false} CompletedFirst(cfg: Settings, s: State, s': State, a: nat, c: TaskID, r: RunID, past: Past)
    requires FirstLeads(cfg, s, r) && OwnTable(s, r) && FinishedOnce(s, r, past) && s.Queued(c) && c.run == r
    requires a in s.actors && a in s'.actors && !s'.actors[a].Sends()
    requires s'.store.Tasks(r) == s.store.Tasks(r)[c := Done] && s'.actors == s.actors[a := s'.actors[a]]
    ensures FirstLeads(cfg, s', r) && OwnTable(s', r) && s.finishes[r] == past.finishes
  {
    assert s'.store.Tasks(r).Keys == s.store.Tasks(r).Keys;
  }

  lemma {:induction false} NoneActive(cfg: Settings, s: State, r: RunID)
    requires CountersMatch(cfg.redis, s.store, r)
    ensures s.store.Active(r) <= 0 ==> NothingQueued(s, r)
  {
    if s.store.Active(r) <= 0 {
      assert QueuedTasks(s.store.Tasks(r)) == {};
      forall t: TaskID | t.run == r ensures !s.Queued(t) {
        assert t !in QueuedTasks(s.store.Tasks(r));
      }
    }
  }

  lemma {:induction false} CompletedElsewhere(cfg: Settings, s: State, s': State, a: nat, c: TaskID, r: RunID,
      past: Past)
    requires Incarnation(cfg, s, r, past) && cfg.first(r).run == r && c.run != r && a in s.actors && a in s'.actors
    requires s'.store == Complete(s.store, s.now, c.run, c, cfg.redis.lease).0
    requires s'.sent == s.sent && s'.finishes[r] == s.finishes[r]
    requires s'.actors == s.actors[a := s'.actors[a]] && s'.actors[a].source == s.actors[a].source
    requires !s'.actors[a].Sends() && !s'.actors[a].Busy()
    ensures Incarnation(cfg, s', r, past)
  {
    CompleteElsewhere(s.store, s.now, c, cfg.redis.lease, r);
    CalmMove(cfg, s, s', a, r, past);
  }

  lemma {:induction false} CompleteElsewhere(s: Store, now: int, c: TaskID, lease: int, r: RunID)
    requires c.run != r
    ensures var s' := Complete(s, now, c.run, c, lease).0;
      s'.Tasks(r) == s.Tasks(r) && s'.Active(r) == s.Active(r) && s'.Links(r) == s.Links(r)
  {
  }

  /** Worker a completed its own task c; a finish is counted only if nothing was left. */
  ghost predicate Completes(cfg: Settings, s: State, s': State, a: nat, c: TaskID) {
    && a in s.actors && a in s'.actors && s.actors[a].Holds(c) && s.actors[a].phase.Completing?
    && s'.store == Complete(s.store, s.now, c.run, c, cfg.redis.lease).0
    && s'.sent == s.sent
    && s'.actors == s.actors[a := s'.actors[a]] && s'.actors[a].source == s.actors[a].source
    && !s'.actors[a].Sends() && !s'.actors[a].Busy()
    && (s'.finishes == s.finishes
        || (s'.finishes == s.finishes + multiset{c.run} && s'.store.Active(c.run) <= 0))
  }

  lemma {:induction false} CompleteOwnCompletes(cfg: Settings, s: State, a: nat)
    requires Enabled(cfg, s, CompleteOwn(a))
    ensures Completes(cfg, s, CompleteStep(cfg, s, a), a, s.actors[a].source.task.id)
  {
    var c := s.actors[a].source.task.id;
    if s.Queued(c) {
      CompleteMarksDone(s.store, s.now, c, cfg.redis.lease);
    }
  }

  lemma {:induction false} CompletionKeeps(cfg: Settings, s: State, s': State, a: nat, c: TaskID, r: RunID, past: Past)
    requires Incarnation(cfg, s, r, past) && OneHolder(s, r) && cfg.first(r).run == r && Completes(cfg, s, s', a, c)
    ensures Incarnation(cfg, s', r, past)
  {
    if c.run == r {
      CompletedKeeps(cfg, s, s', a, c, r, past);
    } else {
      CompletedElsewhere(cfg, s, s', a, c, r, past);
    }
  }

  lemma {:induction false} CompleteKeeps(cfg: Settings, s: State, a: nat, r: RunID, past: Past)
    requires Incarnation(cfg, s, r, past) && OneHolder(s, r) && cfg.first(r).run == r && Enabled(cfg, s, CompleteOwn(a))
    ensures Incarnation(cfg, CompleteStep(cfg, s, a), r, past)
  {
    CompleteOwnCompletes(cfg, s, a);
    CompletionKeeps(cfg, s, CompleteStep(cfg, s, a), a, s.actors[a].source.task.id, r, past);
  }

  lemma {:induction false} CompleteReplyLostKeeps(cfg: Settings, s: State, a: nat, r: RunID, past: Past)
    requires Incarnation(cfg, s, r, past) && OneHolder(s, r) && cfg.first(r).run == r
    requires Enabled(cfg, s, CompleteReplyLost(a))
    ensures Incarnation(cfg, Next(cfg, s, CompleteReplyLost(a)), r, past)
  {
    var s' := Move(s.(store := CompleteStep(cfg, s, a).store), a, Gone);
    CompletionKeeps(cfg, s, s', a, s.actors[a].source.task.id, r, past);
  }

  // ---- Starting work -----------------------------------------------------------------------

  /** How a task stands when a worker reads its state: its run's table does not have it; it is
      done; it is queued and its message is still being sent; it is queued and sent. */
  datatype Standing = Unknown | Finished | BeingProduced | Waiting

  ghost function StandingOf(s: State, t: TaskID): Standing {
    if t !in s.store.Tasks(t.run) then Unknown
    else if s.store.Tasks(t.run)[t] == Done then Finished
    else if !NobodySends(s, t) then BeingProduced
    else Waiting
  }

  /** A worker of run r is about to start: it reads that its task is not done and its run active,
      or cannot read it. */
  ghost predicate Starts(s: State, step: Step, r: RunID) {
    (step.ReadState? || step.ReadStateFailed?) && step.a in s.actors && s.actors[step.a].source.FromQueue?
    && s.actors[step.a].RunOf() == r
    && (step.ReadState? ==> s.store.Live(r, s.now) && StandingOf(s, s.actors[step.a].source.task.id) != Finished)
  }

  /** Where workers of r start, their tasks stand like this. */
  ghost predicate StartsAs(s: State, step: Step, r: RunID, kinds: set<Standing>) {
    Starts(s, step, r) ==> StandingOf(s, s.actors[step.a].source.task.id) in kinds
  }

  lemma {:induction false} ReadMoves(cfg: Settings, s: State, step: Step)
    requires Enabled(cfg, s, step) && (step.ReadState? || step.ReadStateFailed?)
    ensures var s' := Next(cfg, s, step);
      && step.a in s'.actors && s'.actors == s.actors[step.a := s'.actors[step.a]]
      && s'.actors[step.a].source == s.actors[step.a].source
      && s'.store == s.store.(slots := s'.store.slots) && s'.sent == s.sent && s'.finishes == s.finishes
      && !s'.actors[step.a].Sends()
      && (s'.actors[step.a].Busy() ==> Starts(s, step, s.actors[step.a].RunOf()))
  {
  }

  lemma {:induction false} ReadKeeps(cfg: Settings, s: State, step: Step, r: RunID, past: Past)
    requires Incarnation(cfg, s, r, past) && cfg.first(r).run == r && Enabled(cfg, s, step)
    requires (step.ReadState? || step.ReadStateFailed?) && StartsAs(s, step, r, {Waiting})
    ensures Incarnation(cfg, Next(cfg, s, step), r, past)
  {
    ReadMoves(cfg, s, step);
    CalmMove(cfg, s, Next(cfg, s, step), step.a, r, past);
  }

  // ---- All other steps ---------------------------------------------------------------------

  lemma {:induction false} CleanUpOtherKeeps(cfg: Settings, s: State, a: nat, r: RunID, past: Past)
    requires Incarnation(cfg, s, r, past) && cfg.first(r).run == r && Enabled(cfg, s, CleanUp(a))
    requires s.actors[a].RunOf() != r
    ensures Incarnation(cfg, Next(cfg, s, CleanUp(a)), r, past)
  {
    CleanUpMoves(cfg, s, a, r);
    CalmMove(cfg, s, Next(cfg, s, CleanUp(a)), a, r, past);
  }

  lemma {:induction false} CleanUpMoves(cfg: Settings, s: State, a: nat, r: RunID)
    requires Enabled(cfg, s, CleanUp(a)) && s.actors[a].RunOf() != r
    ensures var s' := Next(cfg, s, CleanUp(a));
      && a in s'.actors && s'.actors == s.actors[a := s'.actors[a]] && s'.actors[a].source == s.actors[a].source
      && s'.actors[a].phase.Gone? && SameBooks(s, s', r)
  {
  }

  lemma {:induction false} UndoFailedKeeps(cfg: Settings, s: State, a: nat, r: RunID, past: Past)
    requires Incarnation(cfg, s, r, past) && cfg.first(r).run == r && Enabled(cfg, s, UndoFailed(a))
    ensures Incarnation(cfg, Next(cfg, s, UndoFailed(a)), r, past)
  {
    CalmMove(cfg, s, Next(cfg, s, UndoFailed(a)), a, r, past);
  }

  lemma {:induction false} PlainKeeps(cfg: Settings, s: State, step: Step, r: RunID, past: Past)
    requires Incarnation(cfg, s, r, past) && cfg.first(r).run == r && Enabled(cfg, s, step) && Plain(step)
    requires !step.ReadStateFailed?
    ensures Incarnation(cfg, Next(cfg, s, step), r, past)
  {
    MoveShape(cfg, s, step);
    PlainMove(cfg, s, step);
    PlainHolds(cfg, s, step);
    CalmMove(cfg, s, Next(cfg, s, step), step.a, r, past);
  }

  predicate BeforeSending(step: Step) {
    step.AcquireSlot? || step.WorkFailed? || step.WorkDone?
  }

  lemma {:induction false} EarlyHolds(cfg: Settings, s: State, step: Step)
    requires Enabled(cfg, s, step) && BeforeSending(step)
    ensures step.a in Next(cfg, s, step).actors
    ensures Next(cfg, s, step).actors[step.a].Busy() ==> s.actors[step.a].Busy()
    ensures !Next(cfg, s, step).actors[step.a].Sends()
  {
  }

  lemma {:induction false} LateHolds(cfg: Settings, s: State, step: Step)
    requires Enabled(cfg, s, step) && Plain(step) && !BeforeSending(step) && !step.ReadStateFailed?
    ensures step.a in Next(cfg, s, step).actors
    ensures Next(cfg, s, step).actors[step.a].Busy() ==> s.actors[step.a].Busy()
    ensures Next(cfg, s, step).actors[step.a].Sends() ==> step.ProduceFailed?
  {
  }

  /** No plain step makes a worker hold a task it did not hold. */
  lemma {:induction false} PlainHolds(cfg: Settings, s: State, step: Step)
    requires Enabled(cfg, s, step) && Plain(step) && !step.ReadStateFailed?
    ensures step.a in Next(cfg, s, step).actors
    ensures Next(cfg, s, step).actors[step.a].Busy() ==> s.actors[step.a].Busy()
    ensures Next(cfg, s, step).actors[step.a].Sends() ==> step.ProduceFailed?
  {
    if BeforeSending(step) {
      EarlyHolds(cfg, s, step);
    } else {
      LateHolds(cfg, s, step);
    }
  }

  /** Outside a worker's moves: the store keeps r's table, workers stay or let go, and new ones
      hold nothing yet. */
  lemma {:induction false} CalmOutside(cfg: Settings, s: State, s': State, r: RunID, past: Past)
    requires Incarnation(cfg, s, r, past) && cfg.first(r).run == r && SameBooks(s, s', r)
    requires NothingNewInHand(s, s')
    ensures Incarnation(cfg, s', r, past)
  {
    forall a | a in s'.actors && s'.actors[a].Sends() && s'.actors[a].phase.child.id.run == r
      ensures s.actors[a].Pending(s'.actors[a].phase.child.id)
    {
      assert s'.actors[a] == s.actors[a];
    }
    assert NoNewWork(s, s', r);
    CalmKeeps(cfg, s, s', r, past);
  }

  /** What a worker has in hand it had before. */
  ghost predicate NothingNewInHand(s: State, s': State) {
    forall a | a in s'.actors && (s'.actors[a].Sends() || s'.actors[a].Busy()) ::
      a in s.actors && s'.actors[a] == s.actors[a]
  }

  lemma {:induction false} OutsideStore(cfg: Settings, s: State, step: Step)
    requires Enabled(cfg, s, step) && !MovesOneActor(step) && !step.Evict?
    ensures var s' := Next(cfg, s, step); s'.store == s.store && s'.sent == s.sent && s'.finishes == s.finishes
  {
  }

  lemma {:induction false} EvictBooks(cfg: Settings, s: State, q: RunID, r: RunID)
    requires q != r
    ensures SameBooks(s, Next(cfg, s, Evict(q)), r)
  {
  }

  lemma {:induction false} OutsideBooks(cfg: Settings, s: State, step: Step, r: RunID)
    requires Enabled(cfg, s, step) && !MovesOneActor(step) && step != Evict(r)
    ensures SameBooks(s, Next(cfg, s, step), r)
  {
    if step.Evict? {
      EvictBooks(cfg, s, step.r, r);
    } else {
      OutsideStore(cfg, s, step);
    }
  }

  lemma {:induction false} OutsideHands(cfg: Settings, s: State, step: Step)
    requires Enabled(cfg, s, step) && !MovesOneActor(step)
    ensures NothingNewInHand(s, Next(cfg, s, step))
  {
    if step.Crash? {
      CrashHands(cfg, s, step.node);
    }
  }

  lemma {:induction false} CrashHands(cfg: Settings, s: State, n: nat)
    requires Enabled(cfg, s, Crash(n))
    ensures NothingNewInHand(s, Next(cfg, s, Crash(n)))
  {
  }

  lemma {:induction false} OutsideKeeps(cfg: Settings, s: State, step: Step, r: RunID, past: Past)
    requires Incarnation(cfg, s, r, past) && cfg.first(r).run == r && Enabled(cfg, s, step) && !MovesOneActor(step)
    requires step != Evict(r)
    ensures Incarnation(cfg, Next(cfg, s, step), r, past)
  {
    OutsideBooks(cfg, s, step, r);
    OutsideHands(cfg, s, step);
    CalmOutside(cfg, s, Next(cfg, s, step), r, past);
  }

  // ---- Tables of reachable states ----------------------------------------------------------

  ghost predicate TableOk(cfg: Settings, s: State, r: RunID) {
    CountersMatch(cfg.redis, s.store, r) && OwnTable(s, r)
  }

  ghost predicate SameTable(s: State, s': State, r: RunID) {
    && s'.store.Tasks(r) == s.store.Tasks(r)
    && s'.store.Active(r) == s.store.Active(r) && s'.store.Links(r) == s.store.Links(r)
  }

  lemma {:induction false} AdmitTableOk(cfg: Settings, s: State, a: nat, r: RunID)
    requires TableOk(cfg, s, r) && AtSend(s, a)
    ensures TableOk(cfg, AdmitStep(cfg, s, a), r)
  {
    var c := s.actors[a].phase.todo[0].id;
    AdmitCounts(cfg.redis, s.store, s.now, c.run, c, r);
  }

  lemma {:induction false} CompleteTableOk(cfg: Settings, s: State, c: TaskID, s': State, r: RunID)
    requires TableOk(cfg, s, r) && s'.store == Complete(s.store, s.now, c.run, c, cfg.redis.lease).0
    ensures TableOk(cfg, s', r)
  {
    CompleteCounts(cfg.redis, s.store, s.now, c.run, c, r);
  }

  lemma {:induction false} UndoTableOk(cfg: Settings, s: State, c: TaskID, s': State, r: RunID)
    requires TableOk(cfg, s, r) && s'.store == Unadmit(s.store, c.run, c)
    ensures TableOk(cfg, s', r)
  {
    UnadmitCounts(cfg.redis, s.store, c.run, c, r);
  }

  lemma {:induction false} CleanupTable(s: Store, q: RunID, r: RunID)
    ensures var s' := Cleanup(s, q);
      && s'.Tasks(r) == (if q == r then map[] else s.Tasks(r))
      && s'.Active(r) == (if q == r then 0 else s.Active(r)) && s'.Links(r) == (if q == r then 0 else s.Links(r))
  {
  }

  lemma {:induction false} EmptyTableOk(cfg: Settings, s: State, r: RunID)
    requires s.store.Tasks(r) == map[] && s.store.Active(r) == 0 && s.store.Links(r) == 0
    ensures TableOk(cfg, s, r)
  {
    assert QueuedTasks(map[]) == {};
  }

  lemma {:induction false} CleanTableOk(cfg: Settings, s: State, q: RunID, s': State, r: RunID)
    requires TableOk(cfg, s, r) && s'.store == Cleanup(s.store, q)
    ensures TableOk(cfg, s', r)
  {
    CleanupTable(s.store, q, r);
    if q == r {
      EmptyTableOk(cfg, s', r);
    }
  }

  predicate ChangesTables(step: Step) {
    || step.AdmitChild? || step.AdmitReplyLost? || step.UndoAdmission? || step.CompleteOwn? || step.CompleteReplyLost?
    || step.CleanUp? || step.Evict?
  }

  lemma {:induction false} QuietTables(cfg: Settings, s: State, step: Step, r: RunID)
    requires Enabled(cfg, s, step) && !ChangesTables(step)
    ensures SameTable(s, Next(cfg, s, step), r)
  {
    if Plain(step) {
      PlainMove(cfg, s, step);
    } else if step.ReadState? {
      ReadMoves(cfg, s, step);
    }
  }

  lemma {:induction false} StepTableOk(cfg: Settings, s: State, step: Step, r: RunID)
    requires TableOk(cfg, s, r) && Enabled(cfg, s, step)
    ensures TableOk(cfg, Next(cfg, s, step), r)
  {
    if !ChangesTables(step) {
      QuietTables(cfg, s, step, r);
    } else {
      match step {
        case AdmitChild(a) => AdmitTableOk(cfg, s, a, r);
        case AdmitReplyLost(a) => AdmitTableOk(cfg, s, a, r);
        case UndoAdmission(a) => UndoTableOk(cfg, s, s.actors[a].phase.child.id, Next(cfg, s, step), r);
        case CompleteOwn(a) => CompleteTableOk(cfg, s, s.actors[a].source.task.id, Next(cfg, s, step), r);
        case CompleteReplyLost(a) => CompleteTableOk(cfg, s, s.actors[a].source.task.id, Next(cfg, s, step), r);
        case CleanUp(a) => CleanTableOk(cfg, s, s.actors[a].RunOf(), Next(cfg, s, step), r);
        case Evict(q) => CleanTableOk(cfg, s, q, Next(cfg, s, step), r);
      }
    }
  }

  lemma {:induction false} RunTableOk(cfg: Settings, s: State, steps: seq<Step>, s': State, r: RunID)
    requires TableOk(cfg, s, r) && ActorsOk(cfg, s) && Run(cfg, s, steps, s')
    ensures TableOk(cfg, s', r) && ActorsOk(cfg, s')
    decreases |steps|
  {
    if steps != [] {
      StepTableOk(cfg, s, steps[0], r);
      StepKeepsActors(cfg, s, steps[0]);
      RunTableOk(cfg, Next(cfg, s, steps[0]), steps[1..], s', r);
    }
  }

  // ---- The theorem -------------------------------------------------------------------------

  /** The end of an incarnation: the run's keys go. */
  ghost predicate EndsIncarnation(s: State, step: Step, r: RunID) {
    step == Evict(r) || (step.CleanUp? && step.a in s.actors && s.actors[step.a].RunOf() == r)
  }

  lemma {:induction false} StepKeeps(cfg: Settings, s: State, step: Step, r: RunID, past: Past)
    requires Incarnation(cfg, s, r, past) && ActorsOk(cfg, s) && OneHolder(s, r)
    requires Enabled(cfg, s, step) && !EndsIncarnation(s, step, r) && StartsAs(s, step, r, {Waiting})
    ensures Incarnation(cfg, Next(cfg, s, step), r, past)
  {
    if step.ReadState? || step.ReadStateFailed? {
      ReadKeeps(cfg, s, step, r, past);
    } else if Plain(step) {
      PlainKeeps(cfg, s, step, r, past);
    } else if !MovesOneActor(step) {
      OutsideKeeps(cfg, s, step, r, past);
    } else {
      match step {
        case AdmitChild(a) => AdmitKeeps(cfg, s, a, r, past);
        case AdmitReplyLost(a) => AdmitReplyLostKeeps(cfg, s, a, r, past);
        case Produce(a) => ProduceKeeps(cfg, s, a, r, past);
        case CompleteOwn(a) => CompleteKeeps(cfg, s, a, r, past);
        case CompleteReplyLost(a) => CompleteReplyLostKeeps(cfg, s, a, r, past);
        case UndoAdmission(a) => UndoKeeps(cfg, s, a, r, past);
        case UndoFailed(a) => UndoFailedKeeps(cfg, s, a, r, past);
        case CleanUp(a) => CleanUpOtherKeeps(cfg, s, a, r, past);
      }
    }
  }

  /** Steps within one incarnation of r, in which no two workers hold the same task and workers
      start on tasks that stand like this. */
  ghost predicate IncarnationRun(cfg: Settings, s: State, steps: seq<Step>, s': State, r: RunID, kinds: set<Standing>)
    decreases |steps|
  {
    if steps == [] then s == s'
    else
      && Enabled(cfg, s, steps[0]) && !EndsIncarnation(s, steps[0], r) && OneHolder(s, r)
      && StartsAs(s, steps[0], r, kinds)
      && IncarnationRun(cfg, Next(cfg, s, steps[0]), steps[1..], s', r, kinds)
  }

  /** No worker of r is at work or sending: those that took part in an earlier incarnation let go. */
  ghost predicate Idle(s: State, r: RunID) {
    forall a | a in s.actors ::
      && (s.actors[a].Busy() ==> s.actors[a].source.task.id.run != r)
      && (s.actors[a].Sends() ==> s.actors[a].phase.child.id.run != r)
  }

  /** An incarnation starts: r's table is empty in a state that can be reached at all. */
  ghost predicate Begins(cfg: Settings, before: seq<Step>, s: State, r: RunID) {
    Run(cfg, Start, before, s) && s.store.Tasks(r) == map[]
  }

  ghost predicate FirstsOwn(cfg: Settings) {
    forall q :: cfg.first(q).run == q
  }

  function PastOf(s: State, r: RunID): Past {
    Past(s.sent, s.finishes[r])
  }

  lemma {:induction false} BeginsIncarnation(cfg: Settings, before: seq<Step>, s: State, r: RunID)
    requires FirstsOwn(cfg) && Begins(cfg, before, s, r) && Idle(s, r)
    ensures Incarnation(cfg, s, r, PastOf(s, r)) && ActorsOk(cfg, s)
  {
    assert QueuedTasks(map[]) == {};
    RunTableOk(cfg, Start, before, s, r);
    forall a | a in s.actors
      ensures SenderOk(s, s.actors[a], r, PastOf(s, r)) && HolderOk(s, s.actors[a], r)
    {
    }
    assert Apart(s, r);
  }

  lemma {:induction false} RunKeeps(cfg: Settings, s: State, steps: seq<Step>, s': State, r: RunID, past: Past)
    requires Incarnation(cfg, s, r, past) && ActorsOk(cfg, s) && IncarnationRun(cfg, s, steps, s', r, {Waiting})
    ensures Incarnation(cfg, s', r, past) && ActorsOk(cfg, s')
    decreases |steps|
  {
    if steps != [] {
      StepKeeps(cfg, s, steps[0], r, past);
      StepKeepsActors(cfg, s, steps[0]);
      RunKeeps(cfg, Next(cfg, s, steps[0]), steps[1..], s', r, past);
    }
  }

  /** After the finish the admission script answers anything but Admitted. */
  lemma {:induction false} NoAdmissionAfterFinish(cfg: Settings, s: State, a: nat, r: RunID, past: Past)
    requires Incarnation(cfg, s, r, past) && ActorsOk(cfg, s) && s.finishes[r] > past.finishes
    requires AtSend(s, a) && s.actors[a].phase.todo[0].id.run == r
    ensures AdmitStep(cfg, s, a).store == s.store
    ensures !AdmitStep(cfg, s, a).actors[a].phase.Producing?
  {
    KnownBeforeAdmission(cfg, s, a, s.actors[a].phase.todo[0], r, past);
    KnownIsDuplicate(cfg, s, a);
  }

  lemma {:induction false} KnownBeforeAdmission(cfg: Settings, s: State, a: nat, c: Task, r: RunID, past: Past)
    requires Incarnation(cfg, s, r, past) && ActorsOk(cfg, s) && s.finishes[r] > past.finishes && a in s.actors
    requires s.actors[a].phase.Sending? && c in s.actors[a].phase.todo && c.id.run == r
    ensures c.id in s.store.Tasks(r)
  {
    if c.id !in s.store.Tasks(r) {
      AdmitterIsEarly(cfg, s, a, c, r, past);
    }
  }

  lemma {:induction false} KnownIsDuplicate(cfg: Settings, s: State, a: nat)
    requires AtSend(s, a)
    requires var c := s.actors[a].phase.todo[0].id; c in s.store.Tasks(c.run)
    ensures AdmitStep(cfg, s, a).store == s.store
    ensures !AdmitStep(cfg, s, a).actors[a].phase.Producing?
  {
  }

  /** The finish was counted at most once since `s`, and if it was, nothing is queued and no
      admission succeeds. */
  ghost predicate Concluded(cfg: Settings, s: State, s': State, r: RunID) {
    && s'.finishes[r] <= s.finishes[r] + 1
    && (s'.finishes[r] > s.finishes[r] ==>
          && NothingQueued(s', r)
          && forall a | AtSend(s', a) && s'.actors[a].phase.todo[0].id.run == r ::
               AdmitStep(cfg, s', a).store == s'.store && !AdmitStep(cfg, s', a).actors[a].phase.Producing?)
  }

  /** The theorem: in every incarnation, over every interleaving in which workers start only on
      tasks that are queued and sent, the run is found finished at most once and stays finished. */
  lemma {:induction false} TerminationDetectedOnce(cfg: Settings, before: seq<Step>, s: State, steps: seq<Step>,
      s': State, r: RunID)
    requires FirstsOwn(cfg) && Begins(cfg, before, s, r) && Idle(s, r)
    requires IncarnationRun(cfg, s, steps, s', r, {Waiting})
    ensures Concluded(cfg, s, s', r)
  {
    BeginsIncarnation(cfg, before, s, r);
    RunKeeps(cfg, s, steps, s', r, PastOf(s, r));
    if s'.finishes[r] > s.finishes[r] {
      forall a | AtSend(s', a) && s'.actors[a].phase.todo[0].id.run == r
        ensures AdmitStep(cfg, s', a).store == s'.store && !AdmitStep(cfg, s', a).actors[a].phase.Producing?
      {
        NoAdmissionAfterFinish(cfg, s', a, r, PastOf(s, r));
      }
    }
  }

  /** In every incarnation every task is produced at most once and at most MaxLinks are. */
  lemma {:induction false} ProducedAtMostMaxLinks(cfg: Settings, before: seq<Step>, s: State, steps: seq<Step>,
      s': State, r: RunID, ids: set<TaskID>)
    requires FirstsOwn(cfg) && Begins(cfg, before, s, r) && Idle(s, r)
    requires IncarnationRun(cfg, s, steps, s', r, {Waiting})
    requires forall t | t in ids :: t.run == r && s'.sent[t] > s.sent[t]
    ensures |ids| <= cfg.redis.maxLinks(r)
    ensures forall t: TaskID | t.run == r :: s.sent[t] <= s'.sent[t] <= s.sent[t] + 1
  {
    BeginsIncarnation(cfg, before, s, r);
    RunKeeps(cfg, s, steps, s', r, PastOf(s, r));
    assert ids <= s'.store.Tasks(r).Keys;
    CardinalityMonotone(ids, s'.store.Tasks(r).Keys);
  }

  // ---- Depth -------------------------------------------------------------------------------

  ghost predicate Shallow(cfg: Settings, task: Task) {
    task.depth < cfg.maxDepth(task.id.run)
  }

  /** Every message produced is of a task within the run's depth limit. */
  ghost predicate AllShallow(cfg: Settings, s: State) {
    && (forall e | e in s.buffer :: Shallow(cfg, e.1))
    && forall p: nat, o: nat | o < |s.Log(p)| :: Shallow(cfg, s.Log(p)[o])
  }

  lemma {:induction false} SameQueueShallow(cfg: Settings, s: State, s': State)
    requires AllShallow(cfg, s) && s'.buffer == s.buffer && s'.log == s.log
    ensures AllShallow(cfg, s')
  {
    forall p: nat, o: nat | o < |s'.Log(p)| ensures Shallow(cfg, s'.Log(p)[o]) {
      assert s'.Log(p) == s.Log(p);
    }
  }

  lemma {:induction false} ProduceShallow(cfg: Settings, s: State, a: nat)
    requires AllShallow(cfg, s) && ActorsOk(cfg, s) && Enabled(cfg, s, Produce(a))
    ensures AllShallow(cfg, Next(cfg, s, Produce(a)))
  {
    assert ActorOk(cfg, s.actors[a]);
    forall p: nat ensures Next(cfg, s, Produce(a)).Log(p) == s.Log(p) {
    }
  }

  lemma {:induction false} FlushShallow(cfg: Settings, s: State, n: nat, task: Task, p: nat)
    requires AllShallow(cfg, s) && Enabled(cfg, s, Flush(n, task, p))
    ensures AllShallow(cfg, Next(cfg, s, Flush(n, task, p)))
  {
    var s' := Next(cfg, s, Flush(n, task, p));
    assert Shallow(cfg, (n, task).1);
    forall q: nat, o: nat | o < |s'.Log(q)| ensures Shallow(cfg, s'.Log(q)[o]) {
      assert o < |s.Log(q)| ==> s'.Log(q)[o] == s.Log(q)[o];
    }
  }

  lemma {:induction false} DropShallow(cfg: Settings, s: State, n: nat, task: Task)
    requires AllShallow(cfg, s) && Enabled(cfg, s, Dropped(n, task))
    ensures AllShallow(cfg, Next(cfg, s, Dropped(n, task)))
  {
    forall p: nat ensures Next(cfg, s, Dropped(n, task)).Log(p) == s.Log(p) {
    }
  }

  lemma {:induction false} OutsideSameQueue(cfg: Settings, s: State, step: Step)
    requires Enabled(cfg, s, step) && !MovesOneActor(step) && !step.Flush? && !step.Dropped?
    ensures Next(cfg, s, step).buffer == s.buffer && Next(cfg, s, step).log == s.log
  {
  }

  lemma {:induction false} StepShallow(cfg: Settings, s: State, step: Step)
    requires AllShallow(cfg, s) && ActorsOk(cfg, s) && Enabled(cfg, s, step)
    ensures AllShallow(cfg, Next(cfg, s, step))
  {
    if step.Produce? {
      ProduceShallow(cfg, s, step.a);
    } else if step.Flush? {
      FlushShallow(cfg, s, step.node, step.task, step.partition);
    } else if step.Dropped? {
      DropShallow(cfg, s, step.node, step.task);
    } else {
      if MovesOneActor(step) {
        MoveShape(cfg, s, step);
      } else {
        OutsideSameQueue(cfg, s, step);
      }
      SameQueueShallow(cfg, s, Next(cfg, s, step));
    }
  }

  lemma {:induction false} RunShallow(cfg: Settings, s: State, steps: seq<Step>, s': State)
    requires AllShallow(cfg, s) && ActorsOk(cfg, s) && Run(cfg, s, steps, s')
    ensures AllShallow(cfg, s')
    decreases |steps|
  {
    if steps != [] {
      StepShallow(cfg, s, steps[0]);
      StepKeepsActors(cfg, s, steps[0]);
      RunShallow(cfg, Next(cfg, s, steps[0]), steps[1..], s');
    }
  }

  /** In every reachable state all messages, buffered or in the log, are within the depth limit. */
  lemma {:induction false} MessagesAreShallow(cfg: Settings, steps: seq<Step>, s: State)
    requires (forall r :: cfg.first(r).run == r) && Run(cfg, Start, steps, s)
    ensures AllShallow(cfg, s)
  {
    RunShallow(cfg, Start, steps, s);
  }
}
