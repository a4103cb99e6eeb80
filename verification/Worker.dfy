/** One worker handling one task from beginning to end, and sending the children it finds. What its
    code does, left alone, is a path through the steps of the protocol. */
module Worker {
  import opened RunState
  import opened Protocol

  datatype SendError = Nil | LimitExceeded | InvalidURL | NotActive | Failed

  /** What becomes of a call to the store: it is answered; it fails and nothing was done; or it took
      effect and the answer is lost. */
  datatype Call = Answered | NotDone | AnswerLost

  /** What becomes of the calls one send makes; `undone` says that the undo took effect, whose
      failure the code only logs. */
  datatype Fate = Fate(validURL: bool, admit: Call, produceOk: bool, undone: bool)

  datatype Sent = Sent(store: Store, error: SendError, produced: seq<Task>)

  /** What a worker meets on the way: what becomes of reading its task's state; whether the page
      fails or gives links, and what becomes of each send; what becomes of the completion, and
      whether the calls after it take effect, whose failures the code only logs. */
  datatype Fates = Fates(read: Call, pageOk: bool, links: seq<string>, sends: seq<Fate>, complete: Call,
    released: bool, cleanedUp: bool)

  datatype Handled = Handled(store: Store, produced: seq<Task>, acked: bool)

  /** There is nothing to do for the task: it is done, or its run has no live slot. */
  predicate Idle(store: Store, now: int, t: TaskID) {
    (t in store.Tasks(t.run) && store.Tasks(t.run)[t] == Done) || !store.Live(t.run, now)
  }

  // ---- Sending one task --------------------------------------------------------------------

  function SendEffect(cfg: Settings, store: Store, now: int, task: Task, fate: Fate): Sent {
    var r := task.id.run;
    if task.depth >= cfg.maxDepth(r) then Sent(store, LimitExceeded, [])
    else if !fate.validURL then Sent(store, InvalidURL, [])
    else if fate.admit == NotDone then Sent(store, Failed, [])
    else
      var (admitted, answer) := Admit(store, now, r, task.id, cfg.redis.maxLinks(r));
      if fate.admit == AnswerLost then Sent(admitted, Failed, [])
      else
        match answer
        case Duplicate => Sent(admitted, Nil, [])
        case LimitReached => Sent(admitted, LimitExceeded, [])
        case RunInactive => Sent(admitted, NotActive, [])
        case Admitted =>
          if fate.produceOk then Sent(admitted, Nil, [task])
          else Sent(if fate.undone then Unadmit(admitted, r, task.id) else admitted, Failed, [])
  }

  /** Sends from child `i` on, some send before having failed or not. */
  function ChildrenEffect(cfg: Settings, store: Store, now: int, todo: seq<Task>, fates: seq<Fate>, i: nat,
      failed: bool): Sent
    requires i <= |todo| <= |fates|
    decreases |todo| - i
  {
    if i == |todo| then Sent(store, if failed then Failed else Nil, [])
    else
      var one := SendEffect(cfg, store, now, todo[i], fates[i]);
      if one.error == NotActive then Sent(one.store, Nil, one.produced)
      else
        var rest := ChildrenEffect(cfg, one.store, now, todo, fates, i + 1, failed || one.error == Failed);
        rest.(produced := one.produced + rest.produced)
  }

  /** Nothing left to do but `rest` after `done` was produced amounts to `all`. */
  ghost predicate Leaves(all: Sent, done: seq<Task>, rest: Sent) {
    all.store == rest.store && all.error == rest.error && all.produced == done + rest.produced
  }

  lemma {:induction false} OneSent(all: Sent, done: seq<Task>, cfg: Settings, store: Store, now: int, todo: seq<Task>,
      fates: seq<Fate>, i: nat, failed: bool)
    requires i < |todo| <= |fates| && Leaves(all, done, ChildrenEffect(cfg, store, now, todo, fates, i, failed))
    ensures var one := SendEffect(cfg, store, now, todo[i], fates[i]);
      if one.error == NotActive then all == Sent(one.store, Nil, done + one.produced)
      else Leaves(all, done + one.produced,
        ChildrenEffect(cfg, one.store, now, todo, fates, i + 1, failed || one.error == Failed))
  {
    var one := SendEffect(cfg, store, now, todo[i], fates[i]);
    if one.error != NotActive {
      var rest := ChildrenEffect(cfg, one.store, now, todo, fates, i + 1, failed || one.error == Failed);
      assert done + (one.produced + rest.produced) == done + one.produced + rest.produced;
    }
  }

  lemma {:induction false} Regrouped(before: seq<Task>, done: seq<Task>, more: seq<Task>)
    ensures before + done + more == before + (done + more)
  {
  }

  /** The children of a page, sent unless they would be too deep. */
  function LinksEffect(cfg: Settings, store: Store, now: int, parent: Task, fates: Fates): Sent
    requires |fates.sends| >= |fates.links|
  {
    if parent.depth + 1 >= cfg.maxDepth(parent.id.run) then Sent(store, Nil, [])
    else
      ChildrenAre(parent, fates.links);
      ChildrenEffect(cfg, store, now, Children(parent, fates.links), fates.sends, 0, false)
  }

  function CompleteEffect(cfg: Settings, store: Store, now: int, id: TaskID, fates: Fates): Handled {
    if fates.complete == NotDone then Handled(store, [], false)
    else
      var (completed, reply) := Complete(store, now, id.run, id, cfg.redis.lease);
      if fates.complete == AnswerLost then Handled(completed, [], false)
      else if !reply.counted || reply.left > 0 then Handled(completed, [], true)
      else
        var freed := if fates.released then Release(completed, id.run) else completed;
        Handled(if fates.cleanedUp then Cleanup(freed, id.run) else freed, [], true)
  }

  /** A task from its delivery to the end of its handling; `acked` says whether its record is acked. */
  function HandleEffect(cfg: Settings, store: Store, now: int, task: Task, fates: Fates): Handled
    requires |fates.sends| >= |fates.links|
  {
    var (read, reply) := TaskState(store, now, task.id.run, task.id, cfg.redis.lease);
    var started := if fates.read == NotDone then store else read;
    if fates.read == Answered && (reply.done || !reply.runActive) then Handled(started, [], true)
    else if !fates.pageOk then CompleteEffect(cfg, started, now, task.id, fates)
    else
      var sent := LinksEffect(cfg, started, now, task, fates);
      if sent.error == Failed then Handled(sent.store, sent.produced, false)
      else CompleteEffect(cfg, sent.store, now, task.id, fates).(produced := sent.produced)
  }

  lemma {:induction false} CompletedIsNotQueued(cfg: Settings, store: Store, now: int, t: TaskID, fates: Fates)
    requires CompleteEffect(cfg, store, now, t, fates).acked
    ensures !CompleteEffect(cfg, store, now, t, fates).store.IsQueued(t.run, t)
  {
    var completed := Complete(store, now, t.run, t, cfg.redis.lease).0;
    assert !completed.IsQueued(t.run, t);
  }

  /** Whatever happens on the way, a task is acked and left queued if and only if its state was read
      under a lapsed lease: in every other case an ack means that it is counted down or its run's
      keys are gone. */
  lemma {:induction false} AckedWhileQueuedIff(cfg: Settings, store: Store, now: int, task: Task, fates: Fates)
    requires |fates.sends| >= |fates.links|
    ensures var h, t := HandleEffect(cfg, store, now, task, fates), task.id;
      h.acked && h.store.IsQueued(t.run, t) <==>
        fates.read == Answered && !store.Live(t.run, now) && store.IsQueued(t.run, t)
  {
    var started := if fates.read == NotDone then store else Renew(store, now, task.id.run, cfg.redis.lease);
    if fates.read == Answered && Idle(store, now, task.id) {
      assert HandleEffect(cfg, store, now, task, fates) == Handled(started, [], true);
    } else if !fates.pageOk {
      if CompleteEffect(cfg, started, now, task.id, fates).acked {
        CompletedIsNotQueued(cfg, started, now, task.id, fates);
      }
    } else {
      var sent := LinksEffect(cfg, started, now, task, fates);
      if CompleteEffect(cfg, sent.store, now, task.id, fates).acked {
        CompletedIsNotQueued(cfg, sent.store, now, task.id, fates);
      }
    }
  }

  // ---- What is queued is sent ----------------------------------------------------------------

  /** The send does not leave an admission nobody knows of. */
  predicate Settled(fate: Fate) {
    fate.admit != AnswerLost && (fate.produceOk || fate.undone)
  }

  /** The task is queued afterwards exactly if it was before or has been handed to the producer. */
  ghost predicate Booked(before: Store, after: Sent, t: TaskID) {
    after.store.IsQueued(t.run, t) <==> before.IsQueued(t.run, t) || exists c :: c in after.produced && c.id == t
  }

  /** The send gets as far as the admission, and the script admits the task. */
  predicate IsAdmitted(cfg: Settings, store: Store, now: int, task: Task, fate: Fate) {
    && task.depth < cfg.maxDepth(task.id.run) && fate.validURL && fate.admit != NotDone
    && Admit(store, now, task.id.run, task.id, cfg.redis.maxLinks(task.id.run)).1 == Admitted
  }

  lemma {:induction false} AdmitQueues(store: Store, now: int, c: TaskID, maxLinks: int, t: TaskID)
    ensures var (after, answer) := Admit(store, now, c.run, c, maxLinks);
      && (answer != Admitted ==> after == store)
      && (answer == Admitted ==> (after.IsQueued(t.run, t) <==> t == c || store.IsQueued(t.run, t))
                                 && !store.IsQueued(c.run, c))
  {
  }

  lemma {:induction false} UnadmitDequeues(store: Store, c: TaskID, t: TaskID)
    ensures Unadmit(store, c.run, c).IsQueued(t.run, t) <==> t != c && store.IsQueued(t.run, t)
  {
  }

  lemma {:induction false} SendBooked(cfg: Settings, store: Store, now: int, task: Task, fate: Fate, t: TaskID)
    requires Settled(fate) || !IsAdmitted(cfg, store, now, task, fate) || t != task.id
    ensures Booked(store, SendEffect(cfg, store, now, task, fate), t)
  {
    var sent := SendEffect(cfg, store, now, task, fate);
    var maxLinks := cfg.redis.maxLinks(task.id.run);
    AdmitQueues(store, now, task.id, maxLinks, t);
    UnadmitDequeues(Admit(store, now, task.id.run, task.id, maxLinks).0, task.id, t);
    assert sent.produced == [] || sent.produced == [task];
    assert task in [task];
  }

  /** One send keeps the books exactly if its admission is answered and either produced or undone,
      or nothing was admitted. */
  lemma {:induction false} SendBookedIff(cfg: Settings, store: Store, now: int, task: Task, fate: Fate)
    ensures (forall t :: Booked(store, SendEffect(cfg, store, now, task, fate), t))
      <==> Settled(fate) || !IsAdmitted(cfg, store, now, task, fate)
  {
    if Settled(fate) || !IsAdmitted(cfg, store, now, task, fate) {
      forall t ensures Booked(store, SendEffect(cfg, store, now, task, fate), t) {
        SendBooked(cfg, store, now, task, fate, t);
      }
    } else {
      AdmitQueues(store, now, task.id, cfg.redis.maxLinks(task.id.run), task.id);
      assert !Booked(store, SendEffect(cfg, store, now, task, fate), task.id);
    }
  }

  lemma {:induction false} BookedThen(store: Store, one: Sent, rest: Sent, all: Sent, t: TaskID)
    requires Booked(store, one, t) && Booked(one.store, rest, t)
    requires all.store == rest.store && all.produced == one.produced + rest.produced
    ensures Booked(store, all, t)
  {
    if c :| c in one.produced && c.id == t {
      assert c in all.produced;
    }
    if c :| c in rest.produced && c.id == t {
      assert c in all.produced;
    }
  }

  /** If every send is settled, the tasks queued after all of them are exactly those queued before
      and those handed to the producer, wherever the loop ends. */
  lemma {:induction false} ChildrenBooked(cfg: Settings, store: Store, now: int, todo: seq<Task>, fates: seq<Fate>,
      i: nat, failed: bool, t: TaskID)
    requires i <= |todo| <= |fates| && forall j | i <= j < |fates| :: Settled(fates[j])
    ensures Booked(store, ChildrenEffect(cfg, store, now, todo, fates, i, failed), t)
    decreases |todo| - i
  {
    if i < |todo| {
      var one := SendEffect(cfg, store, now, todo[i], fates[i]);
      SendBooked(cfg, store, now, todo[i], fates[i], t);
      if one.error != NotActive {
        var failed' := failed || one.error == Failed;
        var rest := ChildrenEffect(cfg, one.store, now, todo, fates, i + 1, failed');
        ChildrenBooked(cfg, one.store, now, todo, fates, i + 1, failed', t);
        BookedThen(store, one, rest, ChildrenEffect(cfg, store, now, todo, fates, i, failed), t);
      }
    }
  }

  class CrawlWorker {
    const cfg: Settings
    const states: RunStateManager

    /** What was handed to the producer. */
    var produced: seq<Task>

    constructor (cfg: Settings, states: RunStateManager)
      ensures this.cfg == cfg && this.states == states && produced == []
    {
      this.cfg, this.states, this.produced := cfg, states, [];
    }

    method SendTask(task: Task, now: int, fate: Fate) returns (err: SendError)
      modifies `produced, states
      ensures var e := SendEffect(cfg, old(states.View()), now, task, fate);
        states.View() == e.store && err == e.error && produced == old(produced) + e.produced
    {
      var r := task.id.run;
      if task.depth >= cfg.maxDepth(r) {
        return LimitExceeded;
      }
      if !fate.validURL {
        return InvalidURL;
      }
      if fate.admit == NotDone {
        return Failed;
      }
      var admission := states.AdmitTask(now, r, task.id, cfg.redis.maxLinks(r));
      if fate.admit == AnswerLost {
        return Failed;
      }
      match admission {
        case Duplicate => return Nil;
        case LimitReached => return LimitExceeded;
        case RunInactive => return NotActive;
        case Admitted =>
      }
      if !fate.produceOk {
        if fate.undone {
          states.UnadmitTask(r, task.id);
        }
        return Failed;
      }
      produced := produced + [task];
      return Nil;
    }

    method SendChildren(parent: Task, now: int, fates: Fates) returns (err: SendError)
      requires |fates.sends| >= |fates.links|
      modifies `produced, states
      ensures var e := LinksEffect(cfg, old(states.View()), now, parent, fates);
        states.View() == e.store && err == e.error && produced == old(produced) + e.produced
    {
      if parent.depth + 1 >= cfg.maxDepth(parent.id.run) {
        return Nil;
      }
      ChildrenAre(parent, fates.links);
      ghost var todo := Children(parent, fates.links);
      ghost var all, done := ChildrenEffect(cfg, states.View(), now, todo, fates.sends, 0, false), [];
      var failed := false;
      for i := 0 to |fates.links|
        invariant Leaves(all, done, ChildrenEffect(cfg, states.View(), now, todo, fates.sends, i, failed))
        invariant produced == old(produced) + done
      {
        var child := Task(TaskID(parent.id.run, fates.links[i]), parent.depth + 1);
        ghost var one := SendEffect(cfg, states.View(), now, child, fates.sends[i]);
        OneSent(all, done, cfg, states.View(), now, todo, fates.sends, i, failed);
        Regrouped(old(produced), done, one.produced);
        var e := SendTask(child, now, fates.sends[i]);
        done := done + one.produced;
        if e == NotActive {
          return Nil;
        }
        failed := failed || e == Failed;
      }
      return if failed then Failed else Nil;
    }

    method CompleteTask(id: TaskID, now: int, fates: Fates) returns (acked: bool)
      modifies states
      ensures var e := CompleteEffect(cfg, old(states.View()), now, id, fates);
        states.View() == e.store && acked == e.acked
    {
      if fates.complete == NotDone {
        return false;
      }
      var reply := states.CompleteTask(now, id.run, id, cfg.redis.lease);
      if fates.complete == AnswerLost {
        return false;
      }
      acked := true;
      if !reply.counted || reply.left > 0 {
        return;
      }
      if fates.released {
        states.ReleaseRunSlot(id.run);
      }
      if fates.cleanedUp {
        states.CleanupRun(id.run);
      }
    }

    /** Whether the task needs no handling, as far as the answer comes. A lease that is still live is
        renewed, and nothing else changes. */
    method AlreadyHandled(task: Task, now: int, fates: Fates) returns (handled: bool)
      modifies states
      ensures handled <==> fates.read == Answered && Idle(old(states.View()), now, task.id)
      ensures fates.read == NotDone ==> states.View() == old(states.View())
      ensures fates.read != NotDone ==> states.View() == Renew(old(states.View()), now, task.id.run, cfg.redis.lease)
    {
      if fates.read == NotDone {
        return false;
      }
      var reply := states.ReadTaskState(now, task.id.run, task.id, cfg.redis.lease);
      if fates.read == AnswerLost {
        return false;
      }
      return reply.done || !reply.runActive;
    }

    method HandleTask(task: Task, now: int, fates: Fates) returns (acked: bool)
      requires |fates.sends| >= |fates.links|
      modifies `produced, states
      ensures var e := HandleEffect(cfg, old(states.View()), now, task, fates);
        states.View() == e.store && acked == e.acked && produced == old(produced) + e.produced
    {
      var handled := AlreadyHandled(task, now, fates);
      if handled {
        return true;
      }
      if fates.pageOk {
        var err := SendChildren(task, now, fates);
        if err == Failed {
          return false;
        }
      }
      acked := CompleteTask(task.id, now, fates);
    }
  }

  // ---- A worker's path through the protocol ------------------------------------------------

  ghost predicate By(steps: seq<Step>, a: nat) {
    forall i | 0 <= i < |steps| :: MovesOf(steps[i], a)
  }

  /** A step of worker `a`. */
  predicate MovesOf(step: Step, a: nat) {
    !(step.Tick? || step.Flush? || step.Dropped? || step.Rebalance? || step.Crash? || step.Evict?) && step.a == a
  }

  function IDs(tasks: seq<Task>): multiset<TaskID> {
    if tasks == [] then multiset{} else IDs(tasks[..|tasks| - 1]) + multiset{tasks[|tasks| - 1].id}
  }

  lemma {:induction false} Reassociate(a: multiset<TaskID>, b: multiset<TaskID>, c: multiset<TaskID>)
    ensures a + b + c == a + (b + c)
  {
  }

  lemma {:induction false} IDsAppend(xs: seq<Task>, t: Task)
    ensures IDs(xs + [t]) == IDs(xs) + multiset{t.id}
  {
    assert (xs + [t])[..|xs|] == xs;
  }

  lemma {:induction false} FrontAndLast(xs: seq<Task>, ys: seq<Task>)
    requires ys != []
    ensures xs + ys == xs + ys[..|ys| - 1] + [ys[|ys| - 1]]
  {
  }

  lemma {:induction false} IDsConcat(xs: seq<Task>, ys: seq<Task>)
    ensures IDs(xs + ys) == IDs(xs) + IDs(ys)
  {
    if ys == [] {
      assert xs + ys == xs;
    } else {
      var front, last := ys[..|ys| - 1], ys[|ys| - 1];
      FrontAndLast(xs, ys);
      IDsConcat(xs, front);
      IDsAppend(xs + front, last);
      Reassociate(IDs(xs), IDs(front), multiset{last.id});
    }
  }

  /** Worker `a` moved and produced these tasks; the clock, the log and the other workers did not
      change. */
  ghost predicate Moved(s: State, s': State, a: nat, produced: seq<Task>) {
    && a in s.actors && a in s'.actors && s'.actors == s.actors[a := s'.actors[a]]
    && s'.actors[a].source == s.actors[a].source && s'.actors[a].node == s.actors[a].node
    && s'.now == s.now && s'.log == s.log && s'.sent == s.sent + IDs(produced)
  }

  lemma {:induction false} MovedTwice(s: State, p: State, s': State, a: nat, xs: seq<Task>, ys: seq<Task>)
    requires Moved(s, p, a, xs) && Moved(p, s', a, ys)
    ensures Moved(s, s', a, xs + ys)
  {
    IDsConcat(xs, ys);
  }

  lemma {:induction false} RunConcat(cfg: Settings, s: State, xs: seq<Step>, p: State, ys: seq<Step>, s': State)
    requires Run(cfg, s, xs, p) && Run(cfg, p, ys, s')
    ensures Run(cfg, s, xs + ys, s')
    decreases |xs|
  {
    if xs == [] {
      assert xs + ys == ys;
    } else {
      RunConcat(cfg, Next(cfg, s, xs[0]), xs[1..], p, ys, s');
      assert (xs + ys)[0] == xs[0] && (xs + ys)[1..] == xs[1..] + ys;
    }
  }

  /** A path of worker `a` from `s` to `s'` on which it produced these tasks. */
  ghost predicate Path(cfg: Settings, s: State, steps: seq<Step>, s': State, a: nat, produced: seq<Task>) {
    Run(cfg, s, steps, s') && By(steps, a) && Moved(s, s', a, produced)
  }

  lemma {:induction false} PathConcat(cfg: Settings, s: State, xs: seq<Step>, p: State, ys: seq<Step>, s': State,
      a: nat, before: seq<Task>, after: seq<Task>)
    requires Path(cfg, s, xs, p, a, before) && Path(cfg, p, ys, s', a, after)
    ensures Path(cfg, s, xs + ys, s', a, before + after)
  {
    RunConcat(cfg, s, xs, p, ys, s');
    MovedTwice(s, p, s', a, before, after);
  }

  lemma {:induction false} OneStep(cfg: Settings, s: State, step: Step, a: nat)
    requires Enabled(cfg, s, step) && MovesOf(step, a) && !step.Produce?
    requires Moved(s, Next(cfg, s, step), a, [])
    ensures Path(cfg, s, [step], Next(cfg, s, step), a, [])
  {
    assert [step][1..] == [];
  }

  lemma {:induction false} ChildrenAre(parent: Task, links: seq<string>)
    ensures |Children(parent, links)| == |links|
    ensures forall i | 0 <= i < |links| ::
      Children(parent, links)[i] == Task(TaskID(parent.id.run, links[i]), parent.depth + 1)
  {
    if links != [] {
      ChildrenAre(parent, links[1..]);
    }
  }

  /** Worker `a` is about to send the first of these children. */
  ghost predicate AtSend(s: State, a: nat) {
    a in s.actors && s.actors[a].source.FromQueue? && s.actors[a].phase.Sending? && s.actors[a].phase.todo != []
  }

  /** Where a send leaves a worker: the run is not active any more, or on to the next child. */
  function AfterSend(phase: Phase, error: SendError): Phase
    requires phase.Sending? && phase.todo != []
  {
    if error == NotActive then Completing else Phase.Sending(phase.todo[1..], phase.failed || error == Failed)
  }

  /** The path does what the send does. */
  ghost predicate SendsLike(cfg: Settings, s: State, a: nat, fate: Fate, steps: seq<Step>, s': State)
    requires AtSend(s, a)
  {
    var e := SendEffect(cfg, s.store, s.now, s.actors[a].phase.todo[0], fate);
    && Path(cfg, s, steps, s', a, e.produced) && s'.store == e.store
    && s'.actors[a].phase == AfterSend(s.actors[a].phase, e.error) && Ack(a) !in steps
  }

  /** A send that gives up without an answer. */
  predicate GivesUp(fate: Fate) {
    !fate.validURL || fate.admit != Answered
  }

  function GivingUp(a: nat, fate: Fate): Step {
    if !fate.validURL then SkipInvalid(a) else if fate.admit == NotDone then AdmitFailed(a) else AdmitReplyLost(a)
  }

  /** What one such step does. */
  lemma {:induction false} GiveUpStep(cfg: Settings, s: State, a: nat, fate: Fate)
    requires AtSend(s, a) && s.actors[a].phase.todo[0].depth < cfg.maxDepth(s.actors[a].phase.todo[0].id.run)
    requires GivesUp(fate)
    ensures Enabled(cfg, s, GivingUp(a, fate))
    ensures var e := SendEffect(cfg, s.store, s.now, s.actors[a].phase.todo[0], fate);
      && e.produced == [] && Next(cfg, s, GivingUp(a, fate))
        == Move(s.(store := e.store), a, AfterSend(s.actors[a].phase, e.error))
  {
  }

  lemma {:induction false} GiveUpPath(cfg: Settings, s: State, a: nat, fate: Fate)
    requires AtSend(s, a) && s.actors[a].phase.todo[0].depth < cfg.maxDepth(s.actors[a].phase.todo[0].id.run)
    requires GivesUp(fate)
    ensures Enabled(cfg, s, GivingUp(a, fate))
    ensures SendsLike(cfg, s, a, fate, [GivingUp(a, fate)], Next(cfg, s, GivingUp(a, fate)))
  {
    GiveUpStep(cfg, s, a, fate);
    MoveIsMoved(s, a, SendEffect(cfg, s.store, s.now, s.actors[a].phase.todo[0], fate).store,
      AfterSend(s.actors[a].phase, SendEffect(cfg, s.store, s.now, s.actors[a].phase.todo[0], fate).error));
    OneStep(cfg, s, GivingUp(a, fate), a);
  }

  lemma {:induction false} MoveIsMoved(s: State, a: nat, store: Store, phase: Phase)
    requires a in s.actors
    ensures Moved(s, Move(s.(store := store), a, phase), a, [])
  {
  }

  lemma {:induction false} AdmitPath(cfg: Settings, s: State, a: nat)
    requires AtSend(s, a)
    ensures Path(cfg, s, [AdmitChild(a)], AdmitStep(cfg, s, a), a, [])
  {
    OneStep(cfg, s, AdmitChild(a), a);
  }

  lemma {:induction false} ProducePath(cfg: Settings, s: State, a: nat)
    requires Enabled(cfg, s, Produce(a))
    ensures Path(cfg, s, [Produce(a)], Next(cfg, s, Produce(a)), a, [s.actors[a].phase.child])
  {
    assert [Produce(a)][1..] == [];
    var c := s.actors[a].phase.child;
    assert [c][..0] == [];
    assert IDs([c]) == multiset{c.id};
  }

  lemma {:induction false} UndoPath(cfg: Settings, s: State, a: nat, undone: bool) returns (steps: seq<Step>, s': State)
    requires Enabled(cfg, s, ProduceFailed(a))
    ensures Path(cfg, s, steps, s', a, []) && Ack(a) !in steps
    ensures s'.actors[a].phase == Phase.Sending(s.actors[a].phase.todo, true)
    ensures s'.store
      == if undone then Unadmit(s.store, s.actors[a].phase.child.id.run, s.actors[a].phase.child.id) else s.store
  {
    var p := Next(cfg, s, ProduceFailed(a));
    OneStep(cfg, s, ProduceFailed(a), a);
    var undo := if undone then UndoAdmission(a) else UndoFailed(a);
    s' := Next(cfg, p, undo);
    OneStep(cfg, p, undo, a);
    steps := [ProduceFailed(a)] + [undo];
    PathConcat(cfg, s, [ProduceFailed(a)], p, [undo], s', a, [], []);
  }

  /** A send that stops with the answer of the admission script. */
  lemma {:induction false} AnswerEffect(cfg: Settings, s: State, a: nat, fate: Fate)
    requires AtSend(s, a) && !AdmitStep(cfg, s, a).actors[a].phase.Producing?
    requires s.actors[a].phase.todo[0].depth >= cfg.maxDepth(s.actors[a].phase.todo[0].id.run)
      || !GivesUp(fate)
    ensures var p, e := AdmitStep(cfg, s, a), SendEffect(cfg, s.store, s.now, s.actors[a].phase.todo[0], fate);
      && e.produced == [] && p.store == e.store && p.actors[a].phase == AfterSend(s.actors[a].phase, e.error)
  {
  }

  lemma {:induction false} AnswerPath(cfg: Settings, s: State, a: nat, fate: Fate)
    requires AtSend(s, a) && !AdmitStep(cfg, s, a).actors[a].phase.Producing?
    requires s.actors[a].phase.todo[0].depth >= cfg.maxDepth(s.actors[a].phase.todo[0].id.run)
      || !GivesUp(fate)
    ensures SendsLike(cfg, s, a, fate, [AdmitChild(a)], AdmitStep(cfg, s, a))
  {
    AdmitPath(cfg, s, a);
    AnswerEffect(cfg, s, a, fate);
  }

  lemma {:induction false} AdmittedAnswer(cfg: Settings, s: State, a: nat, fate: Fate)
    requires AtSend(s, a) && AdmitStep(cfg, s, a).actors[a].phase.Producing?
    requires !GivesUp(fate)
    ensures var c, f := s.actors[a].phase.todo[0], s.actors[a].phase;
      var p := AdmitStep(cfg, s, a);
      && p.actors[a].phase == Producing(c, f.todo[1..], f.failed)
      && SendEffect(cfg, s.store, s.now, c, fate)
        == if fate.produceOk then Sent(p.store, Nil, [c])
           else Sent(if fate.undone then Unadmit(p.store, c.id.run, c.id) else p.store, Failed, [])
  {
  }

  /** Sending one child is a path of its worker. */
  lemma {:induction false} SendPath(cfg: Settings, s: State, a: nat, fate: Fate) returns (steps: seq<Step>, s': State)
    requires AtSend(s, a)
    ensures SendsLike(cfg, s, a, fate, steps, s')
  {
    var c := s.actors[a].phase.todo[0];
    if c.depth < cfg.maxDepth(c.id.run) && GivesUp(fate) {
      GiveUpPath(cfg, s, a, fate);
      steps, s' := [GivingUp(a, fate)], Next(cfg, s, GivingUp(a, fate));
    } else if !AdmitStep(cfg, s, a).actors[a].phase.Producing? {
      AnswerPath(cfg, s, a, fate);
      steps, s' := [AdmitChild(a)], AdmitStep(cfg, s, a);
    } else if fate.produceOk {
      AdmittedProduced(cfg, s, a, fate);
      steps, s' := [AdmitChild(a)] + [Produce(a)], Next(cfg, AdmitStep(cfg, s, a), Produce(a));
    } else {
      steps, s' := AdmittedUndone(cfg, s, a, fate);
    }
  }

  lemma {:induction false} ProducedPath(cfg: Settings, s: State, p: State, a: nat, c: Task)
    requires Path(cfg, s, [AdmitChild(a)], p, a, []) && Enabled(cfg, p, Produce(a)) && p.actors[a].phase.child == c
    ensures Path(cfg, s, [AdmitChild(a)] + [Produce(a)], Next(cfg, p, Produce(a)), a, [c])
  {
    ProducePath(cfg, p, a);
    PathConcat(cfg, s, [AdmitChild(a)], p, [Produce(a)], Next(cfg, p, Produce(a)), a, [], [c]);
    assert [] + [c] == [c];
  }

  lemma {:induction false} AdmittedProduced(cfg: Settings, s: State, a: nat, fate: Fate)
    requires AtSend(s, a) && AdmitStep(cfg, s, a).actors[a].phase.Producing? && !GivesUp(fate) && fate.produceOk
    ensures var p := AdmitStep(cfg, s, a);
      Enabled(cfg, p, Produce(a))
      && SendsLike(cfg, s, a, fate, [AdmitChild(a)] + [Produce(a)], Next(cfg, p, Produce(a)))
  {
    AdmitPath(cfg, s, a);
    AdmittedAnswer(cfg, s, a, fate);
    ProducedPath(cfg, s, AdmitStep(cfg, s, a), a, s.actors[a].phase.todo[0]);
  }

  lemma {:induction false} AdmittedUndone(cfg: Settings, s: State, a: nat, fate: Fate)
      returns (steps: seq<Step>, s': State)
    requires AtSend(s, a) && AdmitStep(cfg, s, a).actors[a].phase.Producing? && !GivesUp(fate) && !fate.produceOk
    ensures SendsLike(cfg, s, a, fate, steps, s')
  {
    var p := AdmitStep(cfg, s, a);
    AdmitPath(cfg, s, a);
    AdmittedAnswer(cfg, s, a, fate);
    var more;
    more, s' := UndoPath(cfg, p, a, fate.undone);
    PathConcat(cfg, s, [AdmitChild(a)], p, more, s', a, [], []);
    steps := [AdmitChild(a)] + more;
  }

  /** Worker `a` has a task of the queue and stands at this point. */
  ghost predicate At(s: State, a: nat, phase: Phase) {
    a in s.actors && s.actors[a].source.FromQueue? && s.actors[a].phase == phase
  }

  /** The path brings worker `a` to `phase` with this store, without an ack. */
  ghost predicate Reaches(cfg: Settings, s: State, steps: seq<Step>, s': State, a: nat, produced: seq<Task>,
      store: Store, phase: Phase)
  {
    Path(cfg, s, steps, s', a, produced) && s'.store == store && At(s', a, phase) && Ack(a) !in steps
  }

  lemma {:induction false} ReachesThen(cfg: Settings, s: State, xs: seq<Step>, p: State, ys: seq<Step>, s': State,
      a: nat, before: seq<Task>, after: seq<Task>, mid: Store, store: Store, at: Phase, phase: Phase)
    requires Reaches(cfg, s, xs, p, a, before, mid, at) && Reaches(cfg, p, ys, s', a, after, store, phase)
    ensures Reaches(cfg, s, xs + ys, s', a, before + after, store, phase)
  {
    PathConcat(cfg, s, xs, p, ys, s', a, before, after);
  }

  lemma {:induction false} SentAllPath(cfg: Settings, s: State, a: nat, failed: bool)
    requires At(s, a, Phase.Sending([], failed))
    ensures Enabled(cfg, s, SentAll(a))
    ensures Reaches(cfg, s, [SentAll(a)], Next(cfg, s, SentAll(a)), a, [], s.store, if failed then Gone else Completing)
  {
    OneStep(cfg, s, SentAll(a), a);
  }

  lemma {:induction false} OneChild(cfg: Settings, s: State, a: nat, all: seq<Task>, fates: seq<Fate>, i: nat,
      failed: bool)
      returns (steps: seq<Step>, s': State)
    requires i < |all| <= |fates| && At(s, a, Phase.Sending(all[i..], failed))
    ensures var e := SendEffect(cfg, s.store, s.now, all[i], fates[i]);
      Reaches(cfg, s, steps, s', a, e.produced, e.store,
        if e.error == NotActive then Completing else Phase.Sending(all[i + 1..], failed || e.error == Failed))
  {
    assert all[i..][0] == all[i] && all[i..][1..] == all[i + 1..];
    steps, s' := SendPath(cfg, s, a, fates[i]);
  }

  /** Sending the children one after the other is a path, and ends where their senders' outcome says. */
  lemma {:induction false} ChildrenPath(cfg: Settings, s: State, a: nat, all: seq<Task>, fates: seq<Fate>, i: nat,
      failed: bool)
      returns (steps: seq<Step>, s': State)
    requires i <= |all| <= |fates| && At(s, a, Phase.Sending(all[i..], failed))
    ensures var e := ChildrenEffect(cfg, s.store, s.now, all, fates, i, failed);
      Reaches(cfg, s, steps, s', a, e.produced, e.store, if e.error == Failed then Gone else Completing)
    decreases |all| - i
  {
    if i == |all| {
      SentAllPath(cfg, s, a, failed);
      steps, s' := [SentAll(a)], Next(cfg, s, SentAll(a));
    } else {
      var e := SendEffect(cfg, s.store, s.now, all[i], fates[i]);
      steps, s' := OneChild(cfg, s, a, all, fates, i, failed);
      if e.error != NotActive {
        var p := s';
        var more;
        var rest := ChildrenEffect(cfg, e.store, s.now, all, fates, i + 1, failed || e.error == Failed);
        more, s' := ChildrenPath(cfg, p, a, all, fates, i + 1, failed || e.error == Failed);
        ReachesThen(cfg, s, steps, p, more, s', a, e.produced, rest.produced, e.store, rest.store,
          Phase.Sending(all[i + 1..], failed || e.error == Failed), if rest.error == Failed then Gone else Completing);
        steps := steps + more;
      }
    }
  }

  /** Handling ends here: this is what was produced, and an ack was among the steps or not. */
  ghost predicate Ends(cfg: Settings, s: State, steps: seq<Step>, s': State, a: nat, e: Handled) {
    && Path(cfg, s, steps, s', a, e.produced) && s'.store == e.store && At(s', a, Gone)
    && (e.acked <==> Ack(a) in steps)
  }

  lemma {:induction false} ReachesThenEnds(cfg: Settings, s: State, xs: seq<Step>, p: State, ys: seq<Step>, s': State,
      a: nat, before: seq<Task>, mid: Store, at: Phase, e: Handled)
    requires Reaches(cfg, s, xs, p, a, before, mid, at) && Ends(cfg, p, ys, s', a, e)
    ensures Ends(cfg, s, xs + ys, s', a, e.(produced := before + e.produced))
  {
    PathConcat(cfg, s, xs, p, ys, s', a, before, e.produced);
  }

  lemma {:induction false} AckPath(cfg: Settings, s: State, a: nat, finished: bool)
    requires At(s, a, Acking(finished))
    ensures Enabled(cfg, s, Ack(a)) && AckStep(s, a).store == s.store
    ensures Path(cfg, s, [Ack(a)], AckStep(s, a), a, []) && At(AckStep(s, a), a, if finished then Releasing else Gone)
  {
    OneStep(cfg, s, Ack(a), a);
  }

  /** After the last completion the slot is freed and the run's keys removed, as far as the calls
      succeed. */
  lemma {:induction false} ReleasePath(cfg: Settings, s: State, a: nat, fates: Fates)
      returns (steps: seq<Step>, s': State)
    requires At(s, a, Releasing)
    ensures var r := s.actors[a].source.task.id.run;
      var freed := if fates.released then Release(s.store, r) else s.store;
      Reaches(cfg, s, steps, s', a, [], if fates.cleanedUp then Cleanup(freed, r) else freed, Gone)
  {
    var release := if fates.released then ReleaseSlot(a) else ReleaseFailed(a);
    var p := Next(cfg, s, release);
    OneStep(cfg, s, release, a);
    var cleanUp := if fates.cleanedUp then CleanUp(a) else CleanUpFailed(a);
    s' := Next(cfg, p, cleanUp);
    OneStep(cfg, p, cleanUp, a);
    steps := [release] + [cleanUp];
    ReachesThen(cfg, s, [release], p, [cleanUp], s', a, [], [], p.store, s'.store, Cleaning, Gone);
  }

  /** The completion fails, or its answer is lost: the task is not acked. */
  lemma {:induction false} NotCompletedPath(cfg: Settings, s: State, a: nat, fates: Fates) returns (step: Step)
    requires At(s, a, Completing) && fates.complete != Answered
    ensures Enabled(cfg, s, step)
    ensures Ends(cfg, s, [step], Next(cfg, s, step), a,
      CompleteEffect(cfg, s.store, s.now, s.actors[a].source.task.id, fates))
  {
    step := if fates.complete == NotDone then CompleteFailed(a) else CompleteReplyLost(a);
    OneStep(cfg, s, step, a);
  }

  /** It is answered: what follows depends on the answer. */
  lemma {:induction false} CompletedStep(cfg: Settings, s: State, a: nat, fates: Fates)
    requires At(s, a, Completing) && fates.complete == Answered
    ensures var t := s.actors[a].source.task.id;
      var p := CompleteStep(cfg, s, a);
      var freed := if fates.released then Release(p.store, t.run) else p.store;
      && p.actors[a].phase.Acking? && At(p, a, p.actors[a].phase) && p.actors[a].source == s.actors[a].source
      && CompleteEffect(cfg, s.store, s.now, t, fates)
        == Handled(if !p.actors[a].phase.finished then p.store
                   else if fates.cleanedUp then Cleanup(freed, t.run) else freed, [], true)
  {
  }

  lemma {:induction false} CompletePath(cfg: Settings, s: State, a: nat, fates: Fates)
      returns (steps: seq<Step>, s': State)
    requires At(s, a, Completing)
    ensures Ends(cfg, s, steps, s', a, CompleteEffect(cfg, s.store, s.now, s.actors[a].source.task.id, fates))
  {
    if fates.complete != Answered {
      var step := NotCompletedPath(cfg, s, a, fates);
      steps, s' := [step], Next(cfg, s, step);
    } else {
      var p := CompleteStep(cfg, s, a);
      OneStep(cfg, s, CompleteOwn(a), a);
      CompletedStep(cfg, s, a, fates);
      var more;
      more, s' := AckedPath(cfg, p, a, p.actors[a].phase.finished, fates);
      steps := [CompleteOwn(a)] + more;
      PathConcat(cfg, s, [CompleteOwn(a)], p, more, s', a, [], []);
    }
  }

  lemma {:induction false} AckedPath(cfg: Settings, s: State, a: nat, finished: bool, fates: Fates)
      returns (steps: seq<Step>, s': State)
    requires At(s, a, Acking(finished))
    ensures var r := s.actors[a].source.task.id.run;
      var freed := if fates.released then Release(s.store, r) else s.store;
      var cleaned := if fates.cleanedUp then Cleanup(freed, r) else freed;
      Ends(cfg, s, steps, s', a, Handled(if finished then cleaned else s.store, [], true))
  {
    var p := AckStep(s, a);
    AckPath(cfg, s, a, finished);
    if finished {
      var more;
      more, s' := ReleasePath(cfg, p, a, fates);
      steps := [Ack(a)] + more;
      PathConcat(cfg, s, [Ack(a)], p, more, s', a, [], []);
    } else {
      steps, s' := [Ack(a)], p;
    }
  }

  lemma {:induction false} ReadPath(cfg: Settings, s: State, a: nat, fates: Fates) returns (p: State, step: Step)
    requires At(s, a, Received)
    ensures var t := s.actors[a].source.task.id;
      var (read, reply) := TaskState(s.store, s.now, t.run, t, cfg.redis.lease);
      Reaches(cfg, s, [step], p, a, [], if fates.read == NotDone then s.store else read,
        if fates.read == Answered && (reply.done || !reply.runActive) then Acking(false) else Working)
  {
    step := if fates.read == Answered then ReadState(a) else ReadStateFailed(a, fates.read == AnswerLost);
    p := Next(cfg, s, step);
    OneStep(cfg, s, step, a);
  }

  /** From the page to the children, if they are not too deep. */
  lemma {:induction false} PagePath(cfg: Settings, s: State, a: nat, fates: Fates) returns (steps: seq<Step>, s': State)
    requires At(s, a, Working) && fates.pageOk && |fates.sends| >= |fates.links|
    ensures var e := LinksEffect(cfg, s.store, s.now, s.actors[a].source.task, fates);
      Reaches(cfg, s, steps, s', a, e.produced, e.store, if e.error == Failed then Gone else Completing)
    ensures WorkDone(a, fates.links) in steps
  {
    var task, step := s.actors[a].source.task, WorkDone(a, fates.links);
    var p := Next(cfg, s, step);
    OneStep(cfg, s, step, a);
    if task.depth + 1 >= cfg.maxDepth(task.id.run) {
      steps, s' := [step], p;
    } else {
      ChildrenAre(task, fates.links);
      var todo := Children(task, fates.links);
      assert todo[0..] == todo;
      var e := ChildrenEffect(cfg, s.store, s.now, todo, fates.sends, 0, false);
      var more;
      more, s' := ChildrenPath(cfg, p, a, todo, fates.sends, 0, false);
      steps := [step] + more;
      ReachesThen(cfg, s, [step], p, more, s', a, [], e.produced, s.store, e.store, Phase.Sending(todo, false),
        if e.error == Failed then Gone else Completing);
      assert [] + e.produced == e.produced;
    }
  }

  lemma {:induction false} NoPagePath(cfg: Settings, s: State, a: nat, fates: Fates)
      returns (steps: seq<Step>, s': State)
    requires At(s, a, Working)
    ensures Ends(cfg, s, steps, s', a, CompleteEffect(cfg, s.store, s.now, s.actors[a].source.task.id, fates))
  {
    var p := Next(cfg, s, WorkFailed(a));
    OneStep(cfg, s, WorkFailed(a), a);
    var more;
    more, s' := CompletePath(cfg, p, a, fates);
    steps := [WorkFailed(a)] + more;
    var e := CompleteEffect(cfg, s.store, s.now, s.actors[a].source.task.id, fates);
    ReachesThenEnds(cfg, s, [WorkFailed(a)], p, more, s', a, [], s.store, Completing, e);
    assert [] + e.produced == e.produced;
  }

  lemma {:induction false} WorkPath(cfg: Settings, s: State, a: nat, fates: Fates) returns (steps: seq<Step>, s': State)
    requires At(s, a, Working) && |fates.sends| >= |fates.links|
    ensures var task := s.actors[a].source.task;
      var sent := LinksEffect(cfg, s.store, s.now, task, fates);
      Ends(cfg, s, steps, s', a,
        if !fates.pageOk then CompleteEffect(cfg, s.store, s.now, task.id, fates)
        else if sent.error == Failed then Handled(sent.store, sent.produced, false)
        else CompleteEffect(cfg, sent.store, s.now, task.id, fates).(produced := sent.produced))
    ensures fates.pageOk ==> WorkDone(a, fates.links) in steps
  {
    if !fates.pageOk {
      steps, s' := NoPagePath(cfg, s, a, fates);
    } else {
      var sent := LinksEffect(cfg, s.store, s.now, s.actors[a].source.task, fates);
      var p;
      steps, p := PagePath(cfg, s, a, fates);
      s' := p;
      if sent.error != Failed {
        var e, more := CompleteEffect(cfg, sent.store, s.now, s.actors[a].source.task.id, fates), [];
        more, s' := CompletePath(cfg, p, a, fates);
        ReachesThenEnds(cfg, s, steps, p, more, s', a, sent.produced, sent.store, Completing, e);
        NothingProduced(cfg, sent.store, s.now, s.actors[a].source.task.id, fates, sent.produced);
        steps := steps + more;
      }
    }
  }

  lemma {:induction false} NothingProduced(cfg: Settings, store: Store, now: int, t: TaskID, fates: Fates,
      before: seq<Task>)
    ensures before + CompleteEffect(cfg, store, now, t, fates).produced == before
  {
  }

  /** What the worker's code does with a task, calls failing or not, is a path of that worker through
      the protocol: it leaves the same store, produces the same tasks, and acks or does not. If it works
      on the page, the path finds the page's links. */
  lemma {:induction false} HandlingIsAPath(cfg: Settings, s: State, a: nat, fates: Fates)
      returns (steps: seq<Step>, s': State)
    requires At(s, a, Received) && |fates.sends| >= |fates.links|
    ensures Ends(cfg, s, steps, s', a, HandleEffect(cfg, s.store, s.now, s.actors[a].source.task, fates))
    ensures fates.pageOk && !(fates.read == Answered && Idle(s.store, s.now, s.actors[a].source.task.id)) ==>
      WorkDone(a, fates.links) in steps
  {
    var task := s.actors[a].source.task;
    var (read, reply) := TaskState(s.store, s.now, task.id.run, task.id, cfg.redis.lease);
    var p, step := ReadPath(cfg, s, a, fates);
    var more;
    if fates.read == Answered && (reply.done || !reply.runActive) {
      AckPath(cfg, p, a, false);
      more, s' := [Ack(a)], AckStep(p, a);
      PathConcat(cfg, s, [step], p, more, s', a, [], []);
    } else {
      more, s' := WorkPath(cfg, p, a, fates);
      var e := HandleEffect(cfg, s.store, s.now, task, fates);
      ReachesThenEnds(cfg, s, [step], p, more, s', a, [], p.store, Working, e);
      assert [] + e.produced == e.produced;
    }
    steps := [step] + more;
  }
}
