/** Why workers may start only on tasks that are queued and sent, why an incarnation must begin with
    nobody at work, and why no two workers may hold the same task: for each other way there is a run
    of the whole system, from its start, in which a run that was found finished goes on. */
module Restarts {
  import opened RunState
  import opened Protocol
  import opened NoLostWork
  import opened Termination
  import Groups = CommitSafety

  /** A run that can have children, on a system that can run it. */
  ghost predicate CanCrawl(cfg: Settings, r: RunID) {
    && FirstsOwn(cfg) && cfg.redis.maxConcurrent >= 1 && cfg.redis.lease >= 1
    && cfg.redis.maxLinks(r) >= 2 && cfg.maxDepth(r) >= 2
  }

  // ---- Putting runs together ---------------------------------------------------------------

  lemma {:induction false} OneStepRun(cfg: Settings, s: State, step: Step, r: RunID, kinds: set<Standing>)
    requires Enabled(cfg, s, step) && !EndsIncarnation(s, step, r) && OneHolder(s, r) && StartsAs(s, step, r, kinds)
    ensures IncarnationRun(cfg, s, [step], Next(cfg, s, step), r, kinds)
  {
    assert [step][1..] == [];
  }

  lemma {:induction false} RunsJoin(cfg: Settings, s: State, xs: seq<Step>, p: State, ys: seq<Step>, s': State,
      r: RunID, kinds: set<Standing>)
    requires IncarnationRun(cfg, s, xs, p, r, kinds) && IncarnationRun(cfg, p, ys, s', r, kinds)
    ensures IncarnationRun(cfg, s, xs + ys, s', r, kinds)
    decreases |xs|
  {
    if xs == [] {
      assert xs + ys == ys;
    } else {
      RunsJoin(cfg, Next(cfg, s, xs[0]), xs[1..], p, ys, s', r, kinds);
      assert (xs + ys)[0] == xs[0] && (xs + ys)[1..] == xs[1..] + ys;
    }
  }

  lemma {:induction false} MoreKinds(cfg: Settings, s: State, steps: seq<Step>, s': State, r: RunID,
      kinds: set<Standing>, more: set<Standing>)
    requires IncarnationRun(cfg, s, steps, s', r, kinds) && kinds <= more
    ensures IncarnationRun(cfg, s, steps, s', r, more)
    decreases |steps|
  {
    if steps != [] {
      MoreKinds(cfg, Next(cfg, s, steps[0]), steps[1..], s', r, kinds, more);
    }
  }

  lemma {:induction false} IsARun(cfg: Settings, s: State, steps: seq<Step>, s': State, r: RunID, kinds: set<Standing>)
    requires IncarnationRun(cfg, s, steps, s', r, kinds)
    ensures Run(cfg, s, steps, s')
    decreases |steps|
  {
    if steps != [] {
      IsARun(cfg, Next(cfg, s, steps[0]), steps[1..], s', r, kinds);
    }
  }

  lemma {:induction false} PlainRunsJoin(cfg: Settings, s: State, xs: seq<Step>, p: State, ys: seq<Step>, s': State)
    requires Run(cfg, s, xs, p) && Run(cfg, p, ys, s')
    ensures Run(cfg, s, xs + ys, s')
    decreases |xs|
  {
    if xs == [] {
      assert xs + ys == ys;
    } else {
      PlainRunsJoin(cfg, Next(cfg, s, xs[0]), xs[1..], p, ys, s');
      assert (xs + ys)[0] == xs[0] && (xs + ys)[1..] == xs[1..] + ys;
    }
  }

  /** One more step, of any kind. */
  lemma {:induction false} RunThen(cfg: Settings, s: State, steps: seq<Step>, p: State, step: Step, r: RunID,
      kinds: set<Standing>)
    requires IncarnationRun(cfg, s, steps, p, r, kinds) && Enabled(cfg, p, step)
    ensures Run(cfg, s, steps + [step], Next(cfg, p, step))
  {
    IsARun(cfg, s, steps, p, r, kinds);
    assert [step][1..] == [];
    PlainRunsJoin(cfg, s, steps, p, [step], Next(cfg, p, step));
  }

  // ---- Scenes ------------------------------------------------------------------------------

  /** The books of run r: its table, counters and finishes, under a live lease. */
  ghost predicate Books(s: State, r: RunID, table: map<TaskID, Status>, active: int, finishes: nat) {
    && s.store.Tasks(r) == table && s.store.Active(r) == active && s.store.Links(r) == |table|
    && s.store.Live(r, s.now) && s.finishes[r] == finishes
  }

  /** Worker a has this task in hand and stands at this point. */
  ghost predicate On(s: State, a: nat, task: Task, phase: Phase) {
    && a in s.actors && s.actors[a].node == 0 && s.actors[a].source.FromQueue? && s.actors[a].source.task == task
    && s.actors[a].phase == phase
  }

  /** Nobody but these two is at work or sending. */
  ghost predicate Only(s: State, a: nat, b: nat) {
    forall c | c in s.actors && c != a && c != b :: !s.actors[c].Busy() && !s.actors[c].Sends()
  }

  /** The consumer stands at the end of the log. */
  ghost predicate AtEnd(s: State) {
    0 in s.Group(0).next && s.Group(0).next[0] == |s.Log(0)|
  }

  function Other(f: TaskID, suffix: string): TaskID {
    TaskID(f.run, f.url + suffix)
  }

  lemma {:induction false} TwoHold(s: State, a: nat, b: nat, r: RunID)
    requires Only(s, a, b)
    requires a in s.actors && b in s.actors && a != b && s.actors[a].Busy() && s.actors[b].Busy() ==>
      s.actors[a].source.task.id != s.actors[b].source.task.id
    ensures OneHolder(s, r)
  {
  }

  // ---- A worker nobody counts on -----------------------------------------------------------

  /** Worker w works on task f of run r, or sends its children; helper h may be there too. */
  ghost predicate Scene(s: State, w: nat, h: nat, f: TaskID, phase: Phase, table: map<TaskID, Status>, active: int,
      finishes: nat) {
    && w != h && On(s, w, Task(f, 0), phase) && Books(s, f.run, table, active, finishes) && Only(s, w, h)
  }

  lemma {:induction false} WorkFound(cfg: Settings, s: State, w: nat, h: nat, f: TaskID, table: map<TaskID, Status>,
      active: int, finishes: nat, links: seq<string>)
    requires Scene(s, w, h, f, Working, table, active, finishes) && 1 < cfg.maxDepth(f.run)
    requires h in s.actors ==> !s.actors[h].Busy()
    ensures Enabled(cfg, s, WorkDone(w, links))
    ensures var s' := Next(cfg, s, WorkDone(w, links));
      && IncarnationRun(cfg, s, [WorkDone(w, links)], s', f.run, {Waiting})
      && Scene(s', w, h, f, Sending(Children(Task(f, 0), links), false), table, active, finishes)
      && (h in s'.actors ==> h in s.actors && s'.actors[h] == s.actors[h]) && s'.log == s.log && s'.groups == s.groups
  {
    TwoHold(s, w, h, f.run);
    OneStepRun(cfg, s, WorkDone(w, links), f.run, {Waiting});
  }

  lemma {:induction false} ChildAdmitted(cfg: Settings, s: State, w: nat, h: nat, f: TaskID, c: Task, rest: seq<Task>,
      table: map<TaskID, Status>, active: int, finishes: nat)
    requires Scene(s, w, h, f, Sending([c] + rest, false), table, active, finishes)
    requires h in s.actors ==> !s.actors[h].Busy()
    requires c.id.run == f.run && c.depth < cfg.maxDepth(f.run) && c.id !in table && |table| < cfg.redis.maxLinks(f.run)
    ensures Enabled(cfg, s, AdmitChild(w))
    ensures var s' := AdmitStep(cfg, s, w);
      && IncarnationRun(cfg, s, [AdmitChild(w)], s', f.run, {Waiting})
      && Scene(s', w, h, f, Producing(c, rest, false), table[c.id := Queued], active + 1, finishes)
      && (h !in s.actors ==> h !in s'.actors) && s'.log == s.log && s'.groups == s.groups
  {
    TwoHold(s, w, h, f.run);
    assert ([c] + rest)[0] == c && ([c] + rest)[1..] == rest;
    OneStepRun(cfg, s, AdmitChild(w), f.run, {Waiting});
    SetSize(table, c.id, Queued);
  }

  lemma {:induction false} ChildProduced(cfg: Settings, s: State, w: nat, h: nat, f: TaskID, c: Task, rest: seq<Task>,
      table: map<TaskID, Status>, active: int, finishes: nat)
    requires Scene(s, w, h, f, Producing(c, rest, false), table, active, finishes) && h !in s.actors
    ensures Enabled(cfg, s, Produce(w))
    ensures var s' := Next(cfg, s, Produce(w));
      && IncarnationRun(cfg, s, [Produce(w)], s', f.run, {Waiting})
      && Scene(s', w, h, f, Sending(rest, false), table, active, finishes)
      && h !in s'.actors && s'.log == s.log && s'.groups == s.groups && (0, c) in s'.buffer
  {
    TwoHold(s, w, h, f.run);
    OneStepRun(cfg, s, Produce(w), f.run, {Waiting});
  }

  lemma {:induction false} ChildFlushed(cfg: Settings, s: State, w: nat, h: nat, f: TaskID, c: Task, phase: Phase,
      table: map<TaskID, Status>, active: int, finishes: nat)
    requires Scene(s, w, h, f, phase, table, active, finishes) && h !in s.actors && (0, c) in s.buffer && AtEnd(s)
    ensures Enabled(cfg, s, Flush(0, c, 0))
    ensures var s' := Next(cfg, s, Flush(0, c, 0));
      && IncarnationRun(cfg, s, [Flush(0, c, 0)], s', f.run, {Waiting})
      && Scene(s', w, h, f, phase, table, active, finishes)
      && h !in s'.actors && 0 in s'.Group(0).next && s'.Group(0).next[0] < |s'.Log(0)|
      && s'.Log(0)[s'.Group(0).next[0]] == c
  {
    TwoHold(s, w, h, f.run);
    OneStepRun(cfg, s, Flush(0, c, 0), f.run, {Waiting});
  }

  lemma {:induction false} ChildDelivered(cfg: Settings, s: State, w: nat, h: nat, f: TaskID, c: Task, phase: Phase,
      table: map<TaskID, Status>, active: int, finishes: nat)
    requires Scene(s, w, h, f, phase, table, active, finishes) && h !in s.actors
    requires 0 in s.Group(0).next && s.Group(0).next[0] < |s.Log(0)| && s.Log(0)[s.Group(0).next[0]] == c
    ensures Enabled(cfg, s, Deliver(h, 0, 0, false))
    ensures var s' := DeliverStep(s, h, 0, 0, false);
      && IncarnationRun(cfg, s, [Deliver(h, 0, 0, false)], s', f.run, {Waiting})
      && Scene(s', w, h, f, phase, table, active, finishes) && On(s', h, c, Received)
  {
    TwoHold(s, w, h, f.run);
    OneStepRun(cfg, s, Deliver(h, 0, 0, false), f.run, {Waiting});
  }

  /** The helper reads that its task is queued; nobody is sending it. */
  lemma {:induction false} HelperStarts(cfg: Settings, s: State, w: nat, h: nat, f: TaskID, c: Task, phase: Phase,
      table: map<TaskID, Status>, active: int, finishes: nat)
    requires Scene(s, w, h, f, phase, table, active, finishes) && On(s, h, c, Received) && phase.Sending?
    requires c.id.run == f.run && c.id != f && c.id in table && table[c.id] == Queued && cfg.redis.lease >= 1
    ensures Enabled(cfg, s, ReadState(h))
    ensures var s' := Next(cfg, s, ReadState(h));
      && IncarnationRun(cfg, s, [ReadState(h)], s', f.run, {Waiting})
      && Scene(s', w, h, f, phase, table, active, finishes) && On(s', h, c, Working)
  {
    TwoHold(s, w, h, f.run);
    assert NobodySends(s, c.id);
    OneStepRun(cfg, s, ReadState(h), f.run, {Waiting});
  }

  lemma {:induction false} HelperFails(cfg: Settings, s: State, w: nat, h: nat, f: TaskID, c: Task, phase: Phase,
      table: map<TaskID, Status>, active: int, finishes: nat)
    requires Scene(s, w, h, f, phase, table, active, finishes) && On(s, h, c, Working) && c.id != f
    ensures Enabled(cfg, s, WorkFailed(h))
    ensures var s' := Next(cfg, s, WorkFailed(h));
      && IncarnationRun(cfg, s, [WorkFailed(h)], s', f.run, {Waiting})
      && Scene(s', w, h, f, phase, table, active, finishes) && On(s', h, c, Completing)
  {
    TwoHold(s, w, h, f.run);
    OneStepRun(cfg, s, WorkFailed(h), f.run, {Waiting});
  }

  /** Completing the only queued task is a finish. */
  lemma {:induction false} HelperCompletes(cfg: Settings, s: State, w: nat, h: nat, f: TaskID, c: Task, phase: Phase,
      table: map<TaskID, Status>, finishes: nat)
    requires Scene(s, w, h, f, phase, table, 1, finishes) && On(s, h, c, Completing) && cfg.redis.lease >= 1
    requires c.id.run == f.run && c.id != f && c.id in table && table[c.id] == Queued
    ensures Enabled(cfg, s, CompleteOwn(h))
    ensures var s' := CompleteStep(cfg, s, h);
      && IncarnationRun(cfg, s, [CompleteOwn(h)], s', f.run, {Waiting})
      && Scene(s', w, h, f, phase, table[c.id := Done], 0, finishes + 1) && On(s', h, c, Acking(true))
  {
    TwoHold(s, w, h, f.run);
    CompleteMarksDone(s.store, s.now, c.id, cfg.redis.lease);
    OneStepRun(cfg, s, CompleteOwn(h), f.run, {Waiting});
    SetSize(table, c.id, Done);
  }

  function X(f: TaskID): Task {
    Task(Other(f, "x"), 1)
  }

  function Y(f: TaskID): Task {
    Task(Other(f, "y"), 1)
  }

  function XYLinks(f: TaskID): seq<string> {
    [f.url + "x", f.url + "y"]
  }

  lemma {:induction false} XYChildren(f: TaskID)
    ensures Children(Task(f, 0), XYLinks(f)) == [X(f)] + [Y(f)]
    ensures X(f).id != f && Y(f).id != f && X(f).id != Y(f).id
  {
    var rest := [f.url + "y"];
    assert XYLinks(f)[1..] == rest && rest[1..] == [];
    assert Children(Task(f, 0), rest) == [Y(f)] + Children(Task(f, 0), rest[1..]);
    assert |f.url + "x"| == |f.url| + 1 && (f.url + "x")[|f.url|] == 'x' && (f.url + "y")[|f.url|] == 'y';
  }

  /** The worker finds two links and admits the first, into an empty table. */
  lemma {:induction false} FirstChildAdmitted(cfg: Settings, s: State, w: nat, h: nat, f: TaskID, finishes: nat)
      returns (steps: seq<Step>, s': State)
    requires CanCrawl(cfg, f.run) && Scene(s, w, h, f, Working, map[], 0, finishes) && h !in s.actors
    ensures IncarnationRun(cfg, s, steps, s', f.run, {Waiting})
    ensures Scene(s', w, h, f, Producing(X(f), [Y(f)], false), map[X(f).id := Queued], 1, finishes)
    ensures h !in s'.actors && s'.log == s.log && s'.groups == s.groups
  {
    XYChildren(f);
    var p := Next(cfg, s, WorkDone(w, XYLinks(f)));
    WorkFound(cfg, s, w, h, f, map[], 0, finishes, XYLinks(f));
    s' := AdmitStep(cfg, p, w);
    ChildAdmitted(cfg, p, w, h, f, X(f), [Y(f)], map[], 0, finishes);
    steps := [WorkDone(w, XYLinks(f))] + [AdmitChild(w)];
    RunsJoin(cfg, s, [WorkDone(w, XYLinks(f))], p, [AdmitChild(w)], s', f.run, {Waiting});
  }

  /** Its message reaches the helper. */
  lemma {:induction false} FirstChildDelivered(cfg: Settings, s: State, w: nat, h: nat, f: TaskID, finishes: nat)
      returns (steps: seq<Step>, s': State)
    requires Scene(s, w, h, f, Producing(X(f), [Y(f)], false), map[X(f).id := Queued], 1, finishes)
    requires h !in s.actors && AtEnd(s)
    ensures IncarnationRun(cfg, s, steps, s', f.run, {Waiting})
    ensures Scene(s', w, h, f, Sending([Y(f)], false), map[X(f).id := Queued], 1, finishes) && On(s', h, X(f), Received)
  {
    var table: map<TaskID, Status> := map[X(f).id := Queued];
    var p := Next(cfg, s, Produce(w));
    ChildProduced(cfg, s, w, h, f, X(f), [Y(f)], table, 1, finishes);
    var q := Next(cfg, p, Flush(0, X(f), 0));
    ChildFlushed(cfg, p, w, h, f, X(f), Sending([Y(f)], false), table, 1, finishes);
    s' := DeliverStep(q, h, 0, 0, false);
    ChildDelivered(cfg, q, w, h, f, X(f), Sending([Y(f)], false), table, 1, finishes);
    var more := [Flush(0, X(f), 0)] + [Deliver(h, 0, 0, false)];
    RunsJoin(cfg, p, [Flush(0, X(f), 0)], q, [Deliver(h, 0, 0, false)], s', f.run, {Waiting});
    steps := [Produce(w)] + more;
    RunsJoin(cfg, s, [Produce(w)], p, more, s', f.run, {Waiting});
  }

  lemma {:induction false} HelperWorks(cfg: Settings, s: State, w: nat, h: nat, f: TaskID, finishes: nat)
      returns (steps: seq<Step>, s': State)
    requires cfg.redis.lease >= 1 && On(s, h, X(f), Received)
    requires Scene(s, w, h, f, Sending([Y(f)], false), map[X(f).id := Queued], 1, finishes)
    ensures IncarnationRun(cfg, s, steps, s', f.run, {Waiting}) && On(s', h, X(f), Completing)
    ensures Scene(s', w, h, f, Sending([Y(f)], false), map[X(f).id := Queued], 1, finishes)
  {
    XYChildren(f);
    var table: map<TaskID, Status> := map[X(f).id := Queued];
    var p := Next(cfg, s, ReadState(h));
    HelperStarts(cfg, s, w, h, f, X(f), Sending([Y(f)], false), table, 1, finishes);
    s' := Next(cfg, p, WorkFailed(h));
    HelperFails(cfg, p, w, h, f, X(f), Sending([Y(f)], false), table, 1, finishes);
    steps := [ReadState(h)] + [WorkFailed(h)];
    RunsJoin(cfg, s, [ReadState(h)], p, [WorkFailed(h)], s', f.run, {Waiting});
  }

  lemma {:induction false} NowDone(t: TaskID)
    ensures var table: map<TaskID, Status> := map[t := Queued]; table[t := Done] == map[t := Done]
  {
  }

  /** The helper completes it: nothing is left, and the finish is counted. */
  lemma {:induction false} FirstChildCompleted(cfg: Settings, s: State, w: nat, h: nat, f: TaskID, finishes: nat)
      returns (steps: seq<Step>, s': State)
    requires cfg.redis.lease >= 1 && On(s, h, X(f), Received)
    requires Scene(s, w, h, f, Sending([Y(f)], false), map[X(f).id := Queued], 1, finishes)
    ensures IncarnationRun(cfg, s, steps, s', f.run, {Waiting}) && On(s', h, X(f), Acking(true))
    ensures Scene(s', w, h, f, Sending([Y(f)], false), map[X(f).id := Done], 0, finishes + 1)
  {
    XYChildren(f);
    var table: map<TaskID, Status> := map[X(f).id := Queued];
    var p;
    steps, p := HelperWorks(cfg, s, w, h, f, finishes);
    s' := CompleteStep(cfg, p, h);
    HelperCompletes(cfg, p, w, h, f, X(f), Sending([Y(f)], false), table, finishes);
    NowDone(X(f).id);
    RunsJoin(cfg, s, steps, p, [CompleteOwn(h)], s', f.run, {Waiting});
    steps := steps + [CompleteOwn(h)];
  }

  /** The worker goes on to its second link: the run is finished, and has a queued task. */
  lemma {:induction false} SecondChildAdmitted(cfg: Settings, s: State, w: nat, h: nat, f: TaskID, finishes: nat)
    requires CanCrawl(cfg, f.run) && Scene(s, w, h, f, Sending([Y(f)], false), map[X(f).id := Done], 0, finishes)
    requires On(s, h, X(f), Acking(true))
    ensures Enabled(cfg, s, AdmitChild(w))
      && IncarnationRun(cfg, s, [AdmitChild(w)], AdmitStep(cfg, s, w), f.run, {Waiting})
    ensures AdmitStep(cfg, s, w).Queued(Y(f).id) && AdmitStep(cfg, s, w).finishes[f.run] == finishes
  {
    XYChildren(f);
    assert [Y(f)] + [] == [Y(f)];
    ChildAdmitted(cfg, s, w, h, f, Y(f), [], map[X(f).id := Done], 0, finishes);
  }

  /** A worker at work while its run's table is empty can put the run back to work after its
      finish, though everybody else starts as they should. */
  lemma {:induction false} WorksOnNothing(cfg: Settings, s: State, w: nat, h: nat, f: TaskID, finishes: nat)
      returns (steps: seq<Step>, s': State)
    requires CanCrawl(cfg, f.run) && Scene(s, w, h, f, Working, map[], 0, finishes) && h !in s.actors && AtEnd(s)
    ensures IncarnationRun(cfg, s, steps, s', f.run, {Waiting})
    ensures s'.finishes[f.run] == finishes + 1 && s'.Queued(Y(f).id)
  {
    var p, q, o, more;
    steps, p := FirstChildAdmitted(cfg, s, w, h, f, finishes);
    more, q := FirstChildDelivered(cfg, p, w, h, f, finishes);
    RunsJoin(cfg, s, steps, p, more, q, f.run, {Waiting});
    steps := steps + more;
    more, o := FirstChildCompleted(cfg, q, w, h, f, finishes);
    RunsJoin(cfg, s, steps, q, more, o, f.run, {Waiting});
    steps := steps + more;
    s' := AdmitStep(cfg, o, w);
    SecondChildAdmitted(cfg, o, w, h, f, finishes + 1);
    RunsJoin(cfg, s, steps, o, [AdmitChild(w)], s', f.run, {Waiting});
    steps := steps + [AdmitChild(w)];
  }

  // ---- The first task is sent, and delivered twice -----------------------------------------

  /** Run r alone has a slot. */
  ghost predicate Sole(s: State, r: RunID) {
    s.store.slots.Keys == {r}
  }

  /** The workers and starters of the system are these. */
  ghost predicate Upto(s: State, n: nat) {
    forall c: nat :: c in s.actors <==> c < n
  }

  ghost predicate SameActors(s: State, s': State) {
    forall c: nat :: c in s'.actors <==> c in s.actors
  }

  ghost predicate NobodyWorks(s: State) {
    forall c | c in s.actors :: !s.actors[c].Busy() && !s.actors[c].Sends()
  }

  lemma {:induction false} StarterStarts(cfg: Settings, s: State, a: nat, r: RunID)
    requires a !in s.actors && NobodyWorks(s)
    ensures var s' := Next(cfg, s, StartRun(a, 0, r));
      && IncarnationRun(cfg, s, [StartRun(a, 0, r)], s', r, {Waiting}) && NobodyWorks(s')
      && s' == s.(actors := s.actors[a := Actor(0, FromRun(r), Received)])
  {
    OneStepRun(cfg, s, StartRun(a, 0, r), r, {Waiting});
  }

  lemma {:induction false} SlotAcquired(cfg: Settings, s: State, a: nat, r: RunID)
    requires CanCrawl(cfg, r) && a in s.actors && s.actors[a] == Actor(0, FromRun(r), Received)
    requires s.store.slots == map[] && NobodyWorks(s)
    ensures Enabled(cfg, s, AcquireSlot(a))
    ensures var s' := Next(cfg, s, AcquireSlot(a));
      && IncarnationRun(cfg, s, [AcquireSlot(a)], s', r, {Waiting})
      && s'.actors == s.actors[a := Actor(0, FromRun(r), Sending([Task(cfg.first(r), 0)], false))]
      && s' == s.(actors := s'.actors, store := s.store.(slots := s'.store.slots))
      && Sole(s', r) && s'.store.Live(r, s'.now)
  {
    assert Expired(map[], s.now) == {};
    OneStepRun(cfg, s, AcquireSlot(a), r, {Waiting});
  }

  /** A run starter a gets a slot for run r. */
  lemma {:induction false} StarterAcquires(cfg: Settings, s: State, a: nat, r: RunID)
      returns (steps: seq<Step>, s': State)
    requires CanCrawl(cfg, r) && a !in s.actors && s.store.slots == map[] && NobodyWorks(s)
    ensures IncarnationRun(cfg, s, steps, s', r, {Waiting})
    ensures s'.actors == s.actors[a := Actor(0, FromRun(r), Sending([Task(cfg.first(r), 0)], false))]
    ensures s' == s.(actors := s'.actors, store := s.store.(slots := s'.store.slots))
    ensures Sole(s', r) && s'.store.Live(r, s'.now)
  {
    var p := Next(cfg, s, StartRun(a, 0, r));
    StarterStarts(cfg, s, a, r);
    s' := Next(cfg, p, AcquireSlot(a));
    SlotAcquired(cfg, p, a, r);
    steps := [StartRun(a, 0, r)] + [AcquireSlot(a)];
    RunsJoin(cfg, s, [StartRun(a, 0, r)], p, [AcquireSlot(a)], s', r, {Waiting});
  }

  /** Only starter a sends. */
  ghost predicate OnlySends(s: State, a: nat) {
    forall c | c in s.actors :: !s.actors[c].Busy() && (c != a ==> !s.actors[c].Sends())
  }

  lemma {:induction false} FirstAdmitted(cfg: Settings, s: State, a: nat, r: RunID)
    requires CanCrawl(cfg, r) && NobodyWorks(s) && Books(s, r, map[], 0, s.finishes[r]) && a in s.actors
    requires s.actors[a] == Actor(0, FromRun(r), Sending([Task(cfg.first(r), 0)], false))
    ensures Enabled(cfg, s, AdmitChild(a))
    ensures var s' := AdmitStep(cfg, s, a);
      && IncarnationRun(cfg, s, [AdmitChild(a)], s', r, {Waiting})
      && Books(s', r, map[cfg.first(r) := Queued], 1, s.finishes[r]) && OnlySends(s', a)
      && s'.actors == s.actors[a := Actor(0, FromRun(r), Producing(Task(cfg.first(r), 0), [], false))]
      && s' == s.(actors := s'.actors, store := s'.store) && s'.store.slots == s.store.slots
  {
    assert [Task(cfg.first(r), 0)][1..] == [];
    OneStepRun(cfg, s, AdmitChild(a), r, {Waiting});
  }

  lemma {:induction false} FirstProduced(cfg: Settings, s: State, a: nat, r: RunID)
    requires FirstsOwn(cfg) && OnlySends(s, a) && a in s.actors
    requires s.actors[a] == Actor(0, FromRun(r), Producing(Task(cfg.first(r), 0), [], false))
    ensures Enabled(cfg, s, Produce(a))
    ensures var s' := Next(cfg, s, Produce(a));
      && IncarnationRun(cfg, s, [Produce(a)], s', r, {Waiting})
      && s' == s.(actors := s'.actors, buffer := s.buffer + multiset{(0, Task(cfg.first(r), 0))}, sent := s'.sent)
      && NobodyWorks(s') && SameActors(s, s') && s'.actors[a].source == s.actors[a].source
  {
    OneStepRun(cfg, s, Produce(a), r, {Waiting});
  }

  lemma {:induction false} FirstFlushed(cfg: Settings, s: State, c: Task, r: RunID)
    requires (0, c) in s.buffer && NobodyWorks(s)
    ensures var s' := Next(cfg, s, Flush(0, c, 0));
      && IncarnationRun(cfg, s, [Flush(0, c, 0)], s', r, {Waiting})
      && s' == s.(buffer := s.buffer - multiset{(0, c)}, log := s.log[0 := s.Log(0) + [c]])
  {
    OneStepRun(cfg, s, Flush(0, c, 0), r, {Waiting});
  }

  /** The first message of run r is in the log, nobody works, and no consumer has the partition. */
  ghost predicate Published(cfg: Settings, s: State, r: RunID) {
    && NobodyWorks(s) && Upto(s, 1) && Books(s, r, map[cfg.first(r) := Queued], 1, 0) && Sole(s, r)
    && s.Log(0) == [Task(cfg.first(r), 0)] && s.Group(0) == Groups.EmptyGroup && s.buffer == multiset{}
    && s.actors[0].source.FromRun?
  }

  lemma {:induction false} FirstAsked(cfg: Settings, r: RunID) returns (steps: seq<Step>, s': State)
    requires CanCrawl(cfg, r)
    ensures IncarnationRun(cfg, Start, steps, s', r, {Waiting})
    ensures Books(s', r, map[cfg.first(r) := Queued], 1, 0) && OnlySends(s', 0) && Sole(s', r) && Upto(s', 1)
    ensures s'.actors[0] == Actor(0, FromRun(r), Producing(Task(cfg.first(r), 0), [], false))
    ensures s'.log == map[] && s'.groups == map[] && s'.buffer == multiset{}
  {
    var p;
    steps, p := StarterAcquires(cfg, Start, 0, r);
    s' := AdmitStep(cfg, p, 0);
    FirstAdmitted(cfg, p, 0, r);
    RunsJoin(cfg, Start, steps, p, [AdmitChild(0)], s', r, {Waiting});
    steps := steps + [AdmitChild(0)];
  }

  /** The starter's message goes through its producer into the log. */
  lemma {:induction false} FirstSent(cfg: Settings, s: State, r: RunID) returns (steps: seq<Step>, s': State)
    requires FirstsOwn(cfg) && OnlySends(s, 0) && 0 in s.actors
    requires s.actors[0] == Actor(0, FromRun(r), Producing(Task(cfg.first(r), 0), [], false))
    ensures IncarnationRun(cfg, s, steps, s', r, {Waiting}) && NobodyWorks(s') && SameActors(s, s')
    ensures s' == s.(actors := s'.actors, log := s.log[0 := s.Log(0) + [Task(cfg.first(r), 0)]], sent := s'.sent)
    ensures s'.actors[0].source.FromRun?
  {
    var c := Task(cfg.first(r), 0);
    var p := Next(cfg, s, Produce(0));
    FirstProduced(cfg, s, 0, r);
    s' := Next(cfg, p, Flush(0, c, 0));
    FirstFlushed(cfg, p, c, r);
    assert s.buffer + multiset{(0, c)} - multiset{(0, c)} == s.buffer;
    steps := [Produce(0)] + [Flush(0, c, 0)];
    RunsJoin(cfg, s, [Produce(0)], p, [Flush(0, c, 0)], s', r, {Waiting});
  }

  lemma {:induction false} FirstPublished(cfg: Settings, r: RunID) returns (steps: seq<Step>, s': State)
    requires CanCrawl(cfg, r)
    ensures IncarnationRun(cfg, Start, steps, s', r, {Waiting}) && Published(cfg, s', r)
    ensures s'.log == map[0 := [Task(cfg.first(r), 0)]]
  {
    var p, more;
    steps, p := FirstAsked(cfg, r);
    more, s' := FirstSent(cfg, p, r);
    assert [] + [Task(cfg.first(r), 0)] == [Task(cfg.first(r), 0)];
    RunsJoin(cfg, Start, steps, p, more, s', r, {Waiting});
    steps := steps + more;
  }

  lemma {:induction false} Rebalanced(cfg: Settings, s: State, change: Groups.Step, r: RunID)
    requires NobodyWorks(s) && Enabled(cfg, s, Rebalance(0, change))
    ensures var s' := Next(cfg, s, Rebalance(0, change));
      && IncarnationRun(cfg, s, [Rebalance(0, change)], s', r, {Waiting})
      && s' == s.(groups := s'.groups) && s'.Group(0) == Groups.Apply(s.Group(0), change)
  {
    OneStepRun(cfg, s, Rebalance(0, change), r, {Waiting});
  }

  /** The partition goes to consumer 0, from the start of the log. */
  lemma {:induction false} Assigned(cfg: Settings, s: State, r: RunID) returns (steps: seq<Step>, s': State)
    requires NobodyWorks(s)
    ensures IncarnationRun(cfg, s, steps, s', r, {Waiting})
    ensures s' == s.(groups := s'.groups) && 0 in s'.Group(0).next && s'.Group(0).next[0] == 0
  {
    var p := Next(cfg, s, Rebalance(0, Groups.Lose(0)));
    Rebalanced(cfg, s, Groups.Lose(0), r);
    s' := Next(cfg, p, Rebalance(0, Groups.Assign(0, 0)));
    Rebalanced(cfg, p, Groups.Assign(0, 0), r);
    steps := [Rebalance(0, Groups.Lose(0))] + [Rebalance(0, Groups.Assign(0, 0))];
    RunsJoin(cfg, s, [Rebalance(0, Groups.Lose(0))], p, [Rebalance(0, Groups.Assign(0, 0))], s', r, {Waiting});
  }

  /** The first record goes to worker a. */
  lemma {:induction false} FirstDelivered(cfg: Settings, s: State, a: nat, r: RunID)
      returns (steps: seq<Step>, s': State)
    requires NobodyWorks(s) && a !in s.actors && s.Log(0) == [Task(cfg.first(r), 0)]
    ensures IncarnationRun(cfg, s, steps, s', r, {Waiting})
    ensures s' == s.(groups := s'.groups, actors := s'.actors) && AtEnd(s') && NobodyWorks(s')
    ensures On(s', a, Task(cfg.first(r), 0), Received) && s'.actors == s.actors[a := s'.actors[a]]
  {
    var p;
    steps, p := Assigned(cfg, s, r);
    s' := DeliverStep(p, a, 0, 0, false);
    OneStepRun(cfg, p, Deliver(a, 0, 0, false), r, {Waiting});
    RunsJoin(cfg, s, steps, p, [Deliver(a, 0, 0, false)], s', r, {Waiting});
    steps := steps + [Deliver(a, 0, 0, false)];
  }

  /** Workers 1 and 2 both have the first record; neither has started. */
  ghost predicate Delivered(cfg: Settings, s: State, r: RunID) {
    && NobodyWorks(s) && Upto(s, 3) && Books(s, r, map[cfg.first(r) := Queued], 1, 0) && Sole(s, r)
    && AtEnd(s) && On(s, 1, Task(cfg.first(r), 0), Received) && On(s, 2, Task(cfg.first(r), 0), Received)
  }

  lemma {:induction false} DeliveredAgain(cfg: Settings, s: State, r: RunID) returns (steps: seq<Step>, s': State)
    requires Published(cfg, s, r)
    ensures IncarnationRun(cfg, s, steps, s', r, {Waiting}) && Delivered(cfg, s', r)
  {
    var p, more;
    steps, p := FirstDelivered(cfg, s, 1, r);
    assert Upto(p, 2);
    more, s' := FirstDelivered(cfg, p, 2, r);
    RunsJoin(cfg, s, steps, p, more, s', r, {Waiting});
    steps := steps + more;
    assert Upto(s', 3);
  }

  lemma {:induction false} DeliveredTwice(cfg: Settings, r: RunID) returns (steps: seq<Step>, s': State)
    requires CanCrawl(cfg, r)
    ensures IncarnationRun(cfg, Start, steps, s', r, {Waiting}) && Delivered(cfg, s', r)
  {
    var p, more;
    steps, p := FirstPublished(cfg, r);
    more, s' := DeliveredAgain(cfg, p, r);
    RunsJoin(cfg, Start, steps, p, more, s', r, {Waiting});
    steps := steps + more;
  }

  /** Worker 1 reads that the first task is queued, and starts. */
  lemma {:induction false} FirstStarted(cfg: Settings, s: State, r: RunID)
    requires CanCrawl(cfg, r) && Delivered(cfg, s, r)
    ensures Enabled(cfg, s, ReadState(1))
    ensures var s' := Next(cfg, s, ReadState(1));
      && IncarnationRun(cfg, s, [ReadState(1)], s', r, {Waiting})
      && Scene(s', 1, 3, cfg.first(r), Working, map[cfg.first(r) := Queued], 1, 0) && Sole(s', r) && AtEnd(s')
      && On(s', 2, Task(cfg.first(r), 0), Received) && Upto(s', 3)
  {
    assert NobodySends(s, cfg.first(r));
    OneStepRun(cfg, s, ReadState(1), r, {Waiting});
    assert SameActors(s, Next(cfg, s, ReadState(1)));
  }

  /** Worker 1 works on the first task, worker 2 has its record too. */
  lemma {:induction false} WorkStarted(cfg: Settings, r: RunID) returns (steps: seq<Step>, s': State)
    requires CanCrawl(cfg, r)
    ensures IncarnationRun(cfg, Start, steps, s', r, {Waiting})
    ensures Scene(s', 1, 3, cfg.first(r), Working, map[cfg.first(r) := Queued], 1, 0) && Sole(s', r) && AtEnd(s')
    ensures On(s', 2, Task(cfg.first(r), 0), Received) && Upto(s', 3)
  {
    var p;
    steps, p := DeliveredTwice(cfg, r);
    s' := Next(cfg, p, ReadState(1));
    FirstStarted(cfg, p, r);
    RunsJoin(cfg, Start, steps, p, [ReadState(1)], s', r, {Waiting});
    steps := steps + [ReadState(1)];
  }

  // ---- An incarnation that begins with somebody at work ------------------------------------

  /** The run's keys are evicted while worker 1 works. */
  lemma {:induction false} EvictedBooks(cfg: Settings, s: State, r: RunID, table: map<TaskID, Status>, active: int)
    requires Books(s, r, table, active, 0)
    ensures Books(Next(cfg, s, Evict(r)), r, map[], 0, 0)
  {
  }

  lemma {:induction false} Evicted(cfg: Settings, s: State, r: RunID)
    requires cfg.first(r).run == r && Scene(s, 1, 3, cfg.first(r), Working, map[cfg.first(r) := Queued], 1, 0)
    requires AtEnd(s) && 3 !in s.actors
    ensures var s' := Next(cfg, s, Evict(r));
      && Scene(s', 1, 3, cfg.first(r), Working, map[], 0, 0) && AtEnd(s') && 3 !in s'.actors && s'.finishes[r] == 0
  {
    EvictedBooks(cfg, s, r, map[cfg.first(r) := Queued], 1);
    assert Next(cfg, s, Evict(r)) == s.(store := Cleanup(s.store, r));
  }

  lemma {:induction false} WorkEvicted(cfg: Settings, r: RunID) returns (before: seq<Step>, p: State)
    requires CanCrawl(cfg, r)
    ensures Run(cfg, Start, before, Next(cfg, p, Evict(r)))
    ensures Scene(p, 1, 3, cfg.first(r), Working, map[cfg.first(r) := Queued], 1, 0) && AtEnd(p)
    ensures Upto(p, 3)
  {
    before, p := WorkStarted(cfg, r);
    RunThen(cfg, Start, before, p, Evict(r), r, {Waiting});
    before := before + [Evict(r)];
  }

  lemma {:induction false} LeftoverWorker(cfg: Settings, r: RunID)
      returns (before: seq<Step>, s: State, steps: seq<Step>, s': State)
    requires CanCrawl(cfg, r)
    ensures Begins(cfg, before, s, r) && IncarnationRun(cfg, s, steps, s', r, {Waiting})
    ensures s'.finishes[r] > s.finishes[r] && s'.Queued(Y(cfg.first(r)).id)
  {
    var p;
    before, p := WorkEvicted(cfg, r);
    s := Next(cfg, p, Evict(r));
    Evicted(cfg, p, r);
    steps, s' := WorksOnNothing(cfg, s, 1, 3, cfg.first(r), 0);
  }

  // ---- A start on a finished task ----------------------------------------------------------

  /** The run is finished; worker 1 still has to ack, worker 2 has a record of the task left over. */
  ghost predicate Over(cfg: Settings, s: State, r: RunID) {
    && NobodyWorks(s) && Books(s, r, map[cfg.first(r) := Done], 0, 1) && Sole(s, r) && AtEnd(s)
    && On(s, 1, Task(cfg.first(r), 0), Acking(true)) && On(s, 2, Task(cfg.first(r), 0), Received)
    && Upto(s, 3)
  }

  lemma {:induction false} CompletedStore(cfg: Settings, s: State, a: nat, t: TaskID)
    requires a in s.actors && s.actors[a].source.FromQueue? && s.actors[a].source.task.id == t
    requires cfg.redis.lease >= 1 && Books(s, t.run, map[t := Queued], 1, 0)
    ensures var s' := CompleteStep(cfg, s, a);
      && Books(s', t.run, map[t := Done], 0, 1)
      && s'.actors == s.actors[a := s.actors[a].(phase := Acking(true))] && s'.log == s.log && s'.groups == s.groups
  {
    NowDone(t);
    CompleteMarksDone(s.store, s.now, t, cfg.redis.lease);
  }

  lemma {:induction false} CompletedSlots(cfg: Settings, s: State, a: nat, r: RunID)
    requires a in s.actors && s.actors[a].source.FromQueue? && s.actors[a].source.task.id.run == r && Sole(s, r)
    ensures Sole(CompleteStep(cfg, s, a), r)
  {
  }

  lemma {:induction false} FirstDone(cfg: Settings, s: State, r: RunID)
    requires CanCrawl(cfg, r) && Scene(s, 1, 3, cfg.first(r), Completing, map[cfg.first(r) := Queued], 1, 0)
      && Sole(s, r)
    requires AtEnd(s) && On(s, 2, Task(cfg.first(r), 0), Received) && Upto(s, 3)
    ensures Enabled(cfg, s, CompleteOwn(1))
    ensures IncarnationRun(cfg, s, [CompleteOwn(1)], CompleteStep(cfg, s, 1), r, {Waiting})
  {
    TwoHold(s, 1, 3, r);
    OneStepRun(cfg, s, CompleteOwn(1), r, {Waiting});
  }

  lemma {:induction false} NothingLeft(s: State, s': State, r: RunID, f: Task)
    requires Only(s, 1, 3) && Upto(s, 3) && On(s, 1, f, Completing)
    requires s'.actors == s.actors[1 := s.actors[1].(phase := Acking(true))] && s'.log == s.log && s'.groups == s.groups
    requires AtEnd(s) && On(s, 2, f, Received)
    ensures NobodyWorks(s') && AtEnd(s') && On(s', 1, f, Acking(true)) && On(s', 2, f, Received)
    ensures Upto(s', 3)
  {
  }

  lemma {:induction false} FirstFails(cfg: Settings, s: State, r: RunID)
    requires cfg.first(r).run == r && Scene(s, 1, 3, cfg.first(r), Working, map[cfg.first(r) := Queued], 1, 0)
    requires 3 !in s.actors
    ensures Enabled(cfg, s, WorkFailed(1))
    ensures var s' := Next(cfg, s, WorkFailed(1));
      && IncarnationRun(cfg, s, [WorkFailed(1)], s', r, {Waiting})
      && Scene(s', 1, 3, cfg.first(r), Completing, map[cfg.first(r) := Queued], 1, 0)
      && SameActors(s, s') && s' == s.(actors := s'.actors)
      && (2 in s.actors ==> s'.actors[2] == s.actors[2])
  {
    TwoHold(s, 1, 3, r);
    OneStepRun(cfg, s, WorkFailed(1), r, {Waiting});
  }

  /** Worker 1 completes its task: nothing is left. */
  lemma {:induction false} FirstCompleted(cfg: Settings, s: State, r: RunID) returns (steps: seq<Step>, s': State)
    requires CanCrawl(cfg, r) && Scene(s, 1, 3, cfg.first(r), Working, map[cfg.first(r) := Queued], 1, 0) && Sole(s, r)
    requires AtEnd(s) && On(s, 2, Task(cfg.first(r), 0), Received) && Upto(s, 3)
    ensures IncarnationRun(cfg, s, steps, s', r, {Waiting})
    ensures Over(cfg, s', r)
  {
    var f := cfg.first(r);
    var p := Next(cfg, s, WorkFailed(1));
    FirstFails(cfg, s, r);
    FirstDone(cfg, p, r);
    s' := CompleteStep(cfg, p, 1);
    CompletedStore(cfg, p, 1, f);
    CompletedSlots(cfg, p, 1, r);
    NothingLeft(p, s', r, Task(f, 0));
    steps := [WorkFailed(1)] + [CompleteOwn(1)];
    RunsJoin(cfg, s, [WorkFailed(1)], p, [CompleteOwn(1)], s', r, {Waiting});
  }

  /** Worker 2 cannot read the state of the task, which is done, and starts. */
  lemma {:induction false} StartsOnFinished(cfg: Settings, s: State, r: RunID)
    requires CanCrawl(cfg, r) && NobodyWorks(s) && Books(s, r, map[cfg.first(r) := Done], 0, 1)
    requires On(s, 2, Task(cfg.first(r), 0), Received)
    ensures Enabled(cfg, s, ReadStateFailed(2, false))
    ensures var s' := Next(cfg, s, ReadStateFailed(2, false));
      && IncarnationRun(cfg, s, [ReadStateFailed(2, false)], s', r, {Waiting, Finished})
      && Scene(s', 2, 3, cfg.first(r), Working, map[cfg.first(r) := Done], 0, 1)
      && SameActors(s, s')
  {
    OneStepRun(cfg, s, ReadStateFailed(2, false), r, {Waiting, Finished});
    assert SameActors(s, Next(cfg, s, ReadStateFailed(2, false)));
  }

  lemma {:induction false} FinishedGoesOn(cfg: Settings, s: State, f: TaskID) returns (steps: seq<Step>, s': State)
    requires CanCrawl(cfg, f.run) && Scene(s, 2, 3, f, Working, map[f := Done], 0, 1) && 3 !in s.actors
    ensures IncarnationRun(cfg, s, steps, s', f.run, {Waiting})
    ensures s'.finishes[f.run] == 1 && s'.Queued(X(f).id)
  {
    XYChildren(f);
    var p := Next(cfg, s, WorkDone(2, XYLinks(f)));
    WorkFound(cfg, s, 2, 3, f, map[f := Done], 0, 1, XYLinks(f));
    s' := AdmitStep(cfg, p, 2);
    ChildAdmitted(cfg, p, 2, 3, f, X(f), [Y(f)], map[f := Done], 0, 1);
    steps := [WorkDone(2, XYLinks(f))] + [AdmitChild(2)];
    RunsJoin(cfg, s, [WorkDone(2, XYLinks(f))], p, [AdmitChild(2)], s', f.run, {Waiting});
  }

  lemma {:induction false} FirstIsOver(cfg: Settings, r: RunID) returns (steps: seq<Step>, s': State)
    requires CanCrawl(cfg, r)
    ensures IncarnationRun(cfg, Start, steps, s', r, {Waiting}) && Over(cfg, s', r)
  {
    var p, more;
    steps, p := WorkStarted(cfg, r);
    more, s' := FirstCompleted(cfg, p, r);
    RunsJoin(cfg, Start, steps, p, more, s', r, {Waiting});
    steps := steps + more;
  }

  lemma {:induction false} FinishedStart(cfg: Settings, r: RunID) returns (steps: seq<Step>, s': State)
    requires CanCrawl(cfg, r)
    ensures IncarnationRun(cfg, Start, steps, s', r, {Waiting, Finished})
    ensures s'.finishes[r] == 1 && s'.Queued(X(cfg.first(r)).id)
  {
    var p, q, more;
    steps, p := FirstIsOver(cfg, r);
    MoreKinds(cfg, Start, steps, p, r, {Waiting}, {Waiting, Finished});
    q := Next(cfg, p, ReadStateFailed(2, false));
    StartsOnFinished(cfg, p, r);
    RunsJoin(cfg, Start, steps, p, [ReadStateFailed(2, false)], q, r, {Waiting, Finished});
    steps := steps + [ReadStateFailed(2, false)];
    more, s' := FinishedGoesOn(cfg, q, cfg.first(r));
    MoreKinds(cfg, q, more, s', r, {Waiting}, {Waiting, Finished});
    RunsJoin(cfg, Start, steps, q, more, s', r, {Waiting, Finished});
    steps := steps + more;
  }

  // ---- A record left over from an earlier incarnation --------------------------------------

  /** The run is over and its keys are gone; worker 2 has a record of its first task left over. */
  ghost predicate Emptied(cfg: Settings, s: State, r: RunID) {
    && NobodyWorks(s) && s.store.Tasks(r) == map[] && s.store.Active(r) == 0 && s.store.Links(r) == 0
    && s.store.slots == map[] && s.finishes[r] == 1 && AtEnd(s) && On(s, 2, Task(cfg.first(r), 0), Received)
    && Upto(s, 3)
  }

  ghost predicate Leaving(cfg: Settings, s: State, r: RunID, phase: Phase) {
    && NobodyWorks(s) && s.finishes[r] == 1 && AtEnd(s) && Upto(s, 3)
    && On(s, 1, Task(cfg.first(r), 0), phase) && On(s, 2, Task(cfg.first(r), 0), Received)
  }

  ghost predicate Leads(cfg: Settings, s: State, s': State) {
    exists steps :: Run(cfg, s, steps, s')
  }

  lemma {:induction false} StepLeads(cfg: Settings, s: State, step: Step)
    requires Enabled(cfg, s, step)
    ensures Leads(cfg, s, Next(cfg, s, step))
  {
    assert [step][1..] == [];
    assert Run(cfg, s, [step], Next(cfg, s, step));
  }

  lemma {:induction false} LeadsOn(cfg: Settings, s: State, p: State, s': State)
    requires Leads(cfg, s, p) && Leads(cfg, p, s')
    ensures Leads(cfg, s, s')
  {
    var xs :| Run(cfg, s, xs, p);
    var ys :| Run(cfg, p, ys, s');
    PlainRunsJoin(cfg, s, xs, p, ys, s');
  }

  lemma {:induction false} AckKeepsNext(s: State, a: nat)
    requires a in s.actors && s.actors[a].source.FromQueue? && s.actors[a].phase.Acking? && AtEnd(s)
    ensures AtEnd(AckStep(s, a))
  {
  }

  lemma {:induction false} FirstAcked(cfg: Settings, s: State, r: RunID) returns (s': State)
    requires Over(cfg, s, r)
    ensures Leads(cfg, s, s') && Leaving(cfg, s', r, Releasing) && Sole(s', r)
  {
    StepLeads(cfg, s, Ack(1));
    s' := AckStep(s, 1);
    AckKeepsNext(s, 1);
  }

  lemma {:induction false} SlotReleased(cfg: Settings, s: State, r: RunID) returns (s': State)
    requires Leaving(cfg, s, r, Releasing) && cfg.first(r).run == r && Sole(s, r)
    ensures Leads(cfg, s, s') && Leaving(cfg, s', r, Cleaning) && s'.store.slots == map[]
  {
    StepLeads(cfg, s, ReleaseSlot(1));
    s' := Next(cfg, s, ReleaseSlot(1));
    assert s.store.slots - {r} == map[];
  }

  lemma {:induction false} KeysRemoved(cfg: Settings, s: State, r: RunID) returns (s': State)
    requires Leaving(cfg, s, r, Cleaning) && cfg.first(r).run == r && s.store.slots == map[]
    ensures Leads(cfg, s, s') && Emptied(cfg, s', r)
  {
    StepLeads(cfg, s, CleanUp(1));
    s' := Next(cfg, s, CleanUp(1));
  }

  lemma {:induction false} RunCleaned(cfg: Settings, s: State, r: RunID) returns (s': State)
    requires Over(cfg, s, r) && cfg.first(r).run == r
    ensures Leads(cfg, s, s') && Emptied(cfg, s', r)
  {
    var p := FirstAcked(cfg, s, r);
    var q := SlotReleased(cfg, p, r);
    s' := KeysRemoved(cfg, q, r);
    LeadsOn(cfg, s, p, q);
    LeadsOn(cfg, s, q, s');
  }

  lemma {:induction false} RecordLeft(cfg: Settings, r: RunID) returns (before: seq<Step>, s: State)
    requires CanCrawl(cfg, r)
    ensures Begins(cfg, before, s, r) && Idle(s, r) && Emptied(cfg, s, r)
  {
    var p;
    before, p := FirstIsOver(cfg, r);
    IsARun(cfg, Start, before, p, r, {Waiting});
    s := RunCleaned(cfg, p, r);
    var more :| Run(cfg, p, more, s);
    PlainRunsJoin(cfg, Start, before, p, more, s);
    before := before + more;
  }

  /** The run is asked for again: starter 3 has its slot. */
  ghost predicate AskedAgain(cfg: Settings, s: State, r: RunID) {
    && NobodyWorks(s) && Books(s, r, map[], 0, 1) && AtEnd(s) && On(s, 2, Task(cfg.first(r), 0), Received) && Upto(s, 4)
    && s.actors[3] == Actor(0, FromRun(r), Sending([Task(cfg.first(r), 0)], false))
  }

  lemma {:induction false} SlotTaken(cfg: Settings, s: State, s': State, r: RunID)
    requires Emptied(cfg, s, r) && s'.store.Live(r, s'.now)
    requires s'.actors == s.actors[3 := Actor(0, FromRun(r), Sending([Task(cfg.first(r), 0)], false))]
    requires s' == s.(actors := s'.actors, store := s.store.(slots := s'.store.slots))
    ensures AskedAgain(cfg, s', r)
  {
  }

  lemma {:induction false} RunAskedAgain(cfg: Settings, s: State, r: RunID) returns (steps: seq<Step>, s': State)
    requires CanCrawl(cfg, r) && Emptied(cfg, s, r)
    ensures IncarnationRun(cfg, s, steps, s', r, {Waiting}) && AskedAgain(cfg, s', r)
  {
    steps, s' := StarterAcquires(cfg, s, 3, r);
    SlotTaken(cfg, s, s', r);
  }

  // ---- A start on a task the table does not hold -------------------------------------------

  lemma {:induction false} StartsOnUnknown(cfg: Settings, s: State, r: RunID)
    requires CanCrawl(cfg, r) && AskedAgain(cfg, s, r)
    ensures Enabled(cfg, s, ReadState(2))
    ensures var s' := Next(cfg, s, ReadState(2));
      && IncarnationRun(cfg, s, [ReadState(2)], s', r, {Waiting, Unknown})
      && Scene(s', 2, 4, cfg.first(r), Working, map[], 0, 1) && AtEnd(s') && 4 !in s'.actors
  {
    OneStepRun(cfg, s, ReadState(2), r, {Waiting, Unknown});
  }

  lemma {:induction false} UnknownGoesOn(cfg: Settings, s: State, r: RunID) returns (steps: seq<Step>, s': State)
    requires CanCrawl(cfg, r) && Emptied(cfg, s, r)
    ensures IncarnationRun(cfg, s, steps, s', r, {Waiting, Unknown})
    ensures s'.finishes[r] == 2 && s'.Queued(Y(cfg.first(r)).id)
  {
    var p, q, more;
    var kinds := {Waiting, Unknown};
    steps, p := RunAskedAgain(cfg, s, r);
    MoreKinds(cfg, s, steps, p, r, {Waiting}, kinds);
    q := Next(cfg, p, ReadState(2));
    StartsOnUnknown(cfg, p, r);
    RunsJoin(cfg, s, steps, p, [ReadState(2)], q, r, kinds);
    steps := steps + [ReadState(2)];
    more, s' := WorksOnNothing(cfg, q, 2, 4, cfg.first(r), 1);
    MoreKinds(cfg, q, more, s', r, {Waiting}, kinds);
    RunsJoin(cfg, s, steps, q, more, s', r, kinds);
    steps := steps + more;
  }

  lemma {:induction false} UnknownStart(cfg: Settings, r: RunID)
      returns (before: seq<Step>, s: State, steps: seq<Step>, s': State)
    requires CanCrawl(cfg, r)
    ensures Begins(cfg, before, s, r) && Idle(s, r) && s.finishes[r] == 1
    ensures IncarnationRun(cfg, s, steps, s', r, {Waiting, Unknown})
    ensures s'.finishes[r] == 2 && s'.Queued(Y(cfg.first(r)).id)
  {
    before, s := RecordLeft(cfg, r);
    steps, s' := UnknownGoesOn(cfg, s, r);
  }

  // ---- A start on a task that is still being produced --------------------------------------

  /** Worker 2 works on the first task, which starter 3 admitted and has yet to send. */
  ghost predicate Early(cfg: Settings, s: State, r: RunID, phase: Phase, table: map<TaskID, Status>, active: int) {
    && On(s, 2, Task(cfg.first(r), 0), Working) && Only(s, 2, 3) && Books(s, r, table, active, 1) && AtEnd(s)
    && Upto(s, 4)
    && s.actors[3] == Actor(0, FromRun(r), phase)
  }

  lemma {:induction false} FirstAdmittedAgain(cfg: Settings, s: State, r: RunID)
    requires CanCrawl(cfg, r) && AskedAgain(cfg, s, r)
    ensures Enabled(cfg, s, AdmitChild(3))
    ensures var s' := AdmitStep(cfg, s, 3);
      && IncarnationRun(cfg, s, [AdmitChild(3)], s', r, {Waiting})
      && Books(s', r, map[cfg.first(r) := Queued], 1, 1) && OnlySends(s', 3)
      && s'.actors == s.actors[3 := Actor(0, FromRun(r), Producing(Task(cfg.first(r), 0), [], false))]
      && AtEnd(s') && On(s', 2, Task(cfg.first(r), 0), Received) && Upto(s', 4)
  {
    FirstAdmitted(cfg, s, 3, r);
  }

  lemma {:induction false} StartsEarly(cfg: Settings, s: State, r: RunID)
    requires CanCrawl(cfg, r) && OnlySends(s, 3) && Books(s, r, map[cfg.first(r) := Queued], 1, 1) && AtEnd(s)
    requires Upto(s, 4) && On(s, 2, Task(cfg.first(r), 0), Received)
    requires s.actors[3] == Actor(0, FromRun(r), Producing(Task(cfg.first(r), 0), [], false))
    ensures Enabled(cfg, s, ReadState(2))
    ensures var s' := Next(cfg, s, ReadState(2));
      && IncarnationRun(cfg, s, [ReadState(2)], s', r, {Waiting, BeingProduced})
      && Early(cfg, s', r, Producing(Task(cfg.first(r), 0), [], false), map[cfg.first(r) := Queued], 1)
  {
    assert s.actors[3].Pending(cfg.first(r));
    OneStepRun(cfg, s, ReadState(2), r, {Waiting, BeingProduced});
  }

  lemma {:induction false} ProduceFails(cfg: Settings, s: State, r: RunID)
    requires cfg.first(r).run == r
    requires Early(cfg, s, r, Producing(Task(cfg.first(r), 0), [], false), map[cfg.first(r) := Queued], 1)
    ensures Enabled(cfg, s, ProduceFailed(3))
    ensures var s' := Next(cfg, s, ProduceFailed(3));
      && IncarnationRun(cfg, s, [ProduceFailed(3)], s', r, {Waiting})
      && Early(cfg, s', r, Undoing(Task(cfg.first(r), 0), [], false), map[cfg.first(r) := Queued], 1)
  {
    TwoHold(s, 2, 3, r);
    OneStepRun(cfg, s, ProduceFailed(3), r, {Waiting});
  }

  lemma {:induction false} UndoneStore(s: Store, t: TaskID)
    requires s.Tasks(t.run) == map[t := Queued] && s.Active(t.run) == 1 && s.Links(t.run) == 1
    ensures var s' := Unadmit(s, t.run, t);
      && s'.Tasks(t.run) == map[] && s'.Active(t.run) == 0 && s'.Links(t.run) == 0 && s'.slots == s.slots
  {
    var table: map<TaskID, Status> := map[t := Queued];
    assert table - {t} == map[];
  }

  lemma {:induction false} AdmissionUndone(cfg: Settings, s: State, r: RunID)
    requires cfg.first(r).run == r
    requires Early(cfg, s, r, Undoing(Task(cfg.first(r), 0), [], false), map[cfg.first(r) := Queued], 1)
    ensures Enabled(cfg, s, UndoAdmission(3))
    ensures var s' := Next(cfg, s, UndoAdmission(3));
      && IncarnationRun(cfg, s, [UndoAdmission(3)], s', r, {Waiting})
      && Early(cfg, s', r, Sending([], true), map[], 0)
  {
    TwoHold(s, 2, 3, r);
    OneStepRun(cfg, s, UndoAdmission(3), r, {Waiting});
    UndoneStore(s.store, cfg.first(r));
  }

  lemma {:induction false} NobodySendsAgain(cfg: Settings, s: State, r: RunID)
    requires cfg.first(r).run == r && Early(cfg, s, r, Sending([], true), map[], 0)
    ensures Scene(s, 2, 4, cfg.first(r), Working, map[], 0, 1) && 4 !in s.actors
  {
  }

  lemma {:induction false} AdmissionTakenBack(cfg: Settings, s: State, r: RunID) returns (steps: seq<Step>, s': State)
    requires CanCrawl(cfg, r)
    requires Early(cfg, s, r, Producing(Task(cfg.first(r), 0), [], false), map[cfg.first(r) := Queued], 1)
    ensures IncarnationRun(cfg, s, steps, s', r, {Waiting})
    ensures Scene(s', 2, 4, cfg.first(r), Working, map[], 0, 1) && AtEnd(s') && 4 !in s'.actors
  {
    var p := Next(cfg, s, ProduceFailed(3));
    ProduceFails(cfg, s, r);
    s' := Next(cfg, p, UndoAdmission(3));
    AdmissionUndone(cfg, p, r);
    NobodySendsAgain(cfg, s', r);
    steps := [ProduceFailed(3)] + [UndoAdmission(3)];
    RunsJoin(cfg, s, [ProduceFailed(3)], p, [UndoAdmission(3)], s', r, {Waiting});
  }

  lemma {:induction false} StartedEarly(cfg: Settings, s: State, r: RunID) returns (steps: seq<Step>, s': State)
    requires CanCrawl(cfg, r) && Emptied(cfg, s, r)
    ensures IncarnationRun(cfg, s, steps, s', r, {Waiting, BeingProduced})
    ensures Early(cfg, s', r, Producing(Task(cfg.first(r), 0), [], false), map[cfg.first(r) := Queued], 1)
  {
    var p, q;
    var kinds := {Waiting, BeingProduced};
    steps, p := RunAskedAgain(cfg, s, r);
    q := AdmitStep(cfg, p, 3);
    FirstAdmittedAgain(cfg, p, r);
    RunsJoin(cfg, s, steps, p, [AdmitChild(3)], q, r, {Waiting});
    steps := steps + [AdmitChild(3)];
    MoreKinds(cfg, s, steps, q, r, {Waiting}, kinds);
    s' := Next(cfg, q, ReadState(2));
    StartsEarly(cfg, q, r);
    RunsJoin(cfg, s, steps, q, [ReadState(2)], s', r, kinds);
    steps := steps + [ReadState(2)];
  }

  lemma {:induction false} EarlyGoesOn(cfg: Settings, s: State, r: RunID) returns (steps: seq<Step>, s': State)
    requires CanCrawl(cfg, r) && Emptied(cfg, s, r)
    ensures IncarnationRun(cfg, s, steps, s', r, {Waiting, BeingProduced})
    ensures s'.finishes[r] == 2 && s'.Queued(Y(cfg.first(r)).id)
  {
    var p, q, more;
    var kinds := {Waiting, BeingProduced};
    steps, p := StartedEarly(cfg, s, r);
    more, q := AdmissionTakenBack(cfg, p, r);
    MoreKinds(cfg, p, more, q, r, {Waiting}, kinds);
    RunsJoin(cfg, s, steps, p, more, q, r, kinds);
    steps := steps + more;
    more, s' := WorksOnNothing(cfg, q, 2, 4, cfg.first(r), 1);
    MoreKinds(cfg, q, more, s', r, {Waiting}, kinds);
    RunsJoin(cfg, s, steps, q, more, s', r, kinds);
    steps := steps + more;
  }

  lemma {:induction false} EarlyStart(cfg: Settings, r: RunID)
      returns (before: seq<Step>, s: State, steps: seq<Step>, s': State)
    requires CanCrawl(cfg, r)
    ensures Begins(cfg, before, s, r) && Idle(s, r) && s.finishes[r] == 1
    ensures IncarnationRun(cfg, s, steps, s', r, {Waiting, BeingProduced})
    ensures s'.finishes[r] == 2 && s'.Queued(Y(cfg.first(r)).id)
  {
    before, s := RecordLeft(cfg, r);
    steps, s' := EarlyGoesOn(cfg, s, r);
  }

  // ---- Two workers on the same task --------------------------------------------------------

  /** Like `IncarnationRun`, but several workers may hold the same task. */
  ghost predicate SharedRun(cfg: Settings, s: State, steps: seq<Step>, s': State, r: RunID, kinds: set<Standing>)
    decreases |steps|
  {
    if steps == [] then s == s'
    else
      && Enabled(cfg, s, steps[0]) && !EndsIncarnation(s, steps[0], r) && StartsAs(s, steps[0], r, kinds)
      && SharedRun(cfg, Next(cfg, s, steps[0]), steps[1..], s', r, kinds)
  }

  lemma {:induction false} AloneIsShared(cfg: Settings, s: State, steps: seq<Step>, s': State, r: RunID,
      kinds: set<Standing>)
    requires IncarnationRun(cfg, s, steps, s', r, kinds)
    ensures SharedRun(cfg, s, steps, s', r, kinds)
    decreases |steps|
  {
    if steps != [] {
      AloneIsShared(cfg, Next(cfg, s, steps[0]), steps[1..], s', r, kinds);
    }
  }

  lemma {:induction false} SharedRunsJoin(cfg: Settings, s: State, xs: seq<Step>, p: State, ys: seq<Step>, s': State,
      r: RunID, kinds: set<Standing>)
    requires SharedRun(cfg, s, xs, p, r, kinds) && SharedRun(cfg, p, ys, s', r, kinds)
    ensures SharedRun(cfg, s, xs + ys, s', r, kinds)
    decreases |xs|
  {
    if xs == [] {
      assert xs + ys == ys;
    } else {
      SharedRunsJoin(cfg, Next(cfg, s, xs[0]), xs[1..], p, ys, s', r, kinds);
      assert (xs + ys)[0] == xs[0] && (xs + ys)[1..] == xs[1..] + ys;
    }
  }

  lemma {:induction false} SharedThen(cfg: Settings, s: State, steps: seq<Step>, p: State, step: Step, r: RunID,
      kinds: set<Standing>)
    requires SharedRun(cfg, s, steps, p, r, kinds)
    requires Enabled(cfg, p, step) && !EndsIncarnation(p, step, r) && StartsAs(p, step, r, kinds)
    ensures SharedRun(cfg, s, steps + [step], Next(cfg, p, step), r, kinds)
  {
    assert [step][1..] == [];
    SharedRunsJoin(cfg, s, steps, p, [step], Next(cfg, p, step), r, kinds);
  }

  lemma {:induction false} MoreSharedKinds(cfg: Settings, s: State, steps: seq<Step>, s': State, r: RunID,
      kinds: set<Standing>, more: set<Standing>)
    requires SharedRun(cfg, s, steps, s', r, kinds) && kinds <= more
    ensures SharedRun(cfg, s, steps, s', r, more)
    decreases |steps|
  {
    if steps != [] {
      MoreSharedKinds(cfg, Next(cfg, s, steps[0]), steps[1..], s', r, kinds, more);
    }
  }

  /** Workers 1 and 2 both have the first task in hand; nobody else works or sends. */
  ghost predicate Both(cfg: Settings, s: State, r: RunID, one: Phase, table: map<TaskID, Status>, active: int,
      finishes: nat) {
    && On(s, 1, Task(cfg.first(r), 0), one) && On(s, 2, Task(cfg.first(r), 0), Working) && Only(s, 1, 2)
    && Books(s, r, table, active, finishes) && Upto(s, 3)
  }

  /** The second worker reads that the task is queued, and starts as well. */
  lemma {:induction false} SecondStarts(cfg: Settings, s: State, r: RunID)
    requires CanCrawl(cfg, r) && Scene(s, 1, 3, cfg.first(r), Working, map[cfg.first(r) := Queued], 1, 0)
    requires On(s, 2, Task(cfg.first(r), 0), Received) && Upto(s, 3)
    ensures Enabled(cfg, s, ReadState(2)) && StartsAs(s, ReadState(2), r, {Waiting})
    ensures Both(cfg, Next(cfg, s, ReadState(2)), r, Working, map[cfg.first(r) := Queued], 1, 0)
  {
    assert NobodySends(s, cfg.first(r));
  }

  lemma {:induction false} FirstGivesUp(cfg: Settings, s: State, r: RunID) returns (s': State)
    requires Both(cfg, s, r, Working, map[cfg.first(r) := Queued], 1, 0)
    ensures SharedRun(cfg, s, [WorkFailed(1)], s', r, {Waiting})
    ensures Both(cfg, s', r, Completing, map[cfg.first(r) := Queued], 1, 0)
  {
    s' := Move(s, 1, Completing);
    assert [WorkFailed(1)][1..] == [];
  }

  lemma {:induction false} CompletingIsARun(cfg: Settings, s: State, r: RunID, finishes: nat)
    requires Both(cfg, s, r, Completing, map[cfg.first(r) := Queued], 1, finishes)
    ensures SharedRun(cfg, s, [CompleteOwn(1)], CompleteStep(cfg, s, 1), r, {Waiting})
  {
    assert [CompleteOwn(1)][1..] == [];
  }

  /** The first worker completes the task, and nothing is left; the second works on. */
  lemma {:induction false} FirstCompletesShared(cfg: Settings, s: State, r: RunID)
    requires CanCrawl(cfg, r) && Both(cfg, s, r, Completing, map[cfg.first(r) := Queued], 1, 0)
    ensures Both(cfg, CompleteStep(cfg, s, 1), r, Acking(true), map[cfg.first(r) := Done], 0, 1)
  {
    CompletedStore(cfg, s, 1, cfg.first(r));
  }

  lemma {:induction false} SecondWorksOn(cfg: Settings, s: State, r: RunID)
    requires cfg.first(r).run == r && Both(cfg, s, r, Acking(true), map[cfg.first(r) := Done], 0, 1)
    ensures Scene(s, 2, 3, cfg.first(r), Working, map[cfg.first(r) := Done], 0, 1) && 3 !in s.actors
  {
  }

  lemma {:induction false} SharedCompletes(cfg: Settings, s: State, r: RunID) returns (steps: seq<Step>, s': State)
    requires CanCrawl(cfg, r) && Both(cfg, s, r, Working, map[cfg.first(r) := Queued], 1, 0)
    ensures SharedRun(cfg, s, steps, s', r, {Waiting})
    ensures Both(cfg, s', r, Acking(true), map[cfg.first(r) := Done], 0, 1)
  {
    var p := FirstGivesUp(cfg, s, r);
    s' := CompleteStep(cfg, p, 1);
    CompletingIsARun(cfg, p, r, 0);
    FirstCompletesShared(cfg, p, r);
    steps := [WorkFailed(1)] + [CompleteOwn(1)];
    SharedRunsJoin(cfg, s, [WorkFailed(1)], p, [CompleteOwn(1)], s', r, {Waiting});
  }

  lemma {:induction false} SharedGoesOn(cfg: Settings, s: State, r: RunID) returns (steps: seq<Step>, s': State)
    requires CanCrawl(cfg, r) && Both(cfg, s, r, Working, map[cfg.first(r) := Queued], 1, 0)
    ensures SharedRun(cfg, s, steps, s', r, {Waiting})
    ensures s'.finishes[r] == 1 && s'.Queued(X(cfg.first(r)).id)
  {
    var p, more;
    steps, p := SharedCompletes(cfg, s, r);
    SecondWorksOn(cfg, p, r);
    more, s' := FinishedGoesOn(cfg, p, cfg.first(r));
    AloneIsShared(cfg, p, more, s', r, {Waiting});
    SharedRunsJoin(cfg, s, steps, p, more, s', r, {Waiting});
    steps := steps + more;
  }

  /** Two workers that start on the first task as they should, one after the other. */
  lemma {:induction false} SharedTask(cfg: Settings, r: RunID) returns (steps: seq<Step>, s': State)
    requires CanCrawl(cfg, r)
    ensures SharedRun(cfg, Start, steps, s', r, {Waiting})
    ensures s'.finishes[r] == 1 && s'.Queued(X(cfg.first(r)).id)
  {
    var p, more;
    steps, p := WorkStarted(cfg, r);
    AloneIsShared(cfg, Start, steps, p, r, {Waiting});
    SecondStarts(cfg, p, r);
    SharedThen(cfg, Start, steps, p, ReadState(2), r, {Waiting});
    steps := steps + [ReadState(2)];
    more, s' := SharedGoesOn(cfg, Next(cfg, p, ReadState(2)), r);
    SharedRunsJoin(cfg, Start, steps, Next(cfg, p, ReadState(2)), more, s', r, {Waiting});
    steps := steps + more;
  }

  // ---- The exact condition -----------------------------------------------------------------

  /** What incarnations may be like: how the tasks stand on which workers start; whether somebody may
      be at work for the run when it begins; whether workers may hold the same task. */
  datatype Terms = Terms(kinds: set<Standing>, leftover: bool, shared: bool)

  /** An incarnation of r like this, on some run of the system. */
  ghost predicate History(cfg: Settings, before: seq<Step>, s: State, steps: seq<Step>, s': State, r: RunID,
      on: Terms)
  {
    && Begins(cfg, before, s, r) && (on.leftover || Idle(s, r))
    && if on.shared then SharedRun(cfg, s, steps, s', r, on.kinds) else IncarnationRun(cfg, s, steps, s', r, on.kinds)
  }

  /** Every such incarnation is found finished at most once and stays finished. */
  ghost predicate SoundFor(cfg: Settings, r: RunID, on: Terms) {
    forall before, s, steps, s' | History(cfg, before, s, steps, s', r, on) :: Concluded(cfg, s, s', r)
  }

  /** An incarnation in which nobody shares a task is one in which some may. */
  lemma {:induction false} IsHistory(cfg: Settings, before: seq<Step>, s: State, steps: seq<Step>, s': State, r: RunID,
      kinds: set<Standing>, on: Terms)
    requires Begins(cfg, before, s, r) && (on.leftover || Idle(s, r)) && kinds <= on.kinds
    requires IncarnationRun(cfg, s, steps, s', r, kinds)
    ensures History(cfg, before, s, steps, s', r, on)
  {
    MoreKinds(cfg, s, steps, s', r, kinds, on.kinds);
    AloneIsShared(cfg, s, steps, s', r, on.kinds);
  }

  lemma {:induction false} LeftoverIsUnsound(cfg: Settings, r: RunID, on: Terms)
    requires CanCrawl(cfg, r) && Waiting in on.kinds && on.leftover
    ensures !SoundFor(cfg, r, on)
  {
    var before, s, steps, s' := LeftoverWorker(cfg, r);
    IsHistory(cfg, before, s, steps, s', r, {Waiting}, on);
  }

  lemma {:induction false} UnknownIsUnsound(cfg: Settings, r: RunID, on: Terms)
    requires CanCrawl(cfg, r) && Waiting in on.kinds && Unknown in on.kinds
    ensures !SoundFor(cfg, r, on)
  {
    var before, s, steps, s' := UnknownStart(cfg, r);
    IsHistory(cfg, before, s, steps, s', r, {Waiting, Unknown}, on);
  }

  lemma {:induction false} EarlyIsUnsound(cfg: Settings, r: RunID, on: Terms)
    requires CanCrawl(cfg, r) && Waiting in on.kinds && BeingProduced in on.kinds
    ensures !SoundFor(cfg, r, on)
  {
    var before, s, steps, s' := EarlyStart(cfg, r);
    IsHistory(cfg, before, s, steps, s', r, {Waiting, BeingProduced}, on);
  }

  lemma {:induction false} StartBegins(cfg: Settings, r: RunID)
    ensures Begins(cfg, [], Start, r) && Idle(Start, r)
  {
  }

  lemma {:induction false} FinishedIsUnsound(cfg: Settings, r: RunID, on: Terms)
    requires CanCrawl(cfg, r) && Waiting in on.kinds && Finished in on.kinds
    ensures !SoundFor(cfg, r, on)
  {
    var steps, s' := FinishedStart(cfg, r);
    StartBegins(cfg, r);
    IsHistory(cfg, [], Start, steps, s', r, {Waiting, Finished}, on);
  }

  lemma {:induction false} SharingIsUnsound(cfg: Settings, r: RunID, on: Terms)
    requires CanCrawl(cfg, r) && Waiting in on.kinds && on.shared
    ensures !SoundFor(cfg, r, on)
  {
    var steps, s' := SharedTask(cfg, r);
    StartBegins(cfg, r);
    MoreSharedKinds(cfg, Start, steps, s', r, {Waiting}, on.kinds);
    assert History(cfg, [], Start, steps, s', r, on);
  }

  lemma {:induction false} OnlyWaiting(kinds: set<Standing>)
    requires Waiting in kinds && Unknown !in kinds && BeingProduced !in kinds && Finished !in kinds
    ensures kinds == {Waiting}
  {
    forall k | k in kinds ensures k == Waiting {
      assert k != Unknown && k != BeingProduced && k != Finished;
    }
  }

  /** The exact condition for runs that can have children, under settings that let them run: they
      are found finished once and for good if and only if workers start only on tasks that are queued
      and sent, nobody is left at work when a run begins, and no two workers hold the same task. */
  lemma {:induction false} ExactWhereRunsGrow(cfg: Settings, r: RunID, on: Terms)
    requires CanCrawl(cfg, r) && Waiting in on.kinds
    ensures SoundFor(cfg, r, on) <==> on.kinds == {Waiting} && !on.leftover && !on.shared
  {
    if on.leftover {
      LeftoverIsUnsound(cfg, r, on);
    } else if on.shared {
      SharingIsUnsound(cfg, r, on);
    } else if Unknown in on.kinds {
      UnknownIsUnsound(cfg, r, on);
    } else if BeingProduced in on.kinds {
      EarlyIsUnsound(cfg, r, on);
    } else if Finished in on.kinds {
      FinishedIsUnsound(cfg, r, on);
    } else {
      OnlyWaiting(on.kinds);
      forall before, s, steps, s' | History(cfg, before, s, steps, s', r, on) ensures Concluded(cfg, s, s', r) {
        TerminationDetectedOnce(cfg, before, s, steps, s', r);
      }
    }
  }
}
