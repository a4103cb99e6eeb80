/** The fourth way to lose a task: a commit passes over its record, because a later record of the
    same fetch was tracked after the partition had been released. The task stays lost while
    ownerships start at the committed position and commits do not move it back, and there is a run
    from the start that gets there although every call succeeds until a worker gives up. */
module PassedOver {
  import opened RunState
  import opened Protocol
  import opened NoLostWork
  import opened Termination
  import opened Restarts
  import opened LostWork
  import Groups = CommitSafety
  import Offsets

  /** Committed, and behind every consumer: nobody will be handed this offset again. */
  ghost predicate Behind(g: Groups.Group, o: nat) {
    && o < g.committed
    && (forall c | c in g.next :: o < g.next[c])
    && (forall c | c in g.stale :: o < g.stale[c])
  }

  ghost predicate RecordsBehind(s: State, t: TaskID) {
    forall p: nat, o: nat | o < |s.Log(p)| && s.Log(p)[o].id == t :: Behind(s.Group(p), o)
  }

  /** An ownership starts no earlier than the committed position, and that does not move back. */
  ghost predicate GoesForward(s: State, step: Step) {
    step.Rebalance? ==>
      match step.change
      case Assign(_, start) => s.Group(step.partition).committed <= start
      case CommitOk(_, r) => s.Group(step.partition).committed <= r.offset + 1
      case CommitReplyLost(_, r) => s.Group(step.partition).committed <= r.offset + 1
      case _ => true
  }

  lemma {:induction false} ChangeKeepsBehind(g: Groups.Group, change: Groups.Step, o: nat)
    requires Behind(g, o) && Groups.Enabled(g, change)
    requires change.Assign? ==> g.committed <= change.start
    requires Groups.Commits(change) ==> g.committed <= change.r.offset + 1
    ensures Behind(Groups.Apply(g, change), o)
  {
  }

  lemma {:induction false} GroupChangeKeepsRecords(s: State, s': State, p: nat, change: Groups.Step, t: TaskID)
    requires RecordsBehind(s, t) && Groups.Enabled(s.Group(p), change) && s'.log == s.log
    requires s'.groups == s.groups[p := Groups.Apply(s.Group(p), change)]
    requires change.Assign? ==> s.Group(p).committed <= change.start
    requires Groups.Commits(change) ==> s.Group(p).committed <= change.r.offset + 1
    ensures RecordsBehind(s', t)
  {
    forall q: nat, o: nat | o < |s'.Log(q)| && s'.Log(q)[o].id == t ensures Behind(s'.Group(q), o) {
      assert s'.Log(q) == s.Log(q) && Behind(s.Group(q), o);
      if q == p {
        ChangeKeepsBehind(s.Group(p), change, o);
      }
    }
  }

  lemma {:induction false} SameQueueKeepsRecords(s: State, s': State, t: TaskID)
    requires RecordsBehind(s, t) && s'.log == s.log && s'.groups == s.groups
    ensures RecordsBehind(s', t)
  {
    forall q: nat, o: nat | o < |s'.Log(q)| && s'.Log(q)[o].id == t ensures Behind(s'.Group(q), o) {
      assert s'.Log(q) == s.Log(q) && s'.Group(q) == s.Group(q) && Behind(s.Group(q), o);
    }
  }

  lemma {:induction false} FlushKeepsRecords(cfg: Settings, s: State, n: nat, task: Task, p: nat, t: TaskID)
    requires RecordsBehind(s, t) && !Buffered(s, t) && Enabled(cfg, s, Flush(n, task, p))
    ensures RecordsBehind(Next(cfg, s, Flush(n, task, p)), t)
  {
    var s' := Next(cfg, s, Flush(n, task, p));
    assert (n, task).1.id != t;
    forall q: nat, o: nat | o < |s'.Log(q)| && s'.Log(q)[o].id == t ensures Behind(s'.Group(q), o) {
      assert o < |s.Log(q)| && s.Log(q)[o] == s'.Log(q)[o];
      assert s'.Group(q) == s.Group(q) && Behind(s.Group(q), o);
    }
  }

  lemma {:induction false} DeliverKeepsRecords(cfg: Settings, s: State, a: nat, n: nat, p: nat, late: bool, t: TaskID)
    requires RecordsBehind(s, t) && Enabled(cfg, s, Deliver(a, n, p, late))
    ensures RecordsBehind(DeliverStep(s, a, n, p, late), t)
  {
    var r := Tracked(s, Deliver(a, n, p, late));
    GroupChangeKeepsRecords(s, DeliverStep(s, a, n, p, late), p, Tracks(n, r, late), t);
  }

  lemma {:induction false} AckKeepsRecords(cfg: Settings, s: State, a: nat, t: TaskID)
    requires RecordsBehind(s, t) && Enabled(cfg, s, Ack(a))
    ensures RecordsBehind(AckStep(s, a), t)
  {
    var x := s.actors[a];
    GroupChangeKeepsRecords(s, AckStep(s, a), x.source.partition, Groups.Ack(x.node, x.source.record), t);
  }

  lemma {:induction false} RebalanceKeepsRecords(cfg: Settings, s: State, p: nat, change: Groups.Step, t: TaskID)
    requires RecordsBehind(s, t) && Enabled(cfg, s, Rebalance(p, change)) && GoesForward(s, Rebalance(p, change))
    ensures RecordsBehind(Next(cfg, s, Rebalance(p, change)), t)
  {
    GroupChangeKeepsRecords(s, Next(cfg, s, Rebalance(p, change)), p, change, t);
  }

  lemma {:induction false} OtherStepsKeepQueue(cfg: Settings, s: State, step: Step)
    requires Enabled(cfg, s, step) && !step.Deliver? && !step.Ack? && !step.Rebalance? && !step.Flush?
    ensures Next(cfg, s, step).log == s.log && Next(cfg, s, step).groups == s.groups
  {
    if MovesOneActor(step) {
      MoveShape(cfg, s, step);
    } else {
      StoreStepsKeepGroups(cfg, s, step);
    }
  }

  lemma {:induction false} OtherStepsKeepRecords(cfg: Settings, s: State, step: Step, t: TaskID)
    requires RecordsBehind(s, t) && Enabled(cfg, s, step)
    requires !step.Deliver? && !step.Ack? && !step.Rebalance? && !step.Flush?
    ensures RecordsBehind(Next(cfg, s, step), t)
  {
    OtherStepsKeepQueue(cfg, s, step);
    SameQueueKeepsRecords(s, Next(cfg, s, step), t);
  }

  lemma {:induction false} StepKeepsRecords(cfg: Settings, s: State, step: Step, t: TaskID)
    requires RecordsBehind(s, t) && !Buffered(s, t) && Enabled(cfg, s, step) && GoesForward(s, step)
    ensures RecordsBehind(Next(cfg, s, step), t)
  {
    match step {
      case Deliver(a, n, p, late) => DeliverKeepsRecords(cfg, s, a, n, p, late, t);
      case Ack(a) => AckKeepsRecords(cfg, s, a, t);
      case Rebalance(p, change) => RebalanceKeepsRecords(cfg, s, p, change, t);
      case Flush(n, task, p) => FlushKeepsRecords(cfg, s, n, task, p, t);
      case _ => OtherStepsKeepRecords(cfg, s, step, t);
    }
  }

  lemma {:induction false} BehindIsNotDelivered(cfg: Settings, s: State, step: Step, t: TaskID)
    requires RecordsBehind(s, t) && Enabled(cfg, s, step)
    ensures !Redelivers(cfg, s, step, t)
  {
    if step.Deliver? {
      var p := step.partition;
      var o := Fetches(s, p, step.late)[step.node];
      assert s.Log(p)[o].id == t ==> Behind(s.Group(p), o);
    }
  }

  // ---- Lost for good -------------------------------------------------------------------------

  /** A run of the system in which the keys of r stay and committed positions go forward. */
  ghost predicate ForwardRun(cfg: Settings, s: State, steps: seq<Step>, s': State, r: RunID)
    decreases |steps|
  {
    if steps == [] then s == s'
    else
      && Enabled(cfg, s, steps[0]) && !EndsIncarnation(s, steps[0], r) && GoesForward(s, steps[0])
      && ForwardRun(cfg, Next(cfg, s, steps[0]), steps[1..], s', r)
  }

  lemma {:induction false} ForwardIsKeyed(cfg: Settings, s: State, steps: seq<Step>, s': State, r: RunID)
    requires ForwardRun(cfg, s, steps, s', r)
    ensures KeyedRun(cfg, s, steps, s', r)
    decreases |steps|
  {
    if steps != [] {
      ForwardIsKeyed(cfg, Next(cfg, s, steps[0]), steps[1..], s', r);
    }
  }

  lemma {:induction false} BehindNeverDelivered(cfg: Settings, s: State, steps: seq<Step>, s': State, t: TaskID)
    requires Orphaned(s, t) && RecordsBehind(s, t) && ForwardRun(cfg, s, steps, s', t.run)
    ensures NeverRedelivered(cfg, s, steps, t) && RecordsBehind(s', t)
    decreases |steps|
  {
    if steps != [] {
      BehindIsNotDelivered(cfg, s, steps[0], t);
      StepKeepsRecords(cfg, s, steps[0], t);
      StepKeepsOrphan(cfg, s, steps[0], t);
      BehindNeverDelivered(cfg, Next(cfg, s, steps[0]), steps[1..], s', t);
    }
  }

  lemma {:induction false} BehindIsNoCarrier(s: State, t: TaskID)
    requires Orphaned(s, t) && RecordsBehind(s, t)
    ensures !HasCarrier(s, t)
  {
    assert !BeingSent(s, t) by {
      forall a | a in s.actors ensures !s.actors[a].Pending(t) {
        assert !Handles(s.actors[a], t);
      }
    }
    forall p: nat, o: nat | o < |s.Log(p)| && s.Log(p)[o].id == t ensures o < s.Group(p).committed {
      assert Behind(s.Group(p), o);
    }
  }

  /** A commit passes over the records of a queued task that nobody handles: while the run's keys
      stay and committed positions go forward, nothing will ever deliver it, its run is not found
      finished, and whoever wants to send it again is told Duplicate. */
  lemma {:induction false} PassedOverIsLost(cfg: Settings, before: seq<Step>, s: State, p: nat, change: Groups.Step,
      t: TaskID, steps: seq<Step>, s': State)
    requires FirstsOwn(cfg) && Run(cfg, Start, before, s)
    requires Enabled(cfg, s, Rebalance(p, change)) && Groups.Commits(change)
    requires Orphaned(s, t) && RecordsBehind(Next(cfg, s, Rebalance(p, change)), t)
    requires ForwardRun(cfg, Next(cfg, s, Rebalance(p, change)), steps, s', t.run)
    ensures LostIn(cfg, s, s', t) && !HasCarrier(s', t)
  {
    var q := Next(cfg, s, Rebalance(p, change));
    StepKeepsOrphan(cfg, s, Rebalance(p, change), t);
    ForwardIsKeyed(cfg, q, steps, s', t.run);
    BehindNeverDelivered(cfg, q, steps, s', t);
    PlainThen(cfg, Start, before, s, Rebalance(p, change));
    LostForGood(cfg, before + [Rebalance(p, change)], q, steps, s', t);
    OrphanTo(cfg, before + [Rebalance(p, change)], q, steps, s', t);
    BehindIsNoCarrier(s', t);
  }

  lemma {:induction false} OrphanTo(cfg: Settings, before: seq<Step>, s: State, steps: seq<Step>, s': State, t: TaskID)
    requires FirstsOwn(cfg) && Run(cfg, Start, before, s) && Orphaned(s, t)
    requires KeyedRun(cfg, s, steps, s', t.run) && NeverRedelivered(cfg, s, steps, t)
    ensures Orphaned(s', t)
  {
    EmptyTableOk(cfg, Start, t.run);
    RunTableOk(cfg, Start, before, s, t.run);
    RunKeepsOrphan(cfg, s, steps, s', t);
  }

  // ---- A run that gets there -----------------------------------------------------------------

  /** Worker 1 has the first task of r in hand and stands at this point; the table and the log are
      these, and whoever else there is, but for worker 2, is a run starter that has sent all. */
  ghost predicate Stage(cfg: Settings, s: State, r: RunID, one: Phase, table: map<TaskID, Status>, active: int,
      log: seq<Task>) {
    && Books(s, r, table, active, 0) && On(s, 1, Task(cfg.first(r), 0), one)
    && s.log == map[0 := log]
    && forall a | a in s.actors && a != 1 && a != 2 :: s.actors[a].source.FromRun? && !s.actors[a].Sends()
  }

  /** Consumer 0 is the only one; it has fetched this far. */
  ghost predicate Fetched(g: Groups.Group, at: nat) {
    g.next == map[0 := at] && g.stale == map[]
  }

  function FirstRecord(a: nat, o: nat): Offsets.Record {
    Offsets.Record(Offsets.TopicPartition("tasks", 0), o, a)
  }

  lemma {:induction false} Owned(cfg: Settings, s: State)
    requires s.Group(0) == Groups.EmptyGroup
    ensures Enabled(cfg, s, Rebalance(0, Groups.Assign(0, 0)))
    ensures var s' := Next(cfg, s, Rebalance(0, Groups.Assign(0, 0)));
      s' == s.(groups := s'.groups) && Fetched(s'.Group(0), 0)
  {
  }

  lemma {:induction false} FirstTaken(cfg: Settings, s: State, r: RunID)
    requires Fetched(s.Group(0), 0) && s.log == map[0 := [Task(cfg.first(r), 0)]] && 1 !in s.actors
    ensures Enabled(cfg, s, Deliver(1, 0, 0, false))
    ensures var s' := DeliverStep(s, 1, 0, 0, false);
      && s' == s.(groups := s'.groups, actors := s.actors[1 := s'.actors[1]])
      && On(s', 1, Task(cfg.first(r), 0), Received) && Fetched(s'.Group(0), 1)
  {
  }

  lemma {:induction false} OnStage(cfg: Settings, p: State, s: State, r: RunID)
    requires Published(cfg, p, r) && p.log == map[0 := [Task(cfg.first(r), 0)]]
    requires 1 in s.actors && s == p.(groups := s.groups, actors := p.actors[1 := s.actors[1]])
    requires On(s, 1, Task(cfg.first(r), 0), Received)
    ensures Stage(cfg, s, r, Received, map[cfg.first(r) := Queued], 1, [Task(cfg.first(r), 0)])
    ensures 2 !in s.actors && s.buffer == multiset{}
  {
  }

  lemma {:induction false} FirstFetched(cfg: Settings, s: State, r: RunID) returns (s': State)
    requires Published(cfg, s, r) && s.log == map[0 := [Task(cfg.first(r), 0)]]
    ensures Leads(cfg, s, s') && s'.buffer == multiset{} && 2 !in s'.actors && Fetched(s'.Group(0), 1)
    ensures Stage(cfg, s', r, Received, map[cfg.first(r) := Queued], 1, [Task(cfg.first(r), 0)])
  {
    s' := FirstReceived(cfg, s, r);
    OnStage(cfg, s, s', r);
  }

  lemma {:induction false} FirstReceived(cfg: Settings, s: State, r: RunID) returns (s': State)
    requires s.Group(0) == Groups.EmptyGroup && s.log == map[0 := [Task(cfg.first(r), 0)]] && 1 !in s.actors
    ensures Leads(cfg, s, s') && 1 in s'.actors && s' == s.(groups := s'.groups, actors := s.actors[1 := s'.actors[1]])
    ensures On(s', 1, Task(cfg.first(r), 0), Received) && Fetched(s'.Group(0), 1)
  {
    Owned(cfg, s);
    var p := Next(cfg, s, Rebalance(0, Groups.Assign(0, 0)));
    StepLeads(cfg, s, Rebalance(0, Groups.Assign(0, 0)));
    FirstTaken(cfg, p, r);
    s' := DeliverStep(p, 1, 0, 0, false);
    StepLeads(cfg, p, Deliver(1, 0, 0, false));
    LeadsOn(cfg, s, p, s');
  }

  /** Worker 1 reads the state of its task and finds two links. */
  lemma {:induction false} LinksFound(cfg: Settings, s: State, r: RunID, log: seq<Task>) returns (s': State)
    requires CanCrawl(cfg, r) && Stage(cfg, s, r, Received, map[cfg.first(r) := Queued], 1, log)
    ensures Leads(cfg, s, s') && s' == s.(actors := s'.actors, store := s'.store)
    ensures 2 !in s.actors ==> 2 !in s'.actors
    ensures var f := cfg.first(r);
      Stage(cfg, s', r, Sending([X(f)] + [Y(f)], false), map[f := Queued], 1, log)
  {
    var f := cfg.first(r);
    var p := Next(cfg, s, ReadState(1));
    StepLeads(cfg, s, ReadState(1));
    assert Stage(cfg, p, r, Working, map[f := Queued], 1, log);
    XYChildren(f);
    s' := Next(cfg, p, WorkDone(1, XYLinks(f)));
    StepLeads(cfg, p, WorkDone(1, XYLinks(f)));
    LeadsOn(cfg, s, p, s');
  }

  lemma {:induction false} ChildAsked(cfg: Settings, s: State, r: RunID, log: seq<Task>) returns (s': State)
    requires CanCrawl(cfg, r)
    requires var f := cfg.first(r); Stage(cfg, s, r, Sending([X(f)] + [Y(f)], false), map[f := Queued], 1, log)
    ensures Leads(cfg, s, s') && s' == s.(actors := s'.actors, store := s'.store)
    ensures 2 !in s.actors ==> 2 !in s'.actors
    ensures var f := cfg.first(r);
      Stage(cfg, s', r, Producing(X(f), [Y(f)], false), map[f := Queued, X(f).id := Queued], 2, log)
  {
    var f := cfg.first(r);
    XYChildren(f);
    assert ([X(f)] + [Y(f)])[0] == X(f) && ([X(f)] + [Y(f)])[1..] == [Y(f)];
    var table: map<TaskID, Status> := map[f := Queued];
    SetSize(table, X(f).id, Queued);
    s' := AdmitStep(cfg, s, 1);
    StepLeads(cfg, s, AdmitChild(1));
    assert table[X(f).id := Queued] == map[f := Queued, X(f).id := Queued];
  }

  lemma {:induction false} ChildBuffered(cfg: Settings, s: State, r: RunID, c: Task, rest: seq<Task>,
      table: map<TaskID, Status>, log: seq<Task>)
    requires Stage(cfg, s, r, Producing(c, rest, false), table, 2, log) && s.buffer == multiset{}
    ensures Enabled(cfg, s, Produce(1))
    ensures var s' := Next(cfg, s, Produce(1));
      && s' == s.(actors := s.actors[1 := s'.actors[1]], buffer := multiset{(0, c)}, sent := s'.sent)
      && On(s', 1, Task(cfg.first(r), 0), Sending(rest, false))
  {
  }

  lemma {:induction false} ChildLogged(cfg: Settings, s: State, c: Task, log: seq<Task>)
    requires s.buffer == multiset{(0, c)} && s.log == map[0 := log]
    ensures Enabled(cfg, s, Flush(0, c, 0))
    ensures Next(cfg, s, Flush(0, c, 0)) == s.(buffer := multiset{}, log := map[0 := log + [c]])
  {
  }

  /** The child's message goes through the producer into the log. */
  lemma {:induction false} ChildSent(cfg: Settings, s: State, r: RunID, c: Task, rest: seq<Task>,
      table: map<TaskID, Status>, log: seq<Task>) returns (s': State)
    requires Stage(cfg, s, r, Producing(c, rest, false), table, 2, log) && s.buffer == multiset{}
    ensures Leads(cfg, s, s') && s'.groups == s.groups && s'.buffer == multiset{}
    ensures 2 !in s.actors ==> 2 !in s'.actors
    ensures Stage(cfg, s', r, Sending(rest, false), table, 2, log + [c])
  {
    ChildBuffered(cfg, s, r, c, rest, table, log);
    var p := Next(cfg, s, Produce(1));
    StepLeads(cfg, s, Produce(1));
    ChildLogged(cfg, p, c, log);
    s' := Next(cfg, p, Flush(0, c, 0));
    StepLeads(cfg, p, Flush(0, c, 0));
    LeadsOn(cfg, s, p, s');
  }

  lemma {:induction false} TakenAway(cfg: Settings, s: State)
    requires Fetched(s.Group(0), 1)
    ensures Enabled(cfg, s, Rebalance(0, Groups.Revoke(0)))
    ensures var s' := Next(cfg, s, Rebalance(0, Groups.Revoke(0)));
      && s' == s.(groups := s'.groups) && s'.Group(0).next == map[] && s'.Group(0).stale == map[0 := 1]
      && s'.Group(0).LaneOf(0) == Offsets.EmptyLane
  {
  }

  lemma {:induction false} GoesOnLate(cfg: Settings, s: State, first: Task, second: Task)
    requires s.Group(0).next == map[] && s.Group(0).stale == map[0 := 1] && 2 !in s.actors
    requires s.Group(0).LaneOf(0) == Offsets.EmptyLane && s.log == map[0 := [first, second]]
    ensures Enabled(cfg, s, Deliver(2, 0, 0, true))
    ensures var s' := DeliverStep(s, 2, 0, 0, true);
      && s' == s.(groups := s'.groups, actors := s.actors[2 := s'.actors[2]]) && On(s', 2, second, Received)
      && s'.actors[2].source.partition == 0 && s'.actors[2].source.record == FirstRecord(2, 1)
      && LateLane(s'.Group(0), Offsets.Lane([Offsets.Tracked(FirstRecord(2, 1), false)], Offsets.None))
  {
  }

  /** The partition is taken away, and the consumer goes on with the next record of its fetch. */
  lemma {:induction false} TrackedLate(cfg: Settings, s: State, r: RunID, one: Phase, table: map<TaskID, Status>,
      first: Task, second: Task) returns (s': State)
    requires Stage(cfg, s, r, one, table, 2, [first, second]) && 2 !in s.actors && Fetched(s.Group(0), 1)
    ensures Leads(cfg, s, s') && s'.buffer == s.buffer
    ensures Stage(cfg, s', r, one, table, 2, [first, second]) && On(s', 2, second, Received)
    ensures s'.actors[2].source.partition == 0 && s'.actors[2].source.record == FirstRecord(2, 1)
    ensures LateLane(s'.Group(0), Offsets.Lane([Offsets.Tracked(FirstRecord(2, 1), false)], Offsets.None))
  {
    TakenAway(cfg, s);
    var p := Next(cfg, s, Rebalance(0, Groups.Revoke(0)));
    StepLeads(cfg, s, Rebalance(0, Groups.Revoke(0)));
    GoesOnLate(cfg, p, first, second);
    s' := DeliverStep(p, 2, 0, 0, true);
    StepLeads(cfg, p, Deliver(2, 0, 0, true));
    LeadsOn(cfg, s, p, s');
  }

  /** Nobody owns the partition; consumer 0 has fetched past offset 1, and its lane is this. */
  ghost predicate LateLane(g: Groups.Group, l: Offsets.Lane) {
    g.next == map[] && g.stale == map[0 := 2] && g.LaneOf(0) == l
  }

  /** Worker 2 does its task. */
  lemma {:induction false} SecondDone(cfg: Settings, s: State, r: RunID, one: Phase, c: TaskID, log: seq<Task>)
      returns (s': State)
    requires CanCrawl(cfg, r) && cfg.first(r) != c && c.run == r && On(s, 2, Task(c, 1), Received)
    requires Stage(cfg, s, r, one, map[cfg.first(r) := Queued, c := Queued], 2, log)
    ensures Leads(cfg, s, s') && s'.groups == s.groups && s'.buffer == s.buffer
    ensures Stage(cfg, s', r, one, map[cfg.first(r) := Queued, c := Done], 1, log)
    ensures On(s', 2, Task(c, 1), Acking(false)) && s'.actors[2].source == s.actors[2].source
  {
    var table: map<TaskID, Status> := map[cfg.first(r) := Queued, c := Queued];
    var p := Next(cfg, s, ReadState(2));
    StepLeads(cfg, s, ReadState(2));
    assert Stage(cfg, p, r, one, table, 2, log) && On(p, 2, Task(c, 1), Working);
    var q := Next(cfg, p, WorkFailed(2));
    StepLeads(cfg, p, WorkFailed(2));
    LeadsOn(cfg, s, p, q);
    s' := SecondCompleted(cfg, q, r, one, c, log);
    LeadsOn(cfg, s, q, s');
  }

  lemma {:induction false} SecondCompleted(cfg: Settings, s: State, r: RunID, one: Phase, c: TaskID, log: seq<Task>)
      returns (s': State)
    requires CanCrawl(cfg, r) && cfg.first(r) != c && c.run == r && On(s, 2, Task(c, 1), Completing)
    requires Stage(cfg, s, r, one, map[cfg.first(r) := Queued, c := Queued], 2, log)
    ensures Leads(cfg, s, s') && s'.groups == s.groups && s'.buffer == s.buffer
    ensures Stage(cfg, s', r, one, map[cfg.first(r) := Queued, c := Done], 1, log)
    ensures On(s', 2, Task(c, 1), Acking(false)) && s'.actors[2].source == s.actors[2].source
  {
    var table: map<TaskID, Status> := map[cfg.first(r) := Queued, c := Queued];
    SetSize(table, c, Done);
    assert table[c := Done] == map[cfg.first(r) := Queued, c := Done];
    s' := CompleteStep(cfg, s, 2);
    StepLeads(cfg, s, CompleteOwn(2));
  }

  /** It acks the record, and the commit goes past both. */
  lemma {:induction false} Committed(cfg: Settings, s: State, r: RunID, one: Phase, table: map<TaskID, Status>,
      log: seq<Task>) returns (s': State)
    requires Stage(cfg, s, r, one, table, 1, log) && 2 in s.actors && s.actors[2].node == 0
    requires s.actors[2].phase == Acking(false) && s.actors[2].source.FromQueue?
    requires s.actors[2].source.partition == 0 && s.actors[2].source.record == FirstRecord(2, 1)
    requires LateLane(s.Group(0), Offsets.Lane([Offsets.Tracked(FirstRecord(2, 1), false)], Offsets.None))
    ensures Leads(cfg, s, s') && s'.buffer == s.buffer && Stage(cfg, s', r, one, table, 1, log)
    ensures 2 in s'.actors && s'.actors[2].phase.Gone?
    ensures s'.Group(0).next == map[] && s'.Group(0).stale == map[0 := 2] && s'.Group(0).committed == 2
  {
    var q := [Offsets.Tracked(FirstRecord(2, 1), false)];
    assert Offsets.MarkDone(q, FirstRecord(2, 1)) == [Offsets.Tracked(FirstRecord(2, 1), true)];
    var p := AckStep(s, 2);
    StepLeads(cfg, s, Ack(2));
    assert p.Group(0).LaneOf(0).due == Offsets.Some(FirstRecord(2, 1));
    assert Stage(cfg, p, r, one, table, 1, log);
    s' := HandedAndCommitted(cfg, p);
    LeadsOn(cfg, s, p, s');
  }

  lemma {:induction false} HandedAndCommitted(cfg: Settings, s: State) returns (s': State)
    requires s.Group(0).LaneOf(0).due == Offsets.Some(FirstRecord(2, 1))
    ensures Leads(cfg, s, s') && s' == s.(groups := s'.groups) && s'.Group(0).committed == 2
    ensures s'.Group(0).next == s.Group(0).next && s'.Group(0).stale == s.Group(0).stale
  {
    var p := Next(cfg, s, Rebalance(0, Groups.TakeDue(0)));
    StepLeads(cfg, s, Rebalance(0, Groups.TakeDue(0)));
    assert (0, FirstRecord(2, 1)) in p.Group(0).pending;
    s' := Next(cfg, p, Rebalance(0, Groups.CommitOk(0, FirstRecord(2, 1))));
    StepLeads(cfg, p, Rebalance(0, Groups.CommitOk(0, FirstRecord(2, 1))));
    LeadsOn(cfg, s, p, s');
  }

  lemma {:induction false} SendFails(cfg: Settings, s: State, y: Task)
    requires In(s, 1, (f: Phase) => f == Sending([y], false)) && s.actors[1].source.FromQueue?
    ensures Enabled(cfg, s, AdmitFailed(1))
    ensures Next(cfg, s, AdmitFailed(1)) == s.(actors := s.actors[1 := s.actors[1].(phase := Sending([], true))])
  {
    assert [y][1..] == [];
  }

  lemma {:induction false} WorkDropped(cfg: Settings, s: State)
    requires In(s, 1, (f: Phase) => f == Sending([], true)) && s.actors[1].source.FromQueue?
    ensures Enabled(cfg, s, SentAll(1))
    ensures Next(cfg, s, SentAll(1)) == s.(actors := s.actors[1 := s.actors[1].(phase := Gone)])
  {
  }

  /** Worker 1 cannot send its second child and gives up, counting on a redelivery. */
  lemma {:induction false} GivesUp(cfg: Settings, s: State, y: Task) returns (s': State)
    requires In(s, 1, (f: Phase) => f == Sending([y], false)) && s.actors[1].source.FromQueue?
    ensures Leads(cfg, s, s') && s' == s.(actors := s.actors[1 := s.actors[1].(phase := Gone)])
  {
    SendFails(cfg, s, y);
    var p := Next(cfg, s, AdmitFailed(1));
    StepLeads(cfg, s, AdmitFailed(1));
    WorkDropped(cfg, p);
    s' := Next(cfg, p, SentAll(1));
    StepLeads(cfg, p, SentAll(1));
    LeadsOn(cfg, s, p, s');
  }

  lemma {:induction false} NobodyIsLeft(cfg: Settings, p: State, s: State, r: RunID, one: Phase,
      table: map<TaskID, Status>, active: int, log: seq<Task>)
    requires Stage(cfg, p, r, one, table, active, log) && cfg.first(r).run == r && p.buffer == multiset{}
    requires cfg.first(r) in table && table[cfg.first(r)] == Queued && (2 in p.actors ==> p.actors[2].phase.Gone?)
    requires |log| == 2 && log[1].id != cfg.first(r)
    requires p.Group(0).next == map[] && p.Group(0).stale == map[0 := 2] && p.Group(0).committed == 2
    requires s == p.(actors := p.actors[1 := p.actors[1].(phase := Gone)])
    ensures Orphaned(s, cfg.first(r)) && RecordsBehind(s, cfg.first(r))
  {
    assert !Buffered(s, cfg.first(r));
    assert Behind(s.Group(0), 0);
    forall p: nat, o: nat | o < |s.Log(p)| && s.Log(p)[o].id == cfg.first(r) ensures Behind(s.Group(p), o) {
      assert p == 0 && s.Log(p) == log;
    }
  }

  lemma {:induction false} FirstChildAsked(cfg: Settings, s: State, r: RunID, log: seq<Task>) returns (s': State)
    requires CanCrawl(cfg, r) && Stage(cfg, s, r, Received, map[cfg.first(r) := Queued], 1, log)
    ensures Leads(cfg, s, s') && s'.groups == s.groups && s'.buffer == s.buffer
    ensures 2 !in s.actors ==> 2 !in s'.actors
    ensures var f := cfg.first(r);
      Stage(cfg, s', r, Producing(X(f), [Y(f)], false), map[f := Queued, X(f).id := Queued], 2, log)
  {
    var p := LinksFound(cfg, s, r, log);
    s' := ChildAsked(cfg, p, r, log);
    LeadsOn(cfg, s, p, s');
  }

  /** Worker 1 sends its first child. */
  lemma {:induction false} FirstChildSent(cfg: Settings, s: State, r: RunID) returns (s': State)
    requires CanCrawl(cfg, r) && 2 !in s.actors && Fetched(s.Group(0), 1) && s.buffer == multiset{}
    requires var f := cfg.first(r); Stage(cfg, s, r, Received, map[f := Queued], 1, [Task(f, 0)])
    ensures Leads(cfg, s, s') && 2 !in s'.actors && Fetched(s'.Group(0), 1) && s'.buffer == multiset{}
    ensures var f := cfg.first(r);
      Stage(cfg, s', r, Sending([Y(f)], false), map[f := Queued, X(f).id := Queued], 2, [Task(f, 0), X(f)])
  {
    var f := cfg.first(r);
    var p := FirstChildAsked(cfg, s, r, [Task(f, 0)]);
    s' := ChildSent(cfg, p, r, X(f), [Y(f)], map[f := Queued, X(f).id := Queued], [Task(f, 0)]);
    LeadsOn(cfg, s, p, s');
    assert [Task(f, 0)] + [X(f)] == [Task(f, 0), X(f)];
  }

  /** From the state in which the first message is in the log. */
  lemma {:induction false} ThenPassedOver(cfg: Settings, s: State, r: RunID) returns (s': State)
    requires CanCrawl(cfg, r) && Published(cfg, s, r) && s.log == map[0 := [Task(cfg.first(r), 0)]]
    ensures Leads(cfg, s, s') && Orphaned(s', cfg.first(r)) && RecordsBehind(s', cfg.first(r))
  {
    var p := FirstFetched(cfg, s, r);
    var q := FirstChildSent(cfg, p, r);
    LeadsOn(cfg, s, p, q);
    var f := cfg.first(r);
    XYChildren(f);
    p := SecondHandled(cfg, q, r, Sending([Y(f)], false), X(f).id, Task(f, 0));
    LeadsOn(cfg, s, q, p);
    s' := FirstDropped(cfg, p, r, Y(f), map[f := Queued, X(f).id := Done], [Task(f, 0), X(f)]);
    LeadsOn(cfg, s, p, s');
  }

  /** The second record is tracked late, and handled. */
  lemma {:induction false} SecondHandled(cfg: Settings, s: State, r: RunID, one: Phase, c: TaskID, first: Task)
      returns (s': State)
    requires CanCrawl(cfg, r) && 2 !in s.actors && Fetched(s.Group(0), 1) && cfg.first(r) != c && c.run == r
    requires Stage(cfg, s, r, one, map[cfg.first(r) := Queued, c := Queued], 2, [first, Task(c, 1)])
    ensures Leads(cfg, s, s') && s'.buffer == s.buffer
    ensures Stage(cfg, s', r, one, map[cfg.first(r) := Queued, c := Done], 1, [first, Task(c, 1)])
    ensures On(s', 2, Task(c, 1), Acking(false))
    ensures s'.actors[2].source.partition == 0 && s'.actors[2].source.record == FirstRecord(2, 1)
    ensures LateLane(s'.Group(0), Offsets.Lane([Offsets.Tracked(FirstRecord(2, 1), false)], Offsets.None))
  {
    var p := TrackedLate(cfg, s, r, one, map[cfg.first(r) := Queued, c := Queued], first, Task(c, 1));
    s' := SecondDone(cfg, p, r, one, c, [first, Task(c, 1)]);
    LeadsOn(cfg, s, p, s');
  }

  /** Its commit passes over the first record, and worker 1 gives up. */
  lemma {:induction false} FirstDropped(cfg: Settings, s: State, r: RunID, y: Task, table: map<TaskID, Status>,
      log: seq<Task>) returns (s': State)
    requires Stage(cfg, s, r, Sending([y], false), table, 1, log) && s.buffer == multiset{} && cfg.first(r).run == r
    requires cfg.first(r) in table && table[cfg.first(r)] == Queued && |log| == 2 && log[1].id != cfg.first(r)
    requires 2 in s.actors && s.actors[2].node == 0
    requires s.actors[2].phase == Acking(false) && s.actors[2].source.FromQueue?
    requires s.actors[2].source.partition == 0 && s.actors[2].source.record == FirstRecord(2, 1)
    requires LateLane(s.Group(0), Offsets.Lane([Offsets.Tracked(FirstRecord(2, 1), false)], Offsets.None))
    ensures Leads(cfg, s, s') && Orphaned(s', cfg.first(r)) && RecordsBehind(s', cfg.first(r))
  {
    var p := Committed(cfg, s, r, Sending([y], false), table, log);
    s' := GivesUp(cfg, p, y);
    LeadsOn(cfg, s, p, s');
    NobodyIsLeft(cfg, p, s', r, Sending([y], false), table, 1, log);
  }

  /** From the start: the commit of a record that was tracked late passes over the first task, whose
      worker then gives up. */
  lemma {:induction false} FirstPassedOver(cfg: Settings, r: RunID) returns (before: seq<Step>, s: State)
    requires CanCrawl(cfg, r)
    ensures Run(cfg, Start, before, s) && Orphaned(s, cfg.first(r)) && RecordsBehind(s, cfg.first(r))
    ensures !HasCarrier(s, cfg.first(r))
  {
    var p;
    before, p := FirstPublished(cfg, r);
    IsARun(cfg, Start, before, p, r, {Waiting});
    s := ThenPassedOver(cfg, p, r);
    var more :| Run(cfg, p, more, s);
    PlainRunsJoin(cfg, Start, before, p, more, s);
    before := before + more;
    BehindIsNoCarrier(s, cfg.first(r));
  }
}
