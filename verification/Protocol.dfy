/** The life of a run across all nodes, as atomic steps over the shared state: the Redis store,
    the producers' buffers, the task log with its consumers, and the workers in between. */
module Protocol {
  import opened RunState
  import Offsets
  import Groups = CommitSafety

  datatype Task = Task(id: TaskID, depth: nat)

  datatype Settings = Settings(redis: Config, maxDepth: RunID -> int, first: RunID -> TaskID)

  /** What a worker holds: a delivered task record, or a run message to start. */
  datatype Source = FromQueue(partition: nat, record: Offsets.Record, task: Task) | FromRun(r: RunID)

  /** Where a worker stands between two atomic steps. */
  datatype Phase =
    | Received
    | Working
    | Sending(todo: seq<Task>, failed: bool)
    | Producing(child: Task, todo: seq<Task>, failed: bool)
    | Undoing(child: Task, todo: seq<Task>, failed: bool)
    | Completing
    | Acking(finished: bool)
    | Releasing
    | Cleaning
    | Gone

  datatype Actor = Actor(node: nat, source: Source, phase: Phase)
  {
    function RunOf(): RunID {
      if source.FromQueue? then source.task.id.run else source.r
    }

    /** Between the admission of a child and the outcome of its send. */
    predicate Sends() {
      phase.Producing? || phase.Undoing?
    }

    predicate Pending(t: TaskID) {
      Sends() && phase.child.id == t
    }

    /** Between reading the state of its own task and completing it. */
    predicate Busy() {
      source.FromQueue?
      && (phase.Working? || phase.Sending? || phase.Producing? || phase.Undoing? || phase.Completing?)
    }

    predicate Holds(t: TaskID) {
      Busy() && source.task.id == t
    }

    predicate AcksRecord(p: nat, o: nat) {
      source.FromQueue? && source.partition == p && source.record.offset == o && phase.Acking?
    }
  }

  /** `buffer` holds what the producers of all nodes have not flushed yet, channel and batch
      together. `sent` and `finishes` are history: the tasks handed to a producer, and the
      completions that were counted and took their run to zero. */
  datatype State = State(
    store: Store,
    now: int,
    actors: map<nat, Actor>,
    buffer: multiset<(nat, Task)>,
    log: map<nat, seq<Task>>,
    groups: map<nat, Groups.Group>,
    sent: multiset<TaskID>,
    finishes: multiset<RunID>)
  {
    function Log(p: nat): seq<Task> {
      if p in log then log[p] else []
    }

    function Group(p: nat): Groups.Group {
      if p in groups then groups[p] else Groups.EmptyGroup
    }

    predicate Queued(t: TaskID) {
      store.IsQueued(t.run, t)
    }
  }

  /** A delivery is `late` if the record's partition was released since the record was fetched. A
      payload is dropped when its flush fails, which the code only logs, or when its node is about to
      crash. */
  datatype Step =
    | Tick(now: int)
    | StartRun(a: nat, node: nat, r: RunID)
    | AcquireSlot(a: nat)
    | Deliver(a: nat, node: nat, partition: nat, late: bool)
    | ReadState(a: nat)
    | ReadStateFailed(a: nat, renewed: bool)
    | WorkFailed(a: nat)
    | WorkDone(a: nat, links: seq<string>)
    | SkipInvalid(a: nat)
    | AdmitChild(a: nat)
    | AdmitFailed(a: nat)
    | AdmitReplyLost(a: nat)
    | Produce(a: nat)
    | ProduceFailed(a: nat)
    | UndoAdmission(a: nat)
    | UndoFailed(a: nat)
    | SentAll(a: nat)
    | CompleteOwn(a: nat)
    | CompleteFailed(a: nat)
    | CompleteReplyLost(a: nat)
    | Ack(a: nat)
    | ReleaseSlot(a: nat)
    | ReleaseFailed(a: nat)
    | CleanUp(a: nat)
    | CleanUpFailed(a: nat)
    | Flush(node: nat, task: Task, partition: nat)
    | Dropped(node: nat, task: Task)
    | Rebalance(partition: nat, change: Groups.Step)
    | Crash(node: nat)
    | Evict(r: RunID)

  function Move(s: State, a: nat, phase: Phase): State
    requires a in s.actors
  {
    s.(actors := s.actors[a := s.actors[a].(phase := phase)])
  }

  predicate In(s: State, a: nat, phase: Phase -> bool) {
    a in s.actors && phase(s.actors[a].phase)
  }

  /** Where each node stands in what it fetched of the partition, or of an ownership that is over. */
  function Fetches(s: State, p: nat, late: bool): map<nat, nat> {
    if late then s.Group(p).stale else s.Group(p).next
  }

  ghost predicate Enabled(cfg: Settings, s: State, step: Step) {
    match step
    case Tick(now) => s.now <= now
    case StartRun(a, _, _) => a !in s.actors
    case AcquireSlot(a) => In(s, a, (f: Phase) => f.Received?) && s.actors[a].source.FromRun?
    case Deliver(a, n, p, late) =>
      a !in s.actors && n in Fetches(s, p, late) && Fetches(s, p, late)[n] < |s.Log(p)|
    case ReadState(a) => In(s, a, (f: Phase) => f.Received?) && s.actors[a].source.FromQueue?
    case ReadStateFailed(a, _) => In(s, a, (f: Phase) => f.Received?) && s.actors[a].source.FromQueue?
    case WorkFailed(a) => In(s, a, (f: Phase) => f.Working?) && s.actors[a].source.FromQueue?
    case WorkDone(a, _) => In(s, a, (f: Phase) => f.Working?) && s.actors[a].source.FromQueue?
    case SkipInvalid(a) => In(s, a, (f: Phase) => f.Sending? && f.todo != [])
    case AdmitChild(a) => In(s, a, (f: Phase) => f.Sending? && f.todo != [])
    case AdmitFailed(a) => In(s, a, (f: Phase) => f.Sending? && f.todo != [])
    case AdmitReplyLost(a) => In(s, a, (f: Phase) => f.Sending? && f.todo != [])
    case Produce(a) => In(s, a, (f: Phase) => f.Producing?)
    case ProduceFailed(a) => In(s, a, (f: Phase) => f.Producing?)
    case UndoAdmission(a) => In(s, a, (f: Phase) => f.Undoing?)
    case UndoFailed(a) => In(s, a, (f: Phase) => f.Undoing?)
    case SentAll(a) => In(s, a, (f: Phase) => f.Sending? && f.todo == [])
    case CompleteOwn(a) => In(s, a, (f: Phase) => f.Completing?) && s.actors[a].source.FromQueue?
    case CompleteFailed(a) => In(s, a, (f: Phase) => f.Completing?) && s.actors[a].source.FromQueue?
    case CompleteReplyLost(a) => In(s, a, (f: Phase) => f.Completing?) && s.actors[a].source.FromQueue?
    case Ack(a) => In(s, a, (f: Phase) => f.Acking?) && s.actors[a].source.FromQueue?
    case ReleaseSlot(a) => In(s, a, (f: Phase) => f.Releasing?)
    case ReleaseFailed(a) => In(s, a, (f: Phase) => f.Releasing?)
    case CleanUp(a) => In(s, a, (f: Phase) => f.Cleaning?)
    case CleanUpFailed(a) => In(s, a, (f: Phase) => f.Cleaning?)
    case Flush(n, t, _) => (n, t) in s.buffer
    case Dropped(n, t) => (n, t) in s.buffer
    case Rebalance(p, change) => !change.Deliver? && !change.DeliverLate? && !change.Ack?
      && Groups.Enabled(s.Group(p), change)
    case Crash(n) => forall e | e in s.buffer :: e.0 != n
    case Evict(_) => true
  }

  function Children(parent: Task, links: seq<string>): (todo: seq<Task>)
    ensures forall c | c in todo :: c.id.run == parent.id.run && c.depth == parent.depth + 1
  {
    if links == [] then []
    else [Task(TaskID(parent.id.run, links[0]), parent.depth + 1)] + Children(parent, links[1..])
  }

  /** How SendTask ends for each answer of the admission script, seen by its caller: a worker
      passes over a full run and gives up on an inactive one, the run starter reports both. */
  function AfterAdmission(x: Actor, answer: Admission, c: Task, rest: seq<Task>, failed: bool): Phase {
    match answer
    case Admitted => Producing(c, rest, failed)
    case Duplicate => Sending(rest, failed)
    case LimitReached => Sending(rest, failed || x.source.FromRun?)
    case RunInactive => if x.source.FromRun? then Sending([], true) else Completing
  }

  function AdmitStep(cfg: Settings, s: State, a: nat): State
    requires a in s.actors && s.actors[a].phase.Sending? && s.actors[a].phase.todo != []
  {
    var x := s.actors[a];
    var c, rest := x.phase.todo[0], x.phase.todo[1..];
    if c.depth >= cfg.maxDepth(c.id.run) then Move(s, a, Sending(rest, x.phase.failed || x.source.FromRun?))
    else
      var (store, answer) := Admit(s.store, s.now, c.id.run, c.id, cfg.redis.maxLinks(c.id.run));
      Move(s.(store := store), a, AfterAdmission(x, answer, c, rest, x.phase.failed))
  }

  function CompleteStep(cfg: Settings, s: State, a: nat): State
    requires a in s.actors && s.actors[a].source.FromQueue?
  {
    var t := s.actors[a].source.task.id;
    var (store, reply) := Complete(s.store, s.now, t.run, t, cfg.redis.lease);
    var over := reply.counted && reply.left <= 0;
    Move(s.(store := store, finishes := if over then s.finishes + multiset{t.run} else s.finishes), a, Acking(over))
  }

  /** The consumer tracks the record, whether or not its partition was released. */
  function Tracks(n: nat, r: Offsets.Record, late: bool): Groups.Step {
    if late then Groups.DeliverLate(n, r) else Groups.Deliver(n, r)
  }

  function DeliverStep(s: State, a: nat, n: nat, p: nat, late: bool): State
    requires n in Fetches(s, p, late) && Fetches(s, p, late)[n] < |s.Log(p)|
  {
    var o := Fetches(s, p, late)[n];
    var r := Offsets.Record(Offsets.TopicPartition("tasks", p), o, a);
    s.(groups := s.groups[p := Groups.Apply(s.Group(p), Tracks(n, r, late))],
       actors := s.actors[a := Actor(n, FromQueue(p, r, s.Log(p)[o]), Received)])
  }

  function AckStep(s: State, a: nat): State
    requires a in s.actors && s.actors[a].source.FromQueue? && s.actors[a].phase.Acking?
  {
    var x := s.actors[a];
    var p := x.source.partition;
    Move(s.(groups := s.groups[p := Groups.Apply(s.Group(p), Groups.Ack(x.node, x.source.record))]),
         a, if x.phase.finished then Releasing else Gone)
  }

  function Next(cfg: Settings, s: State, step: Step): State
    requires Enabled(cfg, s, step)
  {
    match step
    case Tick(now) => s.(now := now)
    case StartRun(a, n, r) => s.(actors := s.actors[a := Actor(n, FromRun(r), Received)])
    case AcquireSlot(a) =>
      var r := s.actors[a].source.r;
      var (store, acquired, _) := Acquire(s.store, s.now, r, cfg.redis.maxConcurrent, cfg.redis.lease);
      Move(s.(store := store), a, if acquired then Sending([Task(cfg.first(r), 0)], false) else Gone)
    case Deliver(a, n, p, late) => DeliverStep(s, a, n, p, late)
    case ReadState(a) =>
      var t := s.actors[a].source.task.id;
      var (store, reply) := TaskState(s.store, s.now, t.run, t, cfg.redis.lease);
      Move(s.(store := store), a, if reply.done || !reply.runActive then Acking(false) else Working)
    case ReadStateFailed(a, renewed) =>
      var t := s.actors[a].source.task.id;
      Move(if renewed then s.(store := Renew(s.store, s.now, t.run, cfg.redis.lease)) else s, a, Working)
    case WorkFailed(a) => Move(s, a, Completing)
    case WorkDone(a, links) =>
      var t := s.actors[a].source.task;
      Move(s, a, if t.depth + 1 >= cfg.maxDepth(t.id.run) then Completing else Sending(Children(t, links), false))
    case SkipInvalid(a) =>
      var x := s.actors[a];
      Move(s, a, Sending(x.phase.todo[1..], x.phase.failed || x.source.FromRun?))
    case AdmitChild(a) => AdmitStep(cfg, s, a)
    case AdmitFailed(a) => Move(s, a, Sending(s.actors[a].phase.todo[1..], true))
    case AdmitReplyLost(a) =>
      Move(s.(store := AdmitStep(cfg, s, a).store), a, Sending(s.actors[a].phase.todo[1..], true))
    case Produce(a) =>
      var x := s.actors[a];
      Move(s.(buffer := s.buffer + multiset{(x.node, x.phase.child)}, sent := s.sent + multiset{x.phase.child.id}),
           a, Sending(x.phase.todo, x.phase.failed))
    case ProduceFailed(a) =>
      var f := s.actors[a].phase;
      Move(s, a, Undoing(f.child, f.todo, f.failed))
    case UndoAdmission(a) =>
      var f := s.actors[a].phase;
      Move(s.(store := Unadmit(s.store, f.child.id.run, f.child.id)), a, Sending(f.todo, true))
    case UndoFailed(a) => Move(s, a, Sending(s.actors[a].phase.todo, true))
    case SentAll(a) =>
      var x := s.actors[a];
      Move(s, a, if x.source.FromQueue? then (if x.phase.failed then Gone else Completing)
                 else (if x.phase.failed then Releasing else Gone))
    case CompleteOwn(a) => CompleteStep(cfg, s, a)
    case CompleteFailed(a) => Move(s, a, Gone)
    case CompleteReplyLost(a) => Move(s.(store := CompleteStep(cfg, s, a).store), a, Gone)
    case Ack(a) => AckStep(s, a)
    case ReleaseSlot(a) =>
      Move(s.(store := Release(s.store, s.actors[a].RunOf())), a,
        if s.actors[a].source.FromQueue? then Cleaning else Gone)
    case ReleaseFailed(a) => Move(s, a, if s.actors[a].source.FromQueue? then Cleaning else Gone)
    case CleanUp(a) => Move(s.(store := Cleanup(s.store, s.actors[a].RunOf())), a, Gone)
    case CleanUpFailed(a) => Move(s, a, Gone)
    case Flush(n, t, p) =>
      s.(buffer := s.buffer - multiset{(n, t)}, log := s.log[p := s.Log(p) + [t]])
    case Dropped(n, t) => s.(buffer := s.buffer - multiset{(n, t)})
    case Rebalance(p, change) => s.(groups := s.groups[p := Groups.Apply(s.Group(p), change)])
    case Crash(n) =>
      s.(actors := map a | a in s.actors ::
           if s.actors[a].node == n then s.actors[a].(phase := Gone) else s.actors[a])
    case Evict(r) => s.(store := Cleanup(s.store, r))
  }

  /** A run of the system, with a condition on every step taken. */
  ghost predicate Run(cfg: Settings, s: State, steps: seq<Step>, s': State)
    decreases |steps|
  {
    if steps == [] then s == s'
    else Enabled(cfg, s, steps[0]) && Run(cfg, Next(cfg, s, steps[0]), steps[1..], s')
  }
}
