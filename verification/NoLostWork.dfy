/** No lost work: every task a run's table calls queued is carried by something that will still
    deliver it, through rebalances, redeliveries and failed sends, up to the first step that drops
    a task's last carrier; and exactly which steps do. */
module NoLostWork {
  import opened RunState
  import opened Protocol
  import Offsets
  import Groups = CommitSafety

  // ---- The queue's own invariant -----------------------------------------------------------

  ghost predicate RecordOk(s: State, x: Actor) {
    x.source.FromQueue? ==>
      && x.source.record.offset < |s.Log(x.source.partition)|
      && s.Log(x.source.partition)[x.source.record.offset] == x.source.task
  }

  ghost predicate InLog(s: State, p: nat) {
    Groups.Within(s.Group(p), |s.Log(p)|)
  }

  ghost predicate QueueOk(s: State) {
    && (forall p :: InLog(s, p))
    && (forall a | a in s.actors :: RecordOk(s, s.actors[a]))
  }

  /** One worker moves to its next point. */
  ghost predicate Moves(s: State, s': State, a: nat) {
    && a in s.actors && a in s'.actors && s'.actors == s.actors[a := s'.actors[a]]
    && s'.actors[a].source == s.actors[a].source && s'.actors[a].node == s.actors[a].node
    && s'.log == s.log && s'.groups == s.groups
  }

  lemma {:induction false} MoveKeepsQueue(s: State, s': State, a: nat)
    requires QueueOk(s) && Moves(s, s', a)
    ensures QueueOk(s')
  {
    assert RecordOk(s, s.actors[a]);
    forall p ensures InLog(s', p) {
      assert s'.Group(p) == s.Group(p) && InLog(s, p);
    }
    forall b | b in s'.actors ensures RecordOk(s', s'.actors[b]) {
      if b != a {
        assert RecordOk(s, s.actors[b]);
      }
    }
  }

  lemma {:induction false} GroupChangeKeepsQueue(s: State, s': State, p: nat, g: Groups.Group)
    requires QueueOk(s) && s'.log == s.log && s'.groups == s.groups[p := g]
    requires Groups.Within(g, |s.Log(p)|)
    requires forall a | a in s'.actors :: RecordOk(s, s'.actors[a])
    ensures QueueOk(s')
  {
    forall q ensures InLog(s', q) {
      if q != p {
        assert s'.Group(q) == s.Group(q) && InLog(s, q);
      }
    }
    forall a | a in s'.actors ensures RecordOk(s', s'.actors[a]) {
      assert RecordOk(s, s'.actors[a]);
    }
  }

  lemma {:induction false} DeliverKeepsQueue(cfg: Settings, s: State, a: nat, n: nat, p: nat, late: bool)
    requires QueueOk(s) && Enabled(cfg, s, Deliver(a, n, p, late))
    ensures QueueOk(Next(cfg, s, Deliver(a, n, p, late)))
  {
    var s' := DeliverStep(s, a, n, p, late);
    var tracks := Tracks(n, s'.actors[a].source.record, late);
    assert InLog(s, p);
    Groups.StepStaysWithin(s.Group(p), tracks, |s.Log(p)|);
    GroupChangeKeepsQueue(s, s', p, Groups.Apply(s.Group(p), tracks));
  }

  lemma {:induction false} AckKeepsQueue(cfg: Settings, s: State, a: nat)
    requires QueueOk(s) && Enabled(cfg, s, Ack(a))
    ensures QueueOk(Next(cfg, s, Ack(a)))
  {
    var x := s.actors[a];
    var p := x.source.partition;
    assert InLog(s, p) && RecordOk(s, x);
    Groups.StepStaysWithin(s.Group(p), Groups.Ack(x.node, x.source.record), |s.Log(p)|);
    GroupChangeKeepsQueue(s, AckStep(s, a), p, Groups.Apply(s.Group(p), Groups.Ack(x.node, x.source.record)));
  }

  lemma {:induction false} RebalanceKeepsQueue(cfg: Settings, s: State, p: nat, change: Groups.Step)
    requires QueueOk(s) && Enabled(cfg, s, Rebalance(p, change))
    ensures QueueOk(Next(cfg, s, Rebalance(p, change)))
  {
    assert InLog(s, p);
    Groups.StepStaysWithin(s.Group(p), change, |s.Log(p)|);
    GroupChangeKeepsQueue(s, Next(cfg, s, Rebalance(p, change)), p, Groups.Apply(s.Group(p), change));
  }

  lemma {:induction false} FlushKeepsQueue(cfg: Settings, s: State, n: nat, t: Task, p: nat)
    requires QueueOk(s) && Enabled(cfg, s, Flush(n, t, p))
    ensures QueueOk(Next(cfg, s, Flush(n, t, p)))
  {
    var s' := Next(cfg, s, Flush(n, t, p));
    forall q ensures InLog(s', q) {
      assert s'.Group(q) == s.Group(q) && InLog(s, q);
      Groups.WithinGrows(s.Group(q), |s.Log(q)|, |s'.Log(q)|);
    }
    forall a | a in s'.actors ensures RecordOk(s', s'.actors[a]) {
      assert RecordOk(s, s.actors[a]);
    }
  }

  lemma {:induction false} CrashKeepsQueue(cfg: Settings, s: State, n: nat)
    requires QueueOk(s) && Enabled(cfg, s, Crash(n))
    ensures QueueOk(Next(cfg, s, Crash(n)))
  {
    var s' := Next(cfg, s, Crash(n));
    forall p ensures InLog(s', p) {
      assert s'.Group(p) == s.Group(p) && InLog(s, p);
    }
    forall a | a in s'.actors ensures RecordOk(s', s'.actors[a]) {
      assert RecordOk(s, s.actors[a]);
    }
  }

  /** Steps that leave the log and the consumers alone. */
  lemma {:induction false} StoreOnlyKeepsQueue(s: State, s': State)
    requires QueueOk(s) && s'.log == s.log && s'.groups == s.groups
    requires forall a | a in s'.actors ::
      (a in s.actors && s'.actors[a] == s.actors[a]) || !s'.actors[a].source.FromQueue?
    ensures QueueOk(s')
  {
    forall p ensures InLog(s', p) {
      assert s'.Group(p) == s.Group(p) && InLog(s, p);
    }
    forall a | a in s'.actors ensures RecordOk(s', s'.actors[a]) {
      if s'.actors[a].source.FromQueue? {
        assert RecordOk(s, s.actors[a]);
      }
    }
  }

  predicate MovesOneActor(step: Step) {
    !(step.Tick? || step.StartRun? || step.Deliver? || step.Ack? || step.Flush? || step.Dropped?
      || step.Rebalance? || step.Crash? || step.Evict?)
  }

  /** Up to the work on a task. */
  predicate StartsWork(step: Step) {
    step.AcquireSlot? || step.ReadState? || step.ReadStateFailed? || step.WorkFailed? || step.WorkDone?
  }

  /** Sending children. */
  predicate SendsWork(step: Step) {
    || step.SkipInvalid? || step.AdmitChild? || step.AdmitFailed? || step.AdmitReplyLost? || step.Produce?
    || step.ProduceFailed? || step.UndoAdmission? || step.UndoFailed? || step.SentAll?
  }

  /** From the completion on. */
  predicate EndsWork(step: Step) {
    || step.CompleteOwn? || step.CompleteFailed? || step.CompleteReplyLost? || step.ReleaseSlot?
    || step.ReleaseFailed? || step.CleanUp? || step.CleanUpFailed?
  }

  lemma {:induction false} StartShape(cfg: Settings, s: State, step: Step)
    requires Enabled(cfg, s, step) && StartsWork(step)
    ensures Moves(s, Next(cfg, s, step), step.a)
    ensures Next(cfg, s, step).buffer == s.buffer && Next(cfg, s, step).sent == s.sent
  {
  }

  lemma {:induction false} AdmissionShape(cfg: Settings, s: State, step: Step)
    requires Enabled(cfg, s, step) && (step.AdmitChild? || step.AdmitReplyLost?)
    ensures Moves(s, Next(cfg, s, step), step.a)
    ensures Next(cfg, s, step).buffer == s.buffer && Next(cfg, s, step).sent == s.sent
  {
  }

  lemma {:induction false} SendShape(cfg: Settings, s: State, step: Step)
    requires Enabled(cfg, s, step) && SendsWork(step)
    ensures Moves(s, Next(cfg, s, step), step.a)
    ensures !step.Produce? ==> Next(cfg, s, step).buffer == s.buffer && Next(cfg, s, step).sent == s.sent
  {
    if step.AdmitChild? || step.AdmitReplyLost? {
      AdmissionShape(cfg, s, step);
    }
  }

  lemma {:induction false} CompletionShape(cfg: Settings, s: State, step: Step)
    requires Enabled(cfg, s, step) && (step.CompleteOwn? || step.CompleteReplyLost?)
    ensures Moves(s, Next(cfg, s, step), step.a)
    ensures Next(cfg, s, step).buffer == s.buffer && Next(cfg, s, step).sent == s.sent
  {
  }

  lemma {:induction false} EndShape(cfg: Settings, s: State, step: Step)
    requires Enabled(cfg, s, step) && EndsWork(step)
    ensures Moves(s, Next(cfg, s, step), step.a)
    ensures Next(cfg, s, step).buffer == s.buffer && Next(cfg, s, step).sent == s.sent
  {
    if step.CompleteOwn? || step.CompleteReplyLost? {
      CompletionShape(cfg, s, step);
    }
  }

  /** All other steps move one worker to its next point. */
  lemma {:induction false} MoveShape(cfg: Settings, s: State, step: Step)
    requires Enabled(cfg, s, step) && MovesOneActor(step)
    ensures Moves(s, Next(cfg, s, step), step.a)
    ensures !step.Produce? ==> Next(cfg, s, step).buffer == s.buffer && Next(cfg, s, step).sent == s.sent
  {
    if StartsWork(step) {
      StartShape(cfg, s, step);
    } else if SendsWork(step) {
      SendShape(cfg, s, step);
    } else {
      EndShape(cfg, s, step);
    }
  }

  lemma {:induction false} OutsideKeepsQueue(cfg: Settings, s: State, step: Step)
    requires QueueOk(s) && Enabled(cfg, s, step)
    requires step.Tick? || step.StartRun? || step.Dropped? || step.Evict?
    ensures QueueOk(Next(cfg, s, step))
  {
    StoreOnlyKeepsQueue(s, Next(cfg, s, step));
  }

  lemma {:induction false} OtherStepKeepsQueue(cfg: Settings, s: State, step: Step)
    requires QueueOk(s) && Enabled(cfg, s, step) && !MovesOneActor(step)
    ensures QueueOk(Next(cfg, s, step))
  {
    match step {
      case Deliver(a, n, p, late) => DeliverKeepsQueue(cfg, s, a, n, p, late);
      case Ack(a) => AckKeepsQueue(cfg, s, a);
      case Rebalance(p, change) => RebalanceKeepsQueue(cfg, s, p, change);
      case Flush(n, t, p) => FlushKeepsQueue(cfg, s, n, t, p);
      case Crash(n) => CrashKeepsQueue(cfg, s, n);
      case _ => OutsideKeepsQueue(cfg, s, step);
    }
  }

  lemma {:induction false} StepKeepsQueue(cfg: Settings, s: State, step: Step)
    requires QueueOk(s) && Enabled(cfg, s, step)
    ensures QueueOk(Next(cfg, s, step))
  {
    if MovesOneActor(step) {
      MoveShape(cfg, s, step);
      MoveKeepsQueue(s, Next(cfg, s, step), step.a);
    } else {
      OtherStepKeepsQueue(cfg, s, step);
    }
  }

  // ---- Carriers ----------------------------------------------------------------------------

  ghost predicate BeingSent(s: State, t: TaskID) {
    exists a | a in s.actors :: s.actors[a].Pending(t)
  }

  ghost predicate Buffered(s: State, t: TaskID) {
    exists e | e in s.buffer :: e.1.id == t
  }

  /** A record of the task at or past the committed position, which nobody acked and nobody is about
      to ack: it will be delivered, perhaps again. */
  ghost predicate LiveRecord(s: State, p: nat, o: nat, t: TaskID) {
    && s.Group(p).committed <= o < |s.Log(p)| && s.Log(p)[o].id == t
    && o !in s.Group(p).acked
    && forall a | a in s.actors :: !s.actors[a].AcksRecord(p, o)
  }

  ghost predicate Carried(s: State, t: TaskID) {
    BeingSent(s, t) || Buffered(s, t) || exists p: nat, o: nat :: LiveRecord(s, p, o, t)
  }

  ghost predicate NothingLost(s: State, r: RunID) {
    forall t: TaskID | t.run == r && s.Queued(t) :: Carried(s, t)
  }

  /** A step of one worker that is neither the end of t's send nor the decision to ack t. */
  lemma {:induction false} MoveCarries(s: State, s': State, a: nat, t: TaskID)
    requires QueueOk(s) && Carried(s, t) && a in s.actors && a in s'.actors
    requires s'.actors == s.actors[a := s'.actors[a]] && s'.actors[a].source == s.actors[a].source
    requires s'.log == s.log && s'.groups == s.groups && s'.buffer == s.buffer
    requires s.actors[a].Pending(t) ==> s'.actors[a].Pending(t)
    requires s'.actors[a].phase.Acking? && s.actors[a].source.FromQueue? ==> s.actors[a].source.task.id != t
    ensures Carried(s', t)
  {
    if BeingSent(s, t) {
      var b :| b in s.actors && s.actors[b].Pending(t);
      assert s'.actors[b].Pending(t);
    } else if Buffered(s, t) {
      assert Buffered(s', t);
    } else {
      var p: nat, o: nat :| LiveRecord(s, p, o, t);
      assert RecordOk(s, s.actors[a]);
      assert LiveRecord(s', p, o, t);
    }
  }

  /** The admission script queues at most the one task it admits. */
  lemma {:induction false} AdmitQueuesOne(s: Store, now: int, c: TaskID, maxLinks: int, t: TaskID)
    requires Admit(s, now, c.run, c, maxLinks).0.IsQueued(t.run, t)
    ensures s.IsQueued(t.run, t) || (t == c && Admit(s, now, c.run, c, maxLinks).1 == Admitted)
  {
  }

  lemma {:induction false} AdmitCarries(cfg: Settings, s: State, a: nat, t: TaskID)
    requires QueueOk(s) && Enabled(cfg, s, AdmitChild(a))
    requires s.Queued(t) ==> Carried(s, t)
    requires AdmitStep(cfg, s, a).Queued(t)
    ensures Carried(AdmitStep(cfg, s, a), t)
  {
    var s' := AdmitStep(cfg, s, a);
    var c := s.actors[a].phase.todo[0];
    if s.Queued(t) {
      MoveCarries(s, s', a, t);
    } else {
      assert c.depth < cfg.maxDepth(c.id.run);
      AdmitQueuesOne(s.store, s.now, c.id, cfg.redis.maxLinks(c.id.run), t);
      assert s'.actors[a].Pending(t);
    }
  }

  lemma {:induction false} ProduceCarries(cfg: Settings, s: State, a: nat, t: TaskID)
    requires QueueOk(s) && Enabled(cfg, s, Produce(a)) && Carried(s, t)
    ensures Carried(Next(cfg, s, Produce(a)), t)
  {
    var s' := Next(cfg, s, Produce(a));
    var x := s.actors[a];
    assert (x.node, x.phase.child) in s'.buffer;
    if x.Pending(t) {
      assert Buffered(s', t);
    } else if Buffered(s, t) {
      var e :| e in s.buffer && e.1.id == t;
      assert e in s'.buffer;
    } else {
      var quiet := s'.(buffer := s.buffer, sent := s.sent);
      MoveCarries(s, quiet, a, t);
      assert !Buffered(quiet, t);
      if BeingSent(quiet, t) {
        assert BeingSent(s', t);
      } else {
        var p: nat, o: nat :| LiveRecord(quiet, p, o, t);
        assert LiveRecord(s', p, o, t);
      }
    }
  }

  lemma {:induction false} FlushCarries(cfg: Settings, s: State, n: nat, task: Task, p: nat, t: TaskID)
    requires QueueOk(s) && Enabled(cfg, s, Flush(n, task, p)) && Carried(s, t)
    ensures Carried(Next(cfg, s, Flush(n, task, p)), t)
  {
    var s' := Next(cfg, s, Flush(n, task, p));
    if BeingSent(s, t) {
      assert BeingSent(s', t);
    } else if Buffered(s, t) {
      var e :| e in s.buffer && e.1.id == t;
      if e == (n, task) {
        assert InLog(s, p);
        forall a | a in s'.actors ensures !s'.actors[a].AcksRecord(p, |s.Log(p)|) {
          assert RecordOk(s, s.actors[a]);
        }
        assert LiveRecord(s', p, |s.Log(p)|, t);
      } else {
        assert e in s'.buffer;
      }
    } else {
      var q: nat, o: nat :| LiveRecord(s, q, o, t);
      assert LiveRecord(s', q, o, t);
    }
  }

  lemma {:induction false} AckCarries(cfg: Settings, s: State, a: nat, t: TaskID)
    requires QueueOk(s) && Enabled(cfg, s, Ack(a)) && Carried(s, t)
    ensures Carried(Next(cfg, s, Ack(a)), t)
  {
    var s' := AckStep(s, a);
    if BeingSent(s, t) {
      var b :| b in s.actors && s.actors[b].Pending(t);
      assert s'.actors[b].Pending(t);
    } else if Buffered(s, t) {
      assert Buffered(s', t);
    } else {
      var p: nat, o: nat :| LiveRecord(s, p, o, t);
      assert !s.actors[a].AcksRecord(p, o);
      assert LiveRecord(s', p, o, t);
    }
  }

  /** Nothing sent, written or acked, no send given up, no new decision to ack. */
  lemma {:induction false} FrameCarries(s: State, s': State, t: TaskID)
    requires Carried(s, t)
    requires s'.buffer == s.buffer && s'.log == s.log
    requires forall p :: s'.Group(p).acked == s.Group(p).acked && s'.Group(p).committed <= s.Group(p).committed
    requires forall a | a in s.actors && s.actors[a].Pending(t) :: a in s'.actors && s'.actors[a].Pending(t)
    requires forall a | a in s'.actors && s'.actors[a].phase.Acking? :: a in s.actors && s.actors[a] == s'.actors[a]
    ensures Carried(s', t)
  {
    if BeingSent(s, t) {
      var b :| b in s.actors && s.actors[b].Pending(t);
      assert s'.actors[b].Pending(t);
    } else if Buffered(s, t) {
      assert Buffered(s', t);
    } else {
      var p: nat, o: nat :| LiveRecord(s, p, o, t);
      assert LiveRecord(s', p, o, t);
    }
  }

  lemma {:induction false} DeliverCarries(cfg: Settings, s: State, a: nat, n: nat, p: nat, late: bool, t: TaskID)
    requires Enabled(cfg, s, Deliver(a, n, p, late)) && Carried(s, t)
    ensures Carried(Next(cfg, s, Deliver(a, n, p, late)), t)
  {
    FrameCarries(s, DeliverStep(s, a, n, p, late), t);
  }

  /** A record of the task nobody acked and nobody on another node is about to ack. */
  ghost predicate RecordAfter(s: State, n: nat, p: nat, o: nat, t: TaskID) {
    && s.Group(p).committed <= o < |s.Log(p)| && s.Log(p)[o].id == t
    && o !in s.Group(p).acked
    && forall a | a in s.actors && s.actors[a].node != n :: !s.actors[a].AcksRecord(p, o)
  }

  /** All that carries t are sends on the node. */
  ghost predicate SendsOnlyOn(s: State, n: nat, t: TaskID) {
    && BeingSent(s, t) && (forall a | a in s.actors && s.actors[a].Pending(t) :: s.actors[a].node == n)
    && !Buffered(s, t) && forall p: nat, o: nat :: !RecordAfter(s, n, p, o, t)
  }

  lemma {:induction false} CrashRecords(cfg: Settings, s: State, n: nat, p: nat, o: nat, t: TaskID)
    requires Enabled(cfg, s, Crash(n))
    ensures LiveRecord(Next(cfg, s, Crash(n)), p, o, t) <==> RecordAfter(s, n, p, o, t)
  {
    var s' := Next(cfg, s, Crash(n));
    assert s'.Group(p) == s.Group(p) && s'.Log(p) == s.Log(p);
    forall a | a in s.actors
      ensures s'.actors[a].AcksRecord(p, o) <==> (s.actors[a].node != n && s.actors[a].AcksRecord(p, o))
    {
    }
  }

  /** A crash leaves records, and senders on other nodes. */
  lemma {:induction false} CrashCarries(cfg: Settings, s: State, n: nat, t: TaskID)
    requires Enabled(cfg, s, Crash(n)) && Carried(s, t) && !SendsOnlyOn(s, n, t)
    ensures Carried(Next(cfg, s, Crash(n)), t)
  {
    var s' := Next(cfg, s, Crash(n));
    if Buffered(s, t) {
      assert Buffered(s', t);
    } else if p: nat, o: nat :| RecordAfter(s, n, p, o, t) {
      CrashRecords(cfg, s, n, p, o, t);
    } else if p: nat, o: nat :| LiveRecord(s, p, o, t) {
      assert RecordAfter(s, n, p, o, t);
      assert false;
    } else {
      var a :| a in s.actors && s.actors[a].Pending(t) && s.actors[a].node != n;
      assert s'.actors[a].Pending(t);
    }
  }

  /** The payload is all that carries t. */
  ghost predicate LastPayload(s: State, n: nat, task: Task) {
    && !BeingSent(s, task.id) && (forall p: nat, o: nat :: !LiveRecord(s, p, o, task.id))
    && forall e | e in s.buffer - multiset{(n, task)} :: e.1.id != task.id
  }

  lemma {:induction false} DroppedCarries(cfg: Settings, s: State, n: nat, task: Task, t: TaskID)
    requires Enabled(cfg, s, Dropped(n, task)) && Carried(s, t) && (task.id == t ==> !LastPayload(s, n, task))
    ensures Carried(Next(cfg, s, Dropped(n, task)), t)
  {
    var s' := Next(cfg, s, Dropped(n, task));
    if BeingSent(s, t) {
      assert BeingSent(s', t);
    } else if p: nat, o: nat :| LiveRecord(s, p, o, t) {
      assert LiveRecord(s', p, o, t);
    } else {
      var e :| e in s.buffer && e.1.id == t && e in s'.buffer;
      assert Buffered(s', t);
    }
  }

  lemma {:induction false} StartRunCarries(cfg: Settings, s: State, a: nat, n: nat, r: RunID, t: TaskID)
    requires Enabled(cfg, s, StartRun(a, n, r)) && Carried(s, t)
    ensures Carried(Next(cfg, s, StartRun(a, n, r)), t)
  {
    FrameCarries(s, Next(cfg, s, StartRun(a, n, r)), t);
  }

  lemma {:induction false} TickCarries(cfg: Settings, s: State, now: int, t: TaskID)
    requires Enabled(cfg, s, Tick(now)) && Carried(s, t)
    ensures Carried(Next(cfg, s, Tick(now)), t)
  {
    FrameCarries(s, Next(cfg, s, Tick(now)), t);
  }

  lemma {:induction false} EvictCarries(cfg: Settings, s: State, r: RunID, t: TaskID)
    requires s.Queued(t) ==> Carried(s, t)
    requires Next(cfg, s, Evict(r)).Queued(t)
    ensures Carried(Next(cfg, s, Evict(r)), t)
  {
    FrameCarries(s, Next(cfg, s, Evict(r)), t);
  }

  /** The record of worker a is all that carries t. */
  ghost predicate OnlyCarrier(s: State, a: nat, t: TaskID)
    requires a in s.actors && s.actors[a].source.FromQueue?
  {
    && !BeingSent(s, t) && !Buffered(s, t)
    && forall p: nat, o: nat | LiveRecord(s, p, o, t) ::
         p == s.actors[a].source.partition && o == s.actors[a].source.record.offset
  }

  /** Worker a's send is all that carries t. */
  ghost predicate OnlySender(s: State, a: nat, t: TaskID) {
    && (forall b | b in s.actors && b != a :: !s.actors[b].Pending(t)) && !Buffered(s, t)
    && forall p: nat, o: nat :: !LiveRecord(s, p, o, t)
  }

  /** The admission script, asked by worker a, admits the task. */
  ghost predicate Admits(cfg: Settings, s: State, a: nat) {
    && a in s.actors && s.actors[a].phase.Sending? && s.actors[a].phase.todo != []
    && AdmitStep(cfg, s, a).actors[a].phase.Producing?
  }

  /** The commit of offset o passes live records of t, and nothing else carries t. */
  ghost predicate PassesOver(s: State, p: nat, o: nat, t: TaskID) {
    && !BeingSent(s, t) && !Buffered(s, t)
    && (exists m: nat :: m <= o && LiveRecord(s, p, m, t))
    && forall q: nat, m: nat | LiveRecord(s, q, m, t) :: q == p && m <= o
  }

  /** Steps that leave a queued task of r without a carrier: an admission whose answer is lost
      after it took effect, an undo that fails, a payload that is dropped, a crash in the middle of a
      send, an ack because the lease has lapsed, and a commit that passes over a live record. */
  ghost predicate Loses(cfg: Settings, s: State, step: Step, r: RunID)
    requires Enabled(cfg, s, step)
  {
    match step
    case AdmitReplyLost(a) =>
      var t := s.actors[a].phase.todo[0].id;
      t.run == r && Admits(cfg, s, a) && !Carried(s, t)
    case UndoFailed(a) =>
      var t := s.actors[a].phase.child.id;
      t.run == r && s.Queued(t) && OnlySender(s, a, t)
    case ReadState(a) =>
      var t := s.actors[a].source.task.id;
      t.run == r && s.Queued(t) && !s.store.Live(r, s.now) && OnlyCarrier(s, a, t)
    case Dropped(n, task) => task.id.run == r && s.Queued(task.id) && LastPayload(s, n, task)
    case Crash(n) => exists t: TaskID :: t.run == r && s.Queued(t) && SendsOnlyOn(s, n, t)
    case Rebalance(p, change) =>
      Groups.Commits(change) && exists t: TaskID :: t.run == r && s.Queued(t) && PassesOver(s, p, change.r.offset, t)
    case _ => false
  }

  /** A worker that reads its task's state lets go of the record only if the task is done or the
      lease has lapsed; then something else carries it. */
  lemma {:induction false} ReadStateCarries(cfg: Settings, s: State, a: nat, t: TaskID)
    requires QueueOk(s) && Enabled(cfg, s, ReadState(a)) && !Loses(cfg, s, ReadState(a), t.run)
    requires s.Queued(t) ==> Carried(s, t)
    requires Next(cfg, s, ReadState(a)).Queued(t)
    ensures Carried(Next(cfg, s, ReadState(a)), t)
  {
    var s' := Next(cfg, s, ReadState(a));
    if s.actors[a].source.task.id == t && !s.store.Live(t.run, s.now) {
      AckedElsewhere(s, s', a, t);
    } else {
      MoveCarries(s, s', a, t);
    }
  }

  lemma {:induction false} AckedElsewhere(s: State, s': State, a: nat, t: TaskID)
    requires QueueOk(s) && a in s.actors && a in s'.actors && s.actors[a].source.FromQueue? && !OnlyCarrier(s, a, t)
    requires s'.actors == s.actors[a := s'.actors[a]] && s'.actors[a].source == s.actors[a].source
    requires s'.log == s.log && s'.groups == s.groups && s'.buffer == s.buffer && !s.actors[a].Sends()
    ensures Carried(s', t)
  {
    if BeingSent(s, t) {
      var b :| b in s.actors && s.actors[b].Pending(t);
      assert s'.actors[b].Pending(t);
    } else if Buffered(s, t) {
      assert Buffered(s', t);
    } else {
      var p: nat, o: nat :| LiveRecord(s, p, o, t)
        && !(p == s.actors[a].source.partition && o == s.actors[a].source.record.offset);
      assert LiveRecord(s', p, o, t);
    }
  }

  lemma {:induction false} AdmitReplyLostCarries(cfg: Settings, s: State, a: nat, t: TaskID)
    requires QueueOk(s) && Enabled(cfg, s, AdmitReplyLost(a)) && !Loses(cfg, s, AdmitReplyLost(a), t.run)
    requires s.Queued(t) ==> Carried(s, t)
    requires Next(cfg, s, AdmitReplyLost(a)).Queued(t)
    ensures Carried(Next(cfg, s, AdmitReplyLost(a)), t)
  {
    var c := s.actors[a].phase.todo[0];
    if !s.Queued(t) {
      AdmitQueuesOne(s.store, s.now, c.id, cfg.redis.maxLinks(c.id.run), t);
      assert Admits(cfg, s, a);
    }
    MoveCarries(s, Next(cfg, s, AdmitReplyLost(a)), a, t);
  }

  lemma {:induction false} UndoFailedCarries(cfg: Settings, s: State, a: nat, t: TaskID)
    requires QueueOk(s) && Enabled(cfg, s, UndoFailed(a)) && !Loses(cfg, s, UndoFailed(a), t.run)
    requires s.Queued(t) && Carried(s, t)
    ensures Carried(Next(cfg, s, UndoFailed(a)), t)
  {
    var s' := Next(cfg, s, UndoFailed(a));
    if s.actors[a].phase.child.id == t {
      SentElsewhere(s, s', a, t);
    } else {
      MoveCarries(s, s', a, t);
    }
  }

  lemma {:induction false} SentElsewhere(s: State, s': State, a: nat, t: TaskID)
    requires a in s.actors && a in s'.actors && !OnlySender(s, a, t)
    requires s'.actors == s.actors[a := s'.actors[a]] && s'.actors[a].source == s.actors[a].source
    requires s'.log == s.log && s'.groups == s.groups && s'.buffer == s.buffer && s'.actors[a].phase.Sending?
    ensures Carried(s', t)
  {
    if Buffered(s, t) {
      assert Buffered(s', t);
    } else if b :| b in s.actors && b != a && s.actors[b].Pending(t) {
      assert s'.actors[b].Pending(t);
    } else {
      var p: nat, o: nat :| LiveRecord(s, p, o, t);
      assert LiveRecord(s', p, o, t);
    }
  }

  lemma {:induction false} CompleteCarries(cfg: Settings, s: State, a: nat, t: TaskID)
    requires QueueOk(s) && Enabled(cfg, s, CompleteOwn(a))
    requires s.Queued(t) ==> Carried(s, t)
    requires Next(cfg, s, CompleteOwn(a)).Queued(t)
    ensures Carried(Next(cfg, s, CompleteOwn(a)), t)
  {
    MoveCarries(s, CompleteStep(cfg, s, a), a, t);
  }

  lemma {:induction false} CompleteReplyLostCarries(cfg: Settings, s: State, a: nat, t: TaskID)
    requires QueueOk(s) && Enabled(cfg, s, CompleteReplyLost(a))
    requires s.Queued(t) ==> Carried(s, t)
    requires Next(cfg, s, CompleteReplyLost(a)).Queued(t)
    ensures Carried(Next(cfg, s, CompleteReplyLost(a)), t)
  {
    MoveCarries(s, Next(cfg, s, CompleteReplyLost(a)), a, t);
  }

  /** The end of a failed send: its child is no longer queued. */
  lemma {:induction false} UndoCarries(cfg: Settings, s: State, a: nat, t: TaskID)
    requires QueueOk(s) && Enabled(cfg, s, UndoAdmission(a))
    requires s.Queued(t) ==> Carried(s, t)
    requires Next(cfg, s, UndoAdmission(a)).Queued(t)
    ensures Carried(Next(cfg, s, UndoAdmission(a)), t)
  {
    MoveCarries(s, Next(cfg, s, UndoAdmission(a)), a, t);
  }

  lemma {:induction false} CleanUpCarries(cfg: Settings, s: State, a: nat, t: TaskID)
    requires QueueOk(s) && Enabled(cfg, s, CleanUp(a))
    requires s.Queued(t) ==> Carried(s, t)
    requires Next(cfg, s, CleanUp(a)).Queued(t)
    ensures Carried(Next(cfg, s, CleanUp(a)), t)
  {
    MoveCarries(s, Next(cfg, s, CleanUp(a)), a, t);
  }

  predicate Plain(step: Step) {
    || step.AcquireSlot? || step.ReadStateFailed? || step.WorkFailed? || step.WorkDone? || step.SkipInvalid?
    || step.AdmitFailed? || step.ProduceFailed? || step.SentAll? || step.CompleteFailed? || step.ReleaseSlot?
    || step.ReleaseFailed? || step.CleanUpFailed?
  }

  /** A move that touches no table, gives up no admitted child and decides no ack. */
  ghost predicate QuietMove(s: State, s': State, a: nat)
    requires a in s.actors
  {
    && s'.store == s.store.(slots := s'.store.slots) && s'.finishes == s.finishes && s'.sent == s.sent
    && a in s'.actors && !s'.actors[a].phase.Acking?
    && (forall t | s.actors[a].Pending(t) :: s'.actors[a].Pending(t))
    && !s.actors[a].phase.Undoing?
  }

  lemma {:induction false} PlainStart(cfg: Settings, s: State, step: Step)
    requires Enabled(cfg, s, step) && Plain(step) && StartsWork(step)
    ensures QuietMove(s, Next(cfg, s, step), step.a)
  {
  }

  lemma {:induction false} PlainSend(cfg: Settings, s: State, step: Step)
    requires Enabled(cfg, s, step) && Plain(step) && SendsWork(step)
    ensures QuietMove(s, Next(cfg, s, step), step.a)
  {
  }

  lemma {:induction false} ReleaseIsQuiet(cfg: Settings, s: State, a: nat)
    requires Enabled(cfg, s, ReleaseSlot(a))
    ensures QuietMove(s, Next(cfg, s, ReleaseSlot(a)), a)
  {
  }

  lemma {:induction false} PlainEnd(cfg: Settings, s: State, step: Step)
    requires Enabled(cfg, s, step) && Plain(step) && EndsWork(step)
    ensures QuietMove(s, Next(cfg, s, step), step.a)
  {
    if step.ReleaseSlot? {
      ReleaseIsQuiet(cfg, s, step.a);
    }
  }

  lemma {:induction false} PlainMove(cfg: Settings, s: State, step: Step)
    requires Enabled(cfg, s, step) && Plain(step)
    ensures QuietMove(s, Next(cfg, s, step), step.a)
  {
    if StartsWork(step) {
      PlainStart(cfg, s, step);
    } else if SendsWork(step) {
      PlainSend(cfg, s, step);
    } else {
      PlainEnd(cfg, s, step);
    }
  }

  lemma {:induction false} QuietCarries(s: State, s': State, a: nat, t: TaskID)
    requires QueueOk(s) && Moves(s, s', a) && s'.buffer == s.buffer && QuietMove(s, s', a)
    requires s.Queued(t) ==> Carried(s, t)
    requires s'.Queued(t)
    ensures Carried(s', t)
  {
    MoveCarries(s, s', a, t);
  }

  lemma {:induction false} PlainCarries(cfg: Settings, s: State, step: Step, t: TaskID)
    requires QueueOk(s) && Enabled(cfg, s, step) && Plain(step)
    requires s.Queued(t) ==> Carried(s, t)
    requires Next(cfg, s, step).Queued(t)
    ensures Carried(Next(cfg, s, step), t)
  {
    MoveShape(cfg, s, step);
    PlainMove(cfg, s, step);
    QuietCarries(s, Next(cfg, s, step), step.a, t);
  }

  /** A commit leaves alone the records past it; all other changes leave all of them alone. */
  lemma {:induction false} RebalanceCarries(cfg: Settings, s: State, p: nat, change: Groups.Step, t: TaskID)
    requires Enabled(cfg, s, Rebalance(p, change)) && Carried(s, t)
    requires Groups.Commits(change) ==> !PassesOver(s, p, change.r.offset, t)
    ensures Carried(Next(cfg, s, Rebalance(p, change)), t)
  {
    var s' := Next(cfg, s, Rebalance(p, change));
    assert s'.Group(p).acked == s.Group(p).acked;
    if !Groups.Commits(change) || BeingSent(s, t) || Buffered(s, t) {
      RebalanceFrame(cfg, s, p, change, t);
    } else {
      var q: nat, m: nat :| LiveRecord(s, q, m, t) && !(q == p && m <= change.r.offset);
      assert LiveRecord(s', q, m, t);
    }
  }

  lemma {:induction false} RebalanceFrame(cfg: Settings, s: State, p: nat, change: Groups.Step, t: TaskID)
    requires Enabled(cfg, s, Rebalance(p, change)) && Carried(s, t)
    requires !Groups.Commits(change) || BeingSent(s, t) || Buffered(s, t)
    ensures Carried(Next(cfg, s, Rebalance(p, change)), t)
  {
    var s' := Next(cfg, s, Rebalance(p, change));
    if BeingSent(s, t) {
      assert BeingSent(s', t);
    } else if Buffered(s, t) {
      assert Buffered(s', t);
    } else {
      assert Groups.Apply(s.Group(p), change).acked == s.Group(p).acked;
      FrameCarries(s, s', t);
    }
  }

  lemma {:induction false} OutsideCarries(cfg: Settings, s: State, step: Step, t: TaskID)
    requires Enabled(cfg, s, step) && !MovesOneActor(step) && !step.Ack? && !step.Flush? && !step.Dropped?
    requires !Loses(cfg, s, step, t.run)
    requires s.Queued(t) ==> Carried(s, t)
    requires Next(cfg, s, step).Queued(t)
    ensures Carried(Next(cfg, s, step), t)
  {
    match step {
      case StartRun(a, n, r) => StartRunCarries(cfg, s, a, n, r, t);
      case Deliver(a, n, p, late) => DeliverCarries(cfg, s, a, n, p, late, t);
      case Rebalance(p, change) => RebalanceCarries(cfg, s, p, change, t);
      case Crash(n) => CrashCarries(cfg, s, n, t);
      case Tick(now) => TickCarries(cfg, s, now, t);
      case Evict(r) => EvictCarries(cfg, s, r, t);
    }
  }

  predicate Sends(step: Step) {
    || step.AdmitChild? || step.AdmitReplyLost? || step.Produce? || step.Flush? || step.Dropped?
    || step.UndoAdmission? || step.UndoFailed?
  }

  lemma {:induction false} SendCarries(cfg: Settings, s: State, step: Step, t: TaskID)
    requires QueueOk(s) && Enabled(cfg, s, step) && Sends(step) && !Loses(cfg, s, step, t.run)
    requires s.Queued(t) ==> Carried(s, t)
    requires Next(cfg, s, step).Queued(t)
    ensures Carried(Next(cfg, s, step), t)
  {
    match step {
      case AdmitChild(a) => AdmitCarries(cfg, s, a, t);
      case AdmitReplyLost(a) => AdmitReplyLostCarries(cfg, s, a, t);
      case Produce(a) => ProduceCarries(cfg, s, a, t);
      case Flush(n, task, p) => FlushCarries(cfg, s, n, task, p, t);
      case Dropped(n, task) => DroppedCarries(cfg, s, n, task, t);
      case UndoAdmission(a) => UndoCarries(cfg, s, a, t);
      case UndoFailed(a) => UndoFailedCarries(cfg, s, a, t);
    }
  }

  lemma {:induction false} StepCarries(cfg: Settings, s: State, step: Step, t: TaskID)
    requires QueueOk(s) && Enabled(cfg, s, step) && !Loses(cfg, s, step, t.run)
    requires s.Queued(t) ==> Carried(s, t)
    requires Next(cfg, s, step).Queued(t)
    ensures Carried(Next(cfg, s, step), t)
  {
    if Plain(step) {
      PlainCarries(cfg, s, step, t);
    } else if Sends(step) {
      SendCarries(cfg, s, step, t);
    } else if !MovesOneActor(step) && !step.Ack? {
      OutsideCarries(cfg, s, step, t);
    } else {
      match step {
        case Ack(a) => AckCarries(cfg, s, a, t);
        case ReadState(a) => ReadStateCarries(cfg, s, a, t);
        case CompleteOwn(a) => CompleteCarries(cfg, s, a, t);
        case CompleteReplyLost(a) => CompleteReplyLostCarries(cfg, s, a, t);
        case CleanUp(a) => CleanUpCarries(cfg, s, a, t);
      }
    }
  }

  lemma {:induction false} StillNotCarried(s: State, s': State, a: nat, t: TaskID)
    requires a in s.actors && a in s'.actors
    requires s'.actors == s.actors[a := s'.actors[a]] && s'.actors[a].source == s.actors[a].source
    requires s'.log == s.log && s'.groups == s.groups && s'.buffer == s.buffer
    requires !s.actors[a].phase.Acking? && !s'.actors[a].Pending(t)
    requires forall b | b in s.actors && b != a :: !s.actors[b].Pending(t)
    requires !Buffered(s, t)
    requires forall p: nat, o: nat | LiveRecord(s, p, o, t) :: s'.actors[a].AcksRecord(p, o)
    ensures !Carried(s', t)
  {
    assert !BeingSent(s', t) && !Buffered(s', t);
    forall p: nat, o: nat ensures !LiveRecord(s', p, o, t) {
      if LiveRecord(s', p, o, t) {
        assert LiveRecord(s, p, o, t) by {
          forall b | b in s.actors ensures !s.actors[b].AcksRecord(p, o) {
            assert !s'.actors[b].AcksRecord(p, o);
          }
        }
      }
    }
  }

  /** If the answer to an admission is lost after it took effect, the task is queued and nothing
      carries it: the worker retries, and is told Duplicate. */
  lemma {:induction false} LostAdmissionLoses(cfg: Settings, s: State, a: nat)
    requires Enabled(cfg, s, AdmitReplyLost(a)) && Admits(cfg, s, a) && !Carried(s, s.actors[a].phase.todo[0].id)
    ensures var s', t := Next(cfg, s, AdmitReplyLost(a)), s.actors[a].phase.todo[0].id; s'.Queued(t) && !Carried(s', t)
  {
    StillNotCarried(s, Next(cfg, s, AdmitReplyLost(a)), a, s.actors[a].phase.todo[0].id);
  }

  /** If a failed send cannot be undone, its child stays queued and nothing carries it. */
  lemma {:induction false} FailedUndoLoses(cfg: Settings, s: State, a: nat)
    requires Enabled(cfg, s, UndoFailed(a)) && s.Queued(s.actors[a].phase.child.id)
    requires OnlySender(s, a, s.actors[a].phase.child.id)
    ensures var s', t := Next(cfg, s, UndoFailed(a)), s.actors[a].phase.child.id; s'.Queued(t) && !Carried(s', t)
  {
    StillNotCarried(s, Next(cfg, s, UndoFailed(a)), a, s.actors[a].phase.child.id);
  }

  /** If the lease has lapsed when a worker reads the state of a queued task, it acks the record:
      when that record was the only carrier, the task is lost. */
  lemma {:induction false} LapsedLeaseLoses(cfg: Settings, s: State, a: nat)
    requires Enabled(cfg, s, ReadState(a)) && s.Queued(s.actors[a].source.task.id)
    requires !s.store.Live(s.actors[a].source.task.id.run, s.now) && OnlyCarrier(s, a, s.actors[a].source.task.id)
    ensures var s', t := Next(cfg, s, ReadState(a)), s.actors[a].source.task.id; s'.Queued(t) && !Carried(s', t)
  {
    StillNotCarried(s, Next(cfg, s, ReadState(a)), a, s.actors[a].source.task.id);
  }

  /** If a commit passes over the last carriers of a queued task, the task is lost. */
  lemma {:induction false} CommitLoses(cfg: Settings, s: State, p: nat, change: Groups.Step, t: TaskID)
    requires Enabled(cfg, s, Rebalance(p, change)) && Groups.Commits(change) && s.Queued(t)
    requires PassesOver(s, p, change.r.offset, t)
    ensures var s' := Next(cfg, s, Rebalance(p, change)); s'.Queued(t) && !Carried(s', t)
  {
    var s' := Next(cfg, s, Rebalance(p, change));
    assert !BeingSent(s', t) && !Buffered(s', t);
    forall q: nat, m: nat ensures !LiveRecord(s', q, m, t) {
      if LiveRecord(s', q, m, t) {
        PassedNotLive(cfg, s, p, change, q, m, t);
      }
    }
  }

  /** A record that is live after a commit and was not before lies below the old committed position;
      one that was live lies past the commit. */
  lemma {:induction false} PassedNotLive(cfg: Settings, s: State, p: nat, change: Groups.Step, q: nat, m: nat,
      t: TaskID)
    requires Enabled(cfg, s, Rebalance(p, change)) && Groups.Commits(change)
    requires PassesOver(s, p, change.r.offset, t)
    ensures !LiveRecord(Next(cfg, s, Rebalance(p, change)), q, m, t)
  {
    var s' := Next(cfg, s, Rebalance(p, change));
    if LiveRecord(s', q, m, t) {
      var o: nat :| o <= change.r.offset && LiveRecord(s, p, o, t);
      assert LiveRecord(s, q, m, t);
      assert false;
    }
  }

  /** If the last payload of a queued task is dropped, the task is lost. */
  lemma {:induction false} DropLoses(cfg: Settings, s: State, n: nat, task: Task)
    requires Enabled(cfg, s, Dropped(n, task)) && s.Queued(task.id) && LastPayload(s, n, task)
    ensures var s' := Next(cfg, s, Dropped(n, task)); s'.Queued(task.id) && !Carried(s', task.id)
  {
    var s' := Next(cfg, s, Dropped(n, task));
    assert !BeingSent(s', task.id) && !Buffered(s', task.id);
    forall p: nat, o: nat ensures !LiveRecord(s', p, o, task.id) {
      assert LiveRecord(s', p, o, task.id) ==> LiveRecord(s, p, o, task.id);
    }
  }

  /** If the node of the last senders of a queued task crashes, the task is lost. */
  lemma {:induction false} CrashLoses(cfg: Settings, s: State, n: nat, t: TaskID)
    requires Enabled(cfg, s, Crash(n)) && s.Queued(t) && SendsOnlyOn(s, n, t)
    ensures var s' := Next(cfg, s, Crash(n)); s'.Queued(t) && !Carried(s', t)
  {
    var s' := Next(cfg, s, Crash(n));
    assert !Buffered(s', t) && !BeingSent(s', t);
    forall p: nat, o: nat ensures !LiveRecord(s', p, o, t) {
      CrashRecords(cfg, s, n, p, o, t);
    }
  }

  lemma {:induction false} LosesOne(cfg: Settings, s: State, step: Step, r: RunID) returns (t: TaskID)
    requires Enabled(cfg, s, step) && Loses(cfg, s, step, r)
    ensures t.run == r && Next(cfg, s, step).Queued(t) && !Carried(Next(cfg, s, step), t)
  {
    match step {
      case AdmitReplyLost(a) =>
        t := s.actors[a].phase.todo[0].id;
        LostAdmissionLoses(cfg, s, a);
      case UndoFailed(a) =>
        t := s.actors[a].phase.child.id;
        FailedUndoLoses(cfg, s, a);
      case ReadState(a) =>
        t := s.actors[a].source.task.id;
        LapsedLeaseLoses(cfg, s, a);
      case Dropped(n, task) =>
        t := task.id;
        DropLoses(cfg, s, n, task);
      case Crash(n) =>
        t :| t.run == r && s.Queued(t) && SendsOnlyOn(s, n, t);
        CrashLoses(cfg, s, n, t);
      case Rebalance(p, change) =>
        t :| t.run == r && s.Queued(t) && PassesOver(s, p, change.r.offset, t);
        CommitLoses(cfg, s, p, change, t);
    }
  }

  /** A step leaves every queued task carried if and only if it is none of these. */
  lemma {:induction false} StepLosesIff(cfg: Settings, s: State, step: Step, r: RunID)
    requires QueueOk(s) && Enabled(cfg, s, step) && NothingLost(s, r)
    ensures NothingLost(Next(cfg, s, step), r) <==> !Loses(cfg, s, step, r)
  {
    if Loses(cfg, s, step, r) {
      var t := LosesOne(cfg, s, step, r);
      assert t.run == r && Next(cfg, s, step).Queued(t);
    } else {
      forall t: TaskID | t.run == r && Next(cfg, s, step).Queued(t) ensures Carried(Next(cfg, s, step), t) {
        StepCarries(cfg, s, step, t);
      }
    }
  }

  // ---- Whole runs --------------------------------------------------------------------------

  /** A run of the system in which no step loses a task of r. */
  ghost predicate LosslessRun(cfg: Settings, s: State, steps: seq<Step>, s': State, r: RunID)
    decreases |steps|
  {
    if steps == [] then s == s'
    else
      && Enabled(cfg, s, steps[0]) && !Loses(cfg, s, steps[0], r)
      && LosslessRun(cfg, Next(cfg, s, steps[0]), steps[1..], s', r)
  }

  /** In every state of the run all queued tasks of r are carried. */
  ghost predicate AlwaysCarried(cfg: Settings, s: State, steps: seq<Step>, r: RunID)
    decreases |steps|
  {
    && NothingLost(s, r)
    && (steps != [] ==> Enabled(cfg, s, steps[0]) && AlwaysCarried(cfg, Next(cfg, s, steps[0]), steps[1..], r))
  }

  lemma {:induction false} RunLosesNothing(cfg: Settings, s: State, steps: seq<Step>, s': State, r: RunID)
    requires QueueOk(s) && NothingLost(s, r) && LosslessRun(cfg, s, steps, s', r)
    ensures QueueOk(s') && NothingLost(s', r)
    decreases |steps|
  {
    if steps != [] {
      StepKeepsQueue(cfg, s, steps[0]);
      StepLosesIff(cfg, s, steps[0], r);
      RunLosesNothing(cfg, Next(cfg, s, steps[0]), steps[1..], s', r);
    }
  }

  /** Along a run all queued tasks stay carried if and only if no step loses one. */
  lemma {:induction false} RunLosesIff(cfg: Settings, s: State, steps: seq<Step>, s': State, r: RunID)
    requires QueueOk(s) && NothingLost(s, r) && Run(cfg, s, steps, s')
    ensures AlwaysCarried(cfg, s, steps, r) <==> LosslessRun(cfg, s, steps, s', r)
    decreases |steps|
  {
    if steps != [] {
      StepKeepsQueue(cfg, s, steps[0]);
      StepLosesIff(cfg, s, steps[0], r);
      if !Loses(cfg, s, steps[0], r) {
        RunLosesIff(cfg, Next(cfg, s, steps[0]), steps[1..], s', r);
      }
    }
  }

  const Start := State(EmptyStore, 0, map[], multiset{}, map[], map[], multiset{}, multiset{})


  lemma {:induction false} RunKeepsQueue(cfg: Settings, s: State, steps: seq<Step>, s': State)
    requires QueueOk(s) && Run(cfg, s, steps, s')
    ensures QueueOk(s')
    decreases |steps|
  {
    if steps != [] {
      StepKeepsQueue(cfg, s, steps[0]);
      RunKeepsQueue(cfg, Next(cfg, s, steps[0]), steps[1..], s');
    }
  }

  // ---- What can be seen without knowing the carriers -----------------------------------------

  /** If a record is tracked after its partition was released, nothing below it is missing. */
  ghost predicate TracksInOrder(cfg: Settings, s: State, step: Step)
    requires Enabled(cfg, s, step)
  {
    step.Deliver? && step.late ==> Groups.NothingMissing(s.Group(step.partition), step.node, Tracked(s, step))
  }

  /** The record a delivery hands out. */
  function Tracked(s: State, step: Step): Offsets.Record
    requires step.Deliver? && step.node in Fetches(s, step.partition, step.late)
  {
    Offsets.Record(Offsets.TopicPartition("tasks", step.partition),
      Fetches(s, step.partition, step.late)[step.node], step.a)
  }

  /** No commit passes over an unacked record. */
  ghost predicate GroupsSafe(s: State) {
    forall p :: Groups.GroupSafe(s.Group(p))
  }

  lemma {:induction false} GroupChangeKeepsGroups(s: State, s': State, p: nat, change: Groups.Step)
    requires GroupsSafe(s) && Groups.Enabled(s.Group(p), change)
    requires change.DeliverLate? ==> Groups.NothingMissing(s.Group(p), change.c, change.r)
    requires s'.groups == s.groups[p := Groups.Apply(s.Group(p), change)]
    ensures GroupsSafe(s')
  {
    forall q ensures Groups.GroupSafe(s'.Group(q)) {
      assert Groups.GroupSafe(s.Group(q));
      if q == p {
        Groups.StepKeepsGroup(s.Group(p), change);
      }
    }
  }

  lemma {:induction false} SameGroupsSafe(s: State, s': State)
    requires GroupsSafe(s) && s'.groups == s.groups
    ensures GroupsSafe(s')
  {
    forall p ensures Groups.GroupSafe(s'.Group(p)) {
      assert s'.Group(p) == s.Group(p);
    }
  }

  lemma {:induction false} StoreStepsKeepGroups(cfg: Settings, s: State, step: Step)
    requires Enabled(cfg, s, step) && (!MovesOneActor(step) && !step.Deliver? && !step.Ack? && !step.Rebalance?)
    ensures Next(cfg, s, step).groups == s.groups
  {
  }

  lemma {:induction false} OtherStepsKeepGroups(cfg: Settings, s: State, step: Step)
    requires GroupsSafe(s) && Enabled(cfg, s, step) && !step.Deliver? && !step.Ack? && !step.Rebalance?
    ensures GroupsSafe(Next(cfg, s, step))
  {
    if MovesOneActor(step) {
      MoveShape(cfg, s, step);
    } else {
      StoreStepsKeepGroups(cfg, s, step);
    }
    SameGroupsSafe(s, Next(cfg, s, step));
  }

  lemma {:induction false} DeliverKeepsGroups(cfg: Settings, s: State, a: nat, n: nat, p: nat, late: bool)
    requires GroupsSafe(s) && Enabled(cfg, s, Deliver(a, n, p, late))
    requires TracksInOrder(cfg, s, Deliver(a, n, p, late))
    ensures GroupsSafe(DeliverStep(s, a, n, p, late))
  {
    var r := Tracked(s, Deliver(a, n, p, late));
    GroupChangeKeepsGroups(s, DeliverStep(s, a, n, p, late), p, Tracks(n, r, late));
  }

  lemma {:induction false} AckKeepsGroups(cfg: Settings, s: State, a: nat)
    requires GroupsSafe(s) && Enabled(cfg, s, Ack(a))
    ensures GroupsSafe(AckStep(s, a))
  {
    var x := s.actors[a];
    GroupChangeKeepsGroups(s, AckStep(s, a), x.source.partition, Groups.Ack(x.node, x.source.record));
  }

  lemma {:induction false} RebalanceKeepsGroups(cfg: Settings, s: State, p: nat, change: Groups.Step)
    requires GroupsSafe(s) && Enabled(cfg, s, Rebalance(p, change))
    ensures GroupsSafe(Next(cfg, s, Rebalance(p, change)))
  {
    GroupChangeKeepsGroups(s, Next(cfg, s, Rebalance(p, change)), p, change);
  }

  lemma {:induction false} StepKeepsGroups(cfg: Settings, s: State, step: Step)
    requires GroupsSafe(s) && Enabled(cfg, s, step) && TracksInOrder(cfg, s, step)
    ensures GroupsSafe(Next(cfg, s, step))
  {
    match step {
      case Deliver(a, n, p, late) => DeliverKeepsGroups(cfg, s, a, n, p, late);
      case Ack(a) => AckKeepsGroups(cfg, s, a);
      case Rebalance(p, change) => RebalanceKeepsGroups(cfg, s, p, change);
      case _ => OtherStepsKeepGroups(cfg, s, step);
    }
  }

  /** A safe commit passes over acked records only. */
  lemma {:induction false} SafeCommitPassesNothing(cfg: Settings, s: State, p: nat, change: Groups.Step, t: TaskID)
    requires GroupsSafe(s) && Enabled(cfg, s, Rebalance(p, change)) && Groups.Commits(change)
    ensures !PassesOver(s, p, change.r.offset, t)
  {
    assert Groups.GroupSafe(s.Group(p));
    assert (change.c, change.r) in s.Group(p).pending;
    forall m: nat | m <= change.r.offset ensures !LiveRecord(s, p, m, t) {
      assert m in s.Group(p).acked;
    }
  }

  /** No admission of r loses its answer after it took effect, no undo of a queued task of r fails, no
      payload of one is dropped, no node crashes that sends one, r's lease is live whenever a worker
      reads the state of one, and a record that is tracked after its partition was released has
      nothing missing below it. */
  ghost predicate Careful(cfg: Settings, s: State, step: Step, r: RunID)
    requires Enabled(cfg, s, step)
  {
    match step
    case AdmitReplyLost(a) => s.actors[a].phase.todo[0].id.run == r ==> !Admits(cfg, s, a)
    case UndoFailed(a) => s.actors[a].phase.child.id.run == r ==> !s.Queued(s.actors[a].phase.child.id)
    case ReadState(a) =>
      var t := s.actors[a].source.task.id;
      t.run == r && s.Queued(t) ==> s.store.Live(r, s.now)
    case Dropped(_, task) => task.id.run == r ==> !s.Queued(task.id)
    case Crash(n) => forall a | a in s.actors && s.actors[a].node == n && s.actors[a].Sends() ::
      s.actors[a].phase.child.id.run == r ==> !s.Queued(s.actors[a].phase.child.id)
    case _ => TracksInOrder(cfg, s, step)
  }

  lemma {:induction false} CarefulCrash(cfg: Settings, s: State, n: nat, t: TaskID)
    requires Enabled(cfg, s, Crash(n)) && Careful(cfg, s, Crash(n), t.run) && s.Queued(t)
    ensures !SendsOnlyOn(s, n, t)
  {
    if BeingSent(s, t) {
      var a :| a in s.actors && s.actors[a].Pending(t);
      assert s.actors[a].node != n;
    }
  }

  lemma {:induction false} CarefulKeeps(cfg: Settings, s: State, step: Step, r: RunID)
    requires GroupsSafe(s) && Enabled(cfg, s, step) && Careful(cfg, s, step, r)
    ensures !Loses(cfg, s, step, r) && GroupsSafe(Next(cfg, s, step))
  {
    StepKeepsGroups(cfg, s, step);
    if step.Crash? {
      forall t: TaskID | t.run == r && s.Queued(t) ensures !SendsOnlyOn(s, step.node, t) {
        CarefulCrash(cfg, s, step.node, t);
      }
    } else if step.Rebalance? && Groups.Commits(step.change) {
      forall t: TaskID ensures !PassesOver(s, step.partition, step.change.r.offset, t) {
        SafeCommitPassesNothing(cfg, s, step.partition, step.change, t);
      }
    }
  }

  ghost predicate CarefulRun(cfg: Settings, s: State, steps: seq<Step>, s': State, r: RunID)
    decreases |steps|
  {
    if steps == [] then s == s'
    else
      && Enabled(cfg, s, steps[0]) && Careful(cfg, s, steps[0], r)
      && CarefulRun(cfg, Next(cfg, s, steps[0]), steps[1..], s', r)
  }

  lemma {:induction false} CarefulFrom(cfg: Settings, s: State, steps: seq<Step>, s': State, r: RunID)
    requires GroupsSafe(s) && CarefulRun(cfg, s, steps, s', r)
    ensures LosslessRun(cfg, s, steps, s', r)
    decreases |steps|
  {
    if steps != [] {
      CarefulKeeps(cfg, s, steps[0], r);
      CarefulFrom(cfg, Next(cfg, s, steps[0]), steps[1..], s', r);
    }
  }

  /** A run of the system in which records are tracked in order. */
  ghost predicate InOrderRun(cfg: Settings, s: State, steps: seq<Step>, s': State)
    decreases |steps|
  {
    if steps == [] then s == s'
    else
      && Enabled(cfg, s, steps[0]) && TracksInOrder(cfg, s, steps[0])
      && InOrderRun(cfg, Next(cfg, s, steps[0]), steps[1..], s')
  }

  lemma {:induction false} RunKeepsGroups(cfg: Settings, s: State, steps: seq<Step>, s': State)
    requires GroupsSafe(s) && InOrderRun(cfg, s, steps, s')
    ensures GroupsSafe(s')
    decreases |steps|
  {
    if steps != [] {
      StepKeepsGroups(cfg, s, steps[0]);
      RunKeepsGroups(cfg, Next(cfg, s, steps[0]), steps[1..], s');
    }
  }

  /** From any state reached by tracking records in order, a careful run loses no task of r. */
  lemma {:induction false} CarefulIsLossless(cfg: Settings, before: seq<Step>, s: State, steps: seq<Step>, s': State,
      r: RunID)
    requires InOrderRun(cfg, Start, before, s) && CarefulRun(cfg, s, steps, s', r)
    ensures LosslessRun(cfg, s, steps, s', r)
  {
    assert Groups.LaneSafe(Offsets.EmptyLane, {});
    RunKeepsGroups(cfg, Start, before, s);
    CarefulFrom(cfg, s, steps, s', r);
  }

  // ---- The theorem -------------------------------------------------------------------------

  /** A sender between admission and produce, a producer's buffer, or a log record at or past
      the committed position of its partition. */
  ghost predicate HasCarrier(s: State, t: TaskID) {
    || BeingSent(s, t)
    || Buffered(s, t)
    || exists p, o: nat :: s.Group(p).committed <= o < |s.Log(p)| && s.Log(p)[o].id == t
  }

  lemma {:induction false} StartIsQueueOk()
    ensures QueueOk(Start)
  {
    assert Groups.LaneWithin(Offsets.EmptyLane, 0);
  }

  /** The theorem: whatever happened before, from a moment when r's table is empty (an
      incarnation starts) and as long as no step drops the last carrier of a task, no queued task
      is lost. */
  lemma {:induction false} QueuedTasksAreCarried(cfg: Settings, before: seq<Step>, s: State, steps: seq<Step>,
      s': State, r: RunID, t: TaskID)
    requires Run(cfg, Start, before, s) && s.store.Tasks(r) == map[]
    requires LosslessRun(cfg, s, steps, s', r)
    requires t.run == r && s'.Queued(t)
    ensures HasCarrier(s', t)
  {
    StartIsQueueOk();
    RunKeepsQueue(cfg, Start, before, s);
    RunLosesNothing(cfg, s, steps, s', r);
    CarriedHasCarrier(s', t);
  }

  lemma {:induction false} CarriedHasCarrier(s: State, t: TaskID)
    requires Carried(s, t)
    ensures HasCarrier(s, t)
  {
    if !BeingSent(s, t) && !Buffered(s, t) {
      var p: nat, o: nat :| LiveRecord(s, p, o, t);
      assert s.Group(p).committed <= o < |s.Log(p)| && s.Log(p)[o].id == t;
    }
  }
}
