/** The shared run state kept in Redis: leased run slots, one task table per run, and two
    counters per run. Every script is one atomic step, written once as a function on the
    whole store; the class below performs the same steps in place, command by command. */
module RunState {
  datatype RunID = RunID(key: string)

  /** The hash of run and URL, taken to be injective: it is the pair itself. */
  datatype TaskID = TaskID(run: RunID, url: string)

  datatype Status = Queued | Done

  datatype Admission = Admitted | Duplicate | LimitReached | RunInactive

  datatype TaskStateReply = TaskStateReply(runActive: bool, done: bool)

  datatype Completion = Completion(counted: bool, left: int)

  /** `slots` is the sorted set of leases (run -> expiry); a missing table is an empty hash and
      a missing counter reads as zero. */
  datatype Store = Store(
    slots: map<RunID, int>,
    tasks: map<RunID, map<TaskID, Status>>,
    active: map<RunID, int>,
    links: map<RunID, int>)
  {
    function Tasks(r: RunID): map<TaskID, Status> {
      if r in tasks then tasks[r] else map[]
    }

    function Active(r: RunID): int {
      if r in active then active[r] else 0
    }

    function Links(r: RunID): int {
      if r in links then links[r] else 0
    }

    predicate Live(r: RunID, now: int) {
      r in slots && slots[r] > now
    }

    predicate IsQueued(r: RunID, t: TaskID) {
      t in Tasks(r) && Tasks(r)[t] == Queued
    }
  }

  const EmptyStore := Store(map[], map[], map[], map[])

  function Expired(slots: map<RunID, int>, now: int): set<RunID> {
    set r | r in slots && slots[r] <= now
  }

  /** The script on the sorted set alone: expired leases go first, then r is added if it still
      holds a slot or one is free. */
  function AcquireSlot(slots: map<RunID, int>, now: int, r: RunID, maxConcurrent: int, lease: int)
    : (map<RunID, int>, bool)
  {
    var kept := slots - Expired(slots, now);
    if r in kept || |kept| < maxConcurrent then (kept[r := now + lease], true) else (kept, false)
  }

  function Acquire(s: Store, now: int, r: RunID, maxConcurrent: int, lease: int): (Store, bool, set<RunID>) {
    var (slots, acquired) := AcquireSlot(s.slots, now, r, maxConcurrent, lease);
    (s.(slots := slots), acquired, Expired(s.slots, now))
  }

  function Release(s: Store, r: RunID): Store {
    s.(slots := s.slots - {r})
  }

  function Admit(s: Store, now: int, r: RunID, t: TaskID, maxLinks: int): (Store, Admission) {
    if !s.Live(r, now) then (s, RunInactive)
    else if t in s.Tasks(r) then (s, Duplicate)
    else if s.Links(r) >= maxLinks then (s, LimitReached)
    else (s.(tasks := s.tasks[r := s.Tasks(r)[t := Queued]],
             active := s.active[r := s.Active(r) + 1],
             links := s.links[r := s.Links(r) + 1]), Admitted)
  }

  function Unadmit(s: Store, r: RunID, t: TaskID): Store {
    if !s.IsQueued(r, t) then s
    else s.(tasks := s.tasks[r := s.Tasks(r) - {t}],
            active := s.active[r := s.Active(r) - 1],
            links := s.links[r := s.Links(r) - 1])
  }

  /** A lease is renewed only while it is still live. */
  function Renew(s: Store, now: int, r: RunID, lease: int): Store {
    if s.Live(r, now) then s.(slots := s.slots[r := now + lease]) else s
  }

  function TaskState(s: Store, now: int, r: RunID, t: TaskID, lease: int): (Store, TaskStateReply) {
    (Renew(s, now, r, lease), TaskStateReply(s.Live(r, now), t in s.Tasks(r) && s.Tasks(r)[t] == Done))
  }

  function Complete(s: Store, now: int, r: RunID, t: TaskID, lease: int): (Store, Completion) {
    if !s.IsQueued(r, t) then (s, Completion(false, 0))
    else
      var left := s.Active(r) - 1;
      var counted := s.(tasks := s.tasks[r := s.Tasks(r)[t := Done]], active := s.active[r := left]);
      (Renew(counted, now, r, lease), Completion(true, left))
  }

  function Cleanup(s: Store, r: RunID): Store {
    s.(tasks := s.tasks - {r}, active := s.active - {r}, links := s.links - {r})
  }

  // ---------------------------------------------------------------------------------------
  // The scripts as they run: one command after another on the stored keys.

  class RunStateManager {
    var slots: map<RunID, int>
    var tasks: map<RunID, map<TaskID, Status>>
    var active: map<RunID, int>
    var links: map<RunID, int>

    constructor ()
      ensures View() == EmptyStore
    {
      slots, tasks, active, links := map[], map[], map[], map[];
    }

    function View(): Store
      reads this
    {
      Store(slots, tasks, active, links)
    }

    method AcquireRunSlot(now: int, r: RunID, maxConcurrent: int, lease: int)
        returns (acquired: bool, reaped: set<RunID>)
      modifies this
      ensures (View(), acquired, reaped) == Acquire(old(View()), now, r, maxConcurrent, lease)
    {
      reaped := set id | id in slots && slots[id] <= now;
      if |reaped| > 0 {
        slots := slots - reaped;
      } else {
        assert reaped == {} && slots - reaped == slots;
      }
      if r in slots || |slots| < maxConcurrent {
        slots := slots[r := now + lease];
        return true, reaped;
      }
      return false, reaped;
    }

    method ReleaseRunSlot(r: RunID)
      modifies this
      ensures View() == Release(old(View()), r)
    {
      slots := slots - {r};
    }

    method AdmitTask(now: int, r: RunID, t: TaskID, maxLinks: int) returns (admission: Admission)
      modifies this
      ensures (View(), admission) == Admit(old(View()), now, r, t, maxLinks)
    {
      if r !in slots || slots[r] <= now {
        return RunInactive;
      }
      if r in tasks && t in tasks[r] {
        return Duplicate;
      }
      if (if r in links then links[r] else 0) >= maxLinks {
        return LimitReached;
      }
      tasks := tasks[r := (if r in tasks then tasks[r] else map[])[t := Queued]];
      active := active[r := (if r in active then active[r] else 0) + 1];
      links := links[r := (if r in links then links[r] else 0) + 1];
      return Admitted;
    }

    method UnadmitTask(r: RunID, t: TaskID)
      modifies this
      ensures View() == Unadmit(old(View()), r, t)
    {
      if r !in tasks || t !in tasks[r] || tasks[r][t] != Queued {
        return;
      }
      tasks := tasks[r := tasks[r] - {t}];
      active := active[r := (if r in active then active[r] else 0) - 1];
      links := links[r := (if r in links then links[r] else 0) - 1];
    }

    method ReadTaskState(now: int, r: RunID, t: TaskID, lease: int) returns (reply: TaskStateReply)
      modifies this
      ensures (View(), reply) == TaskState(old(View()), now, r, t, lease)
    {
      var running := r in slots && slots[r] > now;
      if running {
        slots := slots[r := now + lease];
      }
      return TaskStateReply(running, r in tasks && t in tasks[r] && tasks[r][t] == Done);
    }

    method CompleteTask(now: int, r: RunID, t: TaskID, lease: int) returns (completion: Completion)
      modifies this
      ensures (View(), completion) == Complete(old(View()), now, r, t, lease)
    {
      if r !in tasks || t !in tasks[r] || tasks[r][t] != Queued {
        return Completion(false, 0);
      }
      tasks := tasks[r := tasks[r][t := Done]];
      var left := (if r in active then active[r] else 0) - 1;
      active := active[r := left];
      if r in slots && slots[r] > now {
        slots := slots[r := now + lease];
      }
      return Completion(true, left);
    }

    method CleanupRun(r: RunID)
      modifies this
      ensures View() == Cleanup(old(View()), r)
    {
      active := active - {r};
      links := links - {r};
      tasks := tasks - {r};
    }
  }

  // ---------------------------------------------------------------------------------------
  // Runs of script calls, in the order Redis executes them.

  datatype Config = Config(maxConcurrent: nat, lease: nat, maxLinks: RunID -> nat)

  datatype Call =
    | CallAcquire(now: int, r: RunID)
    | CallRelease(r: RunID)
    | CallAdmit(now: int, r: RunID, t: TaskID)
    | CallUnadmit(r: RunID, t: TaskID)
    | CallTaskState(now: int, r: RunID, t: TaskID)
    | CallComplete(now: int, r: RunID, t: TaskID)
    | CallCleanup(r: RunID)

  function Apply(cfg: Config, s: Store, c: Call): Store {
    match c
    case CallAcquire(now, r) => Acquire(s, now, r, cfg.maxConcurrent, cfg.lease).0
    case CallRelease(r) => Release(s, r)
    case CallAdmit(now, r, t) => Admit(s, now, r, t, cfg.maxLinks(r)).0
    case CallUnadmit(r, t) => Unadmit(s, r, t)
    case CallTaskState(now, r, t) => TaskState(s, now, r, t, cfg.lease).0
    case CallComplete(now, r, t) => Complete(s, now, r, t, cfg.lease).0
    case CallCleanup(r) => Cleanup(s, r)
  }

  function ApplyAll(cfg: Config, s: Store, calls: seq<Call>): Store {
    if calls == [] then s else Apply(cfg, ApplyAll(cfg, s, calls[..|calls| - 1]), calls[|calls| - 1])
  }

  // ---- The counters count ----------------------------------------------------------------

  function QueuedTasks(table: map<TaskID, Status>): set<TaskID> {
    set t | t in table && table[t] == Queued
  }

  /** active = number of queued entries, links = size of the table <= MaxLinks. */
  ghost predicate CountersMatch(cfg: Config, s: Store, r: RunID) {
    && s.Active(r) == |QueuedTasks(s.Tasks(r))|
    && s.Links(r) == |s.Tasks(r)|
    && s.Links(r) <= cfg.maxLinks(r)
  }

  lemma {:induction false} CardinalityMonotone<T>(a: set<T>, b: set<T>)
    requires a <= b
    ensures |a| <= |b|
  {
    assert b == a + (b - a);
  }

  lemma {:induction false} SetSize<K, V>(m: map<K, V>, k: K, v: V)
    ensures |m[k := v]| == if k in m then |m| else |m| + 1
  {
    assert m[k := v].Keys == m.Keys + {k};
    assert |m| == |m.Keys| && |m[k := v]| == |m[k := v].Keys|;
  }

  lemma {:induction false} RemoveSize<K, V>(m: map<K, V>, gone: set<K>)
    ensures |m - gone| <= |m|
    ensures forall k | k in m && gone == {k} :: |m - gone| == |m| - 1
  {
    assert |m| == |m.Keys| && |m - gone| == |(m - gone).Keys|;
    assert (m - gone).Keys == m.Keys - gone;
    assert m.Keys == (m.Keys - gone) + (m.Keys * gone);
    if k :| k in m && gone == {k} {
      assert m.Keys * gone == {k};
    }
  }

  lemma {:induction false} EnterCounts(table: map<TaskID, Status>, t: TaskID)
    requires t !in table
    ensures |table[t := Queued]| == |table| + 1
    ensures |QueuedTasks(table[t := Queued])| == |QueuedTasks(table)| + 1
  {
    SetSize(table, t, Queued);
    assert QueuedTasks(table[t := Queued]) == QueuedTasks(table) + {t};
  }

  lemma {:induction false} LeaveCounts(table: map<TaskID, Status>, t: TaskID)
    requires t in table && table[t] == Queued
    ensures |table - {t}| == |table| - 1
    ensures |QueuedTasks(table - {t})| == |QueuedTasks(table)| - 1
  {
    RemoveSize(table, {t});
    assert QueuedTasks(table - {t}) == QueuedTasks(table) - {t};
  }

  lemma {:induction false} FinishCounts(table: map<TaskID, Status>, t: TaskID)
    requires t in table && table[t] == Queued
    ensures |table[t := Done]| == |table|
    ensures |QueuedTasks(table[t := Done])| == |QueuedTasks(table)| - 1
  {
    SetSize(table, t, Done);
    assert QueuedTasks(table[t := Done]) == QueuedTasks(table) - {t};
  }

  lemma {:induction false} AdmitCounts(cfg: Config, s: Store, now: int, q: RunID, t: TaskID, r: RunID)
    requires CountersMatch(cfg, s, r)
    ensures CountersMatch(cfg, Admit(s, now, q, t, cfg.maxLinks(q)).0, r)
  {
    if q == r && Admit(s, now, q, t, cfg.maxLinks(q)).1 == Admitted {
      EnterCounts(s.Tasks(r), t);
    }
  }

  lemma {:induction false} UnadmitCounts(cfg: Config, s: Store, q: RunID, t: TaskID, r: RunID)
    requires CountersMatch(cfg, s, r)
    ensures CountersMatch(cfg, Unadmit(s, q, t), r)
  {
    if q == r && s.IsQueued(q, t) {
      LeaveCounts(s.Tasks(r), t);
    }
  }

  lemma {:induction false} CompleteCounts(cfg: Config, s: Store, now: int, q: RunID, t: TaskID, r: RunID)
    requires CountersMatch(cfg, s, r)
    ensures CountersMatch(cfg, Complete(s, now, q, t, cfg.lease).0, r)
  {
    if q == r && s.IsQueued(q, t) {
      FinishCounts(s.Tasks(r), t);
    }
  }

  lemma {:induction false} CountersKept(cfg: Config, s: Store, c: Call, r: RunID)
    requires CountersMatch(cfg, s, r)
    ensures CountersMatch(cfg, Apply(cfg, s, c), r)
  {
    match c {
      case CallAdmit(now, q, t) => AdmitCounts(cfg, s, now, q, t, r);
      case CallUnadmit(q, t) => UnadmitCounts(cfg, s, q, t, r);
      case CallComplete(now, q, t) => CompleteCounts(cfg, s, now, q, t, r);
      case CallCleanup(q) => assert QueuedTasks(map[]) == {};
      case CallAcquire(_, _) =>
      case CallRelease(_) =>
      case CallTaskState(_, _, _) =>
    }
  }

  lemma {:induction false} CountersInEveryReachableState(cfg: Config, calls: seq<Call>, r: RunID)
    ensures CountersMatch(cfg, ApplyAll(cfg, EmptyStore, calls), r)
  {
    if calls == [] {
      assert QueuedTasks(map[]) == {};
    } else {
      CountersInEveryReachableState(cfg, calls[..|calls| - 1], r);
      CountersKept(cfg, ApplyAll(cfg, EmptyStore, calls[..|calls| - 1]), calls[|calls| - 1], r);
    }
  }

  // ---- The termination measure -----------------------------------------------------------

  function Potential(cfg: Config, s: Store, r: RunID): int {
    2 * (cfg.maxLinks(r) - s.Links(r)) + s.Active(r)
  }

  /** What one call did to the table of run r: it admitted, un-admitted or completed a task. */
  datatype Tally = Tally(admitted: nat, unadmitted: nat, completed: nat)

  function TallyOf(cfg: Config, s: Store, c: Call, r: RunID): Tally {
    match c
    case CallAdmit(now, q, t) =>
      Tally(if q == r && Admit(s, now, r, t, cfg.maxLinks(r)).1 == Admitted then 1 else 0, 0, 0)
    case CallUnadmit(q, t) => Tally(0, if q == r && s.IsQueued(r, t) then 1 else 0, 0)
    case CallComplete(now, q, t) =>
      Tally(0, 0, if q == r && Complete(s, now, r, t, cfg.lease).1.counted then 1 else 0)
    case _ => Tally(0, 0, 0)
  }

  function TallyAll(cfg: Config, s: Store, calls: seq<Call>, r: RunID): Tally {
    if calls == [] then Tally(0, 0, 0)
    else
      var before := TallyAll(cfg, s, calls[..|calls| - 1], r);
      var last := TallyOf(cfg, ApplyAll(cfg, s, calls[..|calls| - 1]), calls[|calls| - 1], r);
      Tally(before.admitted + last.admitted, before.unadmitted + last.unadmitted, before.completed + last.completed)
  }

  /** Each admission and each counted completion lowers the potential by exactly one, and an
      undone admission raises it by one; nothing else in the incarnation moves it. */
  lemma {:induction false} PotentialAccounts(cfg: Config, s: Store, calls: seq<Call>, r: RunID)
    requires CallCleanup(r) !in calls
    ensures var done := TallyAll(cfg, s, calls, r);
      Potential(cfg, ApplyAll(cfg, s, calls), r)
        == Potential(cfg, s, r) - done.admitted - done.completed + done.unadmitted
    ensures var done := TallyAll(cfg, s, calls, r);
      ApplyAll(cfg, s, calls).Links(r) == s.Links(r) + done.admitted - done.unadmitted
  {
    if calls != [] {
      var n := |calls| - 1;
      PotentialAccounts(cfg, s, calls[..n], r);
      assert calls[n] in calls;
      LinksMove(cfg, ApplyAll(cfg, s, calls[..n]), calls[n], r);
    }
  }

  lemma {:induction false} LinksMove(cfg: Config, s: Store, c: Call, r: RunID)
    requires c != CallCleanup(r)
    ensures var did := TallyOf(cfg, s, c, r);
      && Apply(cfg, s, c).Links(r) == s.Links(r) + did.admitted - did.unadmitted
      && Apply(cfg, s, c).Active(r) == s.Active(r) + did.admitted - did.unadmitted - did.completed
  {
    match c {
      case CallAcquire(_, _) =>
      case CallRelease(_) =>
      case CallAdmit(_, _, _) =>
      case CallUnadmit(_, _) =>
      case CallTaskState(_, _, _) =>
      case CallComplete(_, _, _) =>
      case CallCleanup(_) =>
    }
  }

  /** From an empty table an incarnation changes the table at most 2 * MaxLinks times, plus two
      for every produce failure that had to be undone, and it produces at most MaxLinks tasks. */
  lemma {:induction false} IncarnationIsBounded(cfg: Config, before: seq<Call>, calls: seq<Call>, r: RunID)
    requires CallCleanup(r) !in calls
    requires ApplyAll(cfg, EmptyStore, before).Tasks(r) == map[]
    ensures var done := TallyAll(cfg, ApplyAll(cfg, EmptyStore, before), calls, r);
      && done.admitted + done.completed + done.unadmitted <= 2 * cfg.maxLinks(r) + 2 * done.unadmitted
      && done.admitted - done.unadmitted <= cfg.maxLinks(r)
  {
    var s := ApplyAll(cfg, EmptyStore, before);
    CountersInEveryReachableState(cfg, before, r);
    assert QueuedTasks(s.Tasks(r)) == {};
    PotentialAccounts(cfg, s, calls, r);
    CountersInEveryReachableState(cfg, before + calls, r);
    ApplyAllConcat(cfg, EmptyStore, before, calls);
  }

  lemma {:induction false} ApplyAllConcat(cfg: Config, s: Store, a: seq<Call>, b: seq<Call>)
    ensures ApplyAll(cfg, s, a + b) == ApplyAll(cfg, ApplyAll(cfg, s, a), b)
  {
    if b == [] {
      assert a + b == a;
    } else {
      assert (a + b)[..|a + b| - 1] == a + b[..|b| - 1];
      ApplyAllConcat(cfg, s, a, b[..|b| - 1]);
    }
  }

  // ---- Slot safety -----------------------------------------------------------------------

  function TimeOf(c: Call, previous: int): int {
    match c
    case CallAcquire(now, _) => now
    case CallAdmit(now, _, _) => now
    case CallTaskState(now, _, _) => now
    case CallComplete(now, _, _) => now
    case _ => previous
  }

  function ClockAfter(calls: seq<Call>, start: int): int {
    if calls == [] then start else TimeOf(calls[|calls| - 1], ClockAfter(calls[..|calls| - 1], start))
  }

  /** Redis's clock never goes back between two scripts. */
  ghost predicate Monotone(calls: seq<Call>, start: int) {
    forall i | 0 <= i < |calls| :: ClockAfter(calls[..i], start) <= TimeOf(calls[i], ClockAfter(calls[..i], start))
  }

  ghost predicate SlotsBounded(cfg: Config, slots: map<RunID, int>, now: int) {
    && |slots| <= cfg.maxConcurrent
    && forall r | r in slots :: slots[r] <= now + cfg.lease
  }

  /** What one script may do to the slots at time `now`: an unexpired slot leaves only by an
      explicit release, a held slot's expiry never moves back, and an expired or missing slot
      comes back only by acquiring it again. */
  ghost predicate SlotStepSafe(slots: map<RunID, int>, c: Call, slots': map<RunID, int>, now: int) {
    && (forall r | r in slots && slots[r] > now && c != CallRelease(r) :: r in slots')
    && (forall r | r in slots && r in slots' :: slots[r] <= slots'[r])
    && (forall r | r in slots' && slots'[r] > now && (r !in slots || slots[r] <= now) :: c == CallAcquire(now, r))
  }

  ghost predicate SlotsSafe(cfg: Config, slots: map<RunID, int>, c: Call, slots': map<RunID, int>, now: int) {
    SlotsBounded(cfg, slots', now) && SlotStepSafe(slots, c, slots', now)
  }

  lemma {:induction false} AcquireKeepsSlots(cfg: Config, slots: map<RunID, int>, now: int, r: RunID, before: int)
    requires SlotsBounded(cfg, slots, before) && before <= now
    ensures SlotsSafe(cfg, slots, CallAcquire(now, r), AcquireSlot(slots, now, r, cfg.maxConcurrent, cfg.lease).0, now)
  {
    var kept := slots - Expired(slots, now);
    RemoveSize(slots, Expired(slots, now));
    SetSize(kept, r, now + cfg.lease);
  }

  lemma {:induction false} ReleaseKeepsSlots(cfg: Config, slots: map<RunID, int>, r: RunID, now: int)
    requires SlotsBounded(cfg, slots, now)
    ensures SlotsSafe(cfg, slots, CallRelease(r), slots - {r}, now)
  {
    RemoveSize(slots, {r});
  }

  lemma {:induction false} RenewKeepsSlots(cfg: Config, slots: map<RunID, int>, c: Call, r: RunID, now: int,
      before: int)
    requires SlotsBounded(cfg, slots, before) && before <= now
    requires r in slots && slots[r] > now
    ensures SlotsSafe(cfg, slots, c, slots[r := now + cfg.lease], now)
  {
    SetSize(slots, r, now + cfg.lease);
  }

  lemma {:induction false} UntouchedSlotsSafe(cfg: Config, slots: map<RunID, int>, c: Call, now: int, before: int)
    requires SlotsBounded(cfg, slots, before) && before <= now
    ensures SlotsSafe(cfg, slots, c, slots, now)
  {
  }

  /** The slots a call leaves: acquired, released, renewed or untouched. */
  function SlotsAfter(cfg: Config, s: Store, c: Call): (slots: map<RunID, int>)
    ensures slots == Apply(cfg, s, c).slots
  {
    match c
    case CallAcquire(now, r) => AcquireSlot(s.slots, now, r, cfg.maxConcurrent, cfg.lease).0
    case CallRelease(r) => s.slots - {r}
    case CallTaskState(now, r, _) => if s.Live(r, now) then s.slots[r := now + cfg.lease] else s.slots
    case CallComplete(now, r, t) =>
      if s.IsQueued(r, t) && s.Live(r, now) then s.slots[r := now + cfg.lease] else s.slots
    case _ => s.slots
  }

  lemma {:induction false} SlotsKept(cfg: Config, s: Store, c: Call, before: int)
    requires SlotsBounded(cfg, s.slots, before)
    requires before <= TimeOf(c, before)
    ensures SlotsSafe(cfg, s.slots, c, SlotsAfter(cfg, s, c), TimeOf(c, before))
  {
    var now := TimeOf(c, before);
    if SlotsAfter(cfg, s, c) == s.slots {
      UntouchedSlotsSafe(cfg, s.slots, c, now, before);
    } else if c.CallAcquire? {
      AcquireKeepsSlots(cfg, s.slots, now, c.r, before);
    } else if c.CallRelease? {
      ReleaseKeepsSlots(cfg, s.slots, c.r, before);
    } else {
      RenewKeepsSlots(cfg, s.slots, c, c.r, now, before);
    }
  }

  /** A task enters a table only under a live lease. */
  lemma {:induction false} AdmittedOnlyUnderLease(cfg: Config, s: Store, c: Call, r: RunID, t: TaskID)
    requires t !in s.Tasks(r) && t in Apply(cfg, s, c).Tasks(r)
    ensures c.CallAdmit? && c.r == r && c.t == t && s.Live(r, c.now)
  {
    match c {
      case CallAcquire(_, _) =>
      case CallRelease(_) =>
      case CallAdmit(_, _, _) =>
      case CallUnadmit(_, _) =>
      case CallTaskState(_, _, _) =>
      case CallComplete(_, _, _) =>
      case CallCleanup(_) =>
    }
  }

  lemma {:induction false} SlotsBoundedThroughout(cfg: Config, calls: seq<Call>, start: int)
    requires Monotone(calls, start)
    ensures SlotsBounded(cfg, ApplyAll(cfg, EmptyStore, calls).slots, ClockAfter(calls, start))
  {
    if calls != [] {
      var n := |calls| - 1;
      MonotonePrefix(calls, n, start);
      SlotsBoundedThroughout(cfg, calls[..n], start);
      assert calls[..n] == calls[..|calls| - 1];
      SlotsKept(cfg, ApplyAll(cfg, EmptyStore, calls[..n]), calls[n], ClockAfter(calls[..n], start));
    }
  }

  lemma {:induction false} MonotonePrefix(calls: seq<Call>, n: nat, start: int)
    requires Monotone(calls, start) && n <= |calls|
    ensures Monotone(calls[..n], start)
  {
    forall i | 0 <= i < n
      ensures ClockAfter(calls[..n][..i], start) <= TimeOf(calls[..n][i], ClockAfter(calls[..n][..i], start))
    {
      assert calls[..i] == calls[..n][..i];
    }
  }

  /** Over every run of scripts with a monotone clock: never more than maxConcurrent slots, and
      every single step is safe for every slot. */
  lemma {:induction false} SlotSafety(cfg: Config, calls: seq<Call>, start: int, i: nat)
    requires Monotone(calls, start) && i < |calls|
    ensures SlotsSafe(cfg, ApplyAll(cfg, EmptyStore, calls[..i]).slots, calls[i],
                      ApplyAll(cfg, EmptyStore, calls[..i + 1]).slots, ClockAfter(calls[..i + 1], start))
  {
    MonotonePrefix(calls, i, start);
    SlotsBoundedThroughout(cfg, calls[..i], start);
    assert calls[..i + 1][..i] == calls[..i] && calls[..i + 1][i] == calls[i];
    SlotsKept(cfg, ApplyAll(cfg, EmptyStore, calls[..i]), calls[i], ClockAfter(calls[..i], start));
  }
}
