/** What each script means for every slot, task and counter, said without the functions the scripts
    are written as: who gets a slot and who loses one, what an answer tells, and what one call undoes
    of another. */
module Scripts {
  import opened RunState

  // ---- Slots -------------------------------------------------------------------------------

  /** The runs whose slot has not expired. */
  function Unexpired(s: Store, now: int): set<RunID> {
    set q | q in s.slots && s.slots[q] > now
  }

  /** Tables and counters stay as they are. */
  ghost predicate SameRuns(s: Store, s': Store) {
    forall q :: s'.Tasks(q) == s.Tasks(q) && s'.Active(q) == s.Active(q) && s'.Links(q) == s.Links(q)
  }

  /** Slots of other runs stay as they are. */
  ghost predicate SameSlots(s: Store, s': Store, r: RunID) {
    forall q | q != r :: (q in s'.slots <==> q in s.slots) && (q in s.slots ==> s'.slots[q] == s.slots[q])
  }

  lemma {:induction false} KeptAre(s: Store, now: int)
    ensures (s.slots - Expired(s.slots, now)).Keys == Unexpired(s, now)
    ensures |s.slots - Expired(s.slots, now)| == |Unexpired(s, now)|
  {
    var kept := s.slots - Expired(s.slots, now);
    assert kept.Keys == Unexpired(s, now);
    assert |kept| == |kept.Keys|;
  }

  /** An acquisition succeeds if and only if the run holds an unexpired slot or one is free; then its
      slot lasts until the end of a new lease. Expired slots go, and are reported; unexpired ones of
      other runs stay. */
  lemma {:induction false} AcquiredIff(s: Store, now: int, r: RunID, maxConcurrent: int, lease: int)
    ensures var (s', acquired, reaped) := Acquire(s, now, r, maxConcurrent, lease);
      && (acquired <==> r in Unexpired(s, now) || |Unexpired(s, now)| < maxConcurrent)
      && (acquired ==> r in s'.slots && s'.slots[r] == now + lease) && (!acquired ==> r !in s'.slots)
      && (forall q | q != r :: q in s'.slots <==> q in Unexpired(s, now))
      && (forall q | q in s'.slots && q != r :: s'.slots[q] == s.slots[q])
      && (forall q :: q in reaped <==> q in s.slots && s.slots[q] <= now)
      && SameRuns(s, s')
  {
    KeptAre(s, now);
  }

  lemma {:induction false} OneLess(s: Store, s': Store, now: int, later: int, r: RunID)
    requires r in Unexpired(s, now) && Unexpired(s', later) <= Unexpired(s, now) - {r}
    ensures |Unexpired(s', later)| < |Unexpired(s, now)|
  {
    CardinalityMonotone(Unexpired(s', later), Unexpired(s, now) - {r});
  }

  /** A release frees that one slot, for any other run. */
  lemma {:induction false} ReleasedIsFree(s: Store, now: int, r: RunID, q: RunID, maxConcurrent: int, lease: int)
    requires r in Unexpired(s, now) && |Unexpired(s, now)| <= maxConcurrent
    ensures SameSlots(s, Release(s, r), r) && r !in Release(s, r).slots && SameRuns(s, Release(s, r))
    ensures Acquire(Release(s, r), now, q, maxConcurrent, lease).1
  {
    AcquiredIff(Release(s, r), now, q, maxConcurrent, lease);
    OneLess(s, Release(s, r), now, now, r);
  }

  /** So does the end of a lease: a run that has died does not keep its slot. */
  lemma {:induction false} ExpiredIsFree(s: Store, now: int, r: RunID, later: int, q: RunID, maxConcurrent: int,
      lease: int)
    requires r in Unexpired(s, now) && |Unexpired(s, now)| <= maxConcurrent && s.slots[r] <= later
    ensures Acquire(s, later, q, maxConcurrent, lease).1
  {
    AcquiredIff(s, later, q, maxConcurrent, lease);
    OneLess(s, s, now, later, r);
  }

  /** Work renews the slot of a run while it lasts, and does not bring it back. */
  ghost predicate RenewsLive(s: Store, s': Store, now: int, r: RunID, lease: int) {
    && SameSlots(s, s', r)
    && (if r in Unexpired(s, now) then r in s'.slots && s'.slots[r] == now + lease
        else (r in s'.slots <==> r in s.slots) && (r in s.slots ==> s'.slots[r] == s.slots[r]))
  }

  // ---- Tasks -------------------------------------------------------------------------------

  /** Of all tables and counters only those of r may differ, and of its table only task t. */
  ghost predicate OnlyTask(s: Store, s': Store, r: RunID, t: TaskID) {
    && (forall q | q != r :: s'.Tasks(q) == s.Tasks(q) && s'.Active(q) == s.Active(q) && s'.Links(q) == s.Links(q))
    && forall u | u != t ::
         (u in s'.Tasks(r) <==> u in s.Tasks(r)) && (u in s.Tasks(r) ==> s'.Tasks(r)[u] == s.Tasks(r)[u])
  }

  /** What each answer of the admission tells, and what it did. */
  lemma {:induction false} AdmissionTells(s: Store, now: int, r: RunID, t: TaskID, maxLinks: int)
    ensures var (s', answer) := Admit(s, now, r, t, maxLinks);
      && (answer == RunInactive <==> r !in Unexpired(s, now))
      && (answer == Duplicate <==> r in Unexpired(s, now) && t in s.Tasks(r))
      && (answer == LimitReached <==> r in Unexpired(s, now) && t !in s.Tasks(r) && s.Links(r) >= maxLinks)
      && (answer != Admitted ==> s' == s)
      && (answer == Admitted ==>
            && s'.slots == s.slots && OnlyTask(s, s', r, t) && s'.IsQueued(r, t)
            && s'.Active(r) == s.Active(r) + 1 && s'.Links(r) == s.Links(r) + 1)
  {
  }

  /** Taking an admission back leaves everything as it was before. */
  lemma {:induction false} UndoRestores(s: Store, now: int, r: RunID, t: TaskID, maxLinks: int)
    requires Admit(s, now, r, t, maxLinks).1 == Admitted
    ensures var undone := Unadmit(Admit(s, now, r, t, maxLinks).0, r, t);
      SameRuns(s, undone) && undone.slots == s.slots
  {
    var admitted := Admit(s, now, r, t, maxLinks).0;
    assert admitted.Tasks(r) == s.Tasks(r)[t := Queued];
    assert s.Tasks(r)[t := Queued] - {t} == s.Tasks(r);
  }

  /** An undo without an admission, or after the task was done, does nothing. */
  lemma {:induction false} UndoOfOthers(s: Store, r: RunID, t: TaskID)
    requires t !in s.Tasks(r) || s.Tasks(r)[t] == Done
    ensures Unadmit(s, r, t) == s
  {
  }

  /** The state read tells whether the run is active and the task done; it only renews. */
  lemma {:induction false} StateTells(s: Store, now: int, r: RunID, t: TaskID, lease: int)
    ensures var (s', reply) := TaskState(s, now, r, t, lease);
      && (reply.runActive <==> r in Unexpired(s, now))
      && (reply.done <==> t in s.Tasks(r) && s.Tasks(r)[t] != Queued)
      && RenewsLive(s, s', now, r, lease) && SameRuns(s, s')
  {
  }

  /** A completion counts a queued task down, marks it done and renews; done again, or of a task the
      table does not have, it does nothing. */
  lemma {:induction false} CompletedOnce(s: Store, now: int, r: RunID, t: TaskID, lease: int)
    ensures var (s', reply) := Complete(s, now, r, t, lease);
      && (reply.counted <==> t in s.Tasks(r) && s.Tasks(r)[t] == Queued)
      && (!reply.counted ==> s' == s)
      && (reply.counted ==>
            && OnlyTask(s, s', r, t) && t in s'.Tasks(r) && s'.Tasks(r)[t] == Done
            && reply.left == s'.Active(r) == s.Active(r) - 1 && s'.Links(r) == s.Links(r)
            && RenewsLive(s, s', now, r, lease))
      && forall later, again :: Complete(s', later, r, t, again) == (s', Completion(false, 0))
  {
    var (s', reply) := Complete(s, now, r, t, lease);
    assert !s'.IsQueued(r, t);
  }

  /** Without its keys a run starts over: nothing is known, counted or active; other runs and all
      slots keep theirs, and an active run with room admits any task. */
  lemma {:induction false} CleanedStartsOver(s: Store, r: RunID, now: int, t: TaskID, maxLinks: int)
    ensures var s' := Cleanup(s, r);
      && s'.Tasks(r) == map[] && s'.Active(r) == 0 && s'.Links(r) == 0 && s'.slots == s.slots
      && (forall q | q != r :: s'.Tasks(q) == s.Tasks(q) && s'.Active(q) == s.Active(q) && s'.Links(q) == s.Links(q))
      && (r in Unexpired(s, now) && maxLinks > 0 ==> Admit(s', now, r, t, maxLinks).1 == Admitted)
  {
  }
}
