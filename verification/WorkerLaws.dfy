/** What handling one task comes to, said by the links of its page and the tables: which children are
    sent, what the run then knows, and when the task is settled. */
module WorkerLaws {
  import opened RunState
  import opened Protocol
  import opened Worker

  function ChildID(parent: Task, link: string): TaskID {
    TaskID(parent.id.run, link)
  }

  /** The children of a page its run does not know yet, each once, in the order of their links. */
  function NewChildren(known: set<TaskID>, parent: Task, links: seq<string>): seq<Task> {
    if links == [] then []
    else
      var n := |links| - 1;
      NewChildren(known, parent, links[..n])
        + if ChildID(parent, links[n]) in known || links[n] in links[..n] then []
          else [Task(ChildID(parent, links[n]), parent.depth + 1)]
  }

  /** A table with these links queued, if it does not have them yet. */
  function WithLinks(table: map<TaskID, Status>, parent: Task, links: seq<string>): map<TaskID, Status> {
    if links == [] then table
    else
      var before, id := WithLinks(table, parent, links[..|links| - 1]), ChildID(parent, links[|links| - 1]);
      if id in before then before else before[id := Queued]
  }

  /** Such a table has what it had, as it was, and the links, queued. */
  lemma {:induction false} WithLinksHas(table: map<TaskID, Status>, parent: Task, links: seq<string>)
    ensures forall t | t in table ::
      t in WithLinks(table, parent, links) && WithLinks(table, parent, links)[t] == table[t]
    ensures forall l | l in links :: ChildID(parent, l) in WithLinks(table, parent, links)
    ensures forall t | t in WithLinks(table, parent, links) && t !in table ::
      WithLinks(table, parent, links)[t] == Queued && t.run == parent.id.run && t.url in links
  {
    if links != [] {
      var n := |links| - 1;
      WithLinksHas(table, parent, links[..n]);
      assert links == links[..n] + [links[n]];
    }
  }

  lemma {:induction false} IsKnown(table: map<TaskID, Status>, parent: Task, links: seq<string>, l: string)
    ensures ChildID(parent, l) in WithLinks(table, parent, links) <==> ChildID(parent, l) in table.Keys || l in links
  {
    WithLinksHas(table, parent, links);
  }

  lemma {:induction false} OneMoreLink(table: map<TaskID, Status>, parent: Task, links: seq<string>, l: string)
    ensures var id, before := ChildID(parent, l), WithLinks(table, parent, links);
      && WithLinks(table, parent, links + [l]) == (if id in before then before else before[id := Queued])
      && NewChildren(table.Keys, parent, links + [l]) == NewChildren(table.Keys, parent, links)
        + if id in before then [] else [Task(id, parent.depth + 1)]
  {
    assert (links + [l])[..|links|] == links;
    IsKnown(table, parent, links, l);
  }

  lemma {:induction false} AtMostLinks(known: set<TaskID>, parent: Task, links: seq<string>)
    ensures |NewChildren(known, parent, links)| <= |links|
  {
    if links != [] {
      AtMostLinks(known, parent, links[..|links| - 1]);
    }
  }

  /** The run knows what it knew before, and these links; as many more are counted and active as are
      new. Nothing else is different. */
  ghost predicate Knows(before: Store, after: Store, parent: Task, links: seq<string>) {
    var r := parent.id.run;
    var added := |NewChildren(before.Tasks(r).Keys, parent, links)|;
    && after.slots == before.slots && after.Tasks(r) == WithLinks(before.Tasks(r), parent, links)
    && after.Links(r) == before.Links(r) + added && after.Active(r) == before.Active(r) + added
    && SameOthers(before, after, r)
  }

  ghost predicate SameOthers(s: Store, s': Store, r: RunID) {
    forall q | q != r :: s'.Tasks(q) == s.Tasks(q) && s'.Active(q) == s.Active(q) && s'.Links(q) == s.Links(q)
  }

  /** Nothing goes wrong with this send. */
  predicate Good(fate: Fate) {
    fate.validURL && fate.admit == Answered && fate.produceOk
  }

  /** The run is active, and has room and depth for these links. */
  ghost predicate HasRoom(cfg: Settings, store: Store, now: int, parent: Task, links: seq<string>) {
    var r := parent.id.run;
    && store.Live(r, now) && parent.depth + 1 < cfg.maxDepth(r)
    && store.Links(r) + |links| <= cfg.redis.maxLinks(r)
  }

  /** What an admission does to the store, if the run is active and has room. */
  lemma {:induction false} AdmittedInto(store: Store, now: int, id: TaskID, maxLinks: int)
    requires store.Live(id.run, now) && id !in store.Tasks(id.run) && store.Links(id.run) < maxLinks
    ensures var (after, answer) := Admit(store, now, id.run, id, maxLinks);
      && answer == Admitted && after.slots == store.slots && SameOthers(store, after, id.run)
      && after.Tasks(id.run) == store.Tasks(id.run)[id := Queued]
      && after.Links(id.run) == store.Links(id.run) + 1 && after.Active(id.run) == store.Active(id.run) + 1
  {
  }

  /** A good send, when the run is active and there is room. */
  lemma {:induction false} GoodSend(cfg: Settings, store: Store, now: int, child: Task, fate: Fate)
    requires Good(fate) && store.Live(child.id.run, now) && child.depth < cfg.maxDepth(child.id.run)
    requires store.Links(child.id.run) < cfg.redis.maxLinks(child.id.run)
    ensures var (after, answer) := Admit(store, now, child.id.run, child.id, cfg.redis.maxLinks(child.id.run));
      SendEffect(cfg, store, now, child, fate)
        == if child.id in store.Tasks(child.id.run) then Sent(store, Nil, []) else Sent(after, Nil, [child])
  {
  }

  lemma {:induction false} OneSend(cfg: Settings, before: Store, store: Store, now: int, parent: Task,
      links: seq<string>, l: string, fate: Fate)
    requires Knows(before, store, parent, links) && Good(fate) && HasRoom(cfg, before, now, parent, links + [l])
    ensures var known := before.Tasks(parent.id.run).Keys;
      var sent := SendEffect(cfg, store, now, Task(ChildID(parent, l), parent.depth + 1), fate);
      && sent.error == Nil && Knows(before, sent.store, parent, links + [l])
      && NewChildren(known, parent, links + [l]) == NewChildren(known, parent, links) + sent.produced
  {
    var r := parent.id.run;
    var child := Task(ChildID(parent, l), parent.depth + 1);
    AtMostLinks(before.Tasks(r).Keys, parent, links);
    OneMoreLink(before.Tasks(r), parent, links, l);
    GoodSend(cfg, store, now, child, fate);
    if child.id !in store.Tasks(r) {
      AdmittedInto(store, now, child.id, cfg.redis.maxLinks(r));
    }
  }

  /** The loop goes on after a send without an error. */
  lemma {:induction false} AfterGoodSend(cfg: Settings, store: Store, now: int, todo: seq<Task>, fates: seq<Fate>,
      i: nat)
    requires i < |todo| <= |fates| && SendEffect(cfg, store, now, todo[i], fates[i]).error == Nil
    ensures var one := SendEffect(cfg, store, now, todo[i], fates[i]);
      var rest := ChildrenEffect(cfg, one.store, now, todo, fates, i + 1, false);
      ChildrenEffect(cfg, store, now, todo, fates, i, false)
        == Sent(rest.store, rest.error, one.produced + rest.produced)
  {
  }

  lemma {:induction false} Regroup(all: seq<Task>, before: seq<Task>, one: seq<Task>, rest: seq<Task>)
    requires before + one + rest == all
    ensures before + (one + rest) == all
  {
  }

  /** If nothing goes wrong from link `i` on, all of them are known afterwards, and the new ones were
      produced in the order of the links. */
  lemma {:induction false} SendsFrom(cfg: Settings, before: Store, store: Store, now: int, parent: Task,
      links: seq<string>, todo: seq<Task>, fates: seq<Fate>, i: nat)
    requires i <= |links| == |todo| <= |fates| && Knows(before, store, parent, links[..i])
    requires HasRoom(cfg, before, now, parent, links) && forall j | 0 <= j < |links| :: Good(fates[j])
    requires forall j | 0 <= j < |links| :: todo[j] == Task(ChildID(parent, links[j]), parent.depth + 1)
    ensures var e := ChildrenEffect(cfg, store, now, todo, fates, i, false);
      var known := before.Tasks(parent.id.run).Keys;
      && e.error == Nil && Knows(before, e.store, parent, links)
      && NewChildren(known, parent, links[..i]) + e.produced == NewChildren(known, parent, links)
    decreases |links| - i
  {
    if i == |links| {
      assert links[..i] == links;
    } else {
      var known, one := before.Tasks(parent.id.run).Keys, SendEffect(cfg, store, now, todo[i], fates[i]);
      OneSendAt(cfg, before, store, now, parent, links, todo[i], fates[i], i);
      SendsFrom(cfg, before, one.store, now, parent, links, todo, fates, i + 1);
      AfterGoodSend(cfg, store, now, todo, fates, i);
      var rest := ChildrenEffect(cfg, one.store, now, todo, fates, i + 1, false);
      Regroup(NewChildren(known, parent, links), NewChildren(known, parent, links[..i]), one.produced, rest.produced);
    }
  }

  lemma {:induction false} OneSendAt(cfg: Settings, before: Store, store: Store, now: int, parent: Task,
      links: seq<string>, child: Task, fate: Fate, i: nat)
    requires i < |links| && Knows(before, store, parent, links[..i]) && HasRoom(cfg, before, now, parent, links)
    requires Good(fate) && child == Task(ChildID(parent, links[i]), parent.depth + 1)
    ensures var known, sent := before.Tasks(parent.id.run).Keys, SendEffect(cfg, store, now, child, fate);
      && sent.error == Nil && Knows(before, sent.store, parent, links[..i + 1])
      && NewChildren(known, parent, links[..i + 1]) == NewChildren(known, parent, links[..i]) + sent.produced
  {
    assert links[..i + 1] == links[..i] + [links[i]];
    OneSend(cfg, before, store, now, parent, links[..i], links[i], fate);
  }

  lemma {:induction false} KnowsItself(store: Store, parent: Task)
    ensures Knows(store, store, parent, [])
  {
  }

  // ---- A whole task ------------------------------------------------------------------------

  /** The worker goes on to work on the task: it does not read that there is nothing to do. */
  ghost predicate GoesOn(store: Store, now: int, task: Task, fates: Fates) {
    var r := task.id.run;
    fates.read != Answered
      || (store.Live(r, now) && !(task.id in store.Tasks(r) && store.Tasks(r)[task.id] == Done))
  }

  /** The store once the state was read: a live lease is renewed, if the read took effect. */
  ghost predicate IsRead(cfg: Settings, store: Store, started: Store, now: int, r: RunID, fates: Fates) {
    && started.tasks == store.tasks && started.active == store.active && started.links == store.links
    && (if fates.read != NotDone && store.Live(r, now)
        then started.slots == store.slots[r := now + cfg.redis.lease] else started.slots == store.slots)
  }

  /** The completion counts the task down. */
  predicate Counts(worked: Store, t: TaskID) {
    t in worked.Tasks(t.run) && worked.Tasks(t.run)[t] == Queued
  }

  /** The completion is answered, and nothing of the run is left. */
  predicate IsOver(worked: Store, t: TaskID, fates: Fates) {
    fates.complete == Answered && Counts(worked, t) && worked.Active(t.run) <= 1
  }

  /** The task is done, if it was queued; after the last one the keys are removed, if that succeeds. */
  ghost predicate SettlesTable(worked: Store, t: TaskID, fates: Fates, store: Store) {
    var r := t.run;
    && SameOthers(worked, store, r)
    && if IsOver(worked, t, fates) && fates.cleanedUp then
         store.Tasks(r) == map[] && store.Active(r) == 0 && store.Links(r) == 0
       else if Counts(worked, t) then
         && store.Tasks(r) == worked.Tasks(r)[t := Done] && store.Active(r) == worked.Active(r) - 1
         && store.Links(r) == worked.Links(r)
       else
         store.Tasks(r) == worked.Tasks(r) && store.Active(r) == worked.Active(r) && store.Links(r) == worked.Links(r)
  }

  /** A live lease is renewed; after the last task the slot is freed, if that succeeds. */
  ghost predicate SettlesSlot(cfg: Settings, worked: Store, now: int, t: TaskID, fates: Fates, store: Store) {
    if IsOver(worked, t, fates) && fates.released then
      store.slots == worked.slots - {t.run}
    else if Counts(worked, t) && worked.Live(t.run, now) then
      store.slots == worked.slots[t.run := now + cfg.redis.lease]
    else
      store.slots == worked.slots
  }

  /** What follows the work: the completion is not done, or done and perhaps not answered, or answered,
      and then the task is acked. */
  ghost predicate Settles(cfg: Settings, worked: Store, now: int, t: TaskID, fates: Fates, store: Store, acked: bool) {
    && (acked <==> fates.complete == Answered)
    && if fates.complete == NotDone then store == worked
       else SettlesTable(worked, t, fates, store) && SettlesSlot(cfg, worked, now, t, fates, store)
  }

  lemma {:induction false} CompletedIs(cfg: Settings, worked: Store, now: int, t: TaskID, fates: Fates)
    requires fates.complete != NotDone && !IsOver(worked, t, fates)
    ensures var h := CompleteEffect(cfg, worked, now, t, fates);
      && h.store == Complete(worked, now, t.run, t, cfg.redis.lease).0 && (h.acked <==> fates.complete == Answered)
      && SettlesTable(worked, t, fates, h.store) && SettlesSlot(cfg, worked, now, t, fates, h.store)
  {
  }

  /** The last completion: the table and slot it leaves. */
  lemma {:induction false} LastCompletion(cfg: Settings, worked: Store, now: int, t: TaskID)
    requires Counts(worked, t)
    ensures var after := Complete(worked, now, t.run, t, cfg.redis.lease).0;
      && after.Tasks(t.run) == worked.Tasks(t.run)[t := Done] && after.Active(t.run) == worked.Active(t.run) - 1
      && after.Links(t.run) == worked.Links(t.run) && SameOthers(worked, after, t.run)
      && after.slots == if worked.Live(t.run, now) then worked.slots[t.run := now + cfg.redis.lease] else worked.slots
  {
  }

  lemma {:induction false} OverIs(cfg: Settings, worked: Store, now: int, t: TaskID, fates: Fates)
    requires IsOver(worked, t, fates)
    ensures var after := Complete(worked, now, t.run, t, cfg.redis.lease).0;
      var freed := if fates.released then Release(after, t.run) else after;
      CompleteEffect(cfg, worked, now, t, fates)
        == Handled(if fates.cleanedUp then Cleanup(freed, t.run) else freed, [], true)
  {
  }

  lemma {:induction false} OverSettles(cfg: Settings, worked: Store, now: int, t: TaskID, fates: Fates)
    requires IsOver(worked, t, fates)
    ensures var h := CompleteEffect(cfg, worked, now, t, fates);
      SettlesTable(worked, t, fates, h.store) && SettlesSlot(cfg, worked, now, t, fates, h.store)
  {
    LastCompletion(cfg, worked, now, t);
    OverIs(cfg, worked, now, t, fates);
    var after := Complete(worked, now, t.run, t, cfg.redis.lease).0;
    FreedOfSlot(worked.slots, t.run, now + cfg.redis.lease);
    CleanedOfKeys(if fates.released then Release(after, t.run) else after, t.run);
  }

  lemma {:induction false} FreedOfSlot(slots: map<RunID, int>, r: RunID, expiry: int)
    ensures slots[r := expiry] - {r} == slots - {r}
  {
  }

  lemma {:induction false} CleanedOfKeys(s: Store, r: RunID)
    ensures var s' := Cleanup(s, r);
      && s'.Tasks(r) == map[] && s'.Active(r) == 0 && s'.Links(r) == 0 && SameOthers(s, s', r) && s'.slots == s.slots
  {
  }

  lemma {:induction false} CompletionSettles(cfg: Settings, worked: Store, now: int, t: TaskID, fates: Fates)
    ensures var h := CompleteEffect(cfg, worked, now, t, fates);
      h.produced == [] && Settles(cfg, worked, now, t, fates, h.store, h.acked)
  {
    if IsOver(worked, t, fates) {
      OverIs(cfg, worked, now, t, fates);
      OverSettles(cfg, worked, now, t, fates);
    } else if fates.complete != NotDone {
      CompletedIs(cfg, worked, now, t, fates);
    }
  }

  lemma {:induction false} ReadIs(cfg: Settings, store: Store, now: int, task: Task, fates: Fates)
      returns (started: Store)
    ensures IsRead(cfg, store, started, now, task.id.run, fates)
    ensures started
      == if fates.read == NotDone then store else TaskState(store, now, task.id.run, task.id, cfg.redis.lease).0
    ensures store.Live(task.id.run, now) && cfg.redis.lease > 0 ==> started.Live(task.id.run, now)
  {
    started := if fates.read == NotDone then store else TaskState(store, now, task.id.run, task.id, cfg.redis.lease).0;
  }

  /** A page that is fetched, with nothing going wrong in an active run that has room for its links: all
      of them are known to the run when the task is completed, and the new ones were produced, in the
      order of the links. */
  lemma {:induction false} LinksAreSent(cfg: Settings, store: Store, now: int, task: Task, fates: Fates)
      returns (started: Store, worked: Store)
    requires |fates.sends| >= |fates.links| && fates.pageOk && GoesOn(store, now, task, fates)
    requires forall i | 0 <= i < |fates.links| :: Good(fates.sends[i])
    requires HasRoom(cfg, store, now, task, fates.links) && cfg.redis.lease > 0
    ensures IsRead(cfg, store, started, now, task.id.run, fates) && Knows(started, worked, task, fates.links)
    ensures var h := HandleEffect(cfg, store, now, task, fates);
      && h.produced == NewChildren(store.Tasks(task.id.run).Keys, task, fates.links)
      && Settles(cfg, worked, now, task.id, fates, h.store, h.acked)
  {
    started := ReadIs(cfg, store, now, task, fates);
    ChildrenAre(task, fates.links);
    var todo := Children(task, fates.links);
    var e := ChildrenEffect(cfg, started, now, todo, fates.sends, 0, false);
    worked := e.store;
    KnowsItself(started, task);
    assert fates.links[..0] == [];
    SendsFrom(cfg, started, started, now, task, fates.links, todo, fates.sends, 0);
    CompletionSettles(cfg, worked, now, task.id, fates);
    assert NewChildren(started.Tasks(task.id.run).Keys, task, []) + e.produced == e.produced;
  }

  /** A page that cannot be fetched, or whose children would be too deep, sends nothing; the task is
      completed all the same. */
  lemma {:induction false} NothingToSend(cfg: Settings, store: Store, now: int, task: Task, fates: Fates)
      returns (started: Store)
    requires |fates.sends| >= |fates.links| && GoesOn(store, now, task, fates)
    requires !fates.pageOk || task.depth + 1 >= cfg.maxDepth(task.id.run) || fates.links == []
    ensures IsRead(cfg, store, started, now, task.id.run, fates)
    ensures var h := HandleEffect(cfg, store, now, task, fates);
      h.produced == [] && Settles(cfg, started, now, task.id, fates, h.store, h.acked)
  {
    started := ReadIs(cfg, store, now, task, fates);
    CompletionSettles(cfg, started, now, task.id, fates);
    ChildrenAre(task, fates.links);
  }

  /** A worker that reads that its task is done, or its run not active, acks and does nothing else. */
  lemma {:induction false} NothingToDo(cfg: Settings, store: Store, now: int, task: Task, fates: Fates)
    requires |fates.sends| >= |fates.links| && !GoesOn(store, now, task, fates)
    ensures var h := HandleEffect(cfg, store, now, task, fates);
      h.acked && h.produced == [] && IsRead(cfg, store, h.store, now, task.id.run, fates)
  {
    var _ := ReadIs(cfg, store, now, task, fates);
  }

  // ---- Children that are not sent ------------------------------------------------------------

  /** The admission of this link was tried, and not answered. */
  predicate Unanswered(fate: Fate) {
    fate.validURL && fate.admit != Answered
  }

  /** One send in an active run whose producer takes every payload: it fails exactly if its admission is
      not answered; what the run knew it still knows. */
  lemma {:induction false} OneOutcome(cfg: Settings, store: Store, now: int, child: Task, fate: Fate)
    requires store.Live(child.id.run, now) && child.depth < cfg.maxDepth(child.id.run) && fate.produceOk
    ensures var e := SendEffect(cfg, store, now, child, fate);
      && e.error != NotActive && (e.error == Failed <==> Unanswered(fate)) && e.store.slots == store.slots
      && StillKnown(store, e.store, child.id.run)
  {
  }

  ghost predicate StillKnown(before: Store, after: Store, r: RunID) {
    forall t | t in before.Tasks(r) :: t in after.Tasks(r) && after.Tasks(r)[t] == before.Tasks(r)[t]
  }

  lemma {:induction false} Outcomes(cfg: Settings, store: Store, now: int, todo: seq<Task>, fates: seq<Fate>, i: nat,
      failed: bool, r: RunID)
    requires i <= |todo| <= |fates| && store.Live(r, now)
    requires forall j | 0 <= j < |todo| :: todo[j].id.run == r && todo[j].depth < cfg.maxDepth(r) && fates[j].produceOk
    ensures var e := ChildrenEffect(cfg, store, now, todo, fates, i, failed);
      && e.error != NotActive && StillKnown(store, e.store, r)
      && (e.error == Failed <==> failed || exists j :: i <= j < |todo| && Unanswered(fates[j]))
    decreases |todo| - i
  {
    if i < |todo| {
      var one := SendEffect(cfg, store, now, todo[i], fates[i]);
      OneOutcome(cfg, store, now, todo[i], fates[i]);
      Outcomes(cfg, one.store, now, todo, fates, i + 1, failed || one.error == Failed, r);
    }
  }

  /** In an active run whose producer takes every payload, a page that was fetched is acked if and only
      if the admission of every valid link was answered, and so was the completion. Without that the
      task keeps its place in the table, to be worked on again. */
  lemma {:induction false} SentOrNotAcked(cfg: Settings, store: Store, now: int, task: Task, fates: Fates)
    requires |fates.sends| >= |fates.links| && fates.pageOk && GoesOn(store, now, task, fates)
    requires store.Live(task.id.run, now) && cfg.redis.lease > 0 && task.depth + 1 < cfg.maxDepth(task.id.run)
    requires forall i | 0 <= i < |fates.links| :: fates.sends[i].produceOk
    ensures var h := HandleEffect(cfg, store, now, task, fates);
      var unsent := exists i :: 0 <= i < |fates.links| && Unanswered(fates.sends[i]);
      && (h.acked <==> fates.complete == Answered && !unsent)
      && (unsent && task.id in store.Tasks(task.id.run) ==>
            && task.id in h.store.Tasks(task.id.run)
            && h.store.Tasks(task.id.run)[task.id] == store.Tasks(task.id.run)[task.id])
  {
    var started := ReadIs(cfg, store, now, task, fates);
    ChildrenAre(task, fates.links);
    var todo := Children(task, fates.links);
    Outcomes(cfg, started, now, todo, fates.sends, 0, false, task.id.run);
    var e := ChildrenEffect(cfg, started, now, todo, fates.sends, 0, false);
    CompletionSettles(cfg, e.store, now, task.id, fates);
  }

  /** The child was admitted and then not produced. */
  predicate NotProduced(fate: Fate) {
    fate.validURL && fate.admit == Answered && !fate.produceOk
  }

  /** No send ends an active run; it counts at most one link, of its own child. */
  lemma {:induction false} OneSendKeeps(cfg: Settings, store: Store, now: int, child: Task, fate: Fate, other: TaskID)
    requires store.Live(child.id.run, now) && other.run == child.id.run && other != child.id
    requires other !in store.Tasks(other.run)
    ensures var e := SendEffect(cfg, store, now, child, fate);
      && e.error != NotActive && e.store.slots == store.slots && other !in e.store.Tasks(other.run)
      && e.store.Links(other.run) <= store.Links(other.run) + 1
  {
  }

  lemma {:induction false} RunStaysActive(cfg: Settings, store: Store, now: int, child: Task, fate: Fate)
    requires store.Live(child.id.run, now)
    ensures var e := SendEffect(cfg, store, now, child, fate); e.error != NotActive && e.store.slots == store.slots
  {
  }

  lemma {:induction false} FailureStays(cfg: Settings, store: Store, now: int, todo: seq<Task>, fates: seq<Fate>,
      i: nat, r: RunID)
    requires i <= |todo| <= |fates| && store.Live(r, now) && forall j | 0 <= j < |todo| :: todo[j].id.run == r
    ensures ChildrenEffect(cfg, store, now, todo, fates, i, true).error == Failed
    decreases |todo| - i
  {
    if i < |todo| {
      var one := SendEffect(cfg, store, now, todo[i], fates[i]);
      RunStaysActive(cfg, store, now, todo[i], fates[i]);
      FailureStays(cfg, one.store, now, todo, fates, i + 1, r);
    }
  }

  lemma {:induction false} SendFails(cfg: Settings, store: Store, now: int, child: Task, fate: Fate)
    requires store.Live(child.id.run, now) && child.depth < cfg.maxDepth(child.id.run) && NotProduced(fate)
    requires child.id !in store.Tasks(child.id.run) && store.Links(child.id.run) < cfg.redis.maxLinks(child.id.run)
    ensures var e := SendEffect(cfg, store, now, child, fate); e.error == Failed && e.store.slots == store.slots
  {
  }

  lemma {:induction false} FailsAt(cfg: Settings, store: Store, now: int, todo: seq<Task>, fates: seq<Fate>, i: nat,
      failed: bool, k: nat, r: RunID)
    requires i <= k < |todo| <= |fates| && store.Live(r, now) && NotProduced(fates[k])
    requires forall j | 0 <= j < |todo| :: todo[j].id.run == r && todo[j].depth < cfg.maxDepth(r)
    requires todo[k].id !in store.Tasks(r) && forall j | i <= j < k :: todo[j].id != todo[k].id
    requires store.Links(r) + k - i < cfg.redis.maxLinks(r)
    ensures ChildrenEffect(cfg, store, now, todo, fates, i, failed).error == Failed
    decreases k - i
  {
    var one := SendEffect(cfg, store, now, todo[i], fates[i]);
    if i == k {
      SendFails(cfg, store, now, todo[k], fates[k]);
      FailureStays(cfg, one.store, now, todo, fates, i + 1, r);
    } else {
      OneSendKeeps(cfg, store, now, todo[i], fates[i], todo[k].id);
      FailsAt(cfg, one.store, now, todo, fates, i + 1, failed || one.error == Failed, k, r);
    }
  }

  /** If a link that is new to an active run with room is not produced, whatever becomes of the others,
      the task is not acked. */
  lemma {:induction false} NotProducedNotAcked(cfg: Settings, store: Store, now: int, task: Task, fates: Fates, k: nat)
    requires |fates.sends| >= |fates.links| && fates.pageOk && GoesOn(store, now, task, fates)
    requires HasRoom(cfg, store, now, task, fates.links) && cfg.redis.lease > 0
    requires k < |fates.links| && NotProduced(fates.sends[k]) && fates.links[k] !in fates.links[..k]
    requires ChildID(task, fates.links[k]) !in store.Tasks(task.id.run)
    ensures !HandleEffect(cfg, store, now, task, fates).acked
  {
    var started := ReadIs(cfg, store, now, task, fates);
    ChildrenAre(task, fates.links);
    var todo := Children(task, fates.links);
    forall j | 0 <= j < k ensures todo[j].id != todo[k].id {
      assert fates.links[j] in fates.links[..k];
    }
    FailsAt(cfg, started, now, todo, fates.sends, 0, false, k, task.id.run);
  }

  /** When the run has stopped being active, no link is sent and the task is completed all the same. */
  lemma {:induction false} InactiveSendsNothing(cfg: Settings, store: Store, now: int, task: Task, fates: Fates)
      returns (started: Store)
    requires |fates.sends| >= |fates.links| && GoesOn(store, now, task, fates) && !store.Live(task.id.run, now)
    requires forall i | 0 <= i < |fates.links| :: fates.sends[i].admit == Answered
    ensures IsRead(cfg, store, started, now, task.id.run, fates)
    ensures var h := HandleEffect(cfg, store, now, task, fates);
      h.produced == [] && Settles(cfg, started, now, task.id, fates, h.store, h.acked)
  {
    started := ReadIs(cfg, store, now, task, fates);
    ChildrenAre(task, fates.links);
    NoneSent(cfg, started, now, Children(task, fates.links), fates.sends, 0, task.id.run);
    CompletionSettles(cfg, started, now, task.id, fates);
  }

  lemma {:induction false} NoneSent(cfg: Settings, store: Store, now: int, todo: seq<Task>, fates: seq<Fate>, i: nat,
      r: RunID)
    requires i <= |todo| <= |fates| && !store.Live(r, now)
    requires forall j | 0 <= j < |todo| :: todo[j].id.run == r && fates[j].admit == Answered
    ensures ChildrenEffect(cfg, store, now, todo, fates, i, false) == Sent(store, Nil, [])
    decreases |todo| - i
  {
    if i < |todo| {
      var one := SendEffect(cfg, store, now, todo[i], fates[i]);
      assert one.store == store && one.produced == [] && one.error != Failed;
      if one.error != NotActive {
        NoneSent(cfg, store, now, todo, fates, i + 1, r);
      }
    }
  }
}
