/** The queue in front of the index: one worker for each shard, every URL on one shard. */
module AsyncSink {
  import opened Index

  type ShardOf = string -> nat

  /** A worker's queue, the document it is indexing, and whether it has gone home. */
  datatype Shard = Shard(queue: seq<Version>, busy: Option<Version>, exited: bool)

  /** `accepted` are the documents whose submission returned no error; `events` is what the workers
      did with documents so far. */
  datatype Sink = Sink(shards: seq<Shard>, closed: bool, accepted: seq<Version>, events: seq<Event>, index: State)

  datatype Setting = Setting(chunker: ChunkerFor, shardOf: ShardOf, workers: nat, capacity: nat)

  ghost predicate SettingOk(k: Setting) {
    ChunkerOk(k.chunker) && k.workers >= 1 && k.capacity >= 1 && forall u :: k.shardOf(u) < k.workers
  }

  datatype Step =
    | Accept(v: Version)
    | Take(i: nat)
    | Finish(i: nat, o: Outcome, after: State)
    | Close
    | Exit(i: nat)

  function NewShards(n: nat): (s: seq<Shard>)
    ensures |s| == n && forall i | 0 <= i < n :: s[i] == Shard([], None, false)
  {
    seq(n, i => Shard([], None, false))
  }

  function Initial(k: Setting): Sink {
    Sink(NewShards(k.workers), false, [], [], State(map[], map[]))
  }

  ghost predicate Enabled(k: Setting, s: Sink, step: Step)
    requires |s.shards| == k.workers && SettingOk(k)
  {
    match step
    case Accept(v) => !s.closed && |s.shards[k.shardOf(v.doc.url)].queue| < k.capacity
    case Take(i) => i < k.workers && !s.shards[i].exited && s.shards[i].busy == None && s.shards[i].queue != []
    case Finish(i, o, after) =>
      i < k.workers && s.shards[i].busy.Some? && Submitted(k.chunker, s.index, s.shards[i].busy.value, o, after)
    case Close => true
    case Exit(i) => i < k.workers && s.closed && s.shards[i].busy == None && s.shards[i].queue == []
  }

  ghost function Next(k: Setting, s: Sink, step: Step): Sink
    requires |s.shards| == k.workers && SettingOk(k) && Enabled(k, s, step)
  {
    match step
    case Accept(v) =>
      var i := k.shardOf(v.doc.url);
      s.(shards := s.shards[i := s.shards[i].(queue := s.shards[i].queue + [v])], accepted := s.accepted + [v])
    case Take(i) =>
      var q := s.shards[i].queue;
      s.(shards := s.shards[i := s.shards[i].(queue := q[1..], busy := Some(q[0]))])
    case Finish(i, o, after) =>
      var v := s.shards[i].busy.value;
      s.(shards := s.shards[i := s.shards[i].(busy := None)], events := s.events + [Event(v, o)], index := after)
    case Close => s.(closed := true)
    case Exit(i) => s.(shards := s.shards[i := s.shards[i].(exited := true)])
  }

  ghost predicate Runs(k: Setting, steps: seq<Step>, s: Sink)
    requires SettingOk(k)
  {
    if steps == [] then s == Initial(k)
    else
      var n := |steps| - 1;
      exists p: Sink :: |p.shards| == k.workers && Runs(k, steps[..n], p) && Enabled(k, p, steps[n])
        && s == Next(k, p, steps[n])
  }

  // ---- Documents of one page ---------------------------------------------------------------

  function Of(vs: seq<Version>, url: string): seq<Version> {
    if vs == [] then []
    else
      var n := |vs| - 1;
      Of(vs[..n], url) + if vs[n].doc.url == url then [vs[n]] else []
  }

  lemma {:induction false} OfConcat(xs: seq<Version>, ys: seq<Version>, url: string)
    ensures Of(xs + ys, url) == Of(xs, url) + Of(ys, url)
  {
    if ys == [] {
      assert xs + ys == xs;
    } else {
      var n := |ys| - 1;
      OfConcat(xs, ys[..n], url);
      assert (xs + ys)[..|xs + ys| - 1] == xs + ys[..n];
    }
  }

  function Handled(events: seq<Event>): seq<Version> {
    if events == [] then [] else Handled(events[..|events| - 1]) + [events[|events| - 1].v]
  }

  function Held(s: Shard): seq<Version> {
    (if s.busy.Some? then [s.busy.value] else []) + s.queue
  }

  /** Documents of a page come out in the order they went in: those handled, then the one in hand,
      then those waiting. */
  ghost predicate InOrder(k: Setting, s: Sink, url: string)
    requires |s.shards| == k.workers && SettingOk(k)
  {
    Of(s.accepted, url) == Of(Handled(s.events), url) + Of(Held(s.shards[k.shardOf(url)]), url)
  }

  ghost predicate ShardOk(k: Setting, s: Sink, i: nat)
    requires i < |s.shards|
  {
    && (forall v | v in Held(s.shards[i]) :: k.shardOf(v.doc.url) == i)
    && (s.shards[i].exited ==> s.closed && s.shards[i].queue == [] && s.shards[i].busy == None)
  }

  ghost predicate SinkOk(k: Setting, s: Sink)
    requires SettingOk(k)
  {
    && |s.shards| == k.workers
    && (forall i | 0 <= i < k.workers :: ShardOk(k, s, i))
    && (forall url :: InOrder(k, s, url))
    && Reached(k.chunker, s.events, s.index)
  }

  lemma {:induction false} PassesBy(handled: seq<Version>, v: Version, url: string)
    requires v.doc.url != url
    ensures Of(handled + [v], url) == Of(handled, url)
  {
    OfConcat(handled, [v], url);
    assert Of([v], url) == [];
  }

  lemma {:induction false} ConcatAgain(a: seq<Version>, b: seq<Version>, c: seq<Version>)
    ensures a + b + c == a + (b + c) && a + [] == a
  {
  }

  lemma {:induction false} AcceptInOrder(accepted: seq<Version>, handled: seq<Version>, held: seq<Version>, v: Version,
      url: string)
    requires Of(accepted, url) == Of(handled, url) + Of(held, url)
    ensures Of(accepted + [v], url) == Of(handled, url) + Of(held + [v], url)
  {
    OfConcat(accepted, [v], url);
    OfConcat(held, [v], url);
    ConcatAgain(Of(handled, url), Of(held, url), Of([v], url));
  }

  lemma {:induction false} AcceptKeeps(k: Setting, s: Sink, v: Version)
    requires SettingOk(k) && SinkOk(k, s) && Enabled(k, s, Accept(v))
    ensures SinkOk(k, Next(k, s, Accept(v)))
  {
    var s' := Next(k, s, Accept(v));
    var i := k.shardOf(v.doc.url);
    assert ShardOk(k, s, i);
    assert Held(s'.shards[i]) == Held(s.shards[i]) + [v];
    forall j | 0 <= j < k.workers ensures ShardOk(k, s', j) {
      assert ShardOk(k, s, j);
    }
    forall url ensures InOrder(k, s', url) {
      assert InOrder(k, s, url);
      if k.shardOf(url) == i {
        AcceptInOrder(s.accepted, Handled(s.events), Held(s.shards[i]), v, url);
      } else {
        PassesBy(s.accepted, v, url);
      }
    }
  }

  lemma {:induction false} TakeKeeps(k: Setting, s: Sink, i: nat)
    requires SettingOk(k) && SinkOk(k, s) && Enabled(k, s, Take(i))
    ensures SinkOk(k, Next(k, s, Take(i)))
  {
    var s' := Next(k, s, Take(i));
    assert Held(s'.shards[i]) == Held(s.shards[i]);
    forall j | 0 <= j < k.workers ensures ShardOk(k, s', j) {
      assert ShardOk(k, s, j);
    }
    forall url ensures InOrder(k, s', url) {
      assert InOrder(k, s, url);
    }
  }

  /** A document goes from those held to those handled. */
  lemma {:induction false} MovesOn(handled: seq<Version>, v: Version, rest: seq<Version>, url: string)
    ensures Of(handled, url) + Of([v] + rest, url) == Of(handled + [v], url) + Of(rest, url)
  {
    OfConcat(handled, [v], url);
    OfConcat([v], rest, url);
  }

  lemma {:induction false} FinishInOrder(accepted: seq<Version>, handled: seq<Version>, held: seq<Version>,
      held': seq<Version>, v: Version, url: string)
    requires Of(accepted, url) == Of(handled, url) + Of(held, url)
    requires held == [v] + held' || (held == held' && v.doc.url != url)
    ensures Of(accepted, url) == Of(handled + [v], url) + Of(held', url)
  {
    if held == [v] + held' {
      MovesOn(handled, v, held', url);
    } else {
      PassesBy(handled, v, url);
    }
  }

  lemma {:induction false} FinishKeepsShards(k: Setting, s: Sink, i: nat, s': Sink)
    requires SettingOk(k) && |s.shards| == k.workers && i < k.workers && s.shards[i].busy.Some?
    requires forall j | 0 <= j < k.workers :: ShardOk(k, s, j)
    requires s'.shards == s.shards[i := s.shards[i].(busy := None)] && s'.closed == s.closed
    ensures Held(s.shards[i]) == [s.shards[i].busy.value] + Held(s'.shards[i])
    ensures k.shardOf(s.shards[i].busy.value.doc.url) == i
    ensures forall j | 0 <= j < k.workers :: ShardOk(k, s', j)
  {
    assert ShardOk(k, s, i);
    assert Held(s.shards[i])[0] == s.shards[i].busy.value;
    assert Held(s.shards[i]) == [s.shards[i].busy.value] + Held(s'.shards[i]);
    forall j | 0 <= j < k.workers ensures ShardOk(k, s', j) {
      assert ShardOk(k, s, j);
    }
  }

  lemma {:induction false} FinishKeepsOrder(k: Setting, s: Sink, i: nat, e: Event, s': Sink, url: string)
    requires SettingOk(k) && |s.shards| == k.workers && i < k.workers && k.shardOf(e.v.doc.url) == i
    requires InOrder(k, s, url) && s'.accepted == s.accepted && s'.events == s.events + [e]
    requires |s'.shards| == k.workers && (forall j | 0 <= j < k.workers && j != i :: s'.shards[j] == s.shards[j])
    requires Held(s.shards[i]) == [e.v] + Held(s'.shards[i])
    ensures InOrder(k, s', url)
  {
    HandledOneMore(s.events, e);
    var j := k.shardOf(url);
    FinishInOrder(s.accepted, Handled(s.events), Held(s.shards[j]), Held(s'.shards[j]), e.v, url);
  }

  lemma {:induction false} FinishKeeps(k: Setting, s: Sink, i: nat, o: Outcome, after: State)
    requires SettingOk(k) && SinkOk(k, s) && Enabled(k, s, Finish(i, o, after))
    ensures SinkOk(k, Next(k, s, Finish(i, o, after)))
  {
    var s' := Next(k, s, Finish(i, o, after));
    var e := Event(s.shards[i].busy.value, o);
    FinishKeepsShards(k, s, i, s');
    forall url ensures InOrder(k, s', url) {
      FinishKeepsOrder(k, s, i, e, s', url);
    }
    ReachedNext(k.chunker, s.events, s.index, e, after);
  }

  lemma {:induction false} HandledOneMore(events: seq<Event>, e: Event)
    ensures Handled(events + [e]) == Handled(events) + [e.v]
  {
    assert (events + [e])[..|events|] == events;
  }

  /** Nothing was accepted, taken or handled. */
  lemma {:induction false} SameHeldKeeps(k: Setting, s: Sink, s': Sink)
    requires SettingOk(k) && SinkOk(k, s) && |s'.shards| == k.workers
    requires s'.accepted == s.accepted && s'.events == s.events && s'.index == s.index
    requires forall j | 0 <= j < k.workers :: ShardOk(k, s', j) && Held(s'.shards[j]) == Held(s.shards[j])
    ensures SinkOk(k, s')
  {
    forall url ensures InOrder(k, s', url) {
      assert InOrder(k, s, url);
      assert Held(s'.shards[k.shardOf(url)]) == Held(s.shards[k.shardOf(url)]);
    }
  }

  lemma {:induction false} CloseKeeps(k: Setting, s: Sink)
    requires SettingOk(k) && SinkOk(k, s) && Enabled(k, s, Close)
    ensures SinkOk(k, Next(k, s, Close))
  {
    var s' := Next(k, s, Close);
    forall j | 0 <= j < k.workers ensures ShardOk(k, s', j) {
      assert ShardOk(k, s, j);
    }
    SameHeldKeeps(k, s, s');
  }

  lemma {:induction false} ExitKeeps(k: Setting, s: Sink, i: nat)
    requires SettingOk(k) && SinkOk(k, s) && Enabled(k, s, Exit(i))
    ensures SinkOk(k, Next(k, s, Exit(i)))
  {
    var s' := Next(k, s, Exit(i));
    forall j | 0 <= j < k.workers ensures ShardOk(k, s', j) && Held(s'.shards[j]) == Held(s.shards[j]) {
      assert ShardOk(k, s, j);
    }
    SameHeldKeeps(k, s, s');
  }

  lemma {:induction false} RunsKeep(k: Setting, steps: seq<Step>, s: Sink)
    requires SettingOk(k) && Runs(k, steps, s)
    ensures SinkOk(k, s)
  {
    if steps == [] {
    } else {
      var n := |steps| - 1;
      var p: Sink :| |p.shards| == k.workers && Runs(k, steps[..n], p) && Enabled(k, p, steps[n])
        && s == Next(k, p, steps[n]);
      RunsKeep(k, steps[..n], p);
      match steps[n]
      case Accept(v) => AcceptKeeps(k, p, v);
      case Take(i) => TakeKeeps(k, p, i);
      case Finish(i, o, after) => FinishKeeps(k, p, i, o, after);
      case Close => CloseKeeps(k, p);
      case Exit(i) => ExitKeeps(k, p, i);
    }
  }

  // ---- After a drain -----------------------------------------------------------------------

  ghost predicate Drained(k: Setting, s: Sink) {
    forall i | 0 <= i < |s.shards| :: s.shards[i].exited
  }

  /** While documents are waiting, those of a page that were handled are the first that were
      accepted, in the same order; once the workers are gone, they are all of them. */
  lemma {:induction false} PagesInOrder(k: Setting, steps: seq<Step>, s: Sink, url: string)
    requires SettingOk(k) && Runs(k, steps, s)
    ensures Of(Handled(s.events), url) <= Of(s.accepted, url)
    ensures Drained(k, s) ==> Of(Handled(s.events), url) == Of(s.accepted, url)
  {
    RunsKeep(k, steps, s);
    assert InOrder(k, s, url);
    assert ShardOk(k, s, k.shardOf(url));
  }

  /** Events up to the last one of the page. */
  function LastOf(events: seq<Event>, url: string): seq<Event> {
    if events == [] || events[|events| - 1].v.doc.url == url then events else LastOf(events[..|events| - 1], url)
  }

  lemma {:induction false} LastIsHandledLast(events: seq<Event>, url: string)
    requires Of(Handled(events), url) != []
    ensures var last, vs := LastOf(events, url), Of(Handled(events), url);
      last != [] && last[|last| - 1].v == vs[|vs| - 1]
  {
    var n := |events| - 1;
    if events[n].v.doc.url != url {
      LastIsHandledLast(events[..n], url);
    }
  }

  lemma {:induction false} ReachedSince(chunker: ChunkerFor, events: seq<Event>, s: State, url: string, v: Version)
      returns (p: State)
    requires ChunkerOk(chunker) && Reached(chunker, events, s) && v.doc.url == url
    ensures Reached(chunker, LastOf(events, url), p)
    ensures Stores(p.rows, v, chunker(v.fingerprint, v.doc)) ==> Stores(s.rows, v, chunker(v.fingerprint, v.doc))
  {
    if events == [] || events[|events| - 1].v.doc.url == url {
      p := s;
    } else {
      var n := |events| - 1;
      var q :| Reached(chunker, events[..n], q) && Submitted(chunker, q, events[n].v, events[n].o, s);
      p := ReachedSince(chunker, events[..n], q, url, v);
      ReachedOwnsIDs(chunker, events[..n], q);
      ReachedOwnsIDs(chunker, events, s);
      if Stores(p.rows, v, chunker(v.fingerprint, v.doc)) && !(events[n].o in {Unchanged, Rejected}) {
        OthersStillStored(q, s, events[n].v.doc.url, v, chunker(v.fingerprint, v.doc));
      }
    }
  }

  /** The last event of a page indexed the version it was about, by itself or by a hash that can
      be believed. */
  predicate IndexedLast(events: seq<Event>, url: string) {
    var last := LastOf(events, url);
    last != [] && var o := last[|last| - 1].o;
      o in {Stored, Unrecorded} || (o == Unchanged && !Tainted(last, url))
  }

  lemma {:induction false} LastHandledIsIndexed(chunker: ChunkerFor, events: seq<Event>, s: State, url: string,
      v: Version)
    requires ChunkerOk(chunker) && Reached(chunker, events, s) && IndexedLast(events, url) && v.doc.url == url
    requires var last := LastOf(events, url); last[|last| - 1].v == v
    ensures Stores(s.rows, v, chunker(v.fingerprint, v.doc))
  {
    var p := ReachedSince(chunker, events, s, url, v);
    SubmittedIsIndexed(chunker, LastOf(events, url), p);
  }

  /** After a drain the rows of a page are the chunks of the version accepted last, if indexing it
      succeeded, and was not skipped over a hash that does not say what is indexed. */
  lemma {:induction false} LastAcceptedIsIndexed(k: Setting, steps: seq<Step>, s: Sink, url: string)
    requires SettingOk(k) && Runs(k, steps, s) && Drained(k, s)
    requires Of(s.accepted, url) != [] && IndexedLast(s.events, url)
    ensures var vs := Of(s.accepted, url);
      var v := vs[|vs| - 1];
      Stores(s.index.rows, v, k.chunker(v.fingerprint, v.doc))
  {
    PagesInOrder(k, steps, s, url);
    LastIsHandledLast(s.events, url);
    LastIsOfPage(s.accepted, url);
    var vs := Of(s.accepted, url);
    ReachesIndex(k, steps, s);
    LastHandledIsIndexed(k.chunker, s.events, s.index, url, vs[|vs| - 1]);
  }

  lemma {:induction false} ReachesIndex(k: Setting, steps: seq<Step>, s: Sink)
    requires SettingOk(k) && Runs(k, steps, s)
    ensures Reached(k.chunker, s.events, s.index)
  {
    RunsKeep(k, steps, s);
  }

  lemma {:induction false} LastIsOfPage(vs: seq<Version>, url: string)
    requires Of(vs, url) != []
    ensures Of(vs, url)[|Of(vs, url)| - 1].doc.url == url
  {
    var n := |vs| - 1;
    if vs[n].doc.url != url {
      LastIsOfPage(vs[..n], url);
    }
  }

  lemma {:induction false} CleanIsUntainted(events: seq<Event>, url: string)
    requires forall e | e in events :: e.o in {Unchanged, Stored}
    ensures !Tainted(events, url)
  {
    if events != [] {
      var n := |events| - 1;
      assert events[n] in events;
      CleanIsUntainted(events[..n], url);
    }
  }

  lemma {:induction false} LastOfIsPrefix(events: seq<Event>, url: string)
    ensures LastOf(events, url) <= events
  {
    if events != [] && events[|events| - 1].v.doc.url != url {
      LastOfIsPrefix(events[..|events| - 1], url);
    }
  }

  /** If nothing failed, a drained index holds for every page the version accepted last. */
  lemma {:induction false} CleanDrainIndexesLatest(k: Setting, steps: seq<Step>, s: Sink, url: string)
    requires SettingOk(k) && Runs(k, steps, s) && Drained(k, s) && Of(s.accepted, url) != []
    requires forall e | e in s.events :: e.o in {Unchanged, Stored}
    ensures var vs := Of(s.accepted, url);
      var v := vs[|vs| - 1];
      Stores(s.index.rows, v, k.chunker(v.fingerprint, v.doc))
  {
    PagesInOrder(k, steps, s, url);
    LastIsHandledLast(s.events, url);
    LastOfIsPrefix(s.events, url);
    var last := LastOf(s.events, url);
    assert last[|last| - 1] == s.events[|last| - 1];
    CleanIsUntainted(last, url);
    LastAcceptedIsIndexed(k, steps, s, url);
  }

  // ---- The drain comes to an end -----------------------------------------------------------

  /** The steps a worker has to take before it goes home. */
  function Left(s: Shard): nat {
    2 * |s.queue| + (if s.busy.Some? then 1 else 0) + if s.exited then 0 else 1
  }

  function AllLeft(shards: seq<Shard>): nat {
    if shards == [] then 0 else AllLeft(shards[..|shards| - 1]) + Left(shards[|shards| - 1])
  }

  lemma {:induction false} OneStepLess(shards: seq<Shard>, i: nat, s: Shard)
    requires i < |shards| && Left(s) < Left(shards[i])
    ensures AllLeft(shards[i := s]) < AllLeft(shards)
  {
    var n := |shards| - 1;
    var after := shards[i := s];
    if i < n {
      assert after[..n] == shards[..n][i := s];
      OneStepLess(shards[..n], i, s);
    } else {
      assert after[..n] == shards[..n];
    }
  }

  lemma {:induction false} RunsOn(k: Setting, steps: seq<Step>, s: Sink, step: Step)
    requires SettingOk(k) && Runs(k, steps, s) && |s.shards| == k.workers && Enabled(k, s, step)
    ensures Runs(k, steps + [step], Next(k, s, step))
  {
    var more := steps + [step];
    assert more[..|more| - 1] == steps && more[|more| - 1] == step;
  }

  /** What a worker can do, whatever it is doing. */
  function NextOf(s: Sink, i: nat): Step
    requires i < |s.shards|
  {
    if s.shards[i].busy.Some? then Finish(i, Rejected, s.index)
    else if s.shards[i].queue != [] then Take(i)
    else Exit(i)
  }

  lemma {:induction false} WorkerGoesOn(k: Setting, s: Sink, i: nat)
    requires SettingOk(k) && |s.shards| == k.workers && s.closed && i < k.workers && !s.shards[i].exited
    ensures Enabled(k, s, NextOf(s, i))
    ensures var p := Next(k, s, NextOf(s, i));
      && |p.shards| == k.workers && p.closed && p.accepted == s.accepted && AllLeft(p.shards) < AllLeft(s.shards)
  {
    OneStepLess(s.shards, i, Next(k, s, NextOf(s, i)).shards[i]);
  }

  lemma {:induction false} Regrouped(steps: seq<Step>, step: Step, more: seq<Step>)
    ensures steps + ([step] + more) == steps + [step] + more
  {
  }

  /** Once the queue is closed, no worker is ever stuck: from every state the workers can handle what
      was accepted, all of it, and go home. */
  lemma {:induction false} CanDrain(k: Setting, steps: seq<Step>, s: Sink) returns (more: seq<Step>, s': Sink)
    requires SettingOk(k) && Runs(k, steps, s) && s.closed
    ensures Runs(k, steps + more, s') && Drained(k, s') && s'.accepted == s.accepted
    decreases AllLeft(s.shards)
  {
    RunsKeep(k, steps, s);
    if i: nat :| i < |s.shards| && !s.shards[i].exited {
      WorkerGoesOn(k, s, i);
      RunsOn(k, steps, s, NextOf(s, i));
      more, s' := CanDrain(k, steps + [NextOf(s, i)], Next(k, s, NextOf(s, i)));
      Regrouped(steps, NextOf(s, i), more);
      more := [NextOf(s, i)] + more;
    } else {
      more, s' := [], s;
      assert steps + more == steps;
    }
  }
}
