/** Within one ownership of a partition the tracker computes the longest acked prefix: the queue
    is what follows it, and the commit candidate is its last record until that is handed out. */
module Ownership {
  import opened Offsets

  /** `log` is what this ownership tracked, in order; `handed` is the length of the prefix last
      given to a commit, and `retry` says that commit failed and was restored since. */
  datatype Owned = Owned(log: seq<Record>, acked: set<Record>, lane: Lane, handed: nat, retry: bool)

  datatype Op = TrackNext(r: Record) | AckOf(r: Record) | TakeDue | CommitFailed

  const Fresh := Owned([], {}, EmptyLane, 0, false)

  function Longest(log: seq<Record>, acked: set<Record>): (n: nat)
    ensures n <= |log|
    ensures forall i | 0 <= i < n :: log[i] in acked
    ensures n < |log| ==> log[n] !in acked
  {
    if log == [] || log[0] !in acked then 0 else 1 + Longest(log[1..], acked)
  }

  function Entries(log: seq<Record>, acked: set<Record>): (q: seq<Tracked>)
    ensures |q| == |log|
  {
    if log == [] then [] else [Tracked(log[0], log[0] in acked)] + Entries(log[1..], acked)
  }

  ghost predicate Ascending(log: seq<Record>) {
    forall i, j | 0 <= i < j < |log| :: log[i].offset < log[j].offset
  }

  /** Kafka delivers a partition in offset order; a commit is retried before the next take. */
  ghost predicate Enabled(o: Owned, op: Op) {
    match op
    case TrackNext(r) => forall s | s in o.log :: s.offset < r.offset
    case AckOf(_) => true
    case TakeDue => true
    case CommitFailed => 0 < o.handed <= |o.log|
  }

  function Apply(o: Owned, op: Op): Owned
    requires op.CommitFailed? ==> 0 < o.handed <= |o.log|
  {
    match op
    case TrackNext(r) => o.(log := o.log + [r], lane := Track(o.lane, r))
    case AckOf(r) => o.(acked := if r in o.log then o.acked + {r} else o.acked, lane := Done(o.lane, r))
    case TakeDue =>
      o.(lane := Take(o.lane), retry := false,
         handed := if o.lane.due.None? then o.handed else PrefixUpTo(o.log, o.lane.due.value))
    case CommitFailed => o.(lane := Restore(o.lane, o.log[o.handed - 1]), retry := true)
  }

  /** Length of the prefix that ends with r. */
  function PrefixUpTo(log: seq<Record>, r: Record): (n: nat)
    ensures n <= |log|
  {
    if log == [] then 0 else if log[|log| - 1] == r then |log| else PrefixUpTo(log[..|log| - 1], r)
  }

  /** The candidate: the end of the longest acked prefix if that is new, else a restored older
      commit, else nothing. */
  function Candidate(o: Owned): Option<Record> {
    CandidateAt(o.log, Longest(o.log, o.acked), o.handed, o.retry)
  }

  function CandidateAt(log: seq<Record>, n: nat, handed: nat, retry: bool): Option<Record>
    requires n <= |log|
  {
    if n > handed then Some(log[n - 1])
    else if retry && 0 < handed <= |log| then Some(log[handed - 1])
    else None
  }

  ghost predicate WellFormed(o: Owned) {
    && Ascending(o.log)
    && (forall r | r in o.acked :: r in o.log)
    && o.handed <= Longest(o.log, o.acked)
    && (o.retry ==> o.handed > 0)
  }

  ghost predicate LaneMatches(o: Owned) {
    o.lane == Lane(Entries(o.log[Longest(o.log, o.acked)..], o.acked), Candidate(o))
  }

  ghost predicate Refines(o: Owned) {
    WellFormed(o) && LaneMatches(o)
  }

  lemma {:induction false} DonePrefixOfEntries(log: seq<Record>, acked: set<Record>)
    ensures DonePrefix(Entries(log, acked)) == Longest(log, acked)
    ensures forall i | 0 <= i < |log| :: Entries(log, acked)[i] == Tracked(log[i], log[i] in acked)
  {
    if log != [] {
      DonePrefixOfEntries(log[1..], acked);
      assert Entries(log, acked)[1..] == Entries(log[1..], acked);
    }
  }

  lemma {:induction false} MarkDoneOfEntries(log: seq<Record>, acked: set<Record>, r: Record)
    requires Ascending(log)
    ensures MarkDone(Entries(log, acked), r) == Entries(log, acked + {r})
  {
    if log != [] {
      assert Entries(log, acked)[1..] == Entries(log[1..], acked);
      if log[0] == r {
        EntriesIgnore(log[1..], acked, r);
      } else {
        MarkDoneOfEntries(log[1..], acked, r);
      }
    }
  }

  lemma {:induction false} EntriesIgnore(log: seq<Record>, acked: set<Record>, r: Record)
    requires r !in log
    ensures Entries(log, acked + {r}) == Entries(log, acked)
  {
    if log != [] {
      EntriesIgnore(log[1..], acked, r);
    }
  }

  lemma {:induction false} EntriesSuffix(log: seq<Record>, acked: set<Record>, n: nat)
    requires n <= |log|
    ensures Entries(log, acked)[n..] == Entries(log[n..], acked)
  {
    if n > 0 {
      EntriesSuffix(log[1..], acked, n - 1);
      assert Entries(log, acked)[n..] == Entries(log[1..], acked)[n - 1..];
      assert log[1..][n - 1..] == log[n..];
    } else {
      assert log[0..] == log;
    }
  }

  lemma {:induction false} EntriesAppend(log: seq<Record>, acked: set<Record>, r: Record)
    requires r !in acked
    ensures Entries(log + [r], acked) == Entries(log, acked) + [Tracked(r, false)]
    ensures Longest(log + [r], acked) == Longest(log, acked)
  {
    if log != [] {
      assert (log + [r])[1..] == log[1..] + [r];
      EntriesAppend(log[1..], acked, r);
    }
  }

  /** Past n acked records the prefix goes on with what follows. */
  lemma {:induction false} LongestSplit(log: seq<Record>, acked: set<Record>, n: nat)
    requires n <= |log| && forall i | 0 <= i < n :: log[i] in acked
    ensures Longest(log, acked) == n + Longest(log[n..], acked)
  {
    if n > 0 {
      LongestSplit(log[1..], acked, n - 1);
      assert log[1..][n - 1..] == log[n..];
    } else {
      assert log[0..] == log;
    }
  }

  lemma {:induction false} PrefixUpToAt(log: seq<Record>, n: nat)
    requires Ascending(log) && 0 < n <= |log|
    ensures PrefixUpTo(log, log[n - 1]) == n
  {
    if n < |log| {
      PrefixUpToAt(log[..|log| - 1], n);
    }
  }

  lemma {:induction false} TrackMatches(o: Owned, r: Record)
    requires LaneMatches(o) && r !in o.acked && o.handed <= |o.log|
    ensures LaneMatches(Apply(o, TrackNext(r)))
    ensures Longest(o.log + [r], o.acked) == Longest(o.log, o.acked)
  {
    var n := Longest(o.log, o.acked);
    EntriesAppend(o.log, o.acked, r);
    EntriesAppend(o.log[n..], o.acked, r);
    assert (o.log + [r])[n..] == o.log[n..] + [r];
  }

  lemma {:induction false} TrackRefines(o: Owned, r: Record)
    requires Refines(o) && Enabled(o, TrackNext(r))
    ensures Refines(Apply(o, TrackNext(r)))
  {
    assert r !in o.log;
    TrackMatches(o, r);
  }

  /** An ack pops exactly the records the longest prefix grows by. */
  lemma {:induction false} DoneOfEntries(rest: seq<Record>, acked: set<Record>, due: Option<Record>, r: Record)
      returns (m: nat)
    requires Ascending(rest)
    ensures m == Longest(rest, acked + {r}) && m <= |rest|
    ensures Done(Lane(Entries(rest, acked), due), r)
      == Lane(Entries(rest[m..], acked + {r}), if m > 0 then Some(rest[m - 1]) else due)
  {
    m := Longest(rest, acked + {r});
    MarkDoneOfEntries(rest, acked, r);
    DonePrefixOfEntries(rest, acked + {r});
    EntriesSuffix(rest, acked + {r}, m);
  }

  lemma {:induction false} AckMatches(o: Owned, r: Record)
    requires LaneMatches(o) && Ascending(o.log) && o.handed <= Longest(o.log, o.acked) && r in o.log
    ensures LaneMatches(Apply(o, AckOf(r)))
    ensures Longest(o.log, o.acked) <= Longest(o.log, o.acked + {r})
  {
    var _ := AckAdvances(o.log, o.acked, r, Longest(o.log, o.acked), o.handed, o.retry);
  }

  lemma {:induction false} AckAdvances(log: seq<Record>, acked: set<Record>, r: Record, n: nat, handed: nat,
      retry: bool)
      returns (n': nat)
    requires Ascending(log) && n <= |log| && handed <= n
    requires forall i | 0 <= i < n :: log[i] in acked
    ensures n' == Longest(log, acked + {r}) && n <= n' <= |log|
    ensures Done(Lane(Entries(log[n..], acked), CandidateAt(log, n, handed, retry)), r)
      == Lane(Entries(log[n'..], acked + {r}), CandidateAt(log, n', handed, retry))
  {
    LongestSplit(log, acked + {r}, n);
    n' := AdvanceCandidate(log, acked, r, n, handed, retry);
  }

  lemma {:induction false} AdvanceCandidate(log: seq<Record>, acked: set<Record>, r: Record, n: nat, handed: nat,
      retry: bool)
      returns (n': nat)
    requires Ascending(log) && n <= |log| && handed <= n
    ensures n' == n + Longest(log[n..], acked + {r}) && n' <= |log|
    ensures Done(Lane(Entries(log[n..], acked), CandidateAt(log, n, handed, retry)), r)
      == Lane(Entries(log[n'..], acked + {r}), CandidateAt(log, n', handed, retry))
  {
    var m := DoneOfEntries(log[n..], acked, CandidateAt(log, n, handed, retry), r);
    n' := n + m;
    CandidateAdvances(log, n, m, handed, retry);
  }

  lemma {:induction false} CandidateAdvances(log: seq<Record>, n: nat, m: nat, handed: nat, retry: bool)
    requires n + m <= |log| && handed <= n
    ensures log[n..][m..] == log[n + m..]
    ensures CandidateAt(log, n + m, handed, retry)
      == if m > 0 then Some(log[n..][m - 1]) else CandidateAt(log, n, handed, retry)
  {
  }

  lemma {:induction false} ForeignAckMatches(o: Owned, r: Record)
    requires LaneMatches(o) && Ascending(o.log) && r !in o.log
    ensures LaneMatches(Apply(o, AckOf(r)))
  {
    var n := Longest(o.log, o.acked);
    var rest := o.log[n..];
    var _ := DoneOfEntries(rest, o.acked, o.lane.due, r);
    ForeignAck(rest, o.acked, r);
    EntriesIgnore(rest, o.acked, r);
    LongestSplit(o.log, o.acked, n);
    assert rest[0..] == rest;
  }

  lemma {:induction false} AckRefines(o: Owned, r: Record)
    requires Refines(o)
    ensures Refines(Apply(o, AckOf(r)))
  {
    if r in o.log {
      AckMatches(o, r);
    } else {
      ForeignAckMatches(o, r);
    }
  }

  lemma {:induction false} ForeignAck(log: seq<Record>, acked: set<Record>, r: Record)
    requires r !in log
    ensures Longest(log, acked + {r}) == Longest(log, acked)
  {
    if log != [] {
      ForeignAck(log[1..], acked, r);
    }
  }

  /** What is taken is the candidate, so the prefix handed out is the longest acked one, or stays. */
  lemma {:induction false} TakenIsHanded(o: Owned)
    requires Refines(o)
    ensures Apply(o, TakeDue).handed == if Longest(o.log, o.acked) > o.handed then Longest(o.log, o.acked) else o.handed
  {
    var n := Longest(o.log, o.acked);
    if n > o.handed {
      PrefixUpToAt(o.log, n);
    } else if o.handed > 0 {
      PrefixUpToAt(o.log, o.handed);
    }
  }

  lemma {:induction false} TakeRefines(o: Owned)
    requires Refines(o)
    ensures Refines(Apply(o, TakeDue))
    ensures o.handed <= Apply(o, TakeDue).handed
  {
    TakenIsHanded(o);
  }

  lemma {:induction false} RestoreRefines(o: Owned)
    requires Refines(o) && Enabled(o, CommitFailed)
    ensures Refines(Apply(o, CommitFailed))
  {
  }

  ghost predicate Run(o: Owned, ops: seq<Op>, o': Owned)
    decreases |ops|
  {
    if ops == [] then o == o' else Enabled(o, ops[0]) && Run(Apply(o, ops[0]), ops[1..], o')
  }

  lemma {:induction false} StepRefines(o: Owned, op: Op)
    requires Refines(o) && Enabled(o, op)
    ensures Refines(Apply(o, op))
    ensures o.handed <= Apply(o, op).handed
  {
    match op {
      case TrackNext(r) => TrackRefines(o, r);
      case AckOf(r) => AckRefines(o, r);
      case TakeDue => TakeRefines(o);
      case CommitFailed => RestoreRefines(o);
    }
  }

  lemma {:induction false} RunRefines(o: Owned, ops: seq<Op>, o': Owned)
    requires Refines(o) && Run(o, ops, o')
    ensures Refines(o') && o.handed <= o'.handed
    decreases |ops|
  {
    if ops != [] {
      StepRefines(o, ops[0]);
      RunRefines(Apply(o, ops[0]), ops[1..], o');
    }
  }

  lemma {:induction false} HeadIsNotDone(o: Owned)
    requires LaneMatches(o)
    ensures o.lane.queue != [] ==> !o.lane.queue[0].done
  {
    var n := Longest(o.log, o.acked);
    DonePrefixOfEntries(o.log[n..], o.acked);
  }

  lemma {:induction false} NeverMovesBack(o: Owned)
    requires Refines(o)
    ensures forall later, o' :: Run(o, later, o') ==> o.handed <= o'.handed
  {
    forall later, o' | Run(o, later, o') ensures o.handed <= o'.handed {
      RunRefines(o, later, o');
    }
  }

  /** The theorem: in every state of an ownership the head of the queue is not done, the commit
      candidate is the end of the longest acked prefix not handed out before (an older, restored
      one only when nothing newer is due), and what is handed out never moves back. */
  lemma {:induction false} LongestAckedPrefix(ops: seq<Op>, o: Owned)
    requires Run(Fresh, ops, o)
    ensures o.lane.queue != [] ==> !o.lane.queue[0].done
    ensures o.lane.due == Candidate(o)
    ensures forall later, o' :: Run(o, later, o') ==> o.handed <= o'.handed
  {
    RunRefines(Fresh, ops, o);
    HeadIsNotDone(o);
    NeverMovesBack(o);
  }

  /** The first `n` records are acked, and the next one is not. */
  ghost predicate AckedUpTo(o: Owned, n: nat) {
    n <= |o.log| && (forall i | 0 <= i < n :: o.log[i] in o.acked) && (n < |o.log| ==> o.log[n] !in o.acked)
  }

  lemma {:induction false} LongestIs(o: Owned, n: nat)
    requires AckedUpTo(o, n)
    ensures Longest(o.log, o.acked) == n
  {
  }

  lemma {:induction false} RestIsQueued(o: Owned, n: nat)
    requires LaneMatches(o) && Longest(o.log, o.acked) == n
    ensures |o.lane.queue| == |o.log| - n
    ensures forall i | n <= i < |o.log| :: o.lane.queue[i - n] == Tracked(o.log[i], o.log[i] in o.acked)
  {
    DonePrefixOfEntries(o.log[n..], o.acked);
    forall i | n <= i < |o.log| ensures o.lane.queue[i - n] == Tracked(o.log[i], o.log[i] in o.acked) {
      assert o.log[i] == o.log[n..][i - n];
    }
  }

  lemma {:induction false} DueIs(o: Owned, n: nat)
    requires Refines(o) && Longest(o.log, o.acked) == n
    ensures o.handed <= n <= |o.log| && (o.retry ==> o.handed > 0)
    ensures o.lane.due == if n > o.handed then Some(o.log[n - 1])
      else if o.retry then Some(o.log[o.handed - 1]) else None
  {
  }

  /** When the first `n` records are acked and the next one is not, the last of them is due, unless it
      was handed out already; then a failed commit is due again, or nothing is. A take hands it out and
      leaves nothing due, and the records behind it are queued with what is known of them. */
  lemma {:induction false} AckedIsDue(ops: seq<Op>, o: Owned, n: nat)
    requires Run(Fresh, ops, o) && AckedUpTo(o, n)
    ensures o.handed <= n && (o.retry ==> o.handed > 0)
    ensures o.lane.due == if n > o.handed then Some(o.log[n - 1])
      else if o.retry then Some(o.log[o.handed - 1]) else None
    ensures Apply(o, TakeDue).handed == n && Apply(o, TakeDue).lane.due == None && !Apply(o, TakeDue).retry
    ensures |o.lane.queue| == |o.log| - n
    ensures forall i | n <= i < |o.log| :: o.lane.queue[i - n] == Tracked(o.log[i], o.log[i] in o.acked)
  {
    RunRefines(Fresh, ops, o);
    LongestIs(o, n);
    TakenIsHanded(o);
    DueIs(o, n);
    RestIsQueued(o, n);
  }
}
