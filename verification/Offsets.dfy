/** What a consumer may commit. Workers finish records out of order, Kafka commits a position
    meaning "everything before this is done", so the commit point of a partition moves past a
    record only once that record and every earlier one in flight are done. */
module Offsets {
  datatype Option<T> = None | Some(value: T)

  datatype TopicPartition = TopicPartition(topic: string, partition: int)

  /** One delivery of one record. Two deliveries of the same offset are different records:
      the tracker compares them by identity, here the delivery number. */
  datatype Record = Record(tp: TopicPartition, offset: nat, delivery: nat)

  datatype Tracked = Tracked(record: Record, done: bool)

  /** The tracker's two map entries for one partition. */
  datatype Lane = Lane(queue: seq<Tracked>, due: Option<Record>)

  const EmptyLane := Lane([], None)

  function Track(l: Lane, r: Record): Lane {
    l.(queue := l.queue + [Tracked(r, false)])
  }

  function MarkDone(q: seq<Tracked>, r: Record): seq<Tracked> {
    if q == [] then []
    else if q[0].record == r then [q[0].(done := true)] + q[1..]
    else [q[0]] + MarkDone(q[1..], r)
  }

  function DonePrefix(q: seq<Tracked>): (n: nat)
    ensures n <= |q|
    ensures forall i | 0 <= i < n :: q[i].done
    ensures n < |q| ==> !q[n].done
  {
    if q == [] || !q[0].done then 0 else 1 + DonePrefix(q[1..])
  }

  function Done(l: Lane, r: Record): Lane {
    var q := MarkDone(l.queue, r);
    var n := DonePrefix(q);
    Lane(q[n..], if n > 0 then Some(q[n - 1].record) else l.due)
  }

  function Take(l: Lane): Lane {
    l.(due := None)
  }

  function Restore(l: Lane, r: Record): Lane {
    if l.due.None? || l.due.value.offset < r.offset then l.(due := Some(r)) else l
  }

  // ---------------------------------------------------------------------------------------
  // The tracker itself: two maps, changed in place under one lock.

  class OffsetTracker {
    var inFlight: map<TopicPartition, seq<Tracked>>
    var committed: map<TopicPartition, Record>

    constructor ()
      ensures forall tp :: LaneOf(tp) == EmptyLane
    {
      inFlight, committed := map[], map[];
    }

    function LaneOf(tp: TopicPartition): Lane
      reads this
    {
      Lane(if tp in inFlight then inFlight[tp] else [], if tp in committed then Some(committed[tp]) else None)
    }

    method TrackRecord(r: Record)
      modifies this
      ensures LaneOf(r.tp) == Track(old(LaneOf(r.tp)), r)
      ensures forall tp | tp != r.tp :: LaneOf(tp) == old(LaneOf(tp))
    {
      inFlight := inFlight[r.tp := (if r.tp in inFlight then inFlight[r.tp] else []) + [Tracked(r, false)]];
    }

    method AckRecord(r: Record)
      modifies this
      ensures LaneOf(r.tp) == Done(old(LaneOf(r.tp)), r)
      ensures forall tp | tp != r.tp :: LaneOf(tp) == old(LaneOf(tp))
    {
      var queue := if r.tp in inFlight then inFlight[r.tp] else [];
      queue := MarkInPlace(queue, r);
      if r.tp in inFlight {
        inFlight := inFlight[r.tp := queue];
      }
      assert LaneOf(r.tp) == Lane(queue, old(LaneOf(r.tp)).due);
      var advanced := AdvanceCommitted(r.tp, queue);
      if advanced > 0 {
        inFlight := inFlight[r.tp := queue[advanced..]];
      } else {
        assert queue[advanced..] == queue;
      }
      assert LaneOf(r.tp).queue == queue[advanced..];
    }

    /** Moves the partition's commit point to the end of the done records at the head. */
    method AdvanceCommitted(tp: TopicPartition, queue: seq<Tracked>) returns (advanced: nat)
      modifies this`committed
      ensures advanced == DonePrefix(queue)
      ensures committed == if advanced > 0 then old(committed)[tp := queue[advanced - 1].record] else old(committed)
    {
      advanced := 0;
      while advanced < |queue| && queue[advanced].done
        invariant advanced <= |queue|
        invariant DonePrefix(queue) == advanced + DonePrefix(queue[advanced..])
        invariant committed == if advanced > 0 then old(committed)[tp := queue[advanced - 1].record] else old(committed)
      {
        committed := committed[tp := queue[advanced].record];
        advanced := advanced + 1;
        assert queue[advanced - 1..][1..] == queue[advanced..];
      }
    }

    /** Only the first entry holding exactly this record is marked. */
    static method MarkInPlace(q: seq<Tracked>, r: Record) returns (marked: seq<Tracked>)
      ensures marked == MarkDone(q, r)
    {
      marked := q;
      var i := 0;
      while i < |q|
        invariant 0 <= i <= |q|
        invariant marked == q
        invariant MarkDone(q, r) == q[..i] + MarkDone(q[i..], r)
      {
        if q[i].record == r {
          marked := q[i := q[i].(done := true)];
          assert marked == q[..i] + ([q[i].(done := true)] + q[i..][1..]);
          return;
        }
        assert q[..i] + [q[i]] == q[..i + 1] && q[i..][1..] == q[i + 1..];
        i := i + 1;
      }
      assert q[..i] == q && q[i..] == [];
    }

    method TakeDue() returns (out: set<Record>)
      modifies this
      ensures out == set tp | tp in old(committed) :: old(committed)[tp]
      ensures forall tp :: LaneOf(tp) == Take(old(LaneOf(tp)))
    {
      out := {};
      ghost var all := committed;
      while committed.Keys != {}
        invariant inFlight == old(inFlight)
        invariant committed.Keys <= all.Keys && forall tp | tp in committed :: committed[tp] == all[tp]
        invariant out == set tp | tp in all && tp !in committed :: all[tp]
        decreases |committed.Keys|
      {
        var tp :| tp in committed.Keys;
        ghost var before := committed.Keys;
        out := out + {committed[tp]};
        committed := committed - {tp};
        assert committed.Keys == before - {tp};
      }
    }

    method RestoreRecords(records: seq<Record>)
      modifies this
      ensures forall tp :: LaneOf(tp) == RestoreAll(old(LaneOf(tp)), records, tp)
    {
      for i := 0 to |records|
        invariant forall tp :: LaneOf(tp) == RestoreAll(old(LaneOf(tp)), records[..i], tp)
      {
        var r := records[i];
        if r.tp !in committed || committed[r.tp].offset < r.offset {
          committed := committed[r.tp := r];
        }
        assert records[..i + 1][..i] == records[..i];
      }
      assert records[..|records|] == records;
    }

    method ReleasePartitions(partitions: seq<TopicPartition>) returns (out: set<Record>)
      modifies this
      ensures out == set tp | tp in partitions && tp in old(committed) :: old(committed)[tp]
      ensures forall tp :: LaneOf(tp) == if tp in partitions then EmptyLane else old(LaneOf(tp))
    {
      out := {};
      ghost var all := committed;
      for i := 0 to |partitions|
        invariant inFlight == old(inFlight) - (set tp | tp in partitions[..i])
        invariant committed == all - (set tp | tp in partitions[..i])
        invariant out == set tp | tp in partitions[..i] && tp in all :: all[tp]
      {
        var tp := partitions[i];
        assert partitions[..i + 1] == partitions[..i] + [tp];
        if tp in committed {
          out := out + {committed[tp]};
        }
        committed := committed - {tp};
        inFlight := inFlight - {tp};
      }
      assert partitions[..|partitions|] == partitions;
    }
  }

  function RestoreAll(l: Lane, records: seq<Record>, tp: TopicPartition): Lane {
    if records == [] then l
    else
      var r := records[|records| - 1];
      var before := RestoreAll(l, records[..|records| - 1], tp);
      if r.tp == tp then Restore(before, r) else before
  }
}
