/** Packing units into chunks: greedily, up to a size, each chunk repeating a tail of the one
    before it. */
module Pack {
  import opened Units

  datatype Settings = Settings(maxRunes: nat, overlapRunes: nat, minDocumentRunes: nat)

  ghost predicate Valid(settings: Settings) {
    settings.maxRunes > 0 && settings.overlapRunes < settings.maxRunes
  }

  /** The units `[from, to)`. */
  datatype Interval = Interval(from: nat, to: nat)

  /** The size of the units `[a, b)` rendered. */
  function Size(units: seq<Unit>, a: nat, b: nat): nat
    requires a <= b <= |units|
  {
    Measure(Slice(units, a, b))
  }

  lemma {:induction false} SizeOfOne(units: seq<Unit>, a: nat)
    requires a < |units|
    ensures Size(units, a, a + 1) == units[a].runes && Size(units, a, a) == 0
  {
    assert Slice(units, a, a + 1) == [units[a]];
  }

  lemma {:induction false} SizeGrows(units: seq<Unit>, a: nat, b: nat)
    requires a < b < |units|
    ensures Size(units, a, b + 1) == Size(units, a, b) + SeparatorRunes(units[b - 1], units[b]) + units[b].runes
  {
    assert Slice(units, a, b + 1) == Slice(units, a, b) + [units[b]];
    MeasureAppend(Slice(units, a, b), units[b]);
  }

  lemma {:induction false} SizeOfParts(units: seq<Unit>, a: nat, b: nat, c: nat)
    requires a < b < c <= |units|
    ensures Size(units, a, c) == Size(units, a, b) + SeparatorRunes(units[b - 1], units[b]) + Size(units, b, c)
  {
    SliceConcat(units, a, b, c);
    MeasureConcat(Slice(units, a, b), Slice(units, b, c));
  }

  lemma {:induction false} SliceOk(units: seq<Unit>, a: nat, b: nat, limit: nat)
    requires UnitsOk(units, limit) && a <= b <= |units|
    ensures UnitsOk(Slice(units, a, b), limit)
  {
    forall u | u in Slice(units, a, b) ensures UnitOk(u, limit) {
      assert u in units;
    }
  }

  // ---- The repeated tail -------------------------------------------------------------------

  /** Units from `s` on are the longest proper suffix of the units `[a, b)` within the budget. */
  ghost predicate LongestTail(units: seq<Unit>, a: nat, b: nat, s: nat, budget: nat)
    requires a < b <= |units|
  {
    && a < s <= b && Size(units, s, b) <= budget
    && forall t | a < t < s :: Size(units, t, b) > budget
  }

  lemma {:induction false} LongerIsLarger(units: seq<Unit>, a: nat, b: nat, s: nat, budget: nat, limit: nat)
    requires UnitsOk(units, limit) && a < s <= b <= |units| && Size(units, s, b) > budget
    ensures forall t | a < t < s :: Size(units, t, b) > budget
  {
    forall t | a < t < s ensures Size(units, t, b) > budget {
      if s < b {
        SizeOfParts(units, t, s, b);
      }
    }
  }

  lemma {:induction false} OneMoreOfTail(units: seq<Unit>, i: nat)
    requires i < |units|
    ensures Size(units, i, |units|) == Size(units, i + 1, |units|) + units[i].runes
        + if i + 1 < |units| then SeparatorRunes(units[i], units[i + 1]) else 0
  {
    SizeOfOne(units, i);
    if i + 1 < |units| {
      SizeOfParts(units, i, i + 1, |units|);
    } else {
      SizeOfOne(units, i);
      assert Slice(units, i + 1, |units|) == [];
    }
  }

  lemma {:induction false} NoTailForNothing(units: seq<Unit>, limit: nat)
    requires UnitsOk(units, limit) && units != []
    ensures LongestTail(units, 0, |units|, |units|, 0)
  {
    forall t | 0 < t < |units| ensures Size(units, t, |units|) > 0 {
      assert units[t] in units;
      OneMoreOfTail(units, t);
    }
  }

  method Overlap(closed: seq<Unit>, budget: nat, ghost limit: nat) returns (tail: seq<Unit>)
    requires UnitsOk(closed, limit) && closed != []
    ensures |tail| < |closed| && tail == Slice(closed, |closed| - |tail|, |closed|)
    ensures LongestTail(closed, 0, |closed|, |closed| - |tail|, budget)
  {
    var n := |closed|;
    if budget == 0 || n < 2 {
      NoTailForNothing(closed, limit);
      return [];
    }
    var start := n;
    var total := 0;
    var i := n - 1;
    while i >= 1
      invariant 0 <= i == start - 1 < n
      invariant total == Size(closed, start, n) <= budget
    {
      var cost := closed[i].runes;
      if i < n - 1 {
        cost := cost + SeparatorRunes(closed[i], closed[i + 1]);
      }
      OneMoreOfTail(closed, i);
      if total + cost > budget {
        LongerIsLarger(closed, 0, n, i, budget, limit);
        break;
      }
      total := total + cost;
      start := i;
      i := i - 1;
    }
    tail := closed[start..];
  }

  // ---- Where chunks break ------------------------------------------------------------------

  /** The share of a chunk that must be filled before it ends early for a paragraph's sake. */
  function Fill(settings: Settings): nat {
    settings.maxRunes / 2
  }

  /** Unit `k` does not go behind the units `[a, k)`: it does not fit, or it starts a paragraph
      that would not fit and the chunk is full enough already. */
  predicate Breaks(units: seq<Unit>, a: nat, k: nat, settings: Settings)
    requires a < k < |units|
  {
    || Size(units, a, k + 1) > settings.maxRunes
    || (&& units[k].first && Size(units, a, k) + ParagraphSeparatorRunes + units[k].paragraphRunes > settings.maxRunes
        && Size(units, a, k) >= Fill(settings))
  }

  /** The units `[chunk.from, chunk.to)` are a chunk of the right size. From its first new unit
      `e` on it went on taking units until `chunk.to`. */
  ghost predicate Fills(units: seq<Unit>, chunk: Interval, e: nat, settings: Settings) {
    && chunk.from <= e < chunk.to <= |units|
    && Size(units, chunk.from, chunk.to) <= settings.maxRunes
    && forall j | e < j < chunk.to :: !Breaks(units, chunk.from, j, settings)
  }

  /** `start` is where the tail that starts at `s` leaves the next chunk: at `s`, or with no tail
      if the next unit does not fit behind it. */
  ghost predicate TailKept(units: seq<Unit>, a: nat, b: nat, s: nat, start: nat, settings: Settings)
    requires a < b < |units|
  {
    && s <= b && LongestTail(units, a, b, s, settings.overlapRunes)
    && start == if s < b && Size(units, s, b + 1) > settings.maxRunes then b else s
  }

  /** Where the chunk after the units `[a, b)` begins. */
  ghost predicate Begins(units: seq<Unit>, a: nat, b: nat, start: nat, settings: Settings)
    requires a < b < |units|
  {
    exists s: nat :: TailKept(units, a, b, s, start, settings)
  }

  /** `next` follows `prev`: `prev` could not take one more unit, and `next` begins where it must
      and goes on from that unit. */
  ghost predicate Follows(units: seq<Unit>, prev: Interval, next: Interval, settings: Settings) {
    && prev.from < next.from <= prev.to < next.to <= |units|
    && Breaks(units, prev.from, prev.to, settings)
    && Begins(units, prev.from, prev.to, next.from, settings)
    && Fills(units, next, prev.to, settings)
  }

  /** Chunk `c` may come after the chunks so far. */
  ghost predicate Attaches(units: seq<Unit>, closed: seq<Interval>, c: Interval, settings: Settings) {
    if closed == [] then c.from == 0 && Fills(units, c, 0, settings)
    else Follows(units, closed[|closed| - 1], c, settings)
  }

  /** Chunks over the first units, up to where the last of them ends. */
  ghost predicate Chain(units: seq<Unit>, chunks: seq<Interval>, settings: Settings) {
    chunks == [] || var n := |chunks| - 1;
      Chain(units, chunks[..n], settings) && Attaches(units, chunks[..n], chunks[n], settings)
  }

  /** All units, packed. */
  ghost predicate Packing(units: seq<Unit>, chunks: seq<Interval>, settings: Settings) {
    && Chain(units, chunks, settings) && (units == [] <==> chunks == [])
    && (chunks != [] ==> chunks[|chunks| - 1].to == |units|)
  }

  lemma {:induction false} ChainAppend(units: seq<Unit>, closed: seq<Interval>, c: Interval, settings: Settings)
    ensures Chain(units, closed + [c], settings)
      <==> Chain(units, closed, settings) && Attaches(units, closed, c, settings)
  {
    assert (closed + [c])[..|closed|] == closed;
  }

  lemma {:induction false} ChainPrefix(units: seq<Unit>, chunks: seq<Interval>, n: nat, settings: Settings)
    requires Chain(units, chunks, settings) && n <= |chunks|
    ensures Chain(units, chunks[..n], settings)
  {
    var m := |chunks| - 1;
    if n == |chunks| {
      assert chunks[..n] == chunks;
    } else {
      ChainPrefix(units, chunks[..m], n, settings);
      assert chunks[..m][..n] == chunks[..n];
    }
  }

  lemma {:induction false} ChainAttaches(units: seq<Unit>, chunks: seq<Interval>, i: nat, settings: Settings)
    requires Chain(units, chunks, settings) && i < |chunks|
    ensures Attaches(units, chunks[..i], chunks[i], settings)
  {
    ChainPrefix(units, chunks, i + 1, settings);
    var first := chunks[..i + 1];
    assert |first| - 1 == i && first[i] == chunks[i];
    assert first[..i] == chunks[..i];
  }

  lemma {:induction false} LastOfPrefix(chunks: seq<Interval>, i: nat)
    requires 0 < i <= |chunks|
    ensures var first := chunks[..i]; first != [] && first[|first| - 1] == chunks[i - 1]
  {
  }

  lemma {:induction false} AttachesFirst(units: seq<Unit>, c: Interval, settings: Settings)
    requires Attaches(units, [], c, settings)
    ensures c.from == 0 && Fills(units, c, 0, settings)
  {
  }

  lemma {:induction false} AttachesNext(units: seq<Unit>, closed: seq<Interval>, prev: Interval, c: Interval,
      settings: Settings)
    requires closed != [] && closed[|closed| - 1] == prev && Attaches(units, closed, c, settings)
    ensures Follows(units, prev, c, settings)
  {
  }

  lemma {:induction false} ChainFirst(units: seq<Unit>, chunks: seq<Interval>, settings: Settings)
    requires Chain(units, chunks, settings) && chunks != []
    ensures chunks[0].from == 0 && Fills(units, chunks[0], 0, settings)
  {
    ChainAttaches(units, chunks, 0, settings);
    assert chunks[..0] == [];
    AttachesFirst(units, chunks[0], settings);
  }

  lemma {:induction false} ChainNext(units: seq<Unit>, chunks: seq<Interval>, i: nat, settings: Settings)
    requires Chain(units, chunks, settings) && 0 < i < |chunks|
    ensures Follows(units, chunks[i - 1], chunks[i], settings)
  {
    ChainAttaches(units, chunks, i, settings);
    LastOfPrefix(chunks, i);
    AttachesNext(units, chunks[..i], chunks[i - 1], chunks[i], settings);
  }

  lemma {:induction false} ChainStep(units: seq<Unit>, chunks: seq<Interval>, i: nat, settings: Settings)
    requires Chain(units, chunks, settings) && i < |chunks|
    ensures if i == 0 then chunks[0].from == 0 && Fills(units, chunks[0], 0, settings)
      else Follows(units, chunks[i - 1], chunks[i], settings)
  {
    if i == 0 {
      ChainFirst(units, chunks, settings);
    } else {
      ChainNext(units, chunks, i, settings);
    }
  }

  lemma {:induction false} FillsOneMore(units: seq<Unit>, a: nat, e: nat, k: nat, settings: Settings)
    requires a < k < |units| && Fills(units, Interval(a, k), e, settings) && !Breaks(units, a, k, settings)
    ensures Fills(units, Interval(a, k + 1), e, settings)
  {
  }

  function ChunkText(units: seq<Unit>, c: Interval): string {
    if c.from <= c.to <= |units| then Render(Slice(units, c.from, c.to)) else ""
  }

  function Texts(units: seq<Unit>, chunks: seq<Interval>): seq<string> {
    if chunks == [] then [] else Texts(units, chunks[..|chunks| - 1]) + [ChunkText(units, chunks[|chunks| - 1])]
  }

  lemma {:induction false} TextsAppend(units: seq<Unit>, chunks: seq<Interval>, c: Interval)
    ensures Texts(units, chunks + [c]) == Texts(units, chunks) + [ChunkText(units, c)]
  {
    assert (chunks + [c])[..|chunks|] == chunks;
  }

  /** The units `[start, k)`, kept open for more, and their size. */
  ghost predicate Holds(units: seq<Unit>, start: nat, k: nat, current: seq<Unit>, currentRunes: nat) {
    start <= k <= |units| && current == Slice(units, start, k) && currentRunes == Size(units, start, k)
  }

  lemma {:induction false} HoldsOneMore(units: seq<Unit>, start: nat, k: nat, current: seq<Unit>, currentRunes: nat)
    requires k < |units| && Holds(units, start, k, current, currentRunes)
    ensures current != [] ==> current[|current| - 1] == units[k - 1]
    ensures Holds(units, start, k + 1, current + [units[k]], currentRunes + units[k].runes
      + if current != [] then SeparatorRunes(units[k - 1], units[k]) else 0)
  {
    assert Slice(units, start, k + 1) == current + [units[k]];
    if start < k {
      SizeGrows(units, start, k);
    } else {
      SizeOfOne(units, k);
    }
  }

  /** The chunks closed so far, and the open one after them. */
  ghost predicate Packed(units: seq<Unit>, closed: seq<Interval>, start: nat, k: nat, settings: Settings) {
    if k == 0 then closed == [] && start == 0 else Chain(units, closed + [Interval(start, k)], settings)
  }

  lemma {:induction false} PackedFirst(units: seq<Unit>, settings: Settings)
    requires Valid(settings) && UnitsOk(units, settings.maxRunes) && units != []
    ensures Packed(units, [], 0, 1, settings)
  {
    assert units[0] in units;
    SizeOfOne(units, 0);
    ChainAppend(units, [], Interval(0, 1), settings);
  }

  lemma {:induction false} TakesOneMore(units: seq<Unit>, closed: seq<Interval>, a: nat, k: nat, settings: Settings)
    requires a < k < |units| && Packed(units, closed, a, k, settings) && !Breaks(units, a, k, settings)
    ensures Packed(units, closed, a, k + 1, settings)
  {
    ChainAppend(units, closed, Interval(a, k), settings);
    ChainAppend(units, closed, Interval(a, k + 1), settings);
    FillsOneMore(units, a, if closed == [] then 0 else closed[|closed| - 1].to, k, settings);
  }

  lemma {:induction false} ReopenFollows(units: seq<Unit>, e: nat, start: nat, k: nat, next: nat, settings: Settings)
    requires start < k < |units| && Fills(units, Interval(start, k), e, settings) && Breaks(units, start, k, settings)
    requires start < next <= k && Begins(units, start, k, next, settings)
    requires Size(units, next, k + 1) <= settings.maxRunes
    ensures Follows(units, Interval(start, k), Interval(next, k + 1), settings)
  {
  }

  lemma {:induction false} PackedClosed(units: seq<Unit>, closed: seq<Interval>, c: Interval, next: Interval,
      settings: Settings)
    requires 0 < c.to < next.to && Packed(units, closed, c.from, c.to, settings) && Follows(units, c, next, settings)
    ensures Packed(units, closed + [c], next.from, next.to, settings)
  {
    assert (closed + [c])[|closed|] == c;
    ChainAppend(units, closed + [c], next, settings);
  }

  /** Closing the open chunk before unit `k`. */
  lemma {:induction false} CloseChunk(units: seq<Unit>, closed: seq<Interval>, start: nat, k: nat, next: nat,
      settings: Settings)
    requires start < k < |units| && Packed(units, closed, start, k, settings) && Breaks(units, start, k, settings)
    requires start < next <= k && Begins(units, start, k, next, settings)
    requires Size(units, next, k + 1) <= settings.maxRunes
    ensures Packed(units, closed + [Interval(start, k)], next, k + 1, settings)
    ensures Texts(units, closed + [Interval(start, k)]) == Texts(units, closed) + [Render(Slice(units, start, k))]
  {
    ChainAppend(units, closed, Interval(start, k), settings);
    var e: nat := if closed == [] then 0 else closed[|closed| - 1].to;
    ReopenFollows(units, e, start, k, next, settings);
    PackedClosed(units, closed, Interval(start, k), Interval(next, k + 1), settings);
    TextsAppend(units, closed, Interval(start, k));
  }

  lemma {:induction false} LastChunk(units: seq<Unit>, closed: seq<Interval>, start: nat, settings: Settings)
    requires start < |units| && Packed(units, closed, start, |units|, settings)
    ensures Packing(units, closed + [Interval(start, |units|)], settings)
    ensures Texts(units, closed + [Interval(start, |units|)])
      == Texts(units, closed) + [Render(Slice(units, start, |units|))]
  {
    TextsAppend(units, closed, Interval(start, |units|));
  }

  lemma {:induction false} TailOfSlice(units: seq<Unit>, a: nat, b: nat, s: nat, budget: nat)
    requires a < b <= |units| && s <= b - a && LongestTail(Slice(units, a, b), 0, b - a, s, budget)
    ensures LongestTail(units, a, b, a + s, budget)
    ensures Slice(Slice(units, a, b), s, b - a) == Slice(units, a + s, b)
  {
    assert Slice(Slice(units, a, b), s, b - a) == Slice(units, a + s, b);
    forall t | a < t < a + s ensures Size(units, t, b) > budget {
      assert Slice(Slice(units, a, b), t - a, b - a) == Slice(units, t, b);
      assert Size(Slice(units, a, b), t - a, b - a) > budget;
    }
  }

  lemma {:induction false} BeginsAt(units: seq<Unit>, a: nat, b: nat, s: nat, settings: Settings)
    requires UnitsOk(units, settings.maxRunes) && a < b < |units| && s <= b
    requires LongestTail(units, a, b, s, settings.overlapRunes)
    ensures var next := if s < b && Size(units, s, b + 1) > settings.maxRunes then b else s;
      Begins(units, a, b, next, settings) && Size(units, next, b + 1) <= settings.maxRunes
  {
    assert units[b] in units;
    SizeOfOne(units, b);
    assert TailKept(units, a, b, s, if s < b && Size(units, s, b + 1) > settings.maxRunes then b else s, settings);
  }

  lemma {:induction false} NothingHeld(units: seq<Unit>, k: nat)
    requires k <= |units|
    ensures Holds(units, k, k, [], 0)
  {
  }

  /** What is left of a chunk once it is closed before unit `k`: its tail, or nothing. */
  method Reopen(current: seq<Unit>, u: Unit, settings: Settings, ghost units: seq<Unit>, ghost start: nat, ghost k: nat)
      returns (rest: seq<Unit>, restRunes: nat, ghost next: nat)
    requires UnitsOk(units, settings.maxRunes) && start < k < |units|
    requires current == Slice(units, start, k) && u == units[k]
    ensures start < next <= k && Holds(units, next, k, rest, restRunes)
    ensures Begins(units, start, k, next, settings) && Size(units, next, k + 1) <= settings.maxRunes
  {
    rest, restRunes, next := KeepTail(current, settings, units, start, k);
    BeginsAt(units, start, k, next, settings);
    HoldsOneMore(units, next, k, rest, restRunes);
    if |rest| > 0 && restRunes + SeparatorRunes(rest[|rest| - 1], u) + u.runes > settings.maxRunes {
      rest := [];
      restRunes := 0;
      next := k;
      NothingHeld(units, k);
    }
  }

  method KeepTail(current: seq<Unit>, settings: Settings, ghost units: seq<Unit>, ghost start: nat, ghost k: nat)
      returns (rest: seq<Unit>, restRunes: nat, ghost s: nat)
    requires UnitsOk(units, settings.maxRunes) && start < k <= |units| && current == Slice(units, start, k)
    ensures s <= k && Holds(units, s, k, rest, restRunes)
    ensures LongestTail(units, start, k, s, settings.overlapRunes)
  {
    SliceOk(units, start, k, settings.maxRunes);
    rest := Overlap(current, settings.overlapRunes, settings.maxRunes);
    restRunes := MeasureUnits(rest);
    s := k - |rest|;
    TailOfSlice(units, start, k, |current| - |rest|, settings.overlapRunes);
  }

  lemma {:induction false} MeansBreak(units: seq<Unit>, start: nat, k: nat, current: seq<Unit>, currentRunes: nat,
      settings: Settings)
    requires start < k < |units| && Holds(units, start, k, current, currentRunes)
    ensures var u := units[k];
      var fits := currentRunes + SeparatorRunes(current[|current| - 1], u) + u.runes <= settings.maxRunes;
      var spill := u.first && currentRunes + ParagraphSeparatorRunes + u.paragraphRunes > settings.maxRunes;
      Breaks(units, start, k, settings) <==> !fits || (spill && currentRunes >= settings.maxRunes / 2)
  {
    HoldsOneMore(units, start, k, current, currentRunes);
  }

  /** Chunks closed so far with their texts, and the open chunk that takes unit `k - 1` last. */
  ghost predicate Packs(units: seq<Unit>, texts: seq<string>, closed: seq<Interval>, start: nat, k: nat,
      settings: Settings)
  {
    Packed(units, closed, start, k, settings) && texts == Texts(units, closed)
  }

  /** Closes the open chunk if unit `k` does not go behind it. */
  method MakeRoom(texts: seq<string>, current: seq<Unit>, currentRunes: nat, u: Unit, settings: Settings,
      ghost units: seq<Unit>, ghost closed: seq<Interval>, ghost start: nat, ghost k: nat)
      returns (texts': seq<string>, rest: seq<Unit>, restRunes: nat, ghost closed': seq<Interval>, ghost start': nat)
    requires UnitsOk(units, settings.maxRunes) && start < k < |units| && u == units[k]
    requires Holds(units, start, k, current, currentRunes) && Packs(units, texts, closed, start, k, settings)
    ensures Holds(units, start', k, rest, restRunes) && Packs(units, texts', closed', start', k + 1, settings)
  {
    var limit := settings.maxRunes;
    var fill := limit / 2;
    var last := current[|current| - 1];
    var fits := currentRunes + SeparatorRunes(last, u) + u.runes <= limit;
    var paragraphWouldSpill := u.first && currentRunes + ParagraphSeparatorRunes + u.paragraphRunes > limit;
    MeansBreak(units, start, k, current, currentRunes, settings);
    if !fits || (paragraphWouldSpill && currentRunes >= fill) {
      var text := RenderUnits(current);
      texts' := texts + [text];
      rest, restRunes, start' := Reopen(current, u, settings, units, start, k);
      CloseChunk(units, closed, start, k, start', settings);
      closed' := closed + [Interval(start, k)];
    } else {
      TakesOneMore(units, closed, start, k, settings);
      texts', rest, restRunes, closed', start' := texts, current, currentRunes, closed, start;
    }
  }

  /** Everything known after `k` units. */
  ghost predicate Progress(units: seq<Unit>, texts: seq<string>, current: seq<Unit>, currentRunes: nat,
      closed: seq<Interval>, start: nat, k: nat, settings: Settings) {
    && Holds(units, start, k, current, currentRunes) && (start == k <==> k == 0)
    && Packs(units, texts, closed, start, k, settings)
  }

  lemma {:induction false} NoProgress(units: seq<Unit>, settings: Settings)
    ensures Progress(units, [], [], 0, [], 0, 0, settings)
  {
  }

  /** Puts unit `k` behind the open chunk, or behind what is left of it. */
  method AddUnit(texts: seq<string>, current: seq<Unit>, currentRunes: nat, u: Unit, settings: Settings,
      ghost units: seq<Unit>, ghost closed: seq<Interval>, ghost start: nat, ghost k: nat)
      returns (texts': seq<string>, current': seq<Unit>, currentRunes': nat, ghost closed': seq<Interval>,
        ghost start': nat)
    requires Valid(settings) && UnitsOk(units, settings.maxRunes) && k < |units| && u == units[k]
    requires Progress(units, texts, current, currentRunes, closed, start, k, settings)
    ensures Progress(units, texts', current', currentRunes', closed', start', k + 1, settings)
  {
    texts', current', currentRunes', closed', start' := texts, current, currentRunes, closed, start;
    if |current| > 0 {
      texts', current', currentRunes', closed', start' :=
        MakeRoom(texts, current, currentRunes, u, settings, units, closed, start, k);
    } else {
      PackedFirst(units, settings);
    }
    HoldsOneMore(units, start', k, current', currentRunes');
    if |current'| > 0 {
      currentRunes' := currentRunes' + SeparatorRunes(current'[|current'| - 1], u);
    }
    current' := current' + [u];
    currentRunes' := currentRunes' + u.runes;
  }

  /** The chunks, as texts, and which units each of them holds. */
  method PackUnits(units: seq<Unit>, settings: Settings) returns (texts: seq<string>, ghost chunks: seq<Interval>)
    requires Valid(settings) && UnitsOk(units, settings.maxRunes)
    ensures Packing(units, chunks, settings) && texts == Texts(units, chunks)
    ensures exists c :: Packing(units, c, settings) && texts == Texts(units, c)
  {
    texts, chunks := [], [];
    var current: seq<Unit> := [];
    var currentRunes: nat := 0;
    ghost var start: nat := 0;
    NoProgress(units, settings);
    for k := 0 to |units|
      invariant Progress(units, texts, current, currentRunes, chunks, start, k, settings)
    {
      texts, current, currentRunes, chunks, start :=
        AddUnit(texts, current, currentRunes, units[k], settings, units, chunks, start, k);
    }
    texts, chunks := CloseLast(texts, current, currentRunes, settings, units, chunks, start);
  }

  method CloseLast(texts: seq<string>, current: seq<Unit>, currentRunes: nat, settings: Settings,
      ghost units: seq<Unit>, ghost closed: seq<Interval>, ghost start: nat)
      returns (texts': seq<string>, ghost chunks: seq<Interval>)
    requires Progress(units, texts, current, currentRunes, closed, start, |units|, settings)
    ensures Packing(units, chunks, settings) && texts' == Texts(units, chunks)
  {
    texts', chunks := texts, closed;
    if |current| > 0 {
      LastChunk(units, closed, start, settings);
      var text := RenderUnits(current);
      texts' := texts + [text];
      chunks := closed + [Interval(start, |units|)];
    }
  }

  // ---- What packing guarantees -------------------------------------------------------------

  /** A chunk holds at least one unit and renders to at most the limit. */
  lemma {:induction false} ChunksFit(units: seq<Unit>, chunks: seq<Interval>, i: nat, settings: Settings)
    requires UnitsOk(units, settings.maxRunes) && Packing(units, chunks, settings) && i < |chunks|
    ensures chunks[i].from < chunks[i].to <= |units|
    ensures 1 <= |ChunkText(units, chunks[i])| <= settings.maxRunes
  {
    var c := chunks[i];
    ChainStep(units, chunks, i, settings);
    SliceOk(units, c.from, c.to, settings.maxRunes);
    MeasureIsLength(Slice(units, c.from, c.to), settings.maxRunes);
    SizeIsPositive(units, c.from, c.to, settings.maxRunes);
  }

  lemma {:induction false} SizeIsPositive(units: seq<Unit>, a: nat, b: nat, limit: nat)
    requires UnitsOk(units, limit) && a < b <= |units|
    ensures Size(units, a, b) >= units[a].runes >= 1
  {
    assert units[a] in units;
    SizeOfOne(units, a);
    if a + 1 < b {
      SizeOfParts(units, a, a + 1, b);
    }
  }

  /** Starts and ends strictly increase and leave no gap; what a chunk repeats of the one before is
      a proper suffix of it, within the budget. */
  lemma {:induction false} ChunksAdvance(units: seq<Unit>, chunks: seq<Interval>, i: nat, settings: Settings)
    requires Packing(units, chunks, settings) && 0 < i < |chunks|
    ensures chunks[i - 1].from < chunks[i].from <= chunks[i - 1].to < chunks[i].to <= |units|
    ensures Size(units, chunks[i].from, chunks[i - 1].to) <= settings.overlapRunes
  {
    ChainStep(units, chunks, i, settings);
    SizeOfNone(units, chunks[i - 1].to);
  }

  lemma {:induction false} SizeOfNone(units: seq<Unit>, a: nat)
    requires a <= |units|
    ensures Size(units, a, a) == 0
  {
  }

  lemma {:induction false} FirstChunkStarts(units: seq<Unit>, chunks: seq<Interval>, settings: Settings)
    requires Packing(units, chunks, settings) && chunks != []
    ensures chunks[0].from == 0
  {
    ChainStep(units, chunks, 0, settings);
  }

  lemma {:induction false} CoveredBelow(units: seq<Unit>, chunks: seq<Interval>, i: nat, k: nat, settings: Settings)
    requires Packing(units, chunks, settings) && i < |chunks| && k < chunks[i].to
    ensures exists j | 0 <= j < |chunks| :: chunks[j].from <= k < chunks[j].to
  {
    FirstChunkStarts(units, chunks, settings);
    if chunks[i].from > k {
      ChunksAdvance(units, chunks, i, settings);
      CoveredBelow(units, chunks, i - 1, k, settings);
    }
  }

  /** Every unit is in some chunk. */
  lemma {:induction false} ChunksCover(units: seq<Unit>, chunks: seq<Interval>, k: nat, settings: Settings)
    requires Packing(units, chunks, settings) && k < |units|
    ensures exists i | 0 <= i < |chunks| :: chunks[i].from <= k < chunks[i].to
  {
    CoveredBelow(units, chunks, |chunks| - 1, k, settings);
  }

  // ---- Packing without overlap -------------------------------------------------------------

  function UnitsIn(units: seq<Unit>, chunks: seq<Interval>): seq<Unit> {
    if chunks == [] then []
    else
      var c := chunks[|chunks| - 1];
      UnitsIn(units, chunks[..|chunks| - 1]) + if c.from <= c.to <= |units| then Slice(units, c.from, c.to) else []
  }

  lemma {:induction false} NothingRepeated(units: seq<Unit>, prev: Interval, next: Interval, settings: Settings)
    requires UnitsOk(units, settings.maxRunes) && settings.overlapRunes == 0
    requires Follows(units, prev, next, settings)
    ensures next.from == prev.to
  {
    if next.from < prev.to {
      SizeIsPositive(units, next.from, prev.to, settings.maxRunes);
    }
  }

  /** With no overlap the chunks, one after the other, are the units. */
  lemma {:induction false} ChainPartitions(units: seq<Unit>, chunks: seq<Interval>, settings: Settings)
    requires UnitsOk(units, settings.maxRunes) && settings.overlapRunes == 0 && Chain(units, chunks, settings)
    ensures chunks != [] ==> chunks[|chunks| - 1].to <= |units|
    ensures UnitsIn(units, chunks) == if chunks == [] then [] else Slice(units, 0, chunks[|chunks| - 1].to)
  {
    if chunks != [] {
      var n := |chunks| - 1;
      var c := chunks[n];
      ChainPrefix(units, chunks, n, settings);
      ChainPartitions(units, chunks[..n], settings);
      if n > 0 {
        ChainStep(units, chunks, n, settings);
        NothingRepeated(units, chunks[n - 1], c, settings);
        SliceConcat(units, 0, c.from, c.to);
      }
    }
  }

  lemma {:induction false} NoOverlapPartitions(units: seq<Unit>, chunks: seq<Interval>, settings: Settings)
    requires UnitsOk(units, settings.maxRunes) && settings.overlapRunes == 0 && Packing(units, chunks, settings)
    ensures UnitsIn(units, chunks) == units
  {
    ChainPartitions(units, chunks, settings);
  }

  /** With no overlap two neighbouring chunks together fill at least half of the limit. */
  lemma {:induction false} NeighboursAreDense(units: seq<Unit>, chunks: seq<Interval>, i: nat, settings: Settings)
    requires UnitsOk(units, settings.maxRunes) && settings.overlapRunes == 0 && settings.maxRunes > 0
    requires Packing(units, chunks, settings) && 0 < i < |chunks|
    ensures |ChunkText(units, chunks[i - 1])| + |ChunkText(units, chunks[i])| >= settings.maxRunes / 2
  {
    ChainStep(units, chunks, i, settings);
    FollowersAreDense(units, chunks[i - 1], chunks[i], settings);
    ChunksAdvance(units, chunks, i, settings);
    TextIsSize(units, chunks[i - 1], settings.maxRunes);
    TextIsSize(units, chunks[i], settings.maxRunes);
  }

  lemma {:induction false} FollowersAreDense(units: seq<Unit>, prev: Interval, next: Interval, settings: Settings)
    requires UnitsOk(units, settings.maxRunes) && settings.overlapRunes == 0 && settings.maxRunes > 0
    requires Follows(units, prev, next, settings)
    ensures Size(units, prev.from, prev.to) + Size(units, next.from, next.to) >= Fill(settings)
  {
    NothingRepeated(units, prev, next, settings);
    SizeGrows(units, prev.from, prev.to);
    SizeIsPositive(units, next.from, next.to, settings.maxRunes);
    assert units[prev.to] in units;
  }

  lemma {:induction false} TextIsSize(units: seq<Unit>, c: Interval, limit: nat)
    requires UnitsOk(units, limit) && c.from <= c.to <= |units|
    ensures |ChunkText(units, c)| == Size(units, c.from, c.to)
  {
    SliceOk(units, c.from, c.to, limit);
    MeasureIsLength(Slice(units, c.from, c.to), limit);
  }

  function TotalRunes(texts: seq<string>): nat {
    if texts == [] then 0 else TotalRunes(texts[..|texts| - 1]) + |texts[|texts| - 1]|
  }

  /** `fill` for every two of `n` chunks. */
  function Needed(n: nat, fill: nat): nat {
    if n < 2 then 0 else Needed(n - 2, fill) + fill
  }

  lemma {:induction false} NeededIs(n: nat, fill: nat)
    ensures Needed(n, fill) == (n / 2) * fill
  {
    if n >= 2 {
      NeededIs(n - 2, fill);
      assert n / 2 == (n - 2) / 2 + 1;
    }
  }

  lemma {:induction false} OneMoreText(units: seq<Unit>, chunks: seq<Interval>, n: nat)
    requires n < |chunks|
    ensures TotalRunes(Texts(units, chunks[..n + 1]))
      == TotalRunes(Texts(units, chunks[..n])) + |ChunkText(units, chunks[n])|
  {
    assert chunks[..n + 1] == chunks[..n] + [chunks[n]];
    TextsAppend(units, chunks[..n], chunks[n]);
    TotalAppend(Texts(units, chunks[..n]), ChunkText(units, chunks[n]));
  }

  lemma {:induction false} PrefixIsDense(units: seq<Unit>, chunks: seq<Interval>, n: nat, settings: Settings)
    requires UnitsOk(units, settings.maxRunes) && settings.overlapRunes == 0 && settings.maxRunes > 0
    requires Packing(units, chunks, settings) && n <= |chunks|
    ensures TotalRunes(Texts(units, chunks[..n])) >= Needed(n, Fill(settings))
  {
    if n >= 2 {
      PrefixIsDense(units, chunks, n - 2, settings);
      NeighboursAreDense(units, chunks, n - 1, settings);
      OneMoreText(units, chunks, n - 2);
      OneMoreText(units, chunks, n - 1);
    }
  }

  /** With no overlap, so many chunks take so many runes. */
  lemma {:induction false} PackingIsDense(units: seq<Unit>, chunks: seq<Interval>, settings: Settings)
    requires UnitsOk(units, settings.maxRunes) && settings.overlapRunes == 0 && settings.maxRunes > 0
    requires Packing(units, chunks, settings)
    ensures TotalRunes(Texts(units, chunks)) >= (|chunks| / 2) * (settings.maxRunes / 2)
  {
    PrefixIsDense(units, chunks, |chunks|, settings);
    NeededIs(|chunks|, Fill(settings));
    assert chunks[..|chunks|] == chunks;
  }

  lemma {:induction false} TotalAppend(texts: seq<string>, text: string)
    ensures TotalRunes(texts + [text]) == TotalRunes(texts) + |text|
  {
    assert (texts + [text])[..|texts|] == texts;
  }

  // ---- There is only one packing -----------------------------------------------------------

  lemma {:induction false} TailIsUnique(units: seq<Unit>, a: nat, b: nat, s: nat, t: nat, budget: nat)
    requires a < b <= |units| && s <= b && t <= b
    requires LongestTail(units, a, b, s, budget) && LongestTail(units, a, b, t, budget)
    ensures s == t
  {
  }

  lemma {:induction false} FillsUnique(units: seq<Unit>, a: nat, e: nat, b: nat, c: nat, settings: Settings)
    requires Fills(units, Interval(a, b), e, settings) && Fills(units, Interval(a, c), e, settings)
    requires b < |units| ==> Breaks(units, a, b, settings)
    requires c < |units| ==> Breaks(units, a, c, settings)
    ensures b == c
  {
  }

  /** Where one chunk ends and the next begins is determined by the units and the settings. */
  lemma {:induction false} PackingIsUnique(units: seq<Unit>, xs: seq<Interval>, ys: seq<Interval>, settings: Settings)
    requires Packing(units, xs, settings) && Packing(units, ys, settings)
    ensures xs == ys
  {
    if |xs| <= |ys| {
      SamePrefix(units, xs, ys, |xs|, settings);
      NotLonger(units, xs, ys, settings);
      assert xs[..|xs|] == xs && ys[..|ys|] == ys;
    } else {
      SamePrefix(units, ys, xs, |ys|, settings);
      NotLonger(units, ys, xs, settings);
    }
  }

  lemma {:induction false} OneMoreEqual(xs: seq<Interval>, ys: seq<Interval>, n: nat)
    requires n < |xs| && n < |ys| && xs[..n] == ys[..n] && xs[n] == ys[n]
    ensures xs[..n + 1] == ys[..n + 1]
  {
    assert xs[..n + 1] == xs[..n] + [xs[n]];
    assert ys[..n + 1] == ys[..n] + [ys[n]];
  }

  lemma {:induction false} SamePrefix(units: seq<Unit>, xs: seq<Interval>, ys: seq<Interval>, n: nat,
      settings: Settings)
    requires Packing(units, xs, settings) && Packing(units, ys, settings) && n <= |xs| && n <= |ys|
    ensures xs[..n] == ys[..n]
  {
    if n > 0 {
      SamePrefix(units, xs, ys, n - 1, settings);
      SameChunk(units, xs, ys, n - 1, settings);
      OneMoreEqual(xs, ys, n - 1);
    }
  }

  lemma {:induction false} NotLonger(units: seq<Unit>, xs: seq<Interval>, ys: seq<Interval>, settings: Settings)
    requires Packing(units, xs, settings) && Packing(units, ys, settings)
    requires |xs| <= |ys| && xs == ys[..|xs|]
    ensures |xs| == |ys|
  {
    if 0 < |xs| < |ys| {
      assert xs[|xs| - 1] == ys[|xs| - 1];
      ChunksAdvance(units, ys, |xs|, settings);
    }
  }

  lemma {:induction false} ChunkBounds(units: seq<Unit>, chunks: seq<Interval>, i: nat, settings: Settings)
    requires Packing(units, chunks, settings) && i < |chunks|
    ensures chunks[i].from < chunks[i].to <= |units|
  {
    ChainStep(units, chunks, i, settings);
  }

  lemma {:induction false} ChunkBreaks(units: seq<Unit>, chunks: seq<Interval>, i: nat, settings: Settings)
    requires Packing(units, chunks, settings) && i + 1 < |chunks|
    ensures chunks[i].from < chunks[i].to < |units| && Breaks(units, chunks[i].from, chunks[i].to, settings)
  {
    ChainStep(units, chunks, i + 1, settings);
  }

  /** A chunk ends where a unit does not go behind it, or with the last unit. */
  lemma {:induction false} ChunkEnds(units: seq<Unit>, chunks: seq<Interval>, i: nat, settings: Settings)
    requires Packing(units, chunks, settings) && i < |chunks|
    ensures chunks[i].from < chunks[i].to <= |units|
    ensures chunks[i].to < |units| ==> Breaks(units, chunks[i].from, chunks[i].to, settings)
  {
    ChunkBounds(units, chunks, i, settings);
    if i + 1 < |chunks| {
      ChunkBreaks(units, chunks, i, settings);
    }
  }

  lemma {:induction false} SameChunk(units: seq<Unit>, xs: seq<Interval>, ys: seq<Interval>, i: nat, settings: Settings)
    requires Packing(units, xs, settings) && Packing(units, ys, settings)
    requires i < |xs| && i < |ys| && xs[..i] == ys[..i]
    ensures xs[i] == ys[i]
  {
    ChunkEnds(units, xs, i, settings);
    ChunkEnds(units, ys, i, settings);
    ChainStep(units, xs, i, settings);
    ChainStep(units, ys, i, settings);
    if i > 0 {
      assert xs[i - 1] == xs[..i][i - 1] == ys[i - 1];
      SameStart(units, xs[i - 1], xs[i], ys[i], settings);
    }
    FillsUnique(units, xs[i].from, if i == 0 then 0 else xs[i - 1].to, xs[i].to, ys[i].to, settings);
  }

  lemma {:induction false} SameStart(units: seq<Unit>, prev: Interval, x: Interval, y: Interval, settings: Settings)
    requires Follows(units, prev, x, settings) && Follows(units, prev, y, settings)
    ensures x.from == y.from
  {
    var s: nat :| TailKept(units, prev.from, prev.to, s, x.from, settings);
    var t: nat :| TailKept(units, prev.from, prev.to, t, y.from, settings);
    TailIsUnique(units, prev.from, prev.to, s, t, settings.overlapRunes);
  }
}
