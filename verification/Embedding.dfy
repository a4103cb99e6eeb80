/** Embedding texts in batches: vectors are placed by the index the service gives them, in whatever
    order they come back. */
module Embedding {
  type Vector = seq<real>

  datatype Item = Item(index: int, embedding: Vector)

  /** What one request comes back with. */
  datatype Response = Vectors(items: seq<Item>) | Retryable | Fatal

  datatype Result = Ok(vectors: seq<Vector>) | Failed | Inconsistent

  // ---- One response ------------------------------------------------------------------------

  /** Indices are in range and differ, and no vector is empty. */
  ghost predicate Fine(items: seq<Item>, want: nat) {
    && (forall i | 0 <= i < |items| :: 0 <= items[i].index < want && items[i].embedding != [])
    && forall i, j | 0 <= i < j < |items| :: items[i].index != items[j].index
  }

  ghost predicate Acceptable(items: seq<Item>, want: nat) {
    |items| == want && Fine(items, want)
  }

  /** Every item's vector stands at the item's index. */
  ghost predicate Placed(items: seq<Item>, vectors: seq<Vector>) {
    forall i | 0 <= i < |items| :: 0 <= items[i].index < |vectors| && vectors[items[i].index] == items[i].embedding
  }

  /** Slots not named by any item are empty. */
  ghost predicate EmptyElsewhere(items: seq<Item>, vectors: seq<Vector>) {
    forall p | 0 <= p < |vectors| && vectors[p] != [] :: exists i | 0 <= i < |items| :: items[i].index == p
  }

  lemma {:induction false} PlaceNext(before: seq<Item>, item: Item, vectors: seq<Vector>)
    requires Fine(before, |vectors|) && Placed(before, vectors) && EmptyElsewhere(before, vectors)
    requires 0 <= item.index < |vectors| && vectors[item.index] == [] && item.embedding != []
    ensures Fine(before + [item], |vectors|)
    ensures Placed(before + [item], vectors[item.index := item.embedding])
    ensures EmptyElsewhere(before + [item], vectors[item.index := item.embedding])
  {
    var after, items := vectors[item.index := item.embedding], before + [item];
    forall p | 0 <= p < |after| && after[p] != [] ensures exists i | 0 <= i < |items| :: items[i].index == p {
      if p == item.index {
        assert items[|before|].index == p;
      } else {
        var i :| 0 <= i < |before| && before[i].index == p;
        assert items[i].index == p;
      }
    }
  }

  /** An item that cannot be placed makes the response unacceptable. */
  lemma {:induction false} CannotPlace(items: seq<Item>, k: nat, vectors: seq<Vector>)
    requires k < |items| && EmptyElsewhere(items[..k], vectors)
    requires items[k].embedding == [] || items[k].index < 0 || items[k].index >= |vectors|
      || vectors[items[k].index] != []
    ensures !Fine(items, |vectors|)
  {
    if items[k].embedding != [] && 0 <= items[k].index < |vectors| {
      var i :| 0 <= i < k && items[..k][i].index == items[k].index;
      assert items[i].index == items[k].index;
    }
  }

  method Decode(items: seq<Item>, want: nat) returns (r: Result)
    ensures r.Ok? <==> Acceptable(items, want)
    ensures r.Ok? ==> |r.vectors| == want && Placed(items, r.vectors)
    ensures !r.Inconsistent?
  {
    if |items| != want {
      return Failed;
    }
    var vectors := new Vector[want](_ => []);
    for i := 0 to want
      invariant Fine(items[..i], want) && Placed(items[..i], vectors[..]) && EmptyElsewhere(items[..i], vectors[..])
    {
      var item := items[i];
      assert items[..i + 1] == items[..i] + [item];
      if item.index < 0 || item.index >= want || vectors[item.index] != [] {
        CannotPlace(items, i, vectors[..]);
        return Failed;
      }
      if |item.embedding| == 0 {
        CannotPlace(items, i, vectors[..]);
        return Failed;
      }
      PlaceNext(items[..i], item, vectors[..]);
      ghost var before := vectors[..];
      vectors[item.index] := item.embedding;
      assert vectors[..] == before[item.index := item.embedding];
    }
    assert items[..want] == items;
    r := Ok(vectors[..]);
  }

  function Below(n: nat): (s: set<int>)
    ensures |s| == n && forall p :: p in s <==> 0 <= p < n
  {
    if n == 0 then {} else Below(n - 1) + {n - 1}
  }

  /** Different indices from a set are at most as many as the set has members. */
  lemma {:induction false} Pigeonhole(items: seq<Item>, slots: set<int>)
    requires forall i | 0 <= i < |items| :: items[i].index in slots
    requires forall i, j | 0 <= i < j < |items| :: items[i].index != items[j].index
    ensures |items| <= |slots|
  {
    if items != [] {
      var n := |items| - 1;
      Pigeonhole(items[..n], slots - {items[n].index});
    }
  }

  /** As many different indices as slots leave no slot empty: an accepted response puts exactly one
      vector, not an empty one, in every position. */
  lemma {:induction false} EverySlotFilled(items: seq<Item>, vectors: seq<Vector>, p: nat)
    requires Acceptable(items, |vectors|) && Placed(items, vectors) && p < |vectors|
    ensures exists i | 0 <= i < |items| :: items[i].index == p && vectors[p] == items[i].embedding != []
  {
    if forall i | 0 <= i < |items| :: items[i].index != p {
      Pigeonhole(items, Below(|items|) - {p});
    }
  }

  /** The order in which the vectors come back does not matter. */
  lemma {:induction false} AnyOrder(xs: seq<Item>, ys: seq<Item>, us: seq<Vector>, vs: seq<Vector>)
    requires |us| == |vs| && Acceptable(xs, |us|) && Acceptable(ys, |vs|) && Placed(xs, us) && Placed(ys, vs)
    requires forall x | x in xs :: x in ys
    ensures us == vs
  {
    forall p | 0 <= p < |us| ensures us[p] == vs[p] {
      EverySlotFilled(xs, us, p);
      var i :| 0 <= i < |xs| && xs[i].index == p && us[p] == xs[i].embedding;
      assert xs[i] in xs;
      var j :| 0 <= j < |ys| && ys[j] == xs[i];
    }
  }

  // ---- Retries and batches -----------------------------------------------------------------

  /** What the service answers to a batch at an attempt, and whether the request is cancelled after
      that attempt, before or during the pause that follows it. */
  datatype Service = Service(answer: (seq<string>, nat) -> Response, cancelled: (seq<string>, nat) -> bool)

  /** The items a batch gets within the retries left: those of the first attempt that is answered,
      if they are acceptable; a fatal answer or an unacceptable one is not retried, and nothing is
      once the request is cancelled. */
  ghost predicate Answers(service: Service, batch: seq<string>, attempt: nat, maxRetries: nat, items: seq<Item>)
    decreases maxRetries + 1 - attempt
  {
    attempt <= maxRetries && match service.answer(batch, attempt)
      case Vectors(got) => got == items && Acceptable(items, |batch|)
      case Retryable => !service.cancelled(batch, attempt) && Answers(service, batch, attempt + 1, maxRetries, items)
      case Fatal => false
  }

  /** So a batch gets these items if and only if some attempt within the retries gives them, they are
      acceptable, and all attempts before it were retryable and not followed by a cancellation. */
  lemma {:induction false} AnswersIff(service: Service, batch: seq<string>, attempt: nat, maxRetries: nat,
      items: seq<Item>)
    ensures Answers(service, batch, attempt, maxRetries, items) <==>
      (|items| == |batch| && Fine(items, |batch|) && exists k | attempt <= k <= maxRetries ::
         && service.answer(batch, k) == Vectors(items)
         && forall j | attempt <= j < k :: service.answer(batch, j) == Retryable && !service.cancelled(batch, j))
    decreases maxRetries + 1 - attempt
  {
    if attempt <= maxRetries && service.answer(batch, attempt).Retryable? {
      AnswersIff(service, batch, attempt + 1, maxRetries, items);
    }
  }

  method EmbedWithRetry(batch: seq<string>, service: Service, maxRetries: nat)
      returns (r: Result, ghost items: seq<Item>)
    ensures r.Ok? ==> Answers(service, batch, 0, maxRetries, items)
    ensures r.Ok? ==> |r.vectors| == |batch| && Placed(items, r.vectors)
    ensures !r.Ok? ==> forall got :: !Answers(service, batch, 0, maxRetries, got)
    ensures !r.Inconsistent?
  {
    items := [];
    var attempt: nat := 0;
    while attempt <= maxRetries
      invariant attempt <= maxRetries + 1
      invariant forall got ::
        Answers(service, batch, 0, maxRetries, got) <==> Answers(service, batch, attempt, maxRetries, got)
    {
      match service.answer(batch, attempt) {
        case Vectors(got) =>
          r := Decode(got, |batch|);
          items := got;
          return;
        case Retryable =>
          if service.cancelled(batch, attempt) {
            return Failed, [];
          }
          attempt := attempt + 1;
        case Fatal =>
          return Failed, [];
      }
    }
    return Failed, [];
  }

  ghost predicate SameDimensions(vectors: seq<Vector>) {
    forall i | 0 <= i < |vectors| :: |vectors[i]| == |vectors[0]|
  }

  method ConsistentDimensions(vectors: seq<Vector>) returns (ok: bool)
    ensures ok <==> SameDimensions(vectors)
  {
    for i := 0 to |vectors|
      invariant forall j | 0 <= j < i :: |vectors[j]| == |vectors[0]|
    {
      if |vectors[i]| != |vectors[0]| {
        return false;
      }
    }
    return true;
  }

  function Min(a: nat, b: nat): nat {
    if a < b then a else b
  }

  function BatchAt(texts: seq<string>, start: nat, size: nat): seq<string>
    requires start <= |texts|
  {
    texts[start..Min(start + size, |texts|)]
  }

  /** Whatever the service returns for index `i` of a batch is the embedding of text `i` of it. */
  ghost predicate Honest(service: Service, model: string -> Vector) {
    forall batch, attempt, i |
      && service.answer(batch, attempt).Vectors?
      && 0 <= i < |service.answer(batch, attempt).items|
      && 0 <= service.answer(batch, attempt).items[i].index < |batch| ::
      service.answer(batch, attempt).items[i].embedding == model(batch[service.answer(batch, attempt).items[i].index])
  }

  lemma {:induction false} AnswersAreHonest(service: Service, model: string -> Vector, batch: seq<string>, attempt: nat,
      maxRetries: nat, items: seq<Item>, vectors: seq<Vector>, p: nat)
    requires Honest(service, model) && Answers(service, batch, attempt, maxRetries, items)
    requires |vectors| == |batch| && Placed(items, vectors) && p < |batch|
    ensures vectors[p] == model(batch[p]) && vectors[p] != []
    decreases maxRetries + 1 - attempt
  {
    match service.answer(batch, attempt)
    case Vectors(got) => EverySlotFilled(items, vectors, p);
    case Retryable => AnswersAreHonest(service, model, batch, attempt + 1, maxRetries, items, vectors, p);
    case Fatal =>
  }

  ghost predicate Unanswered(batch: seq<string>, service: Service, maxRetries: nat) {
    forall items :: !Answers(service, batch, 0, maxRetries, items)
  }

  /** One of the batches, taken off one after the other, gets no acceptable answer. */
  ghost predicate BatchFails(texts: seq<string>, size: nat, service: Service, maxRetries: nat)
    requires size > 0
    decreases |texts|
  {
    texts != [] &&
    (Unanswered(BatchAt(texts, 0, size), service, maxRetries)
     || BatchFails(texts[Min(size, |texts|)..], size, service, maxRetries))
  }

  /** The batches from `start` on. */
  ghost predicate LaterFails(texts: seq<string>, start: nat, size: nat, service: Service, maxRetries: nat)
    requires size > 0
  {
    start < |texts| && BatchFails(texts[start..], size, service, maxRetries)
  }

  lemma {:induction false} OneBatch(texts: seq<string>, start: nat, size: nat, service: Service, maxRetries: nat)
    requires size > 0 && start < |texts|
    ensures LaterFails(texts, start, size, service, maxRetries) <==>
      || Unanswered(BatchAt(texts, start, size), service, maxRetries)
      || LaterFails(texts, start + size, size, service, maxRetries)
  {
    var rest, n := texts[start..], Min(size, |texts| - start);
    assert BatchAt(rest, 0, size) == BatchAt(texts, start, size);
    assert rest[n..] == texts[start + n..] && n == Min(size, |rest|);
    assert BatchFails(rest, size, service, maxRetries)
      == (Unanswered(BatchAt(rest, 0, size), service, maxRetries) || BatchFails(rest[n..], size, service, maxRetries));
  }

  /** Batch `k` gets no acceptable answer. */
  ghost predicate FailsAt(texts: seq<string>, size: nat, service: Service, maxRetries: nat, k: nat) {
    var start := k * size;
    && start < |texts|
    && Unanswered(texts[start..if start + size <= |texts| then start + size else |texts|], service, maxRetries)
  }

  lemma {:induction false} LaterStarts(size: nat, j: nat, k: nat)
    requires j < k
    ensures j * size + size <= k * size && (j + 1) * size == j * size + size
  {
    if k > j + 1 {
      LaterStarts(size, j, k - 1);
    }
  }

  /** So some batch fails if and only if it does so as the texts of its place, on its own. */
  lemma {:induction false} BatchFailsIff(texts: seq<string>, size: nat, service: Service, maxRetries: nat, k: nat)
    requires size > 0 && k * size <= |texts|
    ensures BatchFails(texts[k * size..], size, service, maxRetries)
      <==> exists j: nat :: k <= j && FailsAt(texts, size, service, maxRetries, j)
    decreases |texts| - k * size
  {
    var start := k * size;
    forall j: nat | k < j ensures start + size <= j * size && (k + 1) * size == start + size {
      LaterStarts(size, k, j);
    }
    if start < |texts| {
      OneBatch(texts, start, size, service, maxRetries);
      assert FailsAt(texts, size, service, maxRetries, k) <==>
        Unanswered(BatchAt(texts, start, size), service, maxRetries);
      if start + size <= |texts| {
        assert (k + 1) * size == start + size;
        BatchFailsIff(texts, size, service, maxRetries, k + 1);
      }
    }
  }

  /** The vectors are those of the texts. */
  ghost predicate Embeds(model: string -> Vector, texts: seq<string>, vectors: seq<Vector>) {
    |vectors| <= |texts| && forall i | 0 <= i < |vectors| :: vectors[i] == model(texts[i]) != []
  }

  lemma {:induction false} BatchEmbeds(service: Service, model: string -> Vector, batch: seq<string>, maxRetries: nat,
      items: seq<Item>, vectors: seq<Vector>)
    requires Honest(service, model) && Answers(service, batch, 0, maxRetries, items)
    requires |vectors| == |batch| && Placed(items, vectors)
    ensures Embeds(model, batch, vectors)
  {
    forall p | 0 <= p < |batch| ensures vectors[p] == model(batch[p]) != [] {
      AnswersAreHonest(service, model, batch, 0, maxRetries, items, vectors, p);
    }
  }

  lemma {:induction false} EmbedsMore(model: string -> Vector, texts: seq<string>, out: seq<Vector>, start: nat,
      size: nat, vectors: seq<Vector>)
    requires start <= |texts| && |out| == start && Embeds(model, texts, out)
    requires |vectors| == |BatchAt(texts, start, size)| && Embeds(model, BatchAt(texts, start, size), vectors)
    ensures Embeds(model, texts, out + vectors)
  {
    forall i | start <= i < |out + vectors| ensures (out + vectors)[i] == model(texts[i]) != [] {
      assert (out + vectors)[i] == vectors[i - start] && BatchAt(texts, start, size)[i - start] == texts[i];
    }
  }

  /** Vector `i` is that of text `i`, whatever the batch size, and all have equal dimensions. It fails
      exactly if one of the batches gets no answer. */
  method Embed(texts: seq<string>, size: nat, service: Service, maxRetries: nat, ghost model: string -> Vector)
      returns (r: Result)
    requires size > 0
    ensures r.Ok? ==> |r.vectors| == |texts| && SameDimensions(r.vectors)
    ensures r.Ok? && Honest(service, model) ==> Embeds(model, texts, r.vectors)
    ensures r.Failed? <==> BatchFails(texts, size, service, maxRetries)
    ensures r.Inconsistent? && Honest(service, model) ==>
      exists i | 0 <= i < |texts| :: |model(texts[i])| != |model(texts[0])|
  {
    var out: seq<Vector> := [];
    var start: nat := 0;
    assert texts[0..] == texts;
    while start < |texts|
      invariant |out| == Min(start, |texts|)
      invariant BatchFails(texts, size, service, maxRetries) <==> LaterFails(texts, start, size, service, maxRetries)
      invariant Honest(service, model) ==> Embeds(model, texts, out)
    {
      var batch := BatchAt(texts, start, size);
      OneBatch(texts, start, size, service, maxRetries);
      var answer, items := EmbedWithRetry(batch, service, maxRetries);
      if !answer.Ok? {
        assert Unanswered(batch, service, maxRetries);
        return Failed;
      }
      if Honest(service, model) {
        BatchEmbeds(service, model, batch, maxRetries, items, answer.vectors);
        EmbedsMore(model, texts, out, start, size, answer.vectors);
      }
      out := out + answer.vectors;
      start := start + size;
    }
    var ok := ConsistentDimensions(out);
    return if ok then Ok(out) else Inconsistent;
  }
}
