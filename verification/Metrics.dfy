/** Scoring a ranked list of pages against graded judgements. */
module Metrics {
  type Judgements = map<string, int>

  /** What a position of the list is worth; 1 / log2(i + 2) is one such function. */
  type Discount = nat -> real

  ghost predicate DiscountOk(d: Discount) {
    (forall i :: d(i) > 0.0) && forall i, j | i <= j :: d(j) <= d(i)
  }

  datatype Scores = Scores(ndcg: real, mrr: real, recall: real, judged: real)

  function Exp2(n: nat): real {
    if n == 0 then 1.0 else 2.0 * Exp2(n - 1)
  }

  function Gain(grade: int): real {
    if grade <= 0 then 0.0 else Exp2(grade) - 1.0
  }

  lemma {:induction false} Exp2Grows(a: nat, b: nat)
    requires a <= b
    ensures 1.0 <= Exp2(a) <= Exp2(b)
  {
    if b > 0 {
      if a == b {
        Exp2Grows(b - 1, b - 1);
      } else {
        Exp2Grows(a, b - 1);
      }
    }
  }

  lemma {:induction false} GainGrows(a: int, b: int)
    requires a <= b
    ensures 0.0 <= Gain(a) <= Gain(b)
  {
    if b > 0 {
      Exp2Grows(if a > 0 then a else 0, b);
    }
  }

  function Term(grade: int, weight: real): real {
    Gain(grade) * weight
  }

  /** The discounted gain of grades at the positions from `o` on. */
  function DCG(grades: seq<int>, d: Discount, o: nat): real {
    if grades == [] then 0.0 else Term(grades[0], d(o)) + DCG(grades[1..], d, o + 1)
  }

  lemma {:induction false} DCGAppend(grades: seq<int>, grade: int, d: Discount, o: nat)
    ensures DCG(grades + [grade], d, o) == DCG(grades, d, o) + Term(grade, d(o + |grades|))
  {
    if grades == [] {
      assert [] + [grade] == [grade] && [grade][1..] == [];
    } else {
      assert (grades + [grade])[1..] == grades[1..] + [grade];
      DCGAppend(grades[1..], grade, d, o + 1);
    }
  }

  lemma {:induction false} ProductNotNegative(x: real, y: real)
    requires x >= 0.0 && y >= 0.0
    ensures x * y >= 0.0
  {
  }

  lemma {:induction false} DCGNotNegative(grades: seq<int>, d: Discount, o: nat)
    requires DiscountOk(d)
    ensures DCG(grades, d, o) >= 0.0
  {
    if grades != [] {
      if grades[0] > 0 {
        GainGrows(0, grades[0]);
      }
      ProductNotNegative(Gain(grades[0]), d(o));
      DCGNotNegative(grades[1..], d, o + 1);
    }
  }

  // ---- The exchange argument ---------------------------------------------------------------

  /** The relevant grades among those listed, with repetition. */
  function Positive(grades: seq<int>): multiset<int> {
    if grades == [] then multiset{}
    else Once(grades[0]) + Positive(grades[1..])
  }

  /** No grade occurs more often in `xs` than in `ys`. */
  ghost predicate Within(xs: multiset<int>, ys: multiset<int>) {
    forall g :: xs[g] <= ys[g]
  }

  predicate Descending(grades: seq<int>) {
    forall i, j | 0 <= i < j < |grades| :: grades[i] >= grades[j]
  }

  lemma {:induction false} ChangedTail(grades: seq<int>, p: nat, grade: int)
    requires p < |grades|
    ensures grades[p := grade][0] == if p == 0 then grade else grades[0]
    ensures grades[p := grade][1..] == if p == 0 then grades[1..] else grades[1..][p - 1 := grade]
  {
  }

  lemma {:induction false} DCGChanged(grades: seq<int>, p: nat, grade: int, d: Discount, o: nat)
    requires p < |grades|
    ensures DCG(grades[p := grade], d, o) + Term(grades[p], d(o + p)) == DCG(grades, d, o) + Term(grade, d(o + p))
  {
    ChangedTail(grades, p, grade);
    var changed := grades[p := grade];
    assert DCG(changed, d, o) == Term(changed[0], d(o)) + DCG(changed[1..], d, o + 1);
    if p > 0 {
      DCGChanged(grades[1..], p - 1, grade, d, o + 1);
    }
  }

  function Once(grade: int): multiset<int> {
    if grade > 0 then multiset{grade} else multiset{}
  }

  lemma {:induction false} SwapOuter(a: multiset<int>, b: multiset<int>, c: multiset<int>)
    ensures a + b + c == c + b + a
  {
  }

  lemma {:induction false} Reassociate(a: multiset<int>, b: multiset<int>, c: multiset<int>)
    ensures a + b + c == a + (b + c)
  {
  }

  lemma {:induction false} PositiveChanged(grades: seq<int>, p: nat, grade: int)
    requires p < |grades|
    ensures Positive(grades[p := grade]) + Once(grades[p]) == Positive(grades) + Once(grade)
  {
    ChangedTail(grades, p, grade);
    var changed := grades[p := grade];
    var tail := Positive(grades[1..]);
    assert Positive(changed) == Once(changed[0]) + Positive(changed[1..]);
    if p == 0 {
      SwapOuter(Once(grade), tail, Once(grades[0]));
    } else {
      PositiveChanged(grades[1..], p - 1, grade);
      Reassociate(Once(grades[0]), Positive(changed[1..]), Once(grades[p]));
      Reassociate(Once(grades[0]), tail, Once(grade));
    }
  }

  lemma {:induction false} NoneIn(grades: seq<int>, grade: int)
    requires grade in Positive(grades)
    ensures grade in grades
  {
    if grades != [] && grades[0] != grade {
      NoneIn(grades[1..], grade);
    }
  }

  lemma {:induction false} NothingRelevant(grades: seq<int>, d: Discount, o: nat)
    requires Within(Positive(grades), multiset{})
    ensures DCG(grades, d, o) == 0.0
  {
    if grades != [] {
      assert Positive(grades)[grades[0]] == 0;
      forall g ensures Positive(grades[1..])[g] <= 0 {
        assert Positive(grades)[g] <= 0;
      }
      NothingRelevant(grades[1..], d, o + 1);
    }
  }

  /** Two grades trade places: the larger is worth more at the earlier position. */
  lemma {:induction false} Exchange(small: real, large: real, early: real, late: real)
    requires small <= large && late <= early
    ensures small * early + large * late <= large * early + small * late
  {
    ProductNotNegative(large - small, early - late);
    assert (large - small) * (early - late) == large * early - large * late - small * early + small * late;
  }

  function Min(a: nat, b: nat): nat {
    if a < b then a else b
  }

  /** The best `k` of a list in descending order. */
  function Best(sorted: seq<int>, k: nat): seq<int> {
    sorted[..Min(k, |sorted|)]
  }

  predicate AllPositive(grades: seq<int>) {
    forall i | 0 <= i < |grades| :: grades[i] > 0
  }

  lemma {:induction false} PositiveOfPositive(grades: seq<int>)
    requires AllPositive(grades)
    ensures Positive(grades) == multiset(grades)
  {
    if grades != [] {
      assert grades == [grades[0]] + grades[1..];
      PositiveOfPositive(grades[1..]);
    }
  }

  lemma {:induction false} AtMostLargest(grades: seq<int>, sorted: seq<int>)
    requires Descending(sorted) && Within(Positive(grades), multiset(sorted)) && grades != []
    ensures grades[0] <= 0 || (sorted != [] && grades[0] <= sorted[0])
  {
    if grades[0] > 0 {
      assert grades[0] in Positive(grades);
      assert grades[0] in multiset(sorted);
    }
  }

  lemma {:induction false} BestHead(sorted: seq<int>, k: nat, d: Discount, o: nat)
    requires sorted != [] && k > 0
    ensures DCG(Best(sorted, k), d, o) == Term(sorted[0], d(o)) + DCG(Best(sorted[1..], k - 1), d, o + 1)
  {
    assert Best(sorted, k) != [] && Best(sorted, k)[0] == sorted[0];
    assert Best(sorted, k)[1..] == Best(sorted[1..], k - 1);
  }

  /** Brings the largest grade to the front: what stands there takes its place, or drops out if
      the largest is not listed. */
  ghost function WithoutLargest(grades: seq<int>, largest: int): seq<int>
    requires grades != []
  {
    if grades[0] == largest || largest !in grades[1..] then grades[1..]
    else
      var p :| 0 <= p < |grades| - 1 && grades[1..][p] == largest;
      grades[1..][p := grades[0]]
  }

  lemma {:induction false} LargestFirst(grades: seq<int>, largest: int, d: Discount, o: nat)
    requires DiscountOk(d) && grades != [] && grades[0] <= largest
    ensures DCG(grades, d, o) <= Term(largest, d(o)) + DCG(WithoutLargest(grades, largest), d, o + 1)
    ensures |WithoutLargest(grades, largest)| == |grades| - 1
  {
    if grades[0] == largest || largest !in grades[1..] {
      TermGrows(grades[0], largest, d(o));
    } else {
      var p :| 0 <= p < |grades[1..]| && grades[1..][p] == largest
        && WithoutLargest(grades, largest) == grades[1..][p := grades[0]];
      SwappedIsWorthMore(grades[0], grades[1..], p, d, o);
    }
  }

  lemma {:induction false} SwappedIsWorthMore(head: int, tail: seq<int>, p: nat, d: Discount, o: nat)
    requires DiscountOk(d) && p < |tail| && head <= tail[p]
    ensures Term(head, d(o)) + DCG(tail, d, o + 1) <= Term(tail[p], d(o)) + DCG(tail[p := head], d, o + 1)
  {
    GainGrows(head, tail[p]);
    DCGChanged(tail, p, head, d, o + 1);
    Exchange(Gain(head), Gain(tail[p]), d(o), d(o + 1 + p));
  }

  lemma {:induction false} TermGrows(a: int, b: int, weight: real)
    requires a <= b && weight > 0.0
    ensures Term(a, weight) <= Term(b, weight)
  {
    GainGrows(a, b);
    ProductNotNegative(Gain(b) - Gain(a), weight);
  }

  lemma {:induction false} CancelOne(xs: multiset<int>, x: int, ys: multiset<int>)
    requires Within(xs + multiset{x}, multiset{x} + ys)
    ensures Within(xs, ys)
  {
    forall g ensures xs[g] <= ys[g] {
      assert (xs + multiset{x})[g] <= (multiset{x} + ys)[g];
    }
  }

  lemma {:induction false} CancelMissing(xs: multiset<int>, x: int, ys: multiset<int>)
    requires Within(xs, multiset{x} + ys) && x !in xs
    ensures Within(xs, ys)
  {
    forall g ensures xs[g] <= ys[g] {
      assert xs[g] <= (multiset{x} + ys)[g];
    }
  }

  lemma {:induction false} RemainderIsIn(grades: seq<int>, sorted: seq<int>)
    requires grades != [] && sorted != [] && sorted[0] > 0
    requires Within(Positive(grades), multiset(sorted))
    ensures Within(Positive(WithoutLargest(grades, sorted[0])), multiset(sorted[1..]))
  {
    var largest, rest := sorted[0], multiset(sorted[1..]);
    assert sorted == [largest] + sorted[1..];
    var tail := grades[1..];
    if grades[0] == largest {
      CancelOne(Positive(tail), largest, rest);
    } else if largest !in tail {
      if largest in Positive(tail) {
        NoneIn(tail, largest);
      }
      CancelMissing(Positive(tail), largest, rest);
    } else {
      var p :| 0 <= p < |tail| && tail[p] == largest && WithoutLargest(grades, largest) == tail[p := grades[0]];
      PositiveChanged(tail, p, grades[0]);
      CancelOne(Positive(tail[p := grades[0]]), largest, rest);
    }
  }

  lemma {:induction false} TailStaysSorted(sorted: seq<int>)
    requires Descending(sorted) && AllPositive(sorted) && sorted != []
    ensures Descending(sorted[1..]) && AllPositive(sorted[1..])
  {
  }

  /** The largest grade taken off both lists. */
  lemma {:induction false} TakeLargest(grades: seq<int>, sorted: seq<int>, k: nat, d: Discount, o: nat)
    requires DiscountOk(d) && 0 < |grades| <= k && Descending(sorted) && AllPositive(sorted) && sorted != []
    requires Within(Positive(grades), multiset(sorted))
    ensures var rest := WithoutLargest(grades, sorted[0]);
      && |rest| == |grades| - 1 && Within(Positive(rest), multiset(sorted[1..]))
      && DCG(grades, d, o) <= Term(sorted[0], d(o)) + DCG(rest, d, o + 1)
    ensures Descending(sorted[1..]) && AllPositive(sorted[1..])
    ensures DCG(Best(sorted, k), d, o) == Term(sorted[0], d(o)) + DCG(Best(sorted[1..], k - 1), d, o + 1)
  {
    AtMostLargest(grades, sorted);
    LargestFirst(grades, sorted[0], d, o);
    RemainderIsIn(grades, sorted);
    BestHead(sorted, k, d, o);
    TailStaysSorted(sorted);
  }

  /** No list of grades drawn from the sorted ones is worth more than the best of those. */
  lemma {:induction false} SortedIsBest(grades: seq<int>, sorted: seq<int>, k: nat, d: Discount, o: nat)
    requires DiscountOk(d) && |grades| <= k && Descending(sorted) && AllPositive(sorted)
    requires Within(Positive(grades), multiset(sorted))
    ensures DCG(grades, d, o) <= DCG(Best(sorted, k), d, o)
    decreases |grades|
  {
    if grades == [] {
      DCGNotNegative(Best(sorted, k), d, o);
    } else if sorted == [] {
      NothingRelevant(grades, d, o);
    } else {
      TakeLargest(grades, sorted, k, d, o);
      SortedIsBest(WithoutLargest(grades, sorted[0]), sorted[1..], k - 1, d, o + 1);
    }
  }

  // ---- Judged pages ------------------------------------------------------------------------

  /** The grade a page counts with: a page nobody judged is not relevant. */
  function GradeOf(judged: Judgements, url: string): int {
    if url in judged then judged[url] else 0
  }

  function Grades(judged: Judgements, urls: seq<string>): seq<int> {
    seq(|urls|, i requires 0 <= i < |urls| => GradeOf(judged, urls[i]))
  }

  predicate NoDuplicates(urls: seq<string>) {
    forall i, j | 0 <= i < j < |urls| :: urls[i] != urls[j]
  }

  lemma {:induction false} PositiveAppend(xs: seq<int>, ys: seq<int>)
    ensures Positive(xs + ys) == Positive(xs) + Positive(ys)
  {
    if xs == [] {
      assert xs + ys == ys;
    } else {
      assert (xs + ys)[1..] == xs[1..] + ys;
      PositiveAppend(xs[1..], ys);
      Reassociate(Once(xs[0]), Positive(xs[1..]), Positive(ys));
    }
  }

  lemma {:induction false} GradesConcat(judged: Judgements, xs: seq<string>, ys: seq<string>)
    ensures Grades(judged, xs + ys) == Grades(judged, xs) + Grades(judged, ys)
  {
  }

  /** Taking one page out of a list takes its grade out. */
  lemma {:induction false} PositiveWithout(judged: Judgements, urls: seq<string>, p: nat)
    requires p < |urls|
    ensures Positive(Grades(judged, urls))
      == Once(GradeOf(judged, urls[p])) + Positive(Grades(judged, urls[..p] + urls[p + 1..]))
  {
    var before, after := urls[..p], urls[p + 1..];
    assert urls == before + ([urls[p]] + after);
    GradesConcat(judged, before, [urls[p]] + after);
    GradesConcat(judged, [urls[p]], after);
    GradesConcat(judged, before, after);
    PositiveAppend(Grades(judged, before), Grades(judged, [urls[p]] + after));
    PositiveAppend(Grades(judged, [urls[p]]), Grades(judged, after));
    PositiveAppend(Grades(judged, before), Grades(judged, after));
    assert Grades(judged, [urls[p]]) == [GradeOf(judged, urls[p])];
    PositiveOfOne(GradeOf(judged, urls[p]));
    SwapInner(Positive(Grades(judged, before)), Once(GradeOf(judged, urls[p])), Positive(Grades(judged, after)));
  }

  lemma {:induction false} PositiveOfOne(grade: int)
    ensures Positive([grade]) == Once(grade)
  {
    assert [grade][1..] == [];
  }

  lemma {:induction false} SwapInner(a: multiset<int>, b: multiset<int>, c: multiset<int>)
    ensures a + (b + c) == b + (a + c)
  {
  }

  lemma {:induction false} StillIn(keys: seq<string>, p: nat, u: string)
    requires p < |keys| && u in keys && u != keys[p]
    ensures u in keys[..p] + keys[p + 1..]
  {
    var q :| 0 <= q < |keys| && keys[q] == u;
    if q < p {
      assert (keys[..p] + keys[p + 1..])[q] == u;
    } else {
      assert (keys[..p] + keys[p + 1..])[q - 1] == u;
    }
  }

  lemma {:induction false} OneMoreAmong(judged: Judgements, url: string, rest: seq<string>, keys: seq<string>, p: nat)
    requires p < |keys| && keys[p] == url
    requires Within(Positive(Grades(judged, rest)), Positive(Grades(judged, keys[..p] + keys[p + 1..])))
    ensures Within(Once(GradeOf(judged, url)) + Positive(Grades(judged, rest)), Positive(Grades(judged, keys)))
  {
    PositiveWithout(judged, keys, p);
  }

  lemma {:induction false} RestStillIn(judged: Judgements, ranked: seq<string>, keys: seq<string>, p: nat)
    requires NoDuplicates(ranked) && ranked != [] && p < |keys| && keys[p] == ranked[0]
    requires forall u | u in ranked && GradeOf(judged, u) > 0 :: u in keys
    ensures forall u | u in ranked[1..] && GradeOf(judged, u) > 0 :: u in keys[..p] + keys[p + 1..]
  {
    forall u | u in ranked[1..] && GradeOf(judged, u) > 0 ensures u in keys[..p] + keys[p + 1..] {
      StillIn(keys, p, u);
    }
  }

  lemma {:induction false} HeadGrade(judged: Judgements, urls: seq<string>)
    requires urls != []
    ensures Positive(Grades(judged, urls)) == Once(GradeOf(judged, urls[0])) + Positive(Grades(judged, urls[1..]))
  {
    assert Grades(judged, urls)[1..] == Grades(judged, urls[1..]);
  }

  /** The relevant grades of a list without duplicates are among those of all judged pages. */
  lemma {:induction false} RankedAmongJudged(judged: Judgements, ranked: seq<string>, keys: seq<string>)
    requires NoDuplicates(ranked) && forall u | u in ranked && GradeOf(judged, u) > 0 :: u in keys
    ensures Within(Positive(Grades(judged, ranked)), Positive(Grades(judged, keys)))
    decreases |ranked|
  {
    if ranked != [] {
      HeadGrade(judged, ranked);
      if GradeOf(judged, ranked[0]) <= 0 {
        RankedAmongJudged(judged, ranked[1..], keys);
      } else {
        var p :| 0 <= p < |keys| && keys[p] == ranked[0];
        RestStillIn(judged, ranked, keys, p);
        RankedAmongJudged(judged, ranked[1..], keys[..p] + keys[p + 1..]);
        OneMoreAmong(judged, ranked[0], ranked[1..], keys, p);
      }
    }
  }

  // ---- The ideal list ----------------------------------------------------------------------

  /** Descending but for position `j`, whose value may be too large for where it stands. */
  predicate DescendingBut(s: seq<int>, n: nat, j: nat)
    requires n <= |s|
  {
    forall p, q | 0 <= p < q < n && q != j :: s[p] >= s[q]
  }

  function Swapped(s: seq<int>, j: nat): seq<int>
    requires 0 < j < |s|
  {
    s[j := s[j - 1]][j - 1 := s[j]]
  }

  lemma {:induction false} SwapKeeps(s: seq<int>, n: nat, j: nat)
    requires 0 < j < n <= |s| && DescendingBut(s, n, j) && s[j] > s[j - 1]
    ensures DescendingBut(Swapped(s, j), n, j - 1) && multiset(Swapped(s, j)) == multiset(s)
  {
  }

  lemma {:induction false} NothingTooLarge(s: seq<int>, n: nat, j: nat)
    requires j < n <= |s| && DescendingBut(s, n, j) && (j > 0 ==> s[j] <= s[j - 1])
    ensures Descending(s[..n])
  {
    if j > 0 {
      assert forall p | 0 <= p < j :: s[p] >= s[j - 1];
    }
  }

  lemma {:induction false} OneMoreToPlace(s: seq<int>, i: nat)
    requires i < |s| && Descending(s[..i])
    ensures DescendingBut(s, i + 1, i)
  {
    forall p, q | 0 <= p < q < i ensures s[p] >= s[q] {
      assert s[..i][p] >= s[..i][q];
    }
  }

  method SortDescending(a: array<int>)
    modifies a
    ensures Descending(a[..]) && multiset(a[..]) == multiset(old(a[..]))
  {
    var i := 1;
    while i < a.Length
      invariant 1 <= i && (i <= a.Length || i == 1)
      invariant i <= a.Length ==> Descending(a[..i])
      invariant multiset(a[..]) == multiset(old(a[..]))
    {
      assert a[..][..i] == a[..i];
      OneMoreToPlace(a[..], i);
      var j := i;
      while j > 0 && a[j] > a[j - 1]
        invariant 0 <= j <= i < a.Length
        invariant DescendingBut(a[..], i + 1, j)
        invariant multiset(a[..]) == multiset(old(a[..]))
      {
        ghost var before := a[..];
        SwapKeeps(before, i + 1, j);
        a[j], a[j - 1] := a[j - 1], a[j];
        assert a[..] == Swapped(before, j);
        j := j - 1;
      }
      NothingTooLarge(a[..], i + 1, j);
      assert a[..][..i + 1] == a[..i + 1];
      i := i + 1;
    }
    assert a.Length >= 1 ==> a[..a.Length] == a[..];
  }

  ghost predicate Enumerates(keys: seq<string>, judged: Judgements) {
    NoDuplicates(keys) && forall u :: u in keys <==> u in judged
  }

  /** The relevant grades of all judged pages, best first. */
  ghost predicate IdealList(sorted: seq<int>, keys: seq<string>, judged: Judgements) {
    && Enumerates(keys, judged) && Descending(sorted) && AllPositive(sorted)
    && multiset(sorted) == Positive(Grades(judged, keys))
  }

  lemma {:induction false} GradesAppend(judged: Judgements, keys: seq<string>, key: string)
    ensures Positive(Grades(judged, keys + [key])) == Positive(Grades(judged, keys)) + Once(GradeOf(judged, key))
  {
    GradesConcat(judged, keys, [key]);
    assert Grades(judged, [key]) == [GradeOf(judged, key)];
    PositiveAppend(Grades(judged, keys), [GradeOf(judged, key)]);
    PositiveOfOne(GradeOf(judged, key));
  }

  /** The relevant grades of the pages that are not left. */
  ghost predicate Collected(judged: Judgements, left: set<string>, grades: seq<int>, keys: seq<string>) {
    && left <= judged.Keys && NoDuplicates(keys) && (forall u :: u in keys <==> u in judged && u !in left)
    && AllPositive(grades) && multiset(grades) == Positive(Grades(judged, keys))
  }

  function WithGrade(grades: seq<int>, grade: int): seq<int> {
    if grade > 0 then grades + [grade] else grades
  }

  lemma {:induction false} KeyGoes(judged: Judgements, left: set<string>, keys: seq<string>, key: string)
    requires left <= judged.Keys && NoDuplicates(keys) && key in left
    requires forall u :: u in keys <==> u in judged && u !in left
    ensures NoDuplicates(keys + [key]) && forall u :: u in keys + [key] <==> u in judged && u !in left - {key}
  {
    assert key !in keys;
  }

  lemma {:induction false} WithGradeCounts(grades: seq<int>, grade: int)
    ensures multiset(WithGrade(grades, grade)) == multiset(grades) + Once(grade)
  {
  }

  lemma {:induction false} WithGradeIsPositive(grades: seq<int>, grade: int)
    requires AllPositive(grades)
    ensures AllPositive(WithGrade(grades, grade))
  {
  }

  lemma {:induction false} KeyTaken(judged: Judgements, left: set<string>, grades: seq<int>, keys: seq<string>,
      key: string)
    requires Collected(judged, left, grades, keys) && key in left
    ensures Collected(judged, left - {key}, WithGrade(grades, judged[key]), keys + [key])
  {
    KeyGoes(judged, left, keys, key);
    GradesAppend(judged, keys, key);
    WithGradeCounts(grades, judged[key]);
    WithGradeIsPositive(grades, judged[key]);
  }

  method RelevantGrades(judged: Judgements) returns (grades: seq<int>, ghost keys: seq<string>)
    ensures AllPositive(grades) && Enumerates(keys, judged) && multiset(grades) == Positive(Grades(judged, keys))
  {
    grades, keys := [], [];
    var left := judged.Keys;
    while left != {}
      invariant Collected(judged, left, grades, keys)
      decreases |left|
    {
      var key :| key in left;
      KeyTaken(judged, left, grades, keys, key);
      var grade := judged[key];
      if grade > 0 {
        grades := grades + [grade];
      }
      keys := keys + [key];
      left := left - {key};
    }
  }

  lemma {:induction false} PositiveIsKept(xs: seq<int>, ys: seq<int>)
    requires multiset(xs) == multiset(ys) && AllPositive(xs)
    ensures AllPositive(ys)
  {
    forall i | 0 <= i < |ys| ensures ys[i] > 0 {
      assert ys[i] in multiset(ys);
      assert ys[i] in multiset(xs);
      assert ys[i] in xs;
    }
  }

  method TotalDCG(grades: seq<int>, d: Discount) returns (total: real)
    ensures total == DCG(grades, d, 0)
  {
    total := 0.0;
    for i := 0 to |grades|
      invariant total == DCG(grades[..i], d, 0)
    {
      assert grades[..i + 1] == grades[..i] + [grades[i]];
      DCGAppend(grades[..i], grades[i], d, 0);
      total := total + Gain(grades[i]) * d(i);
    }
    assert grades[..|grades|] == grades;
  }

  method SortedDescending(listed: seq<int>) returns (sorted: seq<int>)
    ensures Descending(sorted) && multiset(sorted) == multiset(listed)
  {
    var grades := new int[|listed|](i requires 0 <= i < |listed| => listed[i]);
    assert grades[..] == listed;
    SortDescending(grades);
    sorted := grades[..];
  }

  method IdealDCG(judged: Judgements, k: nat, d: Discount)
      returns (ideal: real, ghost sorted: seq<int>, ghost keys: seq<string>)
    ensures IdealList(sorted, keys, judged) && ideal == DCG(Best(sorted, k), d, 0)
    ensures exists s, ks :: IdealList(s, ks, judged) && ideal == DCG(Best(s, k), d, 0)
  {
    var listed;
    listed, keys := RelevantGrades(judged);
    var grades := SortedDescending(listed);
    PositiveIsKept(listed, grades);
    sorted := grades;
    ideal := TotalDCG(Best(grades, k), d);
    assert IdealList(sorted, keys, judged);
  }

  // ---- The score ---------------------------------------------------------------------------

  function CountFrom(grades: seq<int>, minRelevant: int): nat {
    if grades == [] then 0
    else
      var n := |grades| - 1;
      CountFrom(grades[..n], minRelevant) + if grades[n] >= minRelevant then 1 else 0
  }

  lemma {:induction false} CountAppend(grades: seq<int>, grade: int, minRelevant: int)
    ensures CountFrom(grades + [grade], minRelevant)
      == CountFrom(grades, minRelevant) + if grade >= minRelevant then 1 else 0
  {
    assert (grades + [grade])[..|grades|] == grades;
  }

  function JudgedAmong(judged: Judgements, urls: seq<string>): nat {
    if urls == [] then 0
    else
      var n := |urls| - 1;
      JudgedAmong(judged, urls[..n]) + if urls[n] in judged then 1 else 0
  }

  function Reciprocal(rank: nat): (r: real)
    requires rank > 0
    ensures 0.0 < r <= 1.0
  {
    1.0 / rank as real
  }

  /** One over the rank of the first relevant grade, 0 if there is none. */
  function ReciprocalRank(grades: seq<int>, minRelevant: int): (r: real)
    ensures 0.0 <= r <= 1.0
    ensures r == 0.0 <==> CountFrom(grades, minRelevant) == 0
  {
    if grades == [] then 0.0
    else
      var n := |grades| - 1;
      var earlier := ReciprocalRank(grades[..n], minRelevant);
      if earlier == 0.0 && grades[n] >= minRelevant then Reciprocal(n + 1) else earlier
  }

  /** The judged pages that count as relevant. */
  function RelevantOf(judged: Judgements, minRelevant: int): set<string> {
    set u | u in judged && judged[u] >= minRelevant
  }

  method CountRelevant(judged: Judgements, minRelevant: int) returns (n: nat)
    ensures n == |RelevantOf(judged, minRelevant)|
  {
    n := 0;
    var left := judged.Keys;
    ghost var counted: set<string> := {};
    while left != {}
      invariant left <= judged.Keys && n == |counted|
      invariant counted == set u | u in judged && u !in left && judged[u] >= minRelevant
      decreases |left|
    {
      var key :| key in left;
      left := left - {key};
      if judged[key] >= minRelevant {
        n := n + 1;
        counted := counted + {key};
      }
    }
    assert counted == RelevantOf(judged, minRelevant);
  }

  function Ratio(n: nat, of: nat): real {
    if of > 0 then n as real / of as real else 0.0
  }

  /** Of the judged pages that count as relevant, how many were found; a page listed twice is found twice. */
  function Recall(judged: Judgements, top: seq<string>, minRelevant: int): real {
    Ratio(CountFrom(Grades(judged, top), minRelevant), |RelevantOf(judged, minRelevant)|)
  }

  /** What the first `k` of a ranked list score, against the sorted relevant grades. */
  function ScoreOf(top: seq<string>, judged: Judgements, k: nat, minRelevant: int, d: Discount,
      sorted: seq<int>): Scores
  {
    var grades := Grades(judged, top);
    var dcg, ideal := DCG(grades, d, 0), DCG(Best(sorted, k), d, 0);
    Scores(
      if ideal > 0.0 then dcg / ideal else 0.0,
      ReciprocalRank(grades, minRelevant),
      Recall(judged, top, minRelevant),
      Ratio(JudgedAmong(judged, top), |top|))
  }

  function Top(ranked: seq<string>, k: nat): seq<string> {
    ranked[..Min(k, |ranked|)]
  }

  datatype Tally = Tally(dcg: real, mrr: real, relevantFound: nat, judgedCount: nat)

  /** What a list gained, and how much of it was relevant or judged at all. */
  function TallyOf(judged: Judgements, urls: seq<string>, minRelevant: int, d: Discount): Tally {
    var grades := Grades(judged, urls);
    Tally(DCG(grades, d, 0), ReciprocalRank(grades, minRelevant), CountFrom(grades, minRelevant),
      JudgedAmong(judged, urls))
  }

  /** One more page, at position `i`. */
  function Tallied(t: Tally, grade: int, isJudged: bool, i: nat, minRelevant: int, weight: real): Tally {
    Tally(
      t.dcg + Term(grade, weight),
      if t.mrr == 0.0 && grade >= minRelevant then Reciprocal(i + 1) else t.mrr,
      t.relevantFound + if grade >= minRelevant then 1 else 0,
      t.judgedCount + if isJudged then 1 else 0)
  }

  lemma {:induction false} OneMoreRanked(judged: Judgements, top: seq<string>, i: nat, minRelevant: int, d: Discount)
    requires i < |top|
    ensures TallyOf(judged, top[..i + 1], minRelevant, d)
      == Tallied(TallyOf(judged, top[..i], minRelevant, d), GradeOf(judged, top[i]), top[i] in judged, i, minRelevant,
        d(i))
  {
    var before, grade := Grades(judged, top[..i]), GradeOf(judged, top[i]);
    assert Grades(judged, top[..i + 1]) == before + [grade];
    DCGAppend(before, grade, d, 0);
    CountAppend(before, grade, minRelevant);
    assert (before + [grade])[..i] == before;
    assert top[..i + 1][..i] == top[..i];
  }

  method TallyUp(top: seq<string>, judged: Judgements, minRelevant: int, d: Discount) returns (tally: Tally)
    ensures tally == TallyOf(judged, top, minRelevant, d)
  {
    var dcg, mrr, relevantFound, judgedCount := 0.0, 0.0, 0, 0;
    for i := 0 to |top|
      invariant Tally(dcg, mrr, relevantFound, judgedCount) == TallyOf(judged, top[..i], minRelevant, d)
    {
      OneMoreRanked(judged, top, i, minRelevant, d);
      var grade := GradeOf(judged, top[i]);
      if top[i] in judged {
        judgedCount := judgedCount + 1;
      }
      dcg := dcg + Term(grade, d(i));
      if grade >= minRelevant {
        relevantFound := relevantFound + 1;
        if mrr == 0.0 {
          mrr := Reciprocal(i + 1);
        }
      }
    }
    assert top[..|top|] == top;
    tally := Tally(dcg, mrr, relevantFound, judgedCount);
  }

  /** The scores of the first `k` of a ranked list. */
  method Score(ranked: seq<string>, judged: Judgements, k: nat, minRelevant: int, d: Discount)
      returns (scores: Scores, ghost sorted: seq<int>, ghost keys: seq<string>)
    ensures IdealList(sorted, keys, judged)
    ensures scores == ScoreOf(Top(ranked, k), judged, k, minRelevant, d, sorted)
    ensures exists s, ks :: IdealList(s, ks, judged) && scores == ScoreOf(Top(ranked, k), judged, k, minRelevant, d, s)
  {
    var top := Top(ranked, k);
    var tally := TallyUp(top, judged, minRelevant, d);
    var ideal;
    ideal, sorted, keys := IdealDCG(judged, k, d);
    var relevant := CountRelevant(judged, minRelevant);
    scores := Scores(
      if ideal > 0.0 then tally.dcg / ideal else 0.0,
      tally.mrr,
      if relevant > 0 then tally.relevantFound as real / relevant as real else 0.0,
      if |top| > 0 then tally.judgedCount as real / |top| as real else 0.0);
  }

  // ---- Scores are shares -------------------------------------------------------------------

  lemma {:induction false} NdcgAtMostOne(top: seq<string>, judged: Judgements, k: nat, d: Discount, sorted: seq<int>,
      keys: seq<string>)
    requires DiscountOk(d) && NoDuplicates(top) && |top| <= k && IdealList(sorted, keys, judged)
    ensures 0.0 <= DCG(Grades(judged, top), d, 0) <= DCG(Best(sorted, k), d, 0)
  {
    DCGNotNegative(Grades(judged, top), d, 0);
    RankedAmongJudged(judged, top, keys);
    SortedIsBest(Grades(judged, top), sorted, k, d, 0);
  }

  function FoundAmong(judged: Judgements, urls: seq<string>, minRelevant: int): set<string> {
    set u | u in urls && u in RelevantOf(judged, minRelevant)
  }

  /** Without duplicates, and if unjudged pages do not count as relevant, the relevant pages found
      are different judged pages. */
  lemma {:induction false} FoundAreRelevant(judged: Judgements, top: seq<string>, minRelevant: int)
    requires NoDuplicates(top) && minRelevant >= 1
    ensures CountFrom(Grades(judged, top), minRelevant) == |FoundAmong(judged, top, minRelevant)|
  {
    if top != [] {
      var n := |top| - 1;
      FoundAreRelevant(judged, top[..n], minRelevant);
      var found, before := FoundAmong(judged, top, minRelevant), FoundAmong(judged, top[..n], minRelevant);
      assert Grades(judged, top)[..n] == Grades(judged, top[..n]);
      assert top == top[..n] + [top[n]];
      if top[n] in RelevantOf(judged, minRelevant) {
        assert found == before + {top[n]};
      } else {
        assert found == before;
      }
    }
  }

  lemma {:induction false} SubsetIsSmaller(xs: set<string>, ys: set<string>)
    requires xs <= ys
    ensures |xs| <= |ys|
  {
    if xs != {} {
      var x :| x in xs;
      SubsetIsSmaller(xs - {x}, ys - {x});
    }
  }

  lemma {:induction false} JudgedAtMostAll(judged: Judgements, urls: seq<string>)
    ensures JudgedAmong(judged, urls) <= |urls|
  {
    if urls != [] {
      JudgedAtMostAll(judged, urls[..|urls| - 1]);
    }
  }

  lemma {:induction false} RatioIsShare(n: nat, of: nat)
    requires n <= of
    ensures 0.0 <= Ratio(n, of) <= 1.0
  {
  }

  predicate Shares(s: Scores) {
    0.0 <= s.ndcg <= 1.0 && 0.0 <= s.mrr <= 1.0 && 0.0 <= s.recall <= 1.0 && 0.0 <= s.judged <= 1.0
  }

  /** The found pages are few enough if they are different and really judged, or only one. */
  predicate RecallOk(top: seq<string>, minRelevant: int) {
    |top| <= 1 || (NoDuplicates(top) && minRelevant >= 1)
  }

  lemma {:induction false} RecallIsShare(judged: Judgements, top: seq<string>, minRelevant: int)
    requires RecallOk(top, minRelevant)
    ensures 0.0 <= Recall(judged, top, minRelevant) <= 1.0
  {
    var found, relevant := CountFrom(Grades(judged, top), minRelevant), |RelevantOf(judged, minRelevant)|;
    if |top| <= 1 {
      CountAtMostAll(Grades(judged, top), minRelevant);
      if relevant > 0 {
        RatioIsShare(found, relevant);
      }
    } else {
      FoundAreRelevant(judged, top, minRelevant);
      SubsetIsSmaller(FoundAmong(judged, top, minRelevant), RelevantOf(judged, minRelevant));
      RatioIsShare(found, relevant);
    }
  }

  lemma {:induction false} CountAtMostAll(grades: seq<int>, minRelevant: int)
    ensures CountFrom(grades, minRelevant) <= |grades|
    ensures (forall i | 0 <= i < |grades| :: grades[i] >= minRelevant) ==> CountFrom(grades, minRelevant) == |grades|
  {
    if grades != [] {
      CountAtMostAll(grades[..|grades| - 1], minRelevant);
    }
  }

  /** Every score of a list without duplicates among its first `k` is between 0 and 1, for any
      judgements, if grade 0 does not count as relevant. */
  lemma {:induction false} ScoresAreShares(ranked: seq<string>, judged: Judgements, k: nat, minRelevant: int,
      d: Discount, sorted: seq<int>, keys: seq<string>)
    requires DiscountOk(d) && NoDuplicates(Top(ranked, k)) && IdealList(sorted, keys, judged)
    requires RecallOk(Top(ranked, k), minRelevant)
    ensures Shares(ScoreOf(Top(ranked, k), judged, k, minRelevant, d, sorted))
  {
    var top := Top(ranked, k);
    NdcgAtMostOne(top, judged, k, d, sorted, keys);
    RecallIsShare(judged, top, minRelevant);
    JudgedAtMostAll(judged, top);
    RatioIsShare(JudgedAmong(judged, top), |top|);
    QuotientIsShare(DCG(Grades(judged, top), d, 0), DCG(Best(sorted, k), d, 0));
  }

  lemma {:induction false} QuotientIsShare(x: real, y: real)
    requires 0.0 <= x <= y
    ensures y > 0.0 ==> 0.0 <= x / y <= 1.0
  {
  }

  // ---- Lists with duplicates ---------------------------------------------------------------

  /** Every listed page has this grade. */
  function AllAt(urls: seq<string>, grade: int): Judgements {
    map u | u in urls :: grade
  }

  function AllOne(urls: seq<string>): Judgements {
    AllAt(urls, 1)
  }

  function Ones(n: nat): seq<int> {
    seq(n, i => 1)
  }

  function Distinct(urls: seq<string>): seq<string> {
    if urls == [] then []
    else
      var before, last := Distinct(urls[..|urls| - 1]), urls[|urls| - 1];
      if last in before then before else before + [last]
  }

  lemma {:induction false} DistinctIsShorter(urls: seq<string>)
    ensures NoDuplicates(Distinct(urls)) && forall u :: u in Distinct(urls) <==> u in urls
    ensures |Distinct(urls)| <= |urls| && (!NoDuplicates(urls) ==> |Distinct(urls)| < |urls|)
  {
    if urls != [] {
      var n := |urls| - 1;
      DistinctIsShorter(urls[..n]);
      assert urls == urls[..n] + [urls[n]];
      if urls[n] !in urls[..n] && NoDuplicates(urls[..n]) {
        AppendNew(urls[..n], urls[n]);
      }
    }
  }

  lemma {:induction false} AppendNew(urls: seq<string>, u: string)
    requires NoDuplicates(urls) && u !in urls
    ensures NoDuplicates(urls + [u])
  {
  }

  lemma {:induction false} OnesAreWorthMore(m: nat, n: nat, d: Discount)
    requires m < n && DiscountOk(d)
    ensures DCG(Ones(n), d, 0) > DCG(Ones(m), d, 0)
  {
    assert Ones(n) == Ones(n - 1) + [1];
    DCGAppend(Ones(n - 1), 1, d, 0);
    OneIsPositive(d(n - 1));
    if m < n - 1 {
      OnesAreWorthMore(m, n - 1, d);
    }
  }

  lemma {:induction false} OneIsPositive(weight: real)
    requires weight > 0.0
    ensures Term(1, weight) > 0.0
  {
    assert Exp2(1) == 2.0 * Exp2(0);
  }

  lemma {:induction false} AllOneGrades(urls: seq<string>, keys: seq<string>)
    requires forall u | u in keys :: u in urls
    ensures Grades(AllOne(urls), keys) == Ones(|keys|)
  {
    forall i | 0 <= i < |keys| ensures GradeOf(AllOne(urls), keys[i]) == 1 {
      assert keys[i] in keys;
    }
  }

  /** The ideal list of these judgements: a 1 for every different page. */
  lemma {:induction false} IdealOfOnes(urls: seq<string>)
    ensures IdealList(Ones(|Distinct(urls)|), Distinct(urls), AllOne(urls))
  {
    DistinctIsShorter(urls);
    AllOneGrades(urls, Distinct(urls));
    PositiveOfPositive(Ones(|Distinct(urls)|));
  }

  /** If one of the first `k` is listed twice, there are judgements under which the list gains more
      than the ideal, so that its nDCG is above 1. */
  lemma {:induction false} DuplicatesExceedOne(top: seq<string>, k: nat, minRelevant: int, d: Discount)
    requires DiscountOk(d) && |top| <= k && !NoDuplicates(top)
    ensures var sorted := Ones(|Distinct(top)|);
      && IdealList(sorted, Distinct(top), AllOne(top))
      && DCG(Grades(AllOne(top), top), d, 0) > DCG(Best(sorted, k), d, 0) > 0.0
      && ScoreOf(top, AllOne(top), k, minRelevant, d, sorted).ndcg > 1.0
  {
    var m := |Distinct(top)|;
    DistinctIsShorter(top);
    IdealOfOnes(top);
    AllOneGrades(top, top);
    assert Best(Ones(m), k) == Ones(m);
    assert top[0] in top && m > 0;
    OnesAreWorthMore(m, |top|, d);
    OnesAreWorthMore(0, m, d);
    QuotientExceedsOne(DCG(Ones(|top|), d, 0), DCG(Ones(m), d, 0));
  }

  lemma {:induction false} QuotientExceedsOne(x: real, y: real)
    requires x > y > 0.0
    ensures x / y > 1.0
  {
  }

  ghost predicate NdcgIsShare(top: seq<string>, k: nat, minRelevant: int, d: Discount) {
    forall judged, sorted, keys | IdealList(sorted, keys, judged) ::
      0.0 <= ScoreOf(top, judged, k, minRelevant, d, sorted).ndcg <= 1.0
  }

  /** The nDCG of a list is between 0 and 1 whatever the judgements exactly if no page is listed
      twice among the first `k`. */
  lemma {:induction false} NdcgIsShareIff(ranked: seq<string>, k: nat, minRelevant: int, d: Discount)
    requires DiscountOk(d)
    ensures NdcgIsShare(Top(ranked, k), k, minRelevant, d) <==> NoDuplicates(Top(ranked, k))
  {
    var top := Top(ranked, k);
    if NoDuplicates(top) {
      forall judged, sorted, keys | IdealList(sorted, keys, judged)
        ensures 0.0 <= ScoreOf(top, judged, k, minRelevant, d, sorted).ndcg <= 1.0
      {
        NdcgAtMostOne(top, judged, k, d, sorted, keys);
        QuotientIsShare(DCG(Grades(judged, top), d, 0), DCG(Best(sorted, k), d, 0));
      }
    } else {
      DuplicatesExceedOne(top, k, minRelevant, d);
    }
  }

  // ---- When recall is a share --------------------------------------------------------------

  lemma {:induction false} SizeOfListed(urls: seq<string>)
    requires NoDuplicates(urls)
    ensures |set u | u in urls| == |urls|
  {
    if urls != [] {
      var n := |urls| - 1;
      SizeOfListed(urls[..n]);
      assert urls == urls[..n] + [urls[n]];
      assert (set u | u in urls) == (set u | u in urls[..n]) + {urls[n]};
    }
  }

  /** Each listed page is relevant, and counts as often as it is listed. */
  lemma {:induction false} TwiceFound(top: seq<string>, minRelevant: int)
    requires !NoDuplicates(top)
    ensures Recall(AllAt(top, minRelevant), top, minRelevant) > 1.0
  {
    var judged, distinct := AllAt(top, minRelevant), Distinct(top);
    DistinctIsShorter(top);
    SizeOfListed(distinct);
    assert RelevantOf(judged, minRelevant) == set u | u in distinct;
    forall i | 0 <= i < |top| ensures Grades(judged, top)[i] == minRelevant {
      assert top[i] in top;
    }
    CountAtMostAll(Grades(judged, top), minRelevant);
    assert top[0] in distinct;
    RatioExceedsOne(|top|, |distinct|);
  }

  /** Pages nobody judged have grade 0, which counts as relevant. */
  lemma {:induction false} UnjudgedFound(top: seq<string>, minRelevant: int)
    requires |top| >= 2 && minRelevant <= 0
    ensures Recall(map[top[0] := 0], top, minRelevant) > 1.0
  {
    var judged: Judgements := map[top[0] := 0];
    assert RelevantOf(judged, minRelevant) == {top[0]};
    CountAtMostAll(Grades(judged, top), minRelevant);
    RatioExceedsOne(|top|, 1);
  }

  lemma {:induction false} RatioExceedsOne(n: nat, of: nat)
    requires n > of > 0
    ensures Ratio(n, of) > 1.0
  {
  }

  /** Recall is between 0 and 1 whatever the judgements exactly if at most one page is listed, or no
      page is listed twice and grade 0 does not count as relevant. */
  lemma {:induction false} RecallIsShareIff(top: seq<string>, minRelevant: int)
    ensures (forall judged :: 0.0 <= Recall(judged, top, minRelevant) <= 1.0) <==> RecallOk(top, minRelevant)
  {
    if RecallOk(top, minRelevant) {
      forall judged ensures 0.0 <= Recall(judged, top, minRelevant) <= 1.0 {
        RecallIsShare(judged, top, minRelevant);
      }
    } else if !NoDuplicates(top) {
      TwiceFound(top, minRelevant);
    } else {
      UnjudgedFound(top, minRelevant);
    }
  }

  ghost predicate AllShares(top: seq<string>, k: nat, minRelevant: int, d: Discount) {
    forall judged, sorted, keys | IdealList(sorted, keys, judged) ::
      Shares(ScoreOf(top, judged, k, minRelevant, d, sorted))
  }

  lemma {:induction false} ZeroIsIdeallyNothing(url: string)
    ensures IdealList([], [url], map[url := 0])
  {
    var judged: Judgements := map[url := 0];
    assert Grades(judged, [url]) == [0];
    assert [0][1..] == [];
    assert Positive([0]) == multiset{};
  }

  /** All four scores are between 0 and 1 whatever the judgements exactly if no page is listed twice
      among the first `k`, and grade 0 does not count as relevant unless only one page is listed. */
  lemma {:induction false} ScoresAreSharesIff(ranked: seq<string>, k: nat, minRelevant: int, d: Discount)
    requires DiscountOk(d)
    ensures AllShares(Top(ranked, k), k, minRelevant, d)
      <==> NoDuplicates(Top(ranked, k)) && (|Top(ranked, k)| <= 1 || minRelevant >= 1)
  {
    var top := Top(ranked, k);
    if !NoDuplicates(top) {
      DuplicatesExceedOne(top, k, minRelevant, d);
      assert !Shares(ScoreOf(top, AllOne(top), k, minRelevant, d, Ones(|Distinct(top)|)));
    } else if !RecallOk(top, minRelevant) {
      UnjudgedFound(top, minRelevant);
      ZeroIsIdeallyNothing(top[0]);
      assert !Shares(ScoreOf(top, map[top[0] := 0], k, minRelevant, d, []));
    } else {
      forall judged, sorted, keys | IdealList(sorted, keys, judged)
        ensures Shares(ScoreOf(top, judged, k, minRelevant, d, sorted))
      {
        ScoresAreShares(ranked, judged, k, minRelevant, d, sorted, keys);
      }
    }
  }
}
