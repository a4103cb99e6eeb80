/** What the scores are, said without the functions they are computed with: what a grade is worth at a
    position, which ranking scores 1, where the reciprocal rank comes from, and what is counted. */
module ScoreLaws {
  import opened Metrics

  // ---- What a grade is worth ---------------------------------------------------------------

  /** 2 to the power of n. */
  function TwoTo(n: nat): real {
    if n == 0 then 1.0 else TwoTo(n - 1) + TwoTo(n - 1)
  }

  lemma {:induction false} OneGrade(grade: int, d: Discount, o: nat)
    ensures DCG([grade], d, o) == if grade <= 0 then 0.0 else (TwoTo(grade) - 1.0) * d(o)
  {
    assert [grade][1..] == [];
    if grade > 0 {
      PowersAgree(grade);
    }
  }

  lemma {:induction false} PowersAgree(n: nat)
    ensures Exp2(n) == TwoTo(n) >= 1.0
  {
    if n > 0 {
      PowersAgree(n - 1);
    }
  }

  /** A page that is not relevant gains nothing, one of grade 1 the discount of its position, and each
      grade above gains twice as much and the discount again. */
  lemma {:induction false} EachGradeDoubles(grade: int, d: Discount, o: nat)
    ensures grade <= 0 ==> DCG([grade], d, o) == 0.0
    ensures grade >= 0 ==> DCG([grade + 1], d, o) == 2.0 * DCG([grade], d, o) + d(o)
  {
    OneGrade(grade, d, o);
    OneGrade(grade + 1, d, o);
    if grade >= 0 {
      var p, w := TwoTo(grade), d(o);
      assert TwoTo(grade + 1) == p + p;
      assert (p + p - 1.0) * w == 2.0 * ((p - 1.0) * w) + w;
    }
  }

  /** A list gains what its pages gain, each at its own position. */
  lemma {:induction false} ListGainsItsParts(xs: seq<int>, ys: seq<int>, d: Discount, o: nat)
    ensures DCG(xs + ys, d, o) == DCG(xs, d, o) + DCG(ys, d, o + |xs|)
  {
    if xs == [] {
      assert xs + ys == ys;
    } else {
      assert (xs + ys)[1..] == xs[1..] + ys;
      ListGainsItsParts(xs[1..], ys, d, o + 1);
    }
  }

  // ---- nDCG --------------------------------------------------------------------------------

  lemma {:induction false} BestOfTwo(low: int, high: int, d: Discount)
    requires 1 <= low <= high
    ensures DCG(Best([high, low], 1), d, 0) == (TwoTo(high) - 1.0) * d(0)
  {
    assert Best([high, low], 1) == [high];
    OneGrade(high, d, 0);
  }

  lemma {:induction false} TwoKeys(a: string, b: string, low: int, high: int)
    requires a != b
    ensures Enumerates([b, a], map[a := low, b := high])
    ensures Grades(map[a := low, b := high], [b, a]) == [high, low]
  {
    assert Grades(map[a := low, b := high], [b, a]) == [high, low];
  }

  lemma {:induction false} TwoJudged(a: string, b: string, low: int, high: int)
    requires a != b && 1 <= low <= high
    ensures IdealList([high, low], [b, a], map[a := low, b := high])
  {
    TwoKeys(a, b, low, high);
    PositiveOfPositive([high, low]);
  }

  lemma {:induction false} ScoreQuotient(top: seq<string>, judged: Judgements, k: nat, minRelevant: int, d: Discount,
      sorted: seq<int>, x: real, y: real, w: real)
    requires DCG(Grades(judged, top), d, 0) == x * w && DCG(Best(sorted, k), d, 0) == y * w && y > 0.0 && w > 0.0
    ensures ScoreOf(top, judged, k, minRelevant, d, sorted).ndcg * y == x
  {
    Cancelled(x, y, w);
  }

  /** At k = 1, with one page judged `low` and another judged `high`, the nDCG of listing the worse one
      first is (2^low - 1) / (2^high - 1), whatever the discount. */
  lemma {:induction false} WorseFirst(a: string, b: string, low: int, high: int, minRelevant: int, d: Discount)
    requires a != b && 1 <= low <= high && DiscountOk(d)
    ensures IdealList([high, low], [b, a], map[a := low, b := high])
    ensures ScoreOf([a], map[a := low, b := high], 1, minRelevant, d, [high, low]).ndcg * (TwoTo(high) - 1.0)
      == TwoTo(low) - 1.0
  {
    TwoJudged(a, b, low, high);
    BestOfTwo(low, high, d);
    OneListed(a, b, low, high);
    OneGrade(low, d, 0);
    AboveOne(high);
    assert d(0) > 0.0;
    ScoreQuotient([a], map[a := low, b := high], 1, minRelevant, d, [high, low], TwoTo(low) - 1.0, TwoTo(high) - 1.0,
      d(0));
  }

  lemma {:induction false} OneListed(a: string, b: string, low: int, high: int)
    requires a != b
    ensures Grades(map[a := low, b := high], [a]) == [low]
  {
  }

  lemma {:induction false} AboveOne(n: nat)
    requires n >= 1
    ensures TwoTo(n) > 1.0
  {
    PowersAgree(n - 1);
  }

  lemma {:induction false} Cancelled(x: real, y: real, w: real)
    requires y > 0.0 && w > 0.0
    ensures y * w > 0.0 && x * w / (y * w) * y == x
  {
    var q := x * w / (y * w);
    assert q * (y * w) == x * w;
    assert (q * y - x) * w == q * (y * w) - x * w == 0.0;
  }

  /** The grades of a list that falls: those above 0, then the others. */
  lemma {:induction false} PositivePrefix(grades: seq<int>) returns (n: nat)
    requires Descending(grades)
    ensures n <= |grades| && AllPositive(grades[..n]) && forall i | n <= i < |grades| :: grades[i] <= 0
  {
    n := 0;
    while n < |grades| && grades[n] > 0
      invariant n <= |grades| && AllPositive(grades[..n])
    {
      n := n + 1;
    }
  }

  lemma {:induction false} NonePositive(grades: seq<int>, d: Discount, o: nat)
    requires forall i | 0 <= i < |grades| :: grades[i] <= 0
    ensures DCG(grades, d, o) == 0.0 && Positive(grades) == multiset{}
  {
    if grades != [] {
      NonePositive(grades[1..], d, o + 1);
    }
  }

  lemma {:induction false} PrefixWithin(sorted: seq<int>, k: nat)
    requires AllPositive(sorted)
    ensures Within(Positive(Best(sorted, k)), multiset(sorted))
  {
    var n := Min(k, |sorted|);
    assert sorted == sorted[..n] + sorted[n..];
    PositiveOfPositive(sorted[..n]);
    assert multiset(sorted) == multiset(sorted[..n]) + multiset(sorted[n..]);
  }

  lemma {:induction false} WithinAgain(xs: multiset<int>, ys: multiset<int>, zs: multiset<int>)
    requires Within(xs, ys) && Within(ys, zs)
    ensures Within(xs, zs)
  {
    forall g ensures xs[g] <= zs[g] {
      assert xs[g] <= ys[g] <= zs[g];
    }
  }

  /** The relevant grades of a list of all judged pages that falls: a prefix, with all of them. */
  lemma {:induction false} RelevantPrefix(judged: Judgements, ranked: seq<string>, sorted: seq<int>, keys: seq<string>)
      returns (n: nat)
    requires IdealList(sorted, keys, judged)
    requires Enumerates(ranked, judged) && Descending(Grades(judged, ranked))
    ensures n <= |ranked| && AllPositive(Grades(judged, ranked)[..n])
    ensures forall i | n <= i < |ranked| :: Grades(judged, ranked)[i] <= 0
    ensures Within(multiset(sorted), multiset(Grades(judged, ranked)[..n]))
  {
    var grades := Grades(judged, ranked);
    n := PositivePrefix(grades);
    assert grades == grades[..n] + grades[n..];
    PositiveAppend(grades[..n], grades[n..]);
    NonePositive(grades[n..], i => 1.0, 0);
    PositiveOfPositive(grades[..n]);
    RankedAmongJudged(judged, keys, ranked);
  }

  lemma {:induction false} DescendingPrefix(grades: seq<int>, n: nat)
    requires Descending(grades) && n <= |grades|
    ensures Descending(grades[..n])
  {
  }

  /** The pages judged at all, best first, gain as much as the ideal list. */
  lemma {:induction false} PerfectGainsTheIdeal(judged: Judgements, ranked: seq<string>, k: nat, d: Discount,
      sorted: seq<int>, keys: seq<string>)
    requires DiscountOk(d) && IdealList(sorted, keys, judged)
    requires Enumerates(ranked, judged) && Descending(Grades(judged, ranked))
    ensures DCG(Grades(judged, Top(ranked, k)), d, 0) >= DCG(Best(sorted, k), d, 0)
  {
    var n := RelevantPrefix(judged, ranked, sorted, keys);
    var front := Grades(judged, ranked)[..n];
    DescendingPrefix(Grades(judged, ranked), n);
    PrefixWithin(sorted, k);
    WithinAgain(Positive(Best(sorted, k)), multiset(sorted), multiset(front));
    SortedIsBest(Best(sorted, k), front, k, d, 0);
    TopGrades(judged, ranked, k, n, d);
  }

  lemma {:induction false} TopGrades(judged: Judgements, ranked: seq<string>, k: nat, n: nat, d: Discount)
    requires n <= |ranked| && forall i | n <= i < |ranked| :: Grades(judged, ranked)[i] <= 0
    ensures DCG(Grades(judged, Top(ranked, k)), d, 0) == DCG(Best(Grades(judged, ranked)[..n], k), d, 0)
  {
    var grades, m := Grades(judged, ranked), Min(k, |ranked|);
    assert Grades(judged, Top(ranked, k)) == grades[..m];
    if m <= n {
      assert Best(grades[..n], k) == grades[..m];
    } else {
      assert Best(grades[..n], k) == grades[..n];
      assert grades[..m] == grades[..n] + grades[n..m];
      ListGainsItsParts(grades[..n], grades[n..m], d, 0);
      NonePositive(grades[n..m], d, n);
    }
  }

  /** So ranking the judged pages by grade scores an nDCG of 1 at every k, if any of them is relevant
      and k is not 0. */
  lemma {:induction false} PerfectRankingScoresOne(judged: Judgements, ranked: seq<string>, k: nat, minRelevant: int,
      d: Discount, sorted: seq<int>, keys: seq<string>)
    requires DiscountOk(d) && IdealList(sorted, keys, judged)
    requires Enumerates(ranked, judged) && Descending(Grades(judged, ranked))
    ensures ScoreOf(Top(ranked, k), judged, k, minRelevant, d, sorted).ndcg
      == if k > 0 && exists u :: u in judged && judged[u] > 0 then 1.0 else 0.0
  {
    PerfectGainsTheIdeal(judged, ranked, k, d, sorted, keys);
    TopHasNoDuplicates(ranked, k);
    NdcgAtMostOne(Top(ranked, k), judged, k, d, sorted, keys);
    IdealIsPositiveIff(judged, k, d, sorted, keys);
    var x, y := DCG(Grades(judged, Top(ranked, k)), d, 0), DCG(Best(sorted, k), d, 0);
    assert ScoreOf(Top(ranked, k), judged, k, minRelevant, d, sorted).ndcg == if y > 0.0 then x / y else 0.0;
    SameIsOne(x, y);
  }

  lemma {:induction false} TopHasNoDuplicates(ranked: seq<string>, k: nat)
    requires NoDuplicates(ranked)
    ensures NoDuplicates(Top(ranked, k)) && |Top(ranked, k)| <= k
  {
  }

  lemma {:induction false} SameIsOne(x: real, y: real)
    requires x == y
    ensures y > 0.0 ==> x / y == 1.0
  {
  }

  lemma {:induction false} IdealIsPositiveIff(judged: Judgements, k: nat, d: Discount, sorted: seq<int>,
      keys: seq<string>)
    requires DiscountOk(d) && IdealList(sorted, keys, judged)
    ensures DCG(Best(sorted, k), d, 0) > 0.0 <==> k > 0 && exists u :: u in judged && judged[u] > 0
  {
    SomeRelevantIff(judged, sorted, keys);
    if k > 0 && sorted != [] {
      BestHead(sorted, k, d, 0);
      DCGNotNegative(Best(sorted[1..], k - 1), d, 1);
      GainGrows(1, sorted[0]);
      OneIsPositive(d(0));
      TermGrows(1, sorted[0], d(0));
    } else {
      assert Best(sorted, k) == [];
    }
  }

  lemma {:induction false} SomeRelevantIff(judged: Judgements, sorted: seq<int>, keys: seq<string>)
    requires IdealList(sorted, keys, judged)
    ensures sorted != [] <==> exists u :: u in judged && judged[u] > 0
  {
    if sorted != [] {
      assert sorted[0] in multiset(sorted);
      NoneIn(Grades(judged, keys), sorted[0]);
      var i :| 0 <= i < |keys| && Grades(judged, keys)[i] == sorted[0];
      assert keys[i] in judged && judged[keys[i]] > 0;
    } else {
      forall u | u in judged ensures judged[u] <= 0 {
        var i :| 0 <= i < |keys| && keys[i] == u;
        PositiveWithout(judged, keys, i);
        assert Once(judged[u])[judged[u]] <= Positive(Grades(judged, keys))[judged[u]];
      }
    }
  }

  // ---- The other scores --------------------------------------------------------------------

  /** The reciprocal rank is that of the first page graded high enough, 0 if there is none. */
  lemma {:induction false} FirstRelevantCounts(grades: seq<int>, minRelevant: int, i: nat)
    ensures i < |grades| && grades[i] >= minRelevant && (forall j | 0 <= j < i :: grades[j] < minRelevant) ==>
      ReciprocalRank(grades, minRelevant) == 1.0 / (i + 1) as real
    ensures (forall j | 0 <= j < |grades| :: grades[j] < minRelevant) ==> ReciprocalRank(grades, minRelevant) == 0.0
  {
    if grades != [] {
      var n := |grades| - 1;
      FirstRelevantCounts(grades[..n], minRelevant, i);
      if i == n && grades[i] >= minRelevant && (forall j | 0 <= j < i :: grades[j] < minRelevant) {
        assert forall j | 0 <= j < |grades[..n]| :: grades[..n][j] < minRelevant;
      }
    }
  }

  /** The positions of the list whose pages are graded high enough. */
  function Found(judged: Judgements, top: seq<string>, minRelevant: int): set<nat> {
    set i: nat | i < |top| && GradeOf(judged, top[i]) >= minRelevant
  }

  /** The positions of the list whose pages were judged. */
  function JudgedAt(judged: Judgements, top: seq<string>): set<nat> {
    set i: nat | i < |top| && top[i] in judged
  }

  lemma {:induction false} OneMore(before: set<nat>, n: nat, more: bool, after: set<nat>)
    requires n !in before && forall i: nat :: i in after <==> i in before || (more && i == n)
    ensures |after| == |before| + if more then 1 else 0
  {
    if more {
      assert after == before + {n};
    } else {
      assert after == before;
    }
  }

  lemma {:induction false} FoundAre(judged: Judgements, top: seq<string>, minRelevant: int)
    ensures CountFrom(Grades(judged, top), minRelevant) == |Found(judged, top, minRelevant)|
  {
    if top != [] {
      var n := |top| - 1;
      FoundAre(judged, top[..n], minRelevant);
      assert Grades(judged, top)[..n] == Grades(judged, top[..n]);
      OneMore(Found(judged, top[..n], minRelevant), n, GradeOf(judged, top[n]) >= minRelevant,
        Found(judged, top, minRelevant));
    }
  }

  lemma {:induction false} JudgedAre(judged: Judgements, top: seq<string>)
    ensures JudgedAmong(judged, top) == |JudgedAt(judged, top)|
  {
    if top != [] {
      var n := |top| - 1;
      JudgedAre(judged, top[..n]);
      OneMore(JudgedAt(judged, top[..n]), n, top[n] in judged, JudgedAt(judged, top));
    }
  }

  /** The page at this position is relevant; one nobody judged has grade 0. */
  predicate RelevantAt(judged: Judgements, top: seq<string>, minRelevant: int, i: nat)
    requires i < |top|
  {
    (if top[i] in judged then judged[top[i]] else 0) >= minRelevant
  }

  ghost predicate FirstRelevant(judged: Judgements, top: seq<string>, minRelevant: int, i: nat) {
    && i < |top| && RelevantAt(judged, top, minRelevant, i)
    && forall j: nat | j < i :: !RelevantAt(judged, top, minRelevant, j)
  }

  /** So MRR is one over the position of the first relevant page, from 1, or 0. */
  lemma {:induction false} MrrIs(judged: Judgements, top: seq<string>, k: nat, minRelevant: int, d: Discount,
      sorted: seq<int>, i: nat)
    ensures var mrr := ScoreOf(top, judged, k, minRelevant, d, sorted).mrr;
      && (FirstRelevant(judged, top, minRelevant, i) ==> mrr == 1.0 / (i + 1) as real)
      && ((forall j: nat | j < |top| :: !RelevantAt(judged, top, minRelevant, j)) ==> mrr == 0.0)
  {
    var grades := Grades(judged, top);
    forall j: nat | j < |top| ensures grades[j] >= minRelevant <==> RelevantAt(judged, top, minRelevant, j) {
    }
    FirstRelevantCounts(grades, minRelevant, i);
    assert ScoreOf(top, judged, k, minRelevant, d, sorted).mrr == ReciprocalRank(grades, minRelevant);
  }

  /** Recall is the share of the relevant judged pages that the list has, counted by position; the
      judged score is the share of the list that was judged; both are 0 of nothing. */
  lemma {:induction false} SharesAre(judged: Judgements, top: seq<string>, k: nat, minRelevant: int, d: Discount,
      sorted: seq<int>)
    ensures var scores := ScoreOf(top, judged, k, minRelevant, d, sorted);
      var relevant := set u | u in judged && judged[u] >= minRelevant;
      && scores.recall == (if relevant == {} then 0.0
                           else |Found(judged, top, minRelevant)| as real / |relevant| as real)
      && scores.judged == if top == [] then 0.0 else |JudgedAt(judged, top)| as real / |top| as real
  {
    FoundAre(judged, top, minRelevant);
    JudgedAre(judged, top);
    assert RelevantOf(judged, minRelevant) == set u | u in judged && judged[u] >= minRelevant;
  }
}
