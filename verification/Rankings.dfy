/** Rankings of the items of a matrix. Python's sort with `reverse=True` keeps equal scores in their
    original order; a ranking is the list of row positions it yields. */
module Rankings {
  import opened Wrappers
  import opened ScoreMatrix
  import opened NormalizationLaws

  /** Position `i` is ranked above position `j`. */
  predicate Above(scores: seq<real>, i: nat, j: nat)
    requires i < |scores| && j < |scores|
  {
    scores[i] > scores[j] || (scores[i] == scores[j] && i < j)
  }

  ghost predicate Ranked(scores: seq<real>, p: seq<nat>) {
    && (forall a :: 0 <= a < |p| ==> p[a] < |scores|)
    && (forall a, b :: 0 <= a < b < |p| ==> Above(scores, p[a], p[b]))
  }

  /** Every position once, descending, ties in row order. */
  ghost predicate IsRanking(scores: seq<real>, p: seq<nat>) {
    Ranked(scores, p) && |p| == |scores| && forall k: nat :: k < |scores| ==> k in p
  }

  lemma RankedWithLast(scores: seq<real>, p: seq<nat>, k: nat, r: seq<nat>, last: nat)
    requires Ranked(scores, r) && k < |scores| && last < |scores|
    requires forall j: nat :: j in r <==> j in p || j == k
    requires forall a :: 0 <= a < |p| ==> p[a] < |scores| && Above(scores, p[a], last)
    requires Above(scores, k, last)
    ensures Ranked(scores, r + [last])
  {
    forall a | 0 <= a < |r| ensures Above(scores, r[a], last) {
      assert r[a] in r;
      if r[a] != k {
        var b :| 0 <= b < |p| && p[b] == r[a];
      }
    }
  }

  /** `k` goes after all positions that score at least as much. */
  function Insert(scores: seq<real>, p: seq<nat>, k: nat): (r: seq<nat>)
    requires Ranked(scores, p) && k < |scores| && forall a :: 0 <= a < |p| ==> p[a] < k
    ensures Ranked(scores, r) && |r| == |p| + 1
    ensures forall j: nat :: j in r <==> j in p || j == k
  {
    if p == [] then [k]
    else
      var last := |p| - 1;
      if scores[p[last]] >= scores[k] then p + [k]
      else
        assert p == p[..last] + [p[last]];
        var r := Insert(scores, p[..last], k);
        RankedWithLast(scores, p[..last], k, r, p[last]);
        r + [p[last]]
  }

  /** The positions `0..n` sorted by score, descending and stable. */
  function SortedUpTo(scores: seq<real>, n: nat): (p: seq<nat>)
    requires n <= |scores|
    ensures Ranked(scores, p) && |p| == n
    ensures forall j: nat :: j in p <==> j < n
  {
    if n == 0 then []
    else
      var p := SortedUpTo(scores, n - 1);
      assert forall a :: 0 <= a < |p| ==> p[a] in p;
      Insert(scores, p, n - 1)
  }

  function Ranking(scores: seq<real>): (p: seq<nat>)
    ensures IsRanking(scores, p)
  {
    SortedUpTo(scores, |scores|)
  }

  lemma {:induction false} SameMembersSameOrder(scores: seq<real>, p: seq<nat>, q: seq<nat>)
    requires Ranked(scores, p) && Ranked(scores, q)
    requires |p| == |q| && forall k :: k in p <==> k in q
    ensures p == q
  {
    if p == [] {
    } else {
      HeadsAgree(scores, p, q);
      assert forall k :: k in p[1..] <==> k in p && k != p[0];
      assert forall k :: k in q[1..] <==> k in q && k != q[0];
      SameMembersSameOrder(scores, p[1..], q[1..]);
      assert p == [p[0]] + p[1..] && q == [q[0]] + q[1..];
    }
  }

  lemma HeadsAgree(scores: seq<real>, p: seq<nat>, q: seq<nat>)
    requires Ranked(scores, p) && Ranked(scores, q)
    requires forall k :: k in p <==> k in q
    requires |p| == |q| > 0
    ensures p[0] == q[0]
  {
    assert p[0] in q;
    assert q[0] in p;
    var a :| 0 <= a < |q| && q[a] == p[0];
    var b :| 0 <= b < |p| && p[b] == q[0];
    assert a > 0 ==> Above(scores, q[0], q[a]);
    assert b > 0 ==> Above(scores, p[0], p[b]);
  }

  /** A stable descending sort has only one possible outcome. */
  lemma RankingIsUnique(scores: seq<real>, p: seq<nat>)
    requires IsRanking(scores, p)
    ensures p == Ranking(scores)
  {
    SameMembersSameOrder(scores, p, Ranking(scores));
  }

  /** Two score lists rank every pair of positions alike. */
  ghost predicate SameAbove(a: seq<real>, b: seq<real>)
    requires |a| == |b|
  {
    forall i: nat, j: nat :: i < |a| && j < |a| ==> (Above(a, i, j) <==> Above(b, i, j))
  }

  /** Of two different positions one is above the other, and it comes first in the ranking. */
  lemma AboveComesFirst(scores: seq<real>, p: seq<nat>, x: nat, y: nat)
    requires IsRanking(scores, p) && x < |p| && y < |p|
    ensures p[x] < |scores| && p[y] < |scores|
    ensures Above(scores, p[x], p[y]) <==> x < y
  {
    assert x < y ==> Above(scores, p[x], p[y]);
    assert y < x ==> Above(scores, p[y], p[x]);
  }

  /** The outcome depends only on which position is above which, and shows it. */
  lemma RankingsAgreeIff(a: seq<real>, b: seq<real>)
    requires |a| == |b|
    ensures Ranking(a) == Ranking(b) <==> SameAbove(a, b)
  {
    var p := Ranking(a);
    if SameAbove(a, b) {
      forall x, y | 0 <= x < y < |p| ensures Above(b, p[x], p[y]) {
        assert Above(a, p[x], p[y]);
      }
      RankingIsUnique(b, p);
    }
    if p == Ranking(b) {
      forall i: nat, j: nat | i < |a| && j < |a| ensures Above(a, i, j) <==> Above(b, i, j) {
        assert i in p && j in p;
        var x :| 0 <= x < |p| && p[x] == i;
        var y :| 0 <= y < |p| && p[y] == j;
        AboveComesFirst(a, p, x, y);
        AboveComesFirst(b, p, x, y);
      }
    }
  }

  /** The scores a criterion is ranked by: a missing score counts as zero. */
  function ScoresFor(m: seq<Row>, c: string): (s: seq<real>)
    ensures |s| == |m|
  {
    seq(|m|, i requires 0 <= i < |m| => if c in m[i].at then m[i].at[c] else 0.0)
  }

  function Sum(row: Row, n: nat): real
    requires n <= |row.criteria|
  {
    if n == 0 then 0.0
    else
      var c := row.criteria[n - 1];
      Sum(row, n - 1) + (if c in row.at then row.at[c] else 0.0)
  }

  function Mean(row: Row): real {
    if row.criteria == [] then 0.0 else Sum(row, |row.criteria|) / |row.criteria| as real
  }

  // ---- The mean ----

  predicate Within(row: Row, lo: real, hi: real) {
    forall c :: c in row.criteria ==> lo <= (if c in row.at then row.at[c] else 0.0) <= hi
  }

  lemma NextBounds(sum: real, x: real, n: nat, lo: real, hi: real)
    requires n > 0 && lo <= x <= hi && lo * (n - 1) as real <= sum <= hi * (n - 1) as real
    ensures lo * n as real <= sum + x <= hi * n as real
  {
    assert n as real == (n - 1) as real + 1.0;
  }

  lemma {:induction false} SumIsWithin(row: Row, n: nat, lo: real, hi: real)
    requires n <= |row.criteria| && Within(row, lo, hi)
    ensures lo * n as real <= Sum(row, n) <= hi * n as real
  {
    if n > 0 {
      var c := row.criteria[n - 1];
      SumIsWithin(row, n - 1, lo, hi);
      NextBounds(Sum(row, n - 1), if c in row.at then row.at[c] else 0.0, n, lo, hi);
    }
  }

  lemma QuotientIsWithin(sum: real, n: nat, lo: real, hi: real)
    requires n > 0 && lo * n as real <= sum <= hi * n as real
    ensures lo <= sum / n as real <= hi
  {
    var q := sum / n as real;
    assert q * n as real == sum;
    if q < lo { Larger(lo - q, n); }
    if q > hi { Larger(q - hi, n); }
  }

  lemma Larger(d: real, n: nat)
    requires d > 0.0 && n > 0
    ensures d * n as real > 0.0
  {
  }

  /** The mean of a row lies between its least and its greatest score. */
  lemma MeanIsWithin(row: Row, lo: real, hi: real)
    requires row.criteria != [] && Within(row, lo, hi)
    ensures lo <= Mean(row) <= hi
  {
    SumIsWithin(row, |row.criteria|, lo, hi);
    QuotientIsWithin(Sum(row, |row.criteria|), |row.criteria|, lo, hi);
  }

  /** The row with one score raised. */
  function Raised(row: Row, k: nat, d: real): Row
    requires k < |row.criteria| && row.criteria[k] in row.at
  {
    row.(at := row.at[row.criteria[k] := row.at[row.criteria[k]] + d])
  }

  lemma {:induction false} SumMoves(row: Row, n: nat, k: nat, d: real)
    requires row.Ok() && k < |row.criteria| && row.criteria[k] in row.at && n <= |row.criteria|
    ensures Sum(Raised(row, k, d), n) == Sum(row, n) + (if k < n then d else 0.0)
  {
    if n > 0 { SumMoves(row, n - 1, k, d); }
  }

  lemma QuotientMoves(sum: real, d: real, n: nat)
    requires n > 0
    ensures (sum + d) / n as real == sum / n as real + d / n as real
  {
  }

  /** Every score has the same weight in the mean: raising any of them by `d` raises the mean by `d` divided
      by the number of scores. */
  lemma MeanMoves(row: Row, k: nat, d: real)
    requires row.Ok() && k < |row.criteria| && row.criteria[k] in row.at
    ensures Mean(Raised(row, k, d)) == Mean(row) + d / |row.criteria| as real
  {
    SumMoves(row, |row.criteria|, k, d);
    QuotientMoves(Sum(row, |row.criteria|), d, |row.criteria|);
  }

  function Means(m: seq<Row>): (s: seq<real>)
    ensures |s| == |m|
  {
    seq(|m|, i requires 0 <= i < |m| => Mean(m[i]))
  }

  /** The items at the positions `p`. */
  function ItemsAt(m: seq<Row>, p: seq<nat>): seq<string>
    requires forall a :: 0 <= a < |p| ==> p[a] < |m|
  {
    seq(|p|, a requires 0 <= a < |p| => m[p[a]].item)
  }

  function ItemsRankedBy(m: seq<Row>, scores: seq<real>): seq<string>
    requires |scores| == |m|
  {
    ItemsAt(m, Ranking(scores))
  }

  const OVERALL := "overall"

  method AverageScore(row: Row) returns (mean: real)
    requires row.Ok()
    ensures mean == Mean(row)
  {
    if row.criteria == [] { return 0.0; }
    var sum := 0.0;
    for j := 0 to |row.criteria|
      invariant sum == Sum(row, j)
    {
      sum := sum + row.at[row.criteria[j]];
    }
    mean := sum / |row.criteria| as real;
  }

  /** A criterion called "overall" loses its own ranking to the ranking by means. */
  method CalculateRankings(m: seq<Row>, criteria: seq<string>) returns (rankings: map<string, seq<string>>)
    requires MatrixOk(m)
    ensures m == [] ==> rankings == map[]
    ensures m != [] ==> forall c :: c in rankings <==> c in criteria || c == OVERALL
    ensures m != [] ==> forall c :: c in criteria && c != OVERALL ==> rankings[c] == ItemsRankedBy(m, ScoresFor(m, c))
    ensures m != [] ==> rankings[OVERALL] == ItemsRankedBy(m, Means(m))
  {
    rankings := map[];
    if m == [] { return; }
    for k := 0 to |criteria|
      invariant forall c :: c in rankings <==> c in criteria[..k]
      invariant forall c :: c in rankings ==> rankings[c] == ItemsRankedBy(m, ScoresFor(m, c))
    {
      var c := criteria[k];
      rankings := rankings[c := ItemsRankedBy(m, ScoresFor(m, c))];
      assert criteria[..k + 1] == criteria[..k] + [c];
    }
    assert criteria[..|criteria|] == criteria;
    var means: seq<real> := [];
    for i := 0 to |m|
      invariant |means| == i
      invariant forall k :: 0 <= k < i ==> means[k] == Mean(m[k])
    {
      var mean := AverageScore(m[i]);
      means := means + [mean];
    }
    assert means == Means(m);
    rankings := rankings[OVERALL := ItemsRankedBy(m, means)];
  }

  /** A ranking names every item exactly once. */
  lemma RankingsArePermutations(m: seq<Row>, scores: seq<real>)
    requires MatrixOk(m) && |scores| == |m|
    ensures var r := ItemsRankedBy(m, scores);
            && |r| == |m|
            && (forall a, b :: 0 <= a < b < |r| ==> r[a] != r[b])
            && (forall i :: 0 <= i < |m| ==> m[i].item in r)
  {
    var p, r := Ranking(scores), ItemsRankedBy(m, scores);
    forall a, b | 0 <= a < b < |r| ensures r[a] != r[b] {
      assert Above(scores, p[a], p[b]);
      assert p[a] != p[b];
    }
    forall i: nat | i < |m| ensures m[i].item in r {
      assert i in p;
      var a :| 0 <= a < |p| && p[a] == i;
      assert r[a] == m[i].item;
    }
  }

  /** An item with a higher score stands above one with a lower score; ties keep the row order. */
  lemma RankingsAreSorted(m: seq<Row>, scores: seq<real>, i: nat, j: nat)
    requires MatrixOk(m) && |scores| == |m| && i < |m| && j < |m|
    requires Above(scores, i, j)
    ensures var r := ItemsRankedBy(m, scores);
            exists a, b :: 0 <= a < b < |r| && r[a] == m[i].item && r[b] == m[j].item
  {
    var p, r := Ranking(scores), ItemsRankedBy(m, scores);
    assert i in p && j in p;
    var a :| 0 <= a < |p| && p[a] == i;
    var b :| 0 <= b < |p| && p[b] == j;
    var lo, hi := if a < b then a else b, if a < b then b else a;
    assert lo < hi ==> Above(scores, p[lo], p[hi]);
    assert r[a] == m[i].item && r[b] == m[j].item;
  }

  /** Every row has a score for every criterion that is scored at all. */
  ghost predicate Complete(m: seq<Row>) {
    forall c :: Scored(m, c) ==> CompleteIn(m, c)
  }

  ghost predicate CompleteIn(m: seq<Row>, c: string) {
    forall i :: 0 <= i < |m| ==> c in m[i].at
  }

  /** Row `i` has a score for `c` and row `j` has not. */
  predicate ScoredAgainstMissing(m: seq<Row>, c: string, i: nat, j: nat) {
    i < |m| && j < |m| && c in m[i].at && c !in m[j].at
  }

  /** Row `i` stands above a row `j` whose score is `level`. */
  predicate StandsAbove(m: seq<Row>, c: string, i: nat, j: nat, level: real)
    requires i < |m| && c in m[i].at
  {
    m[i].at[c] > level || (m[i].at[c] == level && i < j)
  }

  /** A row without a score counts as zero, before and after. It keeps its place when each scored row is
      on the same side of zero as it is of the smallest score, to which normalisation gives zero. */
  ghost predicate MissingStayPut(m: seq<Row>, c: string) {
    var r := Bounds(m, c);
    r.Some? && r.value.min < r.value.max ==>
      forall i: nat, j: nat :: ScoredAgainstMissing(m, c, i, j) ==>
        (StandsAbove(m, c, i, j, 0.0) <==> StandsAbove(m, c, i, j, r.value.min))
  }

  /** Normalisation never changes which of two scored rows, or of two unscored ones, is above. */
  lemma LikeRowsKeepTheirOrder(m: seq<Row>, c: string, i: nat, j: nat)
    requires i < |m| && j < |m| && (c in m[i].at <==> c in m[j].at)
    ensures Above(ScoresFor(m, c), i, j) <==> Above(ScoresFor(Normalized(m), c), i, j)
  {
    NormalizedAt(m, i, c);
    NormalizedAt(m, j, c);
    if c in m[i].at {
      RescaledKeepsOrder(Bounds(m, c).value, m[i].at[c], m[j].at[c]);
      RescaledKeepsOrder(Bounds(m, c).value, m[j].at[c], m[i].at[c]);
    }
  }

  /** A scored row against an unscored one: what the two rankings compare. */
  lemma ScoredAgainstMissingOrder(m: seq<Row>, c: string, i: nat, j: nat)
    requires ScoredAgainstMissing(m, c, i, j)
    ensures Bounds(m, c).Some?
    ensures var raw, normal, r := ScoresFor(m, c), ScoresFor(Normalized(m), c), Bounds(m, c).value;
            && (Above(raw, i, j) <==> StandsAbove(m, c, i, j, 0.0))
            && (Above(normal, i, j) <==> StandsAbove(m, c, i, j, if r.min < r.max then r.min else 0.0))
            && (Above(raw, j, i) <==> !Above(raw, i, j))
            && (Above(normal, j, i) <==> !Above(normal, i, j))
  {
    NormalizedAt(m, i, c);
    NormalizedAt(m, j, c);
    var r := Bounds(m, c).value;
    if r.min < r.max {
      RescaledEnds(r);
      RescaledKeepsOrder(r, m[i].at[c], r.min);
      RescaledKeepsOrder(r, r.min, m[i].at[c]);
    }
  }

  /** Normalisation leaves the ranking for a criterion as it was if and only if the rows without a score
      keep their place. */
  lemma NormalizationKeepsRankingIff(m: seq<Row>, c: string)
    ensures Ranking(ScoresFor(Normalized(m), c)) == Ranking(ScoresFor(m, c)) <==> MissingStayPut(m, c)
  {
    var raw, normal := ScoresFor(m, c), ScoresFor(Normalized(m), c);
    RankingsAgreeIff(normal, raw);
    if MissingStayPut(m, c) {
      forall i: nat, j: nat | i < |m| && j < |m| ensures Above(normal, i, j) <==> Above(raw, i, j) {
        if c in m[i].at <==> c in m[j].at { LikeRowsKeepTheirOrder(m, c, i, j); }
        else if c in m[i].at { ScoredAgainstMissingOrder(m, c, i, j); }
        else { ScoredAgainstMissingOrder(m, c, j, i); }
      }
    }
    if SameAbove(normal, raw) && Bounds(m, c).Some? && Bounds(m, c).value.min < Bounds(m, c).value.max {
      forall i: nat, j: nat | ScoredAgainstMissing(m, c, i, j)
        ensures StandsAbove(m, c, i, j, 0.0) <==> StandsAbove(m, c, i, j, Bounds(m, c).value.min)
      {
        ScoredAgainstMissingOrder(m, c, i, j);
        assert Above(normal, i, j) <==> Above(raw, i, j);
      }
    }
  }

  /** So on a complete matrix normalisation leaves the ranking for every criterion as it was, ties included. */
  lemma NormalizationKeepsRankings(m: seq<Row>, c: string)
    requires Complete(m)
    ensures ItemsRankedBy(Normalized(m), ScoresFor(Normalized(m), c)) == ItemsRankedBy(m, ScoresFor(m, c))
  {
    if Scored(m, c) { assert CompleteIn(m, c); }
    assert forall i: nat, j: nat :: !ScoredAgainstMissing(m, c, i, j);
    NormalizationKeepsRankingIff(m, c);
  }

  /** Three items, of which the last has no score. */
  function Incomplete(c: string): seq<Row> {
    [Row("a", [c], map[c := -2.0]), Row("b", [c], map[c := -1.0]), Row("z", [], map[])]
  }

  lemma IncompleteIsOk(c: string)
    ensures MatrixOk(Incomplete(c))
  {
    var m := Incomplete(c);
    assert m[0].Ok() && m[1].Ok() && m[2].Ok();
  }

  lemma IncompleteScores(c: string)
    ensures ScoresFor(Incomplete(c), c) == [-2.0, -1.0, 0.0]
    ensures Bounds(Incomplete(c), c) == Some(Range(-2.0, -1.0))
  {
    var m := Incomplete(c);
    assert m[0].at[c] == -2.0 && m[1].at[c] == -1.0 && c !in m[2].at;
    IncompleteRange(c);
    BoundsAreTight(m, c);
    TightIsUnique(m, c, Bounds(m, c).value, Range(-2.0, -1.0));
  }

  lemma IncompleteRange(c: string)
    ensures Scored(Incomplete(c), c) && Tight(Incomplete(c), c, Range(-2.0, -1.0))
  {
    var m := Incomplete(c);
    assert m[0].at[c] == -2.0 && m[1].at[c] == -1.0 && c !in m[2].at;
  }

  lemma IncompleteNormalScores(c: string)
    ensures ScoresFor(Normalized(Incomplete(c)), c) == [0.0, 1.0, 0.0]
  {
    var m := Incomplete(c);
    IncompleteScores(c);
    NormalizedAt(m, 0, c);
    NormalizedAt(m, 1, c);
    NormalizedAt(m, 2, c);
    assert ScoresFor(m, c)[0] == m[0].at[c] && ScoresFor(m, c)[1] == m[1].at[c];
    RescaledEnds(Range(-2.0, -1.0));
  }

  lemma RawOrder()
    ensures Ranking([-2.0, -1.0, 0.0]) == [2, 1, 0]
  {
    RankingIsUnique([-2.0, -1.0, 0.0], [2, 1, 0]);
  }

  lemma NormalOrder()
    ensures Ranking([0.0, 1.0, 0.0]) == [1, 0, 2]
  {
    RankingIsUnique([0.0, 1.0, 0.0], [1, 0, 2]);
  }

  /** On an incomplete matrix normalisation can reorder the items: a missing score counts as zero
      before and after, while negative scores move up into [0, 1]. */
  lemma MissingScoresCanMoveItems(c: string)
    ensures MatrixOk(Incomplete(c))
    ensures Ranking(ScoresFor(Incomplete(c), c)) == [2, 1, 0]
    ensures Ranking(ScoresFor(Normalized(Incomplete(c)), c)) == [1, 0, 2]
  {
    IncompleteIsOk(c);
    IncompleteScores(c);
    RawOrder();
    IncompleteNormalScores(c);
    NormalOrder();
  }

  /** Giving an unscored item a score of zero changes no ranking by that criterion. */
  lemma MissingScoreRanksAsZero(m: seq<Row>, c: string, i: nat)
    requires i < |m| && c !in m[i].at
    ensures var m' := m[i := m[i].(criteria := m[i].criteria + [c], at := m[i].at[c := 0.0])];
            ItemsRankedBy(m', ScoresFor(m', c)) == ItemsRankedBy(m, ScoresFor(m, c))
  {
    var m' := m[i := m[i].(criteria := m[i].criteria + [c], at := m[i].at[c := 0.0])];
    assert ScoresFor(m', c) == ScoresFor(m, c);
    assert ItemsAt(m', Ranking(ScoresFor(m, c))) == ItemsAt(m, Ranking(ScoresFor(m, c)));
  }
}
