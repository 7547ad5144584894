/** How complete a comparison matrix is: the mean share of the scored criteria that a row has. */
module MatrixCompleteness {
  import opened ScoreMatrix
  import opened NormalizationLaws
  import opened Rankings

  function AllCriteria(m: seq<Row>): set<string> {
    if m == [] then {} else AllCriteria(m[..|m| - 1]) + m[|m| - 1].at.Keys
  }

  lemma {:induction false} AllCriteriaAreScored(m: seq<Row>, c: string)
    ensures c in AllCriteria(m) <==> Scored(m, c)
  {
    if m == [] {
    } else {
      var front, last := m[..|m| - 1], m[|m| - 1];
      AllCriteriaAreScored(front, c);
      assert m == front + [last];
      if Scored(front, c) {
        var i :| 0 <= i < |front| && c in front[i].at;
        assert c in m[i].at;
      }
    }
  }

  /** The shares of the first `n` rows, added up. */
  function Shares(m: seq<Row>, all: nat, n: nat): real
    requires n <= |m| && all > 0
  {
    if n == 0 then 0.0 else Shares(m, all, n - 1) + |m[n - 1].at| as real / all as real
  }

  function Completeness(m: seq<Row>): real {
    if m == [] || AllCriteria(m) == {} then 0.0 else Shares(m, |AllCriteria(m)|, |m|) / |m| as real
  }

  method CollectCriteria(m: seq<Row>) returns (all: set<string>)
    ensures all == AllCriteria(m)
  {
    all := {};
    for i := 0 to |m|
      invariant all == AllCriteria(m[..i])
    {
      all := all + m[i].at.Keys;
      assert m[..i + 1][..i] == m[..i];
    }
    assert m[..|m|] == m;
  }

  method SumShares(m: seq<Row>, all: nat) returns (sum: real)
    requires all > 0
    ensures sum == Shares(m, all, |m|)
  {
    sum := 0.0;
    for i := 0 to |m|
      invariant sum == Shares(m, all, i)
    {
      var share := |m[i].at| as real / all as real;
      sum := sum + share;
    }
  }

  method AssessCompleteness(m: seq<Row>) returns (completeness: real)
    ensures completeness == Completeness(m)
  {
    if m == [] { return 0.0; }
    var all := CollectCriteria(m);
    if all == {} { return 0.0; }
    var sum := SumShares(m, |all|);
    completeness := sum / |m| as real;
  }

  lemma Subsets<T>(a: set<T>, b: set<T>)
    requires a <= b
    ensures |a| <= |b| && (|a| == |b| <==> a == b)
  {
    assert b == a + (b - a);
    assert |b| == |a| + |b - a|;
  }

  lemma Share(part: real, whole: real)
    requires 0.0 <= part <= whole && whole > 0.0
    ensures 0.0 <= part / whole <= 1.0 && (part / whole == 1.0 <==> part == whole)
  {
    UnitQuotients(whole, 0.0);
    Quotients(0.0, part, whole);
    Quotients(part, whole, whole);
    Quotients(whole, part, whole);
  }

  lemma Fraction(part: nat, whole: nat)
    requires part <= whole && whole > 0
    ensures 0.0 <= part as real / whole as real <= 1.0
    ensures part as real / whole as real == 1.0 <==> part == whole
  {
    Share(part as real, whole as real);
  }

  lemma RowShare(m: seq<Row>, i: nat)
    requires i < |m| && AllCriteria(m) != {}
    ensures |AllCriteria(m)| > 0
    ensures 0.0 <= |m[i].at| as real / |AllCriteria(m)| as real <= 1.0
    ensures |m[i].at| as real / |AllCriteria(m)| as real == 1.0 <==> m[i].at.Keys == AllCriteria(m)
  {
    forall c | c in m[i].at ensures c in AllCriteria(m) { AllCriteriaAreScored(m, c); }
    Subsets(m[i].at.Keys, AllCriteria(m));
    assert |m[i].at| == |m[i].at.Keys|;
    Fraction(|m[i].at|, |AllCriteria(m)|);
  }

  lemma {:induction false} SharesAreFull(m: seq<Row>, n: nat)
    requires n <= |m| && AllCriteria(m) != {}
    ensures |AllCriteria(m)| > 0
    ensures 0.0 <= Shares(m, |AllCriteria(m)|, n) <= n as real
    ensures Shares(m, |AllCriteria(m)|, n) == n as real <==> forall i :: 0 <= i < n ==> m[i].at.Keys == AllCriteria(m)
  {
    if n == 0 {
    } else {
      SharesAreFull(m, n - 1);
      RowShare(m, n - 1);
    }
  }

  lemma FullRowsAreComplete(m: seq<Row>)
    ensures Complete(m) <==> forall i :: 0 <= i < |m| ==> m[i].at.Keys == AllCriteria(m)
  {
    forall c ensures c in AllCriteria(m) <==> Scored(m, c) { AllCriteriaAreScored(m, c); }
    if Complete(m) {
      forall i | 0 <= i < |m| ensures m[i].at.Keys == AllCriteria(m) {
        forall c | c in AllCriteria(m) ensures c in m[i].at { assert CompleteIn(m, c); }
        forall c | c in m[i].at ensures c in AllCriteria(m) { assert Scored(m, c); }
      }
    }
    if forall i :: 0 <= i < |m| ==> m[i].at.Keys == AllCriteria(m) {
      forall c | Scored(m, c) ensures CompleteIn(m, c) { }
    }
  }

  /** The measure lies in [0, 1], and is 1 exactly for a matrix with scores and no missing one. */
  lemma CompletenessIsExact(m: seq<Row>)
    ensures 0.0 <= Completeness(m) <= 1.0
    ensures Completeness(m) == 1.0 <==> Complete(m) && exists c :: Scored(m, c)
  {
    if m != [] && AllCriteria(m) != {} {
      SharesAreFull(m, |m|);
      FullRowsAreComplete(m);
      MeanOfShares(Shares(m, |AllCriteria(m)|, |m|), |m|);
      var c :| c in AllCriteria(m);
      AllCriteriaAreScored(m, c);
    } else {
      forall c ensures !Scored(m, c) { AllCriteriaAreScored(m, c); }
    }
  }

  lemma MeanOfShares(sum: real, n: nat)
    requires n > 0 && 0.0 <= sum <= n as real
    ensures 0.0 <= sum / n as real <= 1.0 && (sum / n as real == 1.0 <==> sum == n as real)
  {
    Share(sum, n as real);
  }

  /** A matrix assessed as fully complete keeps every per-criterion ranking under normalisation. */
  lemma FullAssessmentKeepsRankings(m: seq<Row>, c: string)
    requires Completeness(m) == 1.0
    ensures ItemsRankedBy(Normalized(m), ScoresFor(Normalized(m), c)) == ItemsRankedBy(m, ScoresFor(m, c))
  {
    CompletenessIsExact(m);
    NormalizationKeepsRankings(m, c);
  }

  // ---- One more score ----

  /** The matrix with a score for `c` in row `i`. */
  function WithScore(m: seq<Row>, i: nat, c: string, s: real): seq<Row>
    requires i < |m|
  {
    m[i := m[i].(criteria := m[i].criteria + [c], at := m[i].at[c := s])]
  }

  lemma WithScoreSameCriteria(m: seq<Row>, i: nat, c: string, s: real)
    requires i < |m| && Scored(m, c)
    ensures AllCriteria(WithScore(m, i, c, s)) == AllCriteria(m)
  {
    var m' := WithScore(m, i, c, s);
    forall d ensures d in AllCriteria(m') <==> d in AllCriteria(m) {
      AllCriteriaAreScored(m, d);
      AllCriteriaAreScored(m', d);
      if Scored(m, d) {
        var k :| 0 <= k < |m| && d in m[k].at;
        assert d in m'[k].at;
      }
      if Scored(m', d) {
        var k :| 0 <= k < |m'| && d in m'[k].at;
        assert d == c || d in m[k].at;
      }
    }
  }

  lemma {:induction false} WithScoreShares(m: seq<Row>, i: nat, c: string, s: real, all: nat, n: nat)
    requires i < |m| && c !in m[i].at && n <= |m| && all > 0
    ensures Shares(WithScore(m, i, c, s), all, n) == Shares(m, all, n) + (if i < n then 1.0 / all as real else 0.0)
  {
    if n > 0 {
      WithScoreShares(m, i, c, s, all, n - 1);
      if i == n - 1 {
        assert m[i].at[c := s].Keys == m[i].at.Keys + {c};
        assert |m[i].at[c := s]| == |m[i].at| + 1;
        OneMoreShare(|m[i].at|, all);
      }
    }
  }

  lemma OneMoreShare(part: nat, all: nat)
    requires all > 0
    ensures (part + 1) as real / all as real == part as real / all as real + 1.0 / all as real
  {
    assert (part + 1) as real == part as real + 1.0;
    QuotientMoves(part as real, 1.0, all);
  }

  /** The mean of shares that add up to `step` more. */
  lemma MeanRises(m: seq<Row>, m': seq<Row>, all: nat, step: real)
    requires m != [] && |m'| == |m| && all > 0 && Shares(m', all, |m|) == Shares(m, all, |m|) + step
    ensures Shares(m', all, |m'|) / |m'| as real == Shares(m, all, |m|) / |m| as real + step / |m| as real
  {
    QuotientMoves(Shares(m, all, |m|), step, |m|);
  }

  lemma CompletenessIsMean(m: seq<Row>, all: nat)
    requires m != [] && all > 0 && all == |AllCriteria(m)|
    ensures Completeness(m) == Shares(m, all, |m|) / |m| as real
  {
  }

  /** Every missing score costs the same: filling one in, for a criterion scored elsewhere, raises the measure
      by one cell of the table of items and scored criteria. */
  lemma EachScoreCountsAlike(m: seq<Row>, i: nat, c: string, s: real, all: nat)
    requires i < |m| && c !in m[i].at && Scored(m, c) && all == |AllCriteria(m)|
    ensures all > 0 && Completeness(WithScore(m, i, c, s)) == Completeness(m) + 1.0 / all as real / |m| as real
  {
    AllCriteriaAreScored(m, c);
    WithScoreSameCriteria(m, i, c, s);
    WithScoreShares(m, i, c, s, all, |m|);
    CompletenessIsMean(m, all);
    CompletenessIsMean(WithScore(m, i, c, s), all);
    MeanRises(m, WithScore(m, i, c, s), all, 1.0 / all as real);
  }
}
