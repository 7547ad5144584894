/** Enhance, normalise, rank: what the pipeline keeps of the order of the raw scores. */
module ComparisonPipeline {
  import opened Wrappers
  import opened ScoreMatrix
  import opened NormalizationLaws
  import opened Rankings
  import opened MatrixEnhancement

  /** The items are the keys of a dict. */
  ghost predicate DistinctItems(matrix: seq<Entry>) {
    forall i, j :: 0 <= i < j < |matrix| ==> matrix[i].item != matrix[j].item
  }

  /** No two items share a score dict, as in a matrix decoded from JSON. */
  ghost predicate DistinctDicts(matrix: seq<Entry>) {
    forall i, j :: 0 <= i < j < |matrix| ==> matrix[i].scores != matrix[j].scores
  }

  lemma {:induction false} OnceEach(matrix: seq<Entry>, n: nat, d: ScoreDict)
    requires DistinctDicts(matrix) && n <= |matrix|
    ensures Occurrences(matrix[..n], d) <= 1
    ensures Occurrences(matrix[..n], d) == 1 <==> exists i :: 0 <= i < n && matrix[i].scores == d
  {
    if n == 0 {
    } else {
      OnceEach(matrix, n - 1, d);
      OccurrencesNext(matrix, n - 1, d);
    }
  }

  /** `m` after enhancement: each row as often as its dict occurs in `matrix`. */
  function EnhancedAsShared(a: Analysis, matrix: seq<Entry>, m: seq<Row>): seq<Row>
    requires |m| == |matrix|
  {
    seq(|m|, i requires 0 <= i < |m| => m[i].(at := Repeated(a, m[i].at, Occurrences(matrix, matrix[i].scores))))
  }

  /** Without sharing every row is enhanced once. */
  lemma UnsharedIsEnhancedOnce(a: Analysis, matrix: seq<Entry>, m: seq<Row>)
    requires |m| == |matrix| && DistinctDicts(matrix)
    ensures EnhancedAsShared(a, matrix, m) == EnhancedRows(a, m)
  {
    forall i | 0 <= i < |m|
      ensures Repeated(a, m[i].at, Occurrences(matrix, matrix[i].scores)) == EnhancedScores(a, m[i].at)
    {
      OnceEach(matrix, |matrix|, matrix[i].scores);
      assert matrix[..|matrix|] == matrix;
      assert Repeated(a, m[i].at, 0) == m[i].at;
    }
  }

  lemma SnapshotOfRescaled(a: Analysis, matrix: seq<Entry>, before: seq<Row>)
    requires |before| == |matrix|
    requires forall i :: 0 <= i < |matrix| ==>
               && before[i].item == matrix[i].item && before[i].criteria == matrix[i].scores.criteria
               && RescaledFor(matrix[i].scores, a, before[i].at, matrix, |matrix|)
    ensures Snapshot(matrix) == EnhancedAsShared(a, matrix, before)
  {
    assert matrix[..|matrix|] == matrix;
  }

  /** The whole pipeline. The caller's matrix is left enhanced, with a shared dict enhanced once for each
      item that holds it. */
  method Compare(matrix: seq<Entry>, a: Analysis, criteria: seq<string>)
    returns (normal: seq<Row>, rankings: map<string, seq<string>>)
    requires DistinctItems(matrix) && forall d :: d in Dicts(matrix) ==> d.Ok()
    modifies Dicts(matrix)
    ensures Snapshot(matrix) == EnhancedAsShared(a, matrix, old(Snapshot(matrix)))
    ensures DistinctDicts(matrix) ==> Snapshot(matrix) == EnhancedRows(a, old(Snapshot(matrix)))
    ensures normal == Normalized(Snapshot(matrix))
    ensures matrix != [] ==>
              && (forall c :: c in rankings <==> c in criteria || c == OVERALL)
              && (forall c :: c in criteria && c != OVERALL ==>
                    rankings[c] == ItemsRankedBy(normal, ScoresFor(normal, c)))
              && rankings[OVERALL] == ItemsRankedBy(normal, Means(normal))
  {
    ghost var before := Snapshot(matrix);
    var enhanced := Enhance(matrix, a);
    forall i | 0 <= i < |matrix|
      ensures RescaledFor(matrix[i].scores, a, before[i].at, matrix, |matrix|)
    {
      assert matrix[i] in matrix && matrix[i].scores in Dicts(matrix);
    }
    SnapshotOfRescaled(a, matrix, before);
    if DistinctDicts(matrix) { UnsharedIsEnhancedOnce(a, matrix, before); }
    SnapshotIsOk(matrix);
    normal := Normalize(Snapshot(enhanced));
    NormalizedIsOk(Snapshot(matrix));
    rankings := CalculateRankings(normal, criteria);
  }

  lemma SnapshotIsOk(matrix: seq<Entry>)
    requires DistinctItems(matrix) && forall d :: d in Dicts(matrix) ==> d.Ok()
    ensures MatrixOk(Snapshot(matrix))
  {
    forall i | 0 <= i < |matrix| ensures Snapshot(matrix)[i].Ok() {
      assert matrix[i] in matrix && matrix[i].scores in Dicts(matrix);
    }
  }

  lemma NormalizedIsOk(m: seq<Row>)
    requires MatrixOk(m)
    ensures MatrixOk(Normalized(m))
  {
    forall i | 0 <= i < |m| ensures Normalized(m)[i].Ok() { assert m[i].Ok(); }
  }

  // ---- Order ----

  /** Two scores that the rescaling clamps to the same end: both at least, or both at most, two and a
      half deviations from the mean. */
  predicate SameTail(a: Analysis, x: real, y: real) {
    && a.Applies()
    && a.StdDev() > 0.0
    && ((x >= a.Mean() + 2.5 * a.StdDev() && y >= a.Mean() + 2.5 * a.StdDev())
        || (x <= a.Mean() - 2.5 * a.StdDev() && y <= a.Mean() - 2.5 * a.StdDev()))
  }

  lemma Deviations(x: real, mean: real, deviation: real)
    requires deviation > 0.0
    ensures 0.5 + (x - mean) / deviation * 0.2 >= 1.0 <==> x >= mean + 2.5 * deviation
    ensures 0.5 + (x - mean) / deviation * 0.2 <= 0.0 <==> x <= mean - 2.5 * deviation
  {
    var z := (x - mean) / deviation;
    Quotients(2.5 * deviation, x - mean, deviation);
    Quotients(x - mean, -2.5 * deviation, deviation);
    assert 2.5 * deviation / deviation == 2.5;
    assert -2.5 * deviation / deviation == -2.5;
  }

  /** Rescaling keeps the order of two scores, and makes a smaller one equal to a larger exactly in the
      clamped tails. */
  lemma EnhancedOrder(a: Analysis, x: real, y: real)
    ensures EnhancedScore(a, x) <= EnhancedScore(a, y) <==> x <= y || SameTail(a, x, y)
  {
    if a.Applies() && a.StdDev() > 0.0 {
      Deviations(x, a.Mean(), a.StdDev());
      Deviations(y, a.Mean(), a.StdDev());
      Quotients(x - a.Mean(), y - a.Mean(), a.StdDev());
    }
  }

  /** The score of row `i` for `c` at the end of the pipeline. */
  function FinalScore(a: Analysis, m: seq<Row>, i: nat, c: string): real
    requires i < |m| && c in m[i].at
  {
    Normalized(EnhancedRows(a, m))[i].at[c]
  }

  /** The whole pipeline orders two items as their raw scores do, except that scores in the same tail
      come out equal. */
  lemma PipelineKeepsOrder(a: Analysis, m: seq<Row>, i: nat, j: nat, c: string)
    requires i < |m| && j < |m| && c in m[i].at && c in m[j].at
    ensures FinalScore(a, m, i, c) <= FinalScore(a, m, j, c) <==>
            m[i].at[c] <= m[j].at[c] || SameTail(a, m[i].at[c], m[j].at[c])
  {
    var e := EnhancedRows(a, m);
    EnhancedOrder(a, m[i].at[c], m[j].at[c]);
    NormalizedAt(e, i, c);
    NormalizedAt(e, j, c);
    RescaledKeepsOrder(Bounds(e, c).value, e[i].at[c], e[j].at[c]);
  }

  lemma EnhancedKeepsCriteria(a: Analysis, m: seq<Row>, i: nat, c: string)
    requires i < |m|
    ensures c in EnhancedRows(a, m)[i].at <==> c in m[i].at
    ensures c in Normalized(EnhancedRows(a, m))[i].at <==> c in m[i].at
  {
  }

  /** The scores that the final ranking for `c` sorts. */
  function FinalScores(a: Analysis, m: seq<Row>, c: string): (s: seq<real>)
    ensures |s| == |m|
  {
    ScoresFor(Normalized(EnhancedRows(a, m)), c)
  }

  /** Scores in the same tail already stand in descending order. */
  ghost predicate TailsDescend(a: Analysis, m: seq<Row>, c: string) {
    forall i: nat, j: nat :: i < j < |m| && c in m[i].at && c in m[j].at && SameTail(a, m[i].at[c], m[j].at[c]) ==>
      m[i].at[c] >= m[j].at[c]
  }

  /** Whether a raw score `s` in row `i`, of a column with raw range `r`, ends above a missing score in
      row `j`. If the ends of the range stay apart, the scores that end equal to the smallest tie with the
      missing one. If all scores end in one tail, what counts is whether it is the lower one. Otherwise
      scores are not rescaled. */
  predicate EndsAboveMissing(a: Analysis, r: Range, s: real, i: nat, j: nat) {
    if r.min < r.max && !SameTail(a, r.min, r.max) then
      var least := s == r.min || SameTail(a, s, r.min);
      (s > r.min && !least) || (least && i < j)
    else if a.Applies() && a.StdDev() > 0.0 then
      s > a.Mean() - 2.5 * a.StdDev() || i < j
    else
      s > 0.0 || (s == 0.0 && i < j)
  }

  /** Each scored row stands to zero as it ends up standing to the rows without a score. */
  ghost predicate MissingStayPutFinally(a: Analysis, m: seq<Row>, c: string) {
    forall i: nat, j: nat :: ScoredAgainstMissing(m, c, i, j) && Bounds(m, c).Some? ==>
      (StandsAbove(m, c, i, j, 0.0) <==> EndsAboveMissing(a, Bounds(m, c).value, m[i].at[c], i, j))
  }

  function EnhancedRange(a: Analysis, r: Range): Range {
    Range(EnhancedScore(a, r.min), EnhancedScore(a, r.max))
  }

  /** The range of an enhanced column is the enhanced range. */
  lemma EnhancedBounds(a: Analysis, m: seq<Row>, c: string)
    requires Bounds(m, c).Some?
    ensures Bounds(EnhancedRows(a, m), c) == Some(EnhancedRange(a, Bounds(m, c).value))
  {
    var e, r := EnhancedRows(a, m), Bounds(m, c).value;
    BoundsAreTight(m, c);
    BoundsAreTight(e, c);
    forall i | 0 <= i < |e| && c in e[i].at
      ensures EnhancedScore(a, r.min) <= e[i].at[c] <= EnhancedScore(a, r.max)
    {
      EnhancedOrder(a, r.min, m[i].at[c]);
      EnhancedOrder(a, m[i].at[c], r.max);
    }
    var lo :| 0 <= lo < |m| && c in m[lo].at && m[lo].at[c] == r.min;
    var hi :| 0 <= hi < |m| && c in m[hi].at && m[hi].at[c] == r.max;
    assert e[lo].at[c] == EnhancedScore(a, r.min) && e[hi].at[c] == EnhancedScore(a, r.max);
    assert Tight(e, c, EnhancedRange(a, r));
    TightIsUnique(e, c, Bounds(e, c).value, EnhancedRange(a, r));
  }

  /** The enhanced score against the level that normalisation maps to zero. */
  predicate EnhancedAbove(a: Analysis, r: Range, s: real, i: nat, j: nat) {
    var e := EnhancedRange(a, r);
    var level := if e.min < e.max then e.min else 0.0;
    EnhancedScore(a, s) > level || (EnhancedScore(a, s) == level && i < j)
  }

  lemma EnhancedAboveIsRaw(a: Analysis, r: Range, s: real, i: nat, j: nat)
    requires r.min <= s <= r.max
    ensures EnhancedAbove(a, r, s, i, j) <==> EndsAboveMissing(a, r, s, i, j)
  {
    EnhancedOrder(a, r.max, r.min);
    EnhancedOrder(a, s, r.min);
    EnhancedOrder(a, r.min, s);
    EnhancedOrder(a, s, r.max);
    if a.Applies() && a.StdDev() > 0.0 { Deviations(s, a.Mean(), a.StdDev()); }
  }

  /** Two scored rows: the final ranking reorders them exactly when they share a tail in which the
      earlier one scores less. */
  lemma ScoredRowsFinally(a: Analysis, m: seq<Row>, i: nat, j: nat, c: string)
    requires i < j < |m| && c in m[i].at && c in m[j].at
    ensures (Above(FinalScores(a, m, c), i, j) <==> Above(ScoresFor(m, c), i, j)) <==>
            (SameTail(a, m[i].at[c], m[j].at[c]) ==> m[i].at[c] >= m[j].at[c])
    ensures Above(FinalScores(a, m, c), j, i) <==> !Above(FinalScores(a, m, c), i, j)
    ensures Above(ScoresFor(m, c), j, i) <==> !Above(ScoresFor(m, c), i, j)
  {
    EnhancedKeepsCriteria(a, m, i, c);
    EnhancedKeepsCriteria(a, m, j, c);
    PipelineKeepsOrder(a, m, i, j, c);
    PipelineKeepsOrder(a, m, j, i, c);
  }

  lemma UnscoredRowsFinally(a: Analysis, m: seq<Row>, i: nat, j: nat, c: string)
    requires i < |m| && j < |m| && c !in m[i].at && c !in m[j].at
    ensures Above(FinalScores(a, m, c), i, j) <==> Above(ScoresFor(m, c), i, j)
  {
    EnhancedKeepsCriteria(a, m, i, c);
    EnhancedKeepsCriteria(a, m, j, c);
  }

  lemma EnhancedAgainstMissing(a: Analysis, m: seq<Row>, c: string, i: nat, j: nat)
    requires ScoredAgainstMissing(m, c, i, j)
    ensures Bounds(m, c).Some?
    ensures Above(FinalScores(a, m, c), i, j) <==> EnhancedAbove(a, Bounds(m, c).value, m[i].at[c], i, j)
    ensures Above(FinalScores(a, m, c), j, i) <==> !Above(FinalScores(a, m, c), i, j)
  {
    BoundsAreTight(m, c);
    EnhancedBounds(a, m, c);
    ScoredAgainstMissingOrder(EnhancedRows(a, m), c, i, j);
  }

  lemma ScoredAgainstMissingFinally(a: Analysis, m: seq<Row>, c: string, i: nat, j: nat)
    requires ScoredAgainstMissing(m, c, i, j)
    ensures Above(ScoresFor(m, c), i, j) <==> StandsAbove(m, c, i, j, 0.0)
    ensures Bounds(m, c).Some?
    ensures Above(FinalScores(a, m, c), i, j) <==> EndsAboveMissing(a, Bounds(m, c).value, m[i].at[c], i, j)
    ensures Above(ScoresFor(m, c), j, i) <==> !Above(ScoresFor(m, c), i, j)
    ensures Above(FinalScores(a, m, c), j, i) <==> !Above(FinalScores(a, m, c), i, j)
  {
    EnhancedKeepsCriteria(a, m, i, c);
    EnhancedKeepsCriteria(a, m, j, c);
    BoundsAreTight(m, c);
    ScoredAgainstMissingOrder(m, c, i, j);
    EnhancedAgainstMissing(a, m, c, i, j);
    EnhancedAboveIsRaw(a, Bounds(m, c).value, m[i].at[c], i, j);
  }

  /** The final ranking for a criterion is the ranking by raw scores if and only if crowded tails already
      descend and the rows without a score keep their place. */
  lemma PipelineKeepsRankingIff(a: Analysis, m: seq<Row>, c: string)
    ensures Ranking(FinalScores(a, m, c)) == Ranking(ScoresFor(m, c)) <==>
            TailsDescend(a, m, c) && MissingStayPutFinally(a, m, c)
  {
    var final, raw := FinalScores(a, m, c), ScoresFor(m, c);
    RankingsAgreeIff(final, raw);
    if TailsDescend(a, m, c) && MissingStayPutFinally(a, m, c) { KeptPairs(a, m, c); }
    if SameAbove(final, raw) {
      forall i: nat, j: nat | i < j < |m| && c in m[i].at && c in m[j].at && SameTail(a, m[i].at[c], m[j].at[c])
        ensures m[i].at[c] >= m[j].at[c]
      {
        assert Above(final, i, j) <==> Above(raw, i, j);
        ScoredRowsFinally(a, m, i, j, c);
      }
      forall i: nat, j: nat | ScoredAgainstMissing(m, c, i, j)
        ensures Bounds(m, c).Some? ==>
                  (StandsAbove(m, c, i, j, 0.0) <==> EndsAboveMissing(a, Bounds(m, c).value, m[i].at[c], i, j))
      {
        assert Above(final, i, j) <==> Above(raw, i, j);
        ScoredAgainstMissingFinally(a, m, c, i, j);
      }
    }
  }

  lemma KeptPairs(a: Analysis, m: seq<Row>, c: string)
    requires TailsDescend(a, m, c) && MissingStayPutFinally(a, m, c)
    ensures SameAbove(FinalScores(a, m, c), ScoresFor(m, c))
  {
    forall i: nat, j: nat | i < |m| && j < |m|
      ensures Above(FinalScores(a, m, c), i, j) <==> Above(ScoresFor(m, c), i, j)
    {
      if c in m[i].at && c in m[j].at {
        if i < j { ScoredRowsFinally(a, m, i, j, c); }
        if j < i { ScoredRowsFinally(a, m, j, i, c); }
      } else if c in m[i].at {
        ScoredAgainstMissingFinally(a, m, c, i, j);
      } else if c in m[j].at {
        ScoredAgainstMissingFinally(a, m, c, j, i);
      } else {
        UnscoredRowsFinally(a, m, i, j, c);
      }
    }
  }

  /** On a complete column only the tails decide. */
  lemma PipelineKeepsCompleteRankingIff(a: Analysis, m: seq<Row>, c: string)
    requires CompleteIn(m, c)
    ensures Ranking(FinalScores(a, m, c)) == Ranking(ScoresFor(m, c)) <==> TailsDescend(a, m, c)
  {
    PipelineKeepsRankingIff(a, m, c);
  }

  /** Two items far above the mean, the better one second. */
  function CrowdedTail(c: string): seq<Row> {
    [Row("a", [c], map[c := 4.0]), Row("b", [c], map[c := 5.0])]
  }

  /** With the default deviation 1 and mean 0.5 both are clamped to 1, and the tie puts the first on top. */
  lemma CrowdedTailCanReorder(c: string)
    ensures var m, a := CrowdedTail(c), Analysis(true, Stats(None, None));
            Ranking(FinalScores(a, m, c)) != Ranking(ScoresFor(m, c))
  {
    var m, a := CrowdedTail(c), Analysis(true, Stats(None, None));
    assert m[0].at[c] == 4.0 && m[1].at[c] == 5.0;
    assert SameTail(a, m[0].at[c], m[1].at[c]);
    PipelineKeepsCompleteRankingIff(a, m, c);
  }
}
