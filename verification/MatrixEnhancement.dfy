/** Rescaling scores by summary statistics, in place, and the pipeline around it. The outer dict is
    copied, but its values are the caller's own score dicts. */
module MatrixEnhancement {
  import opened Wrappers
  import opened ScoreMatrix

  /** The descriptive statistics: none, or a dict that may lack either entry. */
  datatype Descriptive = NoStats | Stats(stdDev: Option<real>, mean: Option<real>)

  datatype Analysis = Analysis(success: bool, stats: Descriptive) {
    predicate Applies() {
      success && stats.Stats?
    }

    function StdDev(): real {
      if stats.Stats? && stats.stdDev.Some? then stats.stdDev.value else 1.0
    }

    function Mean(): real {
      if stats.Stats? && stats.mean.Some? then stats.mean.value else 0.5
    }
  }

  function Clamp(x: real): real {
    if x > 1.0 then 1.0 else if x < 0.0 then 0.0 else x
  }

  function EnhancedScore(a: Analysis, s: real): real {
    if a.Applies() && a.StdDev() > 0.0 then Clamp(0.5 + (s - a.Mean()) / a.StdDev() * 0.2) else s
  }

  function EnhancedScores(a: Analysis, at: map<string, real>): map<string, real> {
    map c | c in at :: EnhancedScore(a, at[c])
  }

  function EnhancedRows(a: Analysis, m: seq<Row>): seq<Row> {
    seq(|m|, i requires 0 <= i < |m| => m[i].(at := EnhancedScores(a, m[i].at)))
  }

  // ---- The method on the heap ----

  class ScoreDict {
    const criteria: seq<string>
    var at: map<string, real>

    constructor (criteria: seq<string>, at: map<string, real>)
      ensures this.criteria == criteria && this.at == at
    {
      this.criteria, this.at := criteria, at;
    }

    ghost predicate Ok()
      reads this
    {
      Row("", criteria, at).Ok()
    }

    method Rescore(a: Analysis, c: string)
      requires c in at && a.Applies()
      modifies this
      ensures at == old(at)[c := EnhancedScore(a, old(at)[c])]
    {
      var score, deviation, mean := at[c], a.StdDev(), a.Mean();
      if deviation > 0.0 {
        var z := (score - mean) / deviation;
        at := at[c := Clamp(0.5 + z * 0.2)];
      }
    }

    /** The inner loop: every score is overwritten once. */
    method Enhance(a: Analysis)
      requires Ok() && a.Applies()
      modifies this
      ensures at == EnhancedScores(a, old(at)) && Ok()
    {
      ghost var before := at;
      for j := 0 to |criteria|
        invariant at.Keys == before.Keys
        invariant forall c :: c in at ==> at[c] == if c in criteria[..j] then EnhancedScore(a, before[c]) else before[c]
      {
        var c := criteria[j];
        assert c in before && c !in criteria[..j];
        Rescore(a, c);
        assert criteria[..j + 1] == criteria[..j] + [c];
      }
      assert criteria[..|criteria|] == criteria;
    }
  }

  datatype Entry = Entry(item: string, scores: ScoreDict)

  function Dicts(matrix: seq<Entry>): set<ScoreDict> {
    set e | e in matrix :: e.scores
  }

  function Snapshot(matrix: seq<Entry>): seq<Row>
    reads Dicts(matrix)
  {
    seq(|matrix|, i requires 0 <= i < |matrix| reads Dicts(matrix) =>
      Row(matrix[i].item, matrix[i].scores.criteria, matrix[i].scores.at))
  }

  /** How many items share the score dict `d`. */
  function Occurrences(matrix: seq<Entry>, d: ScoreDict): nat {
    if matrix == [] then 0
    else Occurrences(matrix[..|matrix| - 1], d) + (if matrix[|matrix| - 1].scores == d then 1 else 0)
  }

  function Repeated(a: Analysis, at: map<string, real>, n: nat): (r: map<string, real>)
    ensures r.Keys == at.Keys
  {
    if n == 0 then at else EnhancedScores(a, Repeated(a, at, n - 1))
  }

  lemma {:induction false} RepeatingNothing(a: Analysis, at: map<string, real>, n: nat)
    requires !a.Applies()
    ensures Repeated(a, at, n) == at
  {
    if n == 0 {
    } else {
      RepeatingNothing(a, at, n - 1);
    }
  }

  lemma OccurrencesNext(matrix: seq<Entry>, i: nat, d: ScoreDict)
    requires i < |matrix|
    ensures Occurrences(matrix[..i + 1], d) == Occurrences(matrix[..i], d) + (if matrix[i].scores == d then 1 else 0)
  {
    assert matrix[..i + 1][..i] == matrix[..i];
  }

  /** One more item: its dict has to be rescaled once more, every other as often as before. */
  lemma RescaledOnceMore(matrix: seq<Entry>, i: nat, d: ScoreDict, a: Analysis, before: map<string, real>)
    requires i < |matrix|
    ensures var at := Repeated(a, before, Occurrences(matrix[..i], d));
            Repeated(a, before, Occurrences(matrix[..i + 1], d)) ==
            if matrix[i].scores == d then EnhancedScores(a, at) else at
  {
    OccurrencesNext(matrix, i, d);
  }

  /** `d` has been rescaled once for each of the first `i` items that share it. */
  ghost predicate RescaledFor(d: ScoreDict, a: Analysis, before: map<string, real>, matrix: seq<Entry>, i: nat)
    requires i <= |matrix|
    reads d
  {
    d.Ok() && d.at == Repeated(a, before, Occurrences(matrix[..i], d))
  }

  /** The result is the caller's matrix again: the new scores are visible through it, and a dict that
      several items share is rescaled once for each of them. */
  method Enhance(matrix: seq<Entry>, a: Analysis) returns (enhanced: seq<Entry>)
    requires forall d :: d in Dicts(matrix) ==> d.Ok()
    modifies Dicts(matrix)
    ensures enhanced == matrix
    ensures forall d :: d in Dicts(matrix) ==> RescaledFor(d, a, old(d.at), matrix, |matrix|)
  {
    enhanced := matrix;
    if !a.Applies() {
      forall d | d in Dicts(matrix) ensures RescaledFor(d, a, d.at, matrix, |matrix|) {
        RepeatingNothing(a, d.at, Occurrences(matrix[..|matrix|], d));
      }
      return;
    }
    ghost var dicts := Dicts(matrix);
    ghost var before := map d | d in dicts :: d.at;
    for i := 0 to |matrix|
      invariant forall d :: d in dicts ==> RescaledFor(d, a, before[d], matrix, i)
    {
      var d := matrix[i].scores;
      assert matrix[i] in matrix && d in dicts;
      assert RescaledFor(d, a, before[d], matrix, i);
      label call:
      d.Enhance(a);
      forall e | e in dicts ensures RescaledFor(e, a, before[e], matrix, i + 1) {
        assert old@call(RescaledFor(e, a, before[e], matrix, i));
        RescaledOnceMore(matrix, i, e, a, before[e]);
      }
    }
  }

  // ---- The scale ----

  /** What the analysis says about spread and centre, with the values assumed when it lacks an entry. */
  predicate Describes(a: Analysis, deviation: real, mean: real) {
    && a.stats.Stats?
    && (a.stats.stdDev == Some(deviation) || (a.stats.stdDev == None && deviation == 1.0))
    && (a.stats.mean == Some(mean) || (a.stats.mean == None && mean == 0.5))
  }

  lemma DeviationsScale(d: real, k: real)
    requires d > 0.0
    ensures k * d / d == k
  {
  }

  /** The mean becomes one half, and two and a half deviations above and below it the ends of the scale. */
  lemma EnhancedEnds(a: Analysis, deviation: real, mean: real)
    requires a.success && Describes(a, deviation, mean) && deviation > 0.0
    ensures EnhancedScore(a, mean) == 0.5
    ensures EnhancedScore(a, mean + 2.5 * deviation) == 1.0 && EnhancedScore(a, mean - 2.5 * deviation) == 0.0
  {
    DeviationsScale(deviation, 2.5);
    DeviationsScale(deviation, -2.5);
    assert mean - 2.5 * deviation - mean == -2.5 * deviation;
  }

  predicate Inside(a: Analysis, s: real) {
    0.0 < EnhancedScore(a, s) < 1.0
  }

  /** Between the ends the scale is even: the middle of two scores becomes the middle of theirs. */
  lemma EnhancedMiddle(a: Analysis, deviation: real, mean: real, x: real, y: real)
    requires a.success && Describes(a, deviation, mean) && deviation > 0.0 && Inside(a, x) && Inside(a, y)
    ensures EnhancedScore(a, (x + y) / 2.0) == (EnhancedScore(a, x) + EnhancedScore(a, y)) / 2.0
  {
    MiddleQuotient(x - mean, y - mean, deviation);
    assert (x + y) / 2.0 - mean == ((x - mean) + (y - mean)) / 2.0;
  }

  lemma MiddleQuotient(x: real, y: real, d: real)
    requires d > 0.0
    ensures ((x + y) / 2.0) / d == (x / d + y / d) / 2.0
  {
  }

  /** Without an analysis that succeeded and has statistics of some spread, scores stay. */
  lemma NothingToEnhance(a: Analysis, s: real)
    requires !a.success || a.stats.NoStats? || (a.stats.stdDev.Some? && a.stats.stdDev.value <= 0.0)
    ensures EnhancedScore(a, s) == s
  {
  }
}
