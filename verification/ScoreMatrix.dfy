/** Comparison matrices and their min-max normalisation, over reals. A matrix is the list of its rows
    in insertion order; a row keeps its criteria in insertion order. */
module ScoreMatrix {
  import opened Wrappers

  datatype Row = Row(item: string, criteria: seq<string>, at: map<string, real>) {
    ghost predicate Ok() {
      && (forall i, j :: 0 <= i < j < |criteria| ==> criteria[i] != criteria[j])
      && (forall c :: c in criteria <==> c in at)
    }
  }

  datatype Range = Range(min: real, max: real)

  ghost predicate MatrixOk(m: seq<Row>) {
    && (forall i :: 0 <= i < |m| ==> m[i].Ok())
    && (forall i, j :: 0 <= i < j < |m| ==> m[i].item != m[j].item)
  }

  /** Some row has a score for `c`. */
  ghost predicate Scored(m: seq<Row>, c: string) {
    exists i :: 0 <= i < |m| && c in m[i].at
  }

  function Widened(b: Option<Range>, s: real): Range {
    match b
    case None => Range(s, s)
    case Some(r) => Range(if s < r.min then s else r.min, if s > r.max then s else r.max)
  }

  /** The range of the scores for `c`. */
  function Bounds(m: seq<Row>, c: string): Option<Range> {
    if m == [] then None
    else
      var before, row := Bounds(m[..|m| - 1], c), m[|m| - 1];
      if c in row.at then Some(Widened(before, row.at[c])) else before
  }

  /** `r` encloses the scores for `c` and both its ends are among them. */
  ghost predicate Tight(m: seq<Row>, c: string, r: Range) {
    && (forall i :: 0 <= i < |m| && c in m[i].at ==> r.min <= m[i].at[c] <= r.max)
    && (exists i :: 0 <= i < |m| && c in m[i].at && m[i].at[c] == r.min)
    && (exists i :: 0 <= i < |m| && c in m[i].at && m[i].at[c] == r.max)
  }

  /** A row without a score changes nothing. */
  lemma UnscoredRowKeepsTight(m: seq<Row>, c: string)
    requires m != [] && c !in m[|m| - 1].at
    ensures Scored(m, c) <==> Scored(m[..|m| - 1], c)
    ensures forall r :: Tight(m[..|m| - 1], c, r) ==> Tight(m, c, r)
  {
    var front := m[..|m| - 1];
    if Scored(m, c) {
      var i :| 0 <= i < |m| && c in m[i].at;
      assert front[i] == m[i];
    }
    forall r | Tight(front, c, r) ensures Tight(m, c, r) {
      var lo :| 0 <= lo < |front| && c in front[lo].at && front[lo].at[c] == r.min;
      var hi :| 0 <= hi < |front| && c in front[hi].at && front[hi].at[c] == r.max;
      assert m[lo] == front[lo] && m[hi] == front[hi];
    }
  }

  /** A score widens the range to itself. */
  lemma ScoredRowWidens(m: seq<Row>, c: string, r: Range)
    requires m != [] && c in m[|m| - 1].at && Tight(m[..|m| - 1], c, r)
    ensures Tight(m, c, Widened(Some(r), m[|m| - 1].at[c]))
  {
    var front := m[..|m| - 1];
    var lo :| 0 <= lo < |front| && c in front[lo].at && front[lo].at[c] == r.min;
    var hi :| 0 <= hi < |front| && c in front[hi].at && front[hi].at[c] == r.max;
    assert m[lo] == front[lo] && m[hi] == front[hi];
    assert forall i :: 0 <= i < |front| ==> front[i] == m[i];
  }

  lemma FirstScoreIsTight(m: seq<Row>, c: string)
    requires m != [] && c in m[|m| - 1].at && !Scored(m[..|m| - 1], c)
    ensures Tight(m, c, Range(m[|m| - 1].at[c], m[|m| - 1].at[c]))
  {
    var front := m[..|m| - 1];
    assert forall i :: 0 <= i < |front| ==> front[i] == m[i];
  }

  lemma {:induction false} BoundsAreTight(m: seq<Row>, c: string)
    ensures Bounds(m, c).Some? <==> Scored(m, c)
    ensures Bounds(m, c).Some? ==> Tight(m, c, Bounds(m, c).value)
  {
    if m == [] {
    } else {
      var front := m[..|m| - 1];
      BoundsAreTight(front, c);
      if c !in m[|m| - 1].at {
        UnscoredRowKeepsTight(m, c);
      } else if Scored(front, c) {
        ScoredRowWidens(m, c, Bounds(front, c).value);
      } else {
        FirstScoreIsTight(m, c);
      }
    }
  }

  lemma TightIsUnique(m: seq<Row>, c: string, r: Range, s: Range)
    requires Tight(m, c, r) && Tight(m, c, s)
    ensures r == s
  {
  }

  /** The normalised score: constant columns keep their scores. */
  function Rescaled(r: Range, s: real): real {
    if r.max - r.min > 0.0 then (s - r.min) / (r.max - r.min) else s
  }

  function NormalRow(m: seq<Row>, row: Row): Row {
    Row(row.item, row.criteria, map c | c in row.at ::
      var r := Bounds(m, c); if r.Some? then Rescaled(r.value, row.at[c]) else row.at[c])
  }

  function Normalized(m: seq<Row>): seq<Row> {
    seq(|m|, i requires 0 <= i < |m| => NormalRow(m, m[i]))
  }

  /** `ranges` holds the ranges of the criteria scored in `m`. */
  ghost predicate HoldsRanges(ranges: map<string, Range>, m: seq<Row>) {
    forall c :: Held(ranges, c) == Bounds(m, c)
  }

  function Held(ranges: map<string, Range>, c: string): Option<Range> {
    if c in ranges then Some(ranges[c]) else None
  }

  /** The ranges after one more row. */
  function WidenedBy(ranges: map<string, Range>, row: Row, c: string): Option<Range> {
    if c in row.at then Some(Widened(Held(ranges, c), row.at[c])) else Held(ranges, c)
  }

  /** The inner loop of the first pass. */
  method WidenRanges(before: map<string, Range>, row: Row) returns (ranges: map<string, Range>)
    requires row.Ok()
    ensures forall c :: Held(ranges, c) == WidenedBy(before, row, c)
  {
    ranges := before;
    for j := 0 to |row.criteria|
      invariant forall c ::
        Held(ranges, c) == if c in row.criteria[..j] then WidenedBy(before, row, c) else Held(before, c)
    {
      var c := row.criteria[j];
      assert c !in row.criteria[..j];
      ranges := ranges[c := Widened(Held(ranges, c), row.at[c])];
      assert row.criteria[..j + 1] == row.criteria[..j] + [c];
    }
    assert row.criteria[..|row.criteria|] == row.criteria;
  }

  method CollectRanges(m: seq<Row>) returns (ranges: map<string, Range>)
    requires MatrixOk(m)
    ensures HoldsRanges(ranges, m)
  {
    ranges := map[];
    for i := 0 to |m|
      invariant HoldsRanges(ranges, m[..i])
    {
      ghost var before := ranges;
      ranges := WidenRanges(ranges, m[i]);
      forall c ensures Held(ranges, c) == Bounds(m[..i + 1], c) {
        assert m[..i + 1][..i] == m[..i];
        assert Held(before, c) == Bounds(m[..i], c);
        assert Held(ranges, c) == WidenedBy(before, m[i], c);
      }
    }
    assert m[..|m|] == m;
  }

  /** The inner loop of the second pass: every score has a range to be rescaled by. */
  method NormalizeRow(m: seq<Row>, ranges: map<string, Range>, row: Row) returns (normal: Row)
    requires row.Ok() && row in m && HoldsRanges(ranges, m)
    ensures normal == NormalRow(m, row)
  {
    var at := map[];
    for j := 0 to |row.criteria|
      invariant forall c :: c in at <==> c in row.criteria[..j]
      invariant forall c :: c in at ==> at[c] == NormalRow(m, row).at[c]
    {
      var c := row.criteria[j];
      BoundsAreTight(m, c);
      assert Held(ranges, c) == Bounds(m, c);
      at := at[c := Rescaled(ranges[c], row.at[c])];
      assert row.criteria[..j + 1] == row.criteria[..j] + [c];
    }
    assert row.criteria[..|row.criteria|] == row.criteria;
    assert at == NormalRow(m, row).at;
    normal := Row(row.item, row.criteria, at);
  }

  /** The two passes over the matrix: collect the ranges, then rescale. */
  method Normalize(m: seq<Row>) returns (normal: seq<Row>)
    requires MatrixOk(m)
    ensures normal == Normalized(m)
  {
    if m == [] { return []; }
    var ranges := CollectRanges(m);
    normal := [];
    for i := 0 to |m|
      invariant |normal| == i
      invariant forall k :: 0 <= k < i ==> normal[k] == NormalRow(m, m[k])
    {
      var row := NormalizeRow(m, ranges, m[i]);
      normal := normal + [row];
    }
  }
}
