/** What normalisation does to a column of scores. */
module NormalizationLaws {
  import opened Wrappers
  import opened ScoreMatrix

  lemma Quotients(a: real, b: real, d: real)
    requires d > 0.0
    ensures a <= b <==> a / d <= b / d
  {
    assert a / d * d == a && b / d * d == b;
  }

  lemma UnitQuotients(d: real, x: real)
    requires d > 0.0
    ensures d / d == 1.0 && 0.0 / d == 0.0 && (x - 0.0) / 1.0 == x
  {
  }

  /** Rescaling by one range keeps the order of scores, ties included. */
  lemma RescaledKeepsOrder(r: Range, a: real, b: real)
    ensures a <= b <==> Rescaled(r, a) <= Rescaled(r, b)
  {
    if r.max - r.min > 0.0 { Quotients(a - r.min, b - r.min, r.max - r.min); }
  }

  lemma NormalizedAt(m: seq<Row>, i: nat, c: string)
    requires i < |m|
    ensures c in Normalized(m)[i].at <==> c in m[i].at
    ensures c in m[i].at ==>
              && Bounds(m, c).Some?
              && Normalized(m)[i].at[c] == Rescaled(Bounds(m, c).value, m[i].at[c])
  {
    BoundsAreTight(m, c);
  }

  /** The range of a normalised column is the rescaled range. */
  lemma NormalBounds(m: seq<Row>, c: string)
    ensures Bounds(Normalized(m), c) ==
            match Bounds(m, c) case None => None case Some(r) => Some(Range(Rescaled(r, r.min), Rescaled(r, r.max)))
  {
    var n := Normalized(m);
    BoundsAreTight(m, c);
    BoundsAreTight(n, c);
    if Bounds(m, c).Some? {
      var r := Bounds(m, c).value;
      forall i | 0 <= i < |n| && c in n[i].at
        ensures Rescaled(r, r.min) <= n[i].at[c] <= Rescaled(r, r.max)
      {
        NormalizedAt(m, i, c);
        RescaledKeepsOrder(r, r.min, m[i].at[c]);
        RescaledKeepsOrder(r, m[i].at[c], r.max);
      }
      var lo :| 0 <= lo < |m| && c in m[lo].at && m[lo].at[c] == r.min;
      var hi :| 0 <= hi < |m| && c in m[hi].at && m[hi].at[c] == r.max;
      NormalizedAt(m, lo, c);
      NormalizedAt(m, hi, c);
      assert Tight(n, c, Range(Rescaled(r, r.min), Rescaled(r, r.max)));
      TightIsUnique(n, c, Bounds(n, c).value, Range(Rescaled(r, r.min), Rescaled(r, r.max)));
    }
  }

  lemma RescaledEnds(r: Range)
    requires r.min < r.max
    ensures Rescaled(r, r.min) == 0.0 && Rescaled(r, r.max) == 1.0
  {
    UnitQuotients(r.max - r.min, 0.0);
  }

  lemma VaryingBounds(m: seq<Row>, c: string, i: nat, j: nat)
    requires i < |m| && j < |m| && c in m[i].at && c in m[j].at && m[i].at[c] != m[j].at[c]
    ensures Bounds(m, c).Some? && Bounds(m, c).value.min < Bounds(m, c).value.max
  {
    BoundsAreTight(m, c);
    var r := Bounds(m, c).value;
    assert r.min <= m[i].at[c] <= r.max && r.min <= m[j].at[c] <= r.max;
  }

  /** A column with two distinct scores fills [0, 1], both ends attained. */
  lemma VaryingColumnsFillTheUnitInterval(m: seq<Row>, c: string, i: nat, j: nat)
    requires i < |m| && j < |m| && c in m[i].at && c in m[j].at && m[i].at[c] != m[j].at[c]
    ensures Tight(Normalized(m), c, Range(0.0, 1.0))
  {
    VaryingBounds(m, c, i, j);
    RescaledEnds(Bounds(m, c).value);
    NormalBounds(m, c);
    BoundsAreTight(Normalized(m), c);
  }

  /** A column whose scores all agree keeps them. */
  lemma ConstantColumnsAreKept(m: seq<Row>, c: string, v: real, i: nat)
    requires forall k :: 0 <= k < |m| && c in m[k].at ==> m[k].at[c] == v
    requires i < |m| && c in m[i].at
    ensures c in Normalized(m)[i].at && Normalized(m)[i].at[c] == v
  {
    BoundsAreTight(m, c);
    NormalizedAt(m, i, c);
  }

  /** Every normalised score for `c` lies in [0, 1]. */
  ghost predicate InUnitInterval(m: seq<Row>, c: string) {
    forall i :: 0 <= i < |m| && c in Normalized(m)[i].at ==> 0.0 <= Normalized(m)[i].at[c] <= 1.0
  }

  lemma TightInUnitInterval(m: seq<Row>, c: string, r: Range)
    requires Tight(Normalized(m), c, r)
    ensures InUnitInterval(m, c) <==> 0.0 <= r.min && r.max <= 1.0
  {
    var n := Normalized(m);
    var lo :| 0 <= lo < |n| && c in n[lo].at && n[lo].at[c] == r.min;
    var hi :| 0 <= hi < |n| && c in n[hi].at && n[hi].at[c] == r.max;
  }

  /** The documented range holds for a criterion if and only if its scores differ or lie in it already. */
  lemma UnitIntervalIff(m: seq<Row>, c: string)
    ensures InUnitInterval(m, c) <==>
            match Bounds(m, c) case None => true case Some(r) => r.min < r.max || 0.0 <= r.min <= 1.0
  {
    BoundsAreTight(m, c);
    NormalBounds(m, c);
    BoundsAreTight(Normalized(m), c);
    if Bounds(m, c).Some? {
      var r := Bounds(m, c).value;
      if r.min < r.max { RescaledEnds(r); }
      TightInUnitInterval(m, c, Bounds(Normalized(m), c).value);
    }
  }

  /** A single score of 5 stays 5. */
  lemma ConstantColumnLeavesUnitInterval(c: string)
    ensures var m := [Row("a", [c], map[c := 5.0])];
            c in Normalized(m)[0].at && Normalized(m)[0].at[c] == 5.0 && !InUnitInterval(m, c)
  {
    var m := [Row("a", [c], map[c := 5.0])];
    ConstantColumnsAreKept(m, c, 5.0, 0);
  }

  lemma RescalingTwice(r: Range, s: real)
    requires r.min <= s <= r.max
    ensures Rescaled(Range(Rescaled(r, r.min), Rescaled(r, r.max)), Rescaled(r, s)) == Rescaled(r, s)
  {
    var d := r.max - r.min;
    if d > 0.0 { UnitQuotients(d, (s - r.min) / d); }
  }

  lemma NormalizedTwiceAt(m: seq<Row>, i: nat)
    requires i < |m|
    ensures Normalized(Normalized(m))[i] == Normalized(m)[i]
  {
    var n := Normalized(m);
    forall c | c in n[i].at
      ensures Normalized(n)[i].at[c] == n[i].at[c]
    {
      NormalizedAt(m, i, c);
      NormalizedAt(n, i, c);
      NormalBounds(m, c);
      BoundsAreTight(m, c);
      RescalingTwice(Bounds(m, c).value, m[i].at[c]);
    }
    assert Normalized(n)[i].at == n[i].at;
  }

  /** Normalisation is idempotent. */
  lemma NormalizationIsIdempotent(m: seq<Row>)
    ensures Normalized(Normalized(m)) == Normalized(m)
  {
    forall i | 0 <= i < |m| ensures Normalized(Normalized(m))[i] == Normalized(m)[i] {
      NormalizedTwiceAt(m, i);
    }
  }
}
