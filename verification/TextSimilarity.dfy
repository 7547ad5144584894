/** Token-overlap similarity of two texts; how a text is split into lower-case words is a parameter. */
module TextSimilarity {
  function Similarity<T(==)>(a: set<T>, b: set<T>): real {
    if a == {} && b == {} then 1.0
    else if a == {} || b == {} then 0.0
    else
      Union(a, b);
      |a * b| as real / |a + b| as real
  }

  function SimilarityOfTexts(words: string -> set<string>, first: string, second: string): real {
    Similarity(words(first), words(second))
  }

  function Distance<T(==)>(a: set<T>, b: set<T>): real {
    1.0 - Similarity(a, b)
  }

  function Difference<T(==)>(a: set<T>, b: set<T>): set<T> {
    (a - b) + (b - a)
  }

  lemma Union<T>(a: set<T>, b: set<T>)
    ensures a != {} || b != {} ==> |a + b| > 0
    ensures |a + b| == |Difference(a, b)| + |a * b|
  {
    assert a + b == Difference(a, b) + a * b;
    if x :| x in a + b { assert |a + b| > 0; }
  }

  lemma Smaller<T>(a: set<T>, b: set<T>)
    requires a <= b
    ensures |a| <= |b|
  {
    assert b == a + (b - a);
  }

  lemma SumOfQuotients(p: real, r: real, w: real)
    requires w > 0.0
    ensures p / w + r / w == (p + r) / w
  {
    var x, y := p / w + r / w, (p + r) / w;
    assert p / w * w == p && r / w * w == r && y * w == p + r;
    assert (x - y) * w == 0.0;
  }

  lemma Complements(part: nat, rest: nat)
    requires part + rest > 0
    ensures 1.0 - part as real / (part + rest) as real == rest as real / (part + rest) as real
  {
    SumOfQuotients(part as real, rest as real, (part + rest) as real);
  }

  /** The distance is the share of the words that only one text has, the empty cases included. */
  lemma DistanceIsTheUnsharedPart<T>(a: set<T>, b: set<T>)
    ensures a + b == {} ==> Distance(a, b) == 0.0
    ensures a + b != {} ==> |a + b| > 0 && Distance(a, b) == |Difference(a, b)| as real / |a + b| as real
  {
    if a + b != {} {
      Union(a, b);
      if a == {} || b == {} {
        assert Difference(a, b) == a + b;
      } else {
        Complements(|a * b|, |Difference(a, b)|);
      }
    }
  }

  lemma Shares(part: nat, whole: nat)
    requires part <= whole && whole > 0
    ensures 0.0 <= part as real / whole as real <= 1.0
    ensures part as real / whole as real == 0.0 <==> part == 0
  {
    var q := part as real / whole as real;
    assert q * whole as real == part as real;
  }

  /** Symmetric, between 0 and 1, and zero exactly for equal sets. */
  lemma DistanceSeparates<T>(a: set<T>, b: set<T>)
    ensures Distance(a, b) == Distance(b, a)
    ensures 0.0 <= Distance(a, b) <= 1.0
    ensures Distance(a, b) == 0.0 <==> a == b
  {
    DistanceIsTheUnsharedPart(a, b);
    assert a + b == b + a && a * b == b * a;
    if a + b != {} {
      Union(a, b);
      Shares(|Difference(a, b)|, |a + b|);
      if Difference(a, b) == {} {
        assert forall x :: x in a <==> x in b;
      } else {
        var x :| x in Difference(a, b);
      }
    }
  }

  lemma LargerWhole(part: nat, whole: nat, more: nat)
    requires whole > 0
    ensures part as real / (whole + more) as real <= part as real / whole as real
  {
    var p, w, v := part as real, whole as real, (whole + more) as real;
    var q := p / w;
    assert q * w == p && q >= 0.0;
    assert q * v >= p;
    assert p / v * v == p;
  }

  lemma BothLarger(part: nat, whole: nat, more: nat)
    requires part <= whole && whole > 0
    ensures part as real / whole as real <= (part + more) as real / (whole + more) as real
  {
    var p, w, k := part as real, whole as real, more as real;
    assert p / w * w == p;
    assert (p + k) / (w + k) * (w + k) == p + k;
    Shares(part, whole);
    var q := p / w;
    assert q * (w + k) == p + q * k;
    assert q * k <= k;
  }

  lemma PairInWhole<T>(a: set<T>, b: set<T>, u: set<T>)
    requires a + b <= u && u != {}
    ensures |u| > 0 && |Difference(a, b)| as real / |u| as real <= Distance(a, b)
  {
    var x :| x in u;
    DistanceIsTheUnsharedPart(a, b);
    if a + b != {} {
      assert u == (a + b) + (u - (a + b));
      LargerWhole(|Difference(a, b)|, |a + b|, |u - (a + b)|);
    } else {
      assert Difference(a, b) == {};
    }
  }

  lemma DifferencesCover<T>(a: set<T>, b: set<T>, c: set<T>)
    ensures |Difference(a, c)| + |b - (a + c)| <= |Difference(a, b)| + |Difference(b, c)|
  {
    var left, only, ab, bc := Difference(a, c), b - (a + c), Difference(a, b), Difference(b, c);
    assert left + only <= ab + bc;
    Smaller(left + only, ab + bc);
    assert |left + only| == |left| + |only|;
    assert ab + bc == ab + (bc - ab);
    Smaller(bc - ab, bc);
  }

  lemma SumOfShares(x: nat, y: nat, z: nat, n: nat)
    requires x <= y + z && n > 0
    ensures x as real / n as real <= y as real / n as real + z as real / n as real
  {
    SumOfQuotients(y as real, z as real, n as real);
    LargerPart(x, y + z, n);
  }

  lemma LargerPart(x: nat, y: nat, n: nat)
    requires x <= y && n > 0
    ensures x as real / n as real <= y as real / n as real
  {
    var p, q, r := x as real, y as real, n as real;
    assert p / r * r == p && q / r * r == q;
  }

  lemma DifferencesCoverShares<T>(a: set<T>, b: set<T>, c: set<T>, u: set<T>)
    requires |u| > 0
    ensures (|Difference(a, c)| + |b - (a + c)|) as real / |u| as real <=
            |Difference(a, b)| as real / |u| as real + |Difference(b, c)| as real / |u| as real
  {
    DifferencesCover(a, b, c);
    SumOfShares(|Difference(a, c)| + |b - (a + c)|, |Difference(a, b)|, |Difference(b, c)|, |u|);
  }

  lemma WidenedDistance<T>(a: set<T>, b: set<T>, c: set<T>)
    requires a + c != {}
    ensures |a + b + c| > 0
    ensures Distance(a, c) <= (|Difference(a, c)| + |b - (a + c)|) as real / |a + b + c| as real
  {
    DistanceIsTheUnsharedPart(a, c);
    Union(a, c);
    assert a + b + c == (a + c) + (b - (a + c));
    BothLarger(|Difference(a, c)|, |a + c|, |b - (a + c)|);
  }

  /** The triangle inequality, for all sets including the empty one. */
  lemma TriangleInequality<T>(a: set<T>, b: set<T>, c: set<T>)
    ensures Distance(a, c) <= Distance(a, b) + Distance(b, c)
  {
    if a + c == {} {
      DistanceIsTheUnsharedPart(a, c);
      DistanceSeparates(a, b);
      DistanceSeparates(b, c);
    } else {
      WidenedDistance(a, b, c);
      DifferencesCoverShares(a, b, c, a + b + c);
      PairInWhole(a, b, a + b + c);
      PairInWhole(b, c, a + b + c);
    }
  }

  /** On texts the distance is a pseudometric: texts at distance zero have the same words. */
  lemma TextDistance(words: string -> set<string>, x: string, y: string, z: string)
    ensures var d := (s: string, t: string) => 1.0 - SimilarityOfTexts(words, s, t);
            && 0.0 <= d(x, y) <= 1.0
            && d(x, y) == d(y, x)
            && (d(x, y) == 0.0 <==> words(x) == words(y))
            && d(x, z) <= d(x, y) + d(y, z)
  {
    DistanceSeparates(words(x), words(y));
    TriangleInequality(words(x), words(y), words(z));
  }
}
