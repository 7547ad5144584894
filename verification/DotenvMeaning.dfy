/** The plain recursive meaning of dotenv references, with no memo table and no cycle breaker.

    A raw value is the list of atoms the dotenv parser yields. A reference resolves in the
    process values first, then in the merged dotenv values; a reference that names nothing takes
    its default. */
module DotenvMeaning {
  import opened Wrappers

  datatype Atom = Literal(text: string) | Variable(name: string, fallback: Option<string>)

  type RawValue = seq<Atom>

  datatype Sources = Sources(process: map<string, string>, dotenv: map<string, RawValue>) {
    /** The keys whose value has to be computed from atoms. */
    function Computed(): set<string> {
      dotenv.Keys - process.Keys
    }
  }

  /** What a variable yields when its name is not defined anywhere. */
  function FallbackText(a: Atom): string
    requires a.Variable?
  {
    if a.fallback.Some? then a.fallback.value else ""
  }

  datatype Meaning = Diverges | Missing | Text(text: string)

  /** The naive recursive evaluator, run for at most `fuel` nested references. */
  function Denote(src: Sources, fuel: nat, key: string): Meaning
    decreases fuel, 0
  {
    if key in src.process then Text(src.process[key])
    else if key !in src.dotenv then Missing
    else if fuel == 0 then Diverges
    else match DenoteAtoms(src, fuel - 1, src.dotenv[key])
      case None => Diverges
      case Some(t) => Text(t)
  }

  function DenoteAtom(src: Sources, fuel: nat, a: Atom): Option<string>
    decreases fuel, 1
  {
    match a
    case Literal(t) => Some(t)
    case Variable(name, _) =>
      match Denote(src, fuel, name)
      case Diverges => None
      case Missing => Some(FallbackText(a))
      case Text(t) => Some(t)
  }

  function DenoteAtoms(src: Sources, fuel: nat, atoms: RawValue): Option<string>
    decreases fuel, |atoms| + 2
  {
    if atoms == [] then Some("")
    else
      var head := DenoteAtom(src, fuel, atoms[0]);
      var rest := DenoteAtoms(src, fuel, atoms[1..]);
      if head.Some? && rest.Some? then Some(head.value + rest.value) else None
  }

  /** The naive evaluator terminates on `key`, and `m` is what it answers. */
  ghost predicate Means(src: Sources, key: string, m: Meaning) {
    m != Diverges && exists fuel: nat :: Denote(src, fuel, key) == m
  }

  /** `from` is computed from atoms, and one of them names the computed key `to`. */
  ghost predicate Refers(src: Sources, from: string, to: string) {
    && from in src.Computed() && to in src.Computed()
    && exists a :: a in src.dotenv[from] && a.Variable? && a.name == to
  }

  /** A nonempty path along references. */
  ghost predicate Walk(src: Sources, p: seq<string>) {
    && p != [] && p[0] in src.Computed()
    && forall i :: 0 < i < |p| ==> Refers(src, p[i - 1], p[i])
  }

  ghost predicate Distinct(p: seq<string>) {
    forall i, j :: 0 <= i < j < |p| ==> p[i] != p[j]
  }

  /** No reference cycle can be reached from `key`: no path from it meets a key twice. */
  ghost predicate CycleFree(src: Sources, key: string) {
    forall p :: Walk(src, p) && p[0] == key ==> Distinct(p)
  }

  lemma WalkStaysComputed(src: Sources, p: seq<string>)
    requires Walk(src, p)
    ensures forall k :: k in p ==> k in src.Computed()
  {
    forall i | 0 <= i < |p| ensures p[i] in src.Computed() {
      if i > 0 { assert Refers(src, p[i - 1], p[i]); }
    }
  }

  lemma DistinctIsShort(p: seq<string>, s: set<string>)
    requires Distinct(p) && forall k :: k in p ==> k in s
    ensures |p| <= |s|
  {
    if p != [] {
      assert p[0] in s;
      assert forall i :: 0 < i < |p| ==> p[i] in p;
      DistinctIsShort(p[1..], s - {p[0]});
    }
  }

  lemma ExtendWalk(src: Sources, p: seq<string>, k: string)
    requires Walk(src, p) && Refers(src, p[|p| - 1], k)
    ensures Walk(src, p + [k])
  {
  }

  /** A key referred to from a cycle-free key is cycle-free. */
  lemma CycleFreeSuccessor(src: Sources, from: string, to: string)
    requires CycleFree(src, from) && Refers(src, from, to)
    ensures CycleFree(src, to)
  {
    forall p | Walk(src, p) && p[0] == to
      ensures Distinct(p)
    {
      var q := [from] + p;
      assert Walk(src, q);
      assert q[0] == from;
      forall i, j | 0 <= i < j < |p| ensures p[i] != p[j] {
        assert q[i + 1] != q[j + 1];
      }
    }
  }

  /** More fuel never changes an answer. */
  lemma {:induction false} DenoteMonotone(src: Sources, fuel: nat, more: nat, key: string)
    requires fuel <= more && Denote(src, fuel, key) != Diverges
    ensures Denote(src, more, key) == Denote(src, fuel, key)
    decreases fuel, 0
  {
    if key in src.Computed() {
      DenoteAtomsMonotone(src, fuel - 1, more - 1, src.dotenv[key]);
    }
  }

  lemma {:induction false} DenoteAtomsMonotone(src: Sources, fuel: nat, more: nat, atoms: RawValue)
    requires fuel <= more && DenoteAtoms(src, fuel, atoms).Some?
    ensures DenoteAtoms(src, more, atoms) == DenoteAtoms(src, fuel, atoms)
    decreases fuel, |atoms| + 1
  {
    if atoms == [] {
    } else {
      if atoms[0].Variable? { DenoteMonotone(src, fuel, more, atoms[0].name); }
      DenoteAtomsMonotone(src, fuel, more, atoms[1..]);
    }
  }

  /** A key has at most one meaning. */
  lemma MeaningIsUnique(src: Sources, key: string, m1: Meaning, m2: Meaning)
    requires Means(src, key, m1) && Means(src, key, m2)
    ensures m1 == m2
  {
    var f1: nat :| Denote(src, f1, key) == m1;
    var f2: nat :| Denote(src, f2, key) == m2;
    if f1 <= f2 { DenoteMonotone(src, f1, f2, key); } else { DenoteMonotone(src, f2, f1, key); }
  }

  /** Every reference in a converging value converges with the same fuel. */
  lemma {:induction false} ReferencesConverge(src: Sources, fuel: nat, atoms: RawValue, a: Atom)
    requires DenoteAtoms(src, fuel, atoms).Some? && a in atoms && a.Variable?
    ensures Denote(src, fuel, a.name) != Diverges
  {
    if a != atoms[0] {
      ReferencesConverge(src, fuel, atoms[1..], a);
    }
  }

  /** A value converges when each of its references does. */
  lemma {:induction false} AtomsConverge(src: Sources, fuel: nat, atoms: RawValue)
    requires forall a :: a in atoms && a.Variable? ==> Denote(src, fuel, a.name) != Diverges
    ensures DenoteAtoms(src, fuel, atoms).Some?
  {
    if atoms == [] {
    } else {
      assert atoms[0] in atoms;
      AtomsConverge(src, fuel, atoms[1..]);
    }
  }

  lemma KeyConverges(src: Sources, key: string, fuel: nat)
    requires key in src.Computed()
    requires forall next :: Refers(src, key, next) ==> Denote(src, fuel, next) != Diverges
    ensures Denote(src, fuel + 1, key) != Diverges
  {
    forall a | a in src.dotenv[key] && a.Variable?
      ensures Denote(src, fuel, a.name) != Diverges
    {
      if a.name in src.Computed() { assert Refers(src, key, a.name); }
    }
    AtomsConverge(src, fuel, src.dotenv[key]);
  }

  /** Every path from `key` has at most `n` keys. */
  ghost predicate Bounded(src: Sources, key: string, n: nat) {
    forall p :: Walk(src, p) && p[0] == key ==> |p| <= n
  }

  lemma CycleFreeIsBounded(src: Sources, key: string)
    requires CycleFree(src, key)
    ensures Bounded(src, key, |src.Computed()|)
  {
    forall p | Walk(src, p) && p[0] == key
      ensures |p| <= |src.Computed()|
    {
      WalkStaysComputed(src, p);
      DistinctIsShort(p, src.Computed());
    }
  }

  /** When paths are bounded, the end of every path converges with the fuel the path leaves. */
  lemma {:induction false} PathEndConverges(src: Sources, p: seq<string>, n: nat, fuel: nat)
    requires Walk(src, p) && Bounded(src, p[0], n) && fuel + |p| == n + 1
    ensures Denote(src, fuel, p[|p| - 1]) != Diverges
    decreases fuel
  {
    var x := p[|p| - 1];
    assert x in p;
    WalkStaysComputed(src, p);
    forall next | Refers(src, x, next)
      ensures Denote(src, fuel - 1, next) != Diverges
    {
      ExtendWalk(src, p, next);
      assert |p + [next]| <= n;
      PathEndConverges(src, p + [next], n, fuel - 1);
    }
    KeyConverges(src, x, fuel - 1);
  }

  /** Paths from a converging key are no longer than its fuel. */
  lemma {:induction false} PathsAreBounded(src: Sources, fuel: nat, p: seq<string>)
    requires Walk(src, p) && Denote(src, fuel, p[0]) != Diverges
    ensures |p| <= fuel
  {
    if |p| > 1 {
      assert Refers(src, p[0], p[1]);
      var a :| a in src.dotenv[p[0]] && a.Variable? && a.name == p[1];
      ReferencesConverge(src, fuel - 1, src.dotenv[p[0]], a);
      var q := p[1..];
      assert forall i :: 0 < i < |q| ==> q[i - 1] == p[i] && q[i] == p[i + 1];
      PathsAreBounded(src, fuel - 1, q);
    }
  }

  /** A path that meets a key twice can go around once more. */
  lemma GoAround(src: Sources, p: seq<string>, i: nat, j: nat) returns (q: seq<string>)
    requires Walk(src, p) && i < j < |p| && p[i] == p[j]
    ensures Walk(src, q) && q[0] == p[0] && |q| > |p|
    ensures j < |q| && q[i] == q[j]
  {
    q := p[..j] + p[i..];
    forall k | 0 < k < |q| ensures Refers(src, q[k - 1], q[k]) {
      if k < j {
        assert Refers(src, p[k - 1], p[k]);
      } else if k == j {
        assert Refers(src, p[j - 1], p[j]);
      } else {
        assert Refers(src, p[k - j + i - 1], p[k - j + i]);
      }
    }
    assert q[0] == p[0];
  }

  /** A cycle gives paths of any length. */
  lemma {:induction false} Pump(src: Sources, p: seq<string>, i: nat, j: nat, len: nat) returns (q: seq<string>)
    requires Walk(src, p) && i < j < |p| && p[i] == p[j]
    ensures Walk(src, q) && q[0] == p[0] && |q| > len
    decreases len - |p|
  {
    if |p| > len {
      q := p;
    } else {
      q := GoAround(src, p, i, j);
      q := Pump(src, q, i, j, len);
    }
  }

  /** The naive evaluator terminates exactly on the keys from which no cycle is reachable. */
  lemma MeaningIffCycleFree(src: Sources, key: string)
    ensures (exists m :: Means(src, key, m)) <==> CycleFree(src, key)
  {
    if CycleFree(src, key) {
      var fuel := |src.Computed()|;
      if key in src.Computed() {
        assert Walk(src, [key]);
        CycleFreeIsBounded(src, key);
        PathEndConverges(src, [key], fuel, fuel);
      }
      assert Means(src, key, Denote(src, fuel, key));
    }
    if exists m :: Means(src, key, m) {
      var m :| Means(src, key, m);
      var fuel: nat :| Denote(src, fuel, key) == m;
      forall p | Walk(src, p) && p[0] == key
        ensures Distinct(p)
      {
        if i, j :| 0 <= i < j < |p| && p[i] == p[j] {
          var q := Pump(src, p, i, j, fuel);
          PathsAreBounded(src, fuel, q);
        }
      }
    }
  }

  /** The meaning of a cycle-free key, by the naive evaluator with enough fuel. */
  ghost function Plain(src: Sources, key: string): (m: Meaning)
    requires CycleFree(src, key)
    ensures Means(src, key, m)
  {
    MeaningIffCycleFree(src, key);
    var m :| Means(src, key, m);
    m
  }
}
