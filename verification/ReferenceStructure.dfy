/** The references between dotenv keys, apart from the texts around them, and the keys that can be
    reached along them. A reference of a key to itself always reads as the empty string, so it plays no
    part in what the order of lookups can change. */
module ReferenceStructure {
  import opened DotenvMeaning
  import opened Interpolation

  /** The names that a value refers to, in order. */
  function Names(atoms: RawValue): seq<string> {
    if atoms == [] then []
    else (if atoms[0].Variable? then [atoms[0].name] else []) + Names(atoms[1..])
  }

  /** The same keys with the same references; every text may differ. */
  ghost predicate SameStructure(a: Sources, b: Sources) {
    && a.process.Keys == b.process.Keys
    && a.dotenv.Keys == b.dotenv.Keys
    && forall k :: k in a.dotenv ==> Names(a.dotenv[k]) == Names(b.dotenv[k])
  }

  lemma {:induction false} NamesOfVariables(atoms: RawValue, name: string)
    ensures name in Names(atoms) <==> exists a :: a in atoms && a.Variable? && a.name == name
  {
    if atoms == [] {
    } else {
      NamesOfVariables(atoms[1..], name);
      assert atoms == [atoms[0]] + atoms[1..];
      if atoms[0].Variable? && atoms[0].name == name { assert atoms[0] in atoms; }
    }
  }

  lemma RefersByName(src: Sources, from: string, to: string)
    ensures Refers(src, from, to) <==>
            from in src.Computed() && to in src.Computed() && to in Names(src.dotenv[from])
  {
    if from in src.Computed() { NamesOfVariables(src.dotenv[from], to); }
  }

  // ---- Self-references ----

  /** `atoms` with the references to `key` replaced by empty text. */
  function Unlooped(key: string, atoms: RawValue): RawValue {
    if atoms == [] then []
    else [if atoms[0].Variable? && atoms[0].name == key then Literal("") else atoms[0]] + Unlooped(key, atoms[1..])
  }

  function WithoutSelfReferences(src: Sources): Sources {
    Sources(src.process, map k | k in src.dotenv :: Unlooped(k, src.dotenv[k]))
  }

  lemma {:induction false} UnloopedNames(key: string, atoms: RawValue, name: string)
    ensures name in Names(Unlooped(key, atoms)) <==> name in Names(atoms) && name != key
  {
    if atoms == [] {
    } else {
      UnloopedNames(key, atoms[1..], name);
    }
  }

  /** Only the self-references are gone. */
  lemma UnloopedRefers(src: Sources, from: string, to: string)
    ensures Refers(WithoutSelfReferences(src), from, to) <==> Refers(src, from, to) && from != to
  {
    RefersByName(src, from, to);
    RefersByName(WithoutSelfReferences(src), from, to);
    if from in src.Computed() { UnloopedNames(from, src.dotenv[from], to); }
  }

  /** No key is finished while it is in progress. */
  ghost predicate Apart(m: Memo) {
    forall k :: k in m.resolving ==> k !in m.resolved
  }

  lemma {:induction false} LookupStaysApart(src: Sources, m: Memo, key: string)
    requires Apart(m)
    ensures Apart(Lookup(src, m, key).0)
    decreases src.dotenv.Keys - m.resolving, 0
  {
    if key in src.Computed() && key !in m.resolved && key !in m.resolving {
      AtomsStayApart(src, m.(resolving := m.resolving + {key}), src.dotenv[key]);
    }
  }

  lemma {:induction false} AtomsStayApart(src: Sources, m: Memo, atoms: RawValue)
    requires Apart(m)
    ensures Apart(ResolveAtoms(src, m, atoms).0)
    decreases src.dotenv.Keys - m.resolving, |atoms| + 1
  {
    if atoms == [] {
    } else {
      if atoms[0].Variable? { LookupStaysApart(src, m, atoms[0].name); }
      AtomsStayApart(src, ResolveAtom(src, m, atoms[0]).0, atoms[1..]);
    }
  }

  /** The environment behaves as if the self-references were not there. */
  lemma {:induction false} LookupIgnoresSelfReferences(src: Sources, m: Memo, key: string)
    requires Apart(m)
    ensures Lookup(WithoutSelfReferences(src), m, key) == Lookup(src, m, key)
    decreases src.dotenv.Keys - m.resolving, 0
  {
    if key in src.Computed() && key !in m.resolved && key !in m.resolving {
      AtomsIgnoreSelfReferences(src, m.(resolving := m.resolving + {key}), key, src.dotenv[key]);
    }
  }

  lemma {:induction false} AtomsIgnoreSelfReferences(src: Sources, m: Memo, key: string, atoms: RawValue)
    requires Apart(m) && key in m.resolving && key in src.Computed()
    ensures ResolveAtoms(WithoutSelfReferences(src), m, Unlooped(key, atoms)) == ResolveAtoms(src, m, atoms)
    decreases src.dotenv.Keys - m.resolving, |atoms| + 1
  {
    if atoms == [] {
    } else {
      AtomIgnoresSelfReferences(src, m, key, atoms[0]);
      if atoms[0].Variable? { LookupStaysApart(src, m, atoms[0].name); }
      AtomsIgnoreSelfReferences(src, ResolveAtom(src, m, atoms[0]).0, key, atoms[1..]);
    }
  }

  lemma {:induction false} AtomIgnoresSelfReferences(src: Sources, m: Memo, key: string, a: Atom)
    requires Apart(m) && key in m.resolving && key in src.Computed()
    ensures ResolveAtom(WithoutSelfReferences(src), m, if a.Variable? && a.name == key then Literal("") else a) ==
            ResolveAtom(src, m, a)
    decreases src.dotenv.Keys - m.resolving, 1
  {
    if a.Variable? && a.name != key { LookupIgnoresSelfReferences(src, m, a.name); }
  }

  lemma {:induction false} AfterIgnoresSelfReferences(src: Sources, history: seq<string>)
    ensures After(WithoutSelfReferences(src), history) == After(src, history)
    ensures Apart(After(src, history))
  {
    if history == [] {
    } else {
      var before := history[..|history| - 1];
      AfterIgnoresSelfReferences(src, before);
      LookupStaysApart(src, After(src, before), history[|history| - 1]);
      LookupIgnoresSelfReferences(src, After(src, before), history[|history| - 1]);
    }
  }

  // ---- Cycles through two keys ----

  /** Each step of the path goes to another key. */
  ghost predicate Proper(p: seq<string>) {
    forall i :: 0 < i < |p| ==> p[i - 1] != p[i]
  }

  /** No reference cycle through two distinct keys can be reached from `key`. */
  ghost predicate Untangled(src: Sources, key: string) {
    forall p :: Walk(src, p) && Proper(p) && p[0] == key ==> Distinct(p)
  }

  lemma UnloopedWalks(src: Sources, p: seq<string>)
    ensures Walk(WithoutSelfReferences(src), p) <==> Walk(src, p) && Proper(p)
  {
    forall i | 0 < i < |p|
      ensures Refers(WithoutSelfReferences(src), p[i - 1], p[i]) <==> Refers(src, p[i - 1], p[i]) && p[i - 1] != p[i]
    {
      UnloopedRefers(src, p[i - 1], p[i]);
    }
  }

  lemma UntangledIsCycleFree(src: Sources, key: string)
    ensures Untangled(src, key) <==> CycleFree(WithoutSelfReferences(src), key)
  {
    forall p ensures Walk(WithoutSelfReferences(src), p) <==> Walk(src, p) && Proper(p) { UnloopedWalks(src, p); }
  }

  /** A cycle-free key is untangled. */
  lemma CycleFreeIsUntangled(src: Sources, key: string)
    requires CycleFree(src, key)
    ensures Untangled(src, key)
  {
  }

  lemma SameStructureSameWalks(a: Sources, b: Sources, p: seq<string>)
    requires SameStructure(a, b)
    ensures Walk(a, p) <==> Walk(b, p)
  {
    forall i | 0 < i < |p| ensures Refers(a, p[i - 1], p[i]) <==> Refers(b, p[i - 1], p[i]) {
      RefersByName(a, p[i - 1], p[i]);
      RefersByName(b, p[i - 1], p[i]);
    }
  }

  /** Whether a key is untangled depends on the references alone. */
  lemma SameStructureSameTangles(a: Sources, b: Sources, key: string)
    requires SameStructure(a, b)
    ensures Untangled(a, key) <==> Untangled(b, key)
  {
    forall p ensures Walk(a, p) <==> Walk(b, p) { SameStructureSameWalks(a, b, p); }
  }

  /** After every history an untangled key yields the plain meaning it has without self-references. */
  lemma UntangledHasOneMeaning(src: Sources, history: seq<string>, key: string)
    requires Untangled(src, key)
    ensures CycleFree(WithoutSelfReferences(src), key)
    ensures var reply := Lookup(src, After(src, history), key).1;
            Plain(WithoutSelfReferences(src), key) == if reply.Found? then Text(reply.text) else Missing
  {
    UntangledIsCycleFree(src, key);
    AfterIgnoresSelfReferences(src, history);
    LookupIgnoresSelfReferences(src, After(src, history), key);
    MemoAgreesWithPlainMeaning(WithoutSelfReferences(src), history, key);
  }

  // ---- Reachability ----

  ghost predicate WalkBetween(src: Sources, p: seq<string>, from: string, to: string) {
    Walk(src, p) && p[0] == from && p[|p| - 1] == to
  }

  ghost predicate Reaches(src: Sources, from: string, to: string) {
    exists p :: WalkBetween(src, p, from, to)
  }

  lemma JoinWalks(src: Sources, p: seq<string>, q: seq<string>)
    requires Walk(src, p) && Walk(src, q) && p[|p| - 1] == q[0]
    ensures Walk(src, p + q[1..])
  {
    var r := p + q[1..];
    forall i | 0 < i < |r| ensures Refers(src, r[i - 1], r[i]) {
      if i < |p| {
        assert Refers(src, p[i - 1], p[i]);
      } else {
        assert Refers(src, q[i - |p|], q[i - |p| + 1]);
        assert r[i - 1] == q[i - |p|];
      }
    }
  }

  lemma ReachesTransitive(src: Sources, a: string, b: string, c: string)
    requires Reaches(src, a, b) && Reaches(src, b, c)
    ensures Reaches(src, a, c)
  {
    var p :| WalkBetween(src, p, a, b);
    var q :| WalkBetween(src, q, b, c);
    JoinWalks(src, p, q);
    assert WalkBetween(src, p + q[1..], a, c);
  }

  lemma ReachesItself(src: Sources, a: string)
    requires a in src.Computed()
    ensures Reaches(src, a, a)
  {
    assert WalkBetween(src, [a], a, a);
  }

  lemma RefersReaches(src: Sources, a: string, b: string)
    requires Refers(src, a, b)
    ensures Reaches(src, a, b)
  {
    assert WalkBetween(src, [a, b], a, b);
  }

  lemma PartOfWalkReaches(src: Sources, p: seq<string>, i: nat, j: nat)
    requires Walk(src, p) && i <= j < |p|
    ensures Reaches(src, p[i], p[j])
  {
    WalkStaysComputed(src, p);
    assert p[i] in p;
    var q := p[i..j + 1];
    forall k | 0 < k < |q| ensures Refers(src, q[k - 1], q[k]) { assert Refers(src, p[i + k - 1], p[i + k]); }
    assert WalkBetween(src, q, p[i], p[j]);
  }

  /** `key` lies on a reference cycle. */
  ghost predicate OnCycle(src: Sources, key: string) {
    exists next :: Refers(src, key, next) && Reaches(src, next, key)
  }
}
