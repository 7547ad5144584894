/** Which keys can read differently depending on what was looked up before: exactly those from which a
    cycle through two distinct keys can be reached. */
module LookupOrder {
  import opened Wrappers
  import opened DotenvMeaning
  import opened Interpolation
  import opened ReferenceStructure

  const FRESH := Memo(map[], {})

  // ---- What a lookup finishes ----

  /** Every reference of a finished value is finished or in progress. */
  ghost predicate Closed(src: Sources, m: Memo) {
    forall k, next :: k in m.resolved && Refers(src, k, next) ==> next in m.resolved || next in m.resolving
  }

  lemma {:induction false} LookupCloses(src: Sources, m: Memo, key: string)
    requires Closed(src, m)
    ensures Closed(src, Lookup(src, m, key).0)
    ensures key in src.Computed() ==> key in Lookup(src, m, key).0.resolved || key in m.resolving
    decreases src.dotenv.Keys - m.resolving, 0
  {
    if key in src.Computed() && key !in m.resolved && key !in m.resolving {
      var inner := m.(resolving := m.resolving + {key});
      AtomsClose(src, inner, src.dotenv[key]);
      var m1 := ResolveAtoms(src, inner, src.dotenv[key]).0;
      forall k, next | k in Lookup(src, m, key).0.resolved && Refers(src, k, next)
        ensures next in Lookup(src, m, key).0.resolved || next in m.resolving
      {
        if k == key { RefersByName(src, key, next); }
        assert next in m1.resolved || next in m1.resolving;
      }
    }
  }

  lemma {:induction false} AtomsClose(src: Sources, m: Memo, atoms: RawValue)
    requires Closed(src, m)
    ensures Closed(src, ResolveAtoms(src, m, atoms).0)
    ensures forall n :: n in Names(atoms) && n in src.Computed() ==>
              n in ResolveAtoms(src, m, atoms).0.resolved || n in m.resolving
    decreases src.dotenv.Keys - m.resolving, |atoms| + 1
  {
    if atoms == [] {
    } else {
      if atoms[0].Variable? { LookupCloses(src, m, atoms[0].name); }
      var m1 := ResolveAtom(src, m, atoms[0]).0;
      AtomsClose(src, m1, atoms[1..]);
      ResolveAtomsGrows(src, m1, atoms[1..]);
    }
  }

  /** A lookup finishes only keys that it can reach. */
  lemma {:induction false} LookupReaches(src: Sources, m: Memo, key: string, k: string)
    requires k in Lookup(src, m, key).0.resolved && k !in m.resolved
    ensures Reaches(src, key, k)
    decreases src.dotenv.Keys - m.resolving, 0
  {
    ReachesItself(src, key);
    if k != key {
      AtomsReach(src, m.(resolving := m.resolving + {key}), key, src.dotenv[key], k);
    }
  }

  lemma {:induction false} AtomsReach(src: Sources, m: Memo, key: string, atoms: RawValue, k: string)
    requires key in src.Computed() && forall a :: a in atoms ==> a in src.dotenv[key]
    requires k in ResolveAtoms(src, m, atoms).0.resolved && k !in m.resolved
    ensures Reaches(src, key, k)
    decreases src.dotenv.Keys - m.resolving, |atoms| + 1
  {
    var a, m1 := atoms[0], ResolveAtom(src, m, atoms[0]).0;
    assert a in atoms;
    if k in m1.resolved {
      LookupReaches(src, m, a.name, k);
      assert a.name in src.Computed();
      assert Refers(src, key, a.name);
      RefersReaches(src, key, a.name);
      ReachesTransitive(src, key, a.name, k);
    } else {
      assert forall b :: b in atoms[1..] ==> b in atoms;
      AtomsReach(src, m1, key, atoms[1..], k);
    }
  }

  lemma {:induction false} WalkIsFinished(src: Sources, m: Memo, p: seq<string>)
    requires Closed(src, m) && m.resolving == {} && Walk(src, p) && p[0] in m.resolved
    ensures p[|p| - 1] in m.resolved
  {
    if |p| == 1 {
    } else {
      var n := |p| - 1;
      var front := p[..n];
      forall i | 0 < i < |front| ensures Refers(src, front[i - 1], front[i]) { assert Refers(src, p[i - 1], p[i]); }
      WalkIsFinished(src, m, front);
      assert Refers(src, p[n - 1], p[n]);
    }
  }

  /** From a fresh table a lookup finishes exactly the keys it can reach. */
  lemma FreshLookupFinishes(src: Sources, key: string, k: string)
    requires key in src.Computed()
    ensures k in Lookup(src, FRESH, key).0.resolved <==> Reaches(src, key, k)
  {
    var m := Lookup(src, FRESH, key).0;
    LookupCloses(src, FRESH, key);
    if k in m.resolved { LookupReaches(src, FRESH, key, k); }
    if Reaches(src, key, k) {
      var p :| WalkBetween(src, p, key, k);
      WalkIsFinished(src, m, p);
    }
  }

  // ---- One marked key ----

  /** No atom yields text of its own. */
  ghost predicate Silent(atoms: RawValue) {
    forall a :: a in atoms ==> if a.Literal? then a.text == "" else FallbackText(a) == ""
  }

  /** The value of `mark` begins with the only text there is. */
  ghost predicate Marked(src: Sources, mark: string) {
    && (forall k :: k in src.process ==> src.process[k] == "")
    && mark in src.Computed()
    && (forall k :: k in src.dotenv && k != mark ==> Silent(src.dotenv[k]))
    && src.dotenv[mark] != [] && src.dotenv[mark][0] == Literal("x") && Silent(src.dotenv[mark][1..])
  }

  ghost predicate AllEmpty(m: Memo) {
    forall k :: k in m.resolved ==> m.resolved[k] == ""
  }

  /** While the marked key is in progress everything reads as empty. */
  lemma {:induction false} LookupStaysEmpty(src: Sources, m: Memo, key: string, mark: string)
    requires Marked(src, mark) && mark in m.resolving && AllEmpty(m)
    ensures AllEmpty(Lookup(src, m, key).0)
    ensures Lookup(src, m, key).1.Found? ==> Lookup(src, m, key).1.text == ""
    decreases src.dotenv.Keys - m.resolving, 0
  {
    if key in src.Computed() && key !in m.resolved && key !in m.resolving {
      AtomsStayEmpty(src, m.(resolving := m.resolving + {key}), src.dotenv[key], mark);
    }
  }

  lemma {:induction false} AtomsStayEmpty(src: Sources, m: Memo, atoms: RawValue, mark: string)
    requires Marked(src, mark) && mark in m.resolving && AllEmpty(m) && Silent(atoms)
    ensures AllEmpty(ResolveAtoms(src, m, atoms).0)
    ensures ResolveAtoms(src, m, atoms).1 == ""
    decreases src.dotenv.Keys - m.resolving, |atoms| + 1
  {
    if atoms == [] {
    } else {
      assert atoms[0] in atoms && forall a :: a in atoms[1..] ==> a in atoms;
      if atoms[0].Variable? { LookupStaysEmpty(src, m, atoms[0].name, mark); }
      AtomsStayEmpty(src, ResolveAtom(src, m, atoms[0]).0, atoms[1..], mark);
    }
  }

  /** Asked first, the marked key reads as its mark and every other key as empty. */
  lemma MarkAskedFirst(src: Sources, mark: string, k: string)
    requires Marked(src, mark) && k in Lookup(src, FRESH, mark).0.resolved
    ensures |Lookup(src, FRESH, mark).0.resolved[k]| == if k == mark then 1 else 0
  {
    var inner, atoms := Memo(map[], {mark}), src.dotenv[mark];
    assert FRESH.(resolving := FRESH.resolving + {mark}) == inner;
    AtomsStayEmpty(src, inner, atoms[1..], mark);
    assert ResolveAtom(src, inner, atoms[0]) == (inner, "x");
    var (m1, rest) := ResolveAtoms(src, inner, atoms[1..]);
    assert ResolveAtoms(src, inner, atoms) == (m1, "x" + rest);
  }

  /** A value in whose resolution the marked key was finished contains the mark. */
  lemma {:induction false} LookupContainsMark(src: Sources, m: Memo, key: string, mark: string)
    requires Marked(src, mark) && mark !in m.resolved && mark in Lookup(src, m, key).0.resolved
    ensures Lookup(src, m, key).1.Found? && Lookup(src, m, key).1.text != ""
    ensures Lookup(src, m, key).0.resolved[mark] != ""
    decreases src.dotenv.Keys - m.resolving, 0
  {
    var inner := m.(resolving := m.resolving + {key});
    if key != mark {
      AtomsContainMark(src, inner, src.dotenv[key], mark);
    } else {
      assert ResolveAtom(src, inner, src.dotenv[mark][0]) == (inner, "x");
    }
  }

  lemma {:induction false} AtomsContainMark(src: Sources, m: Memo, atoms: RawValue, mark: string)
    requires Marked(src, mark) && mark !in m.resolved && mark in ResolveAtoms(src, m, atoms).0.resolved
    ensures ResolveAtoms(src, m, atoms).1 != ""
    ensures ResolveAtoms(src, m, atoms).0.resolved[mark] != ""
    decreases src.dotenv.Keys - m.resolving, |atoms| + 1
  {
    var m1 := ResolveAtom(src, m, atoms[0]).0;
    if mark in m1.resolved {
      LookupContainsMark(src, m, atoms[0].name, mark);
      ResolveAtomsGrows(src, m1, atoms[1..]);
    } else {
      AtomsContainMark(src, m1, atoms[1..], mark);
    }
  }

  // ---- Two runs compared ----

  /** The same keys are finished, and each value is at least as long in `m1`. */
  ghost predicate Dominates(m1: Memo, m2: Memo) {
    && m1.resolved.Keys == m2.resolved.Keys && m1.resolving == m2.resolving
    && forall k :: k in m1.resolved ==> |m1.resolved[k]| >= |m2.resolved[k]|
  }

  ghost predicate NotShorter(r1: Reply, r2: Reply) {
    (r1.Found? <==> r2.Found?) && (r1.Found? ==> |r1.text| >= |r2.text|)
  }

  lemma {:induction false} LookupDominates(src: Sources, m1: Memo, m2: Memo, key: string)
    requires Dominates(m1, m2)
    ensures Dominates(Lookup(src, m1, key).0, Lookup(src, m2, key).0)
    ensures NotShorter(Lookup(src, m1, key).1, Lookup(src, m2, key).1)
    decreases src.dotenv.Keys - m1.resolving, 0
  {
    if key in src.Computed() && key !in m1.resolved && key !in m1.resolving {
      var i1, i2 := m1.(resolving := m1.resolving + {key}), m2.(resolving := m2.resolving + {key});
      AtomsDominate(src, i1, i2, src.dotenv[key]);
    }
  }

  lemma {:induction false} AtomsDominate(src: Sources, m1: Memo, m2: Memo, atoms: RawValue)
    requires Dominates(m1, m2)
    ensures Dominates(ResolveAtoms(src, m1, atoms).0, ResolveAtoms(src, m2, atoms).0)
    ensures |ResolveAtoms(src, m1, atoms).1| >= |ResolveAtoms(src, m2, atoms).1|
    decreases src.dotenv.Keys - m1.resolving, |atoms| + 1
  {
    if atoms == [] {
    } else {
      if atoms[0].Variable? { LookupDominates(src, m1, m2, atoms[0].name); }
      AtomsDominate(src, ResolveAtom(src, m1, atoms[0]).0, ResolveAtom(src, m2, atoms[0]).0, atoms[1..]);
    }
  }

  /** A path whose keys lie on no cycle, but for the last. */
  ghost predicate Spine(src: Sources, spine: seq<string>) {
    Walk(src, spine) && forall i :: 0 <= i < |spine| - 1 ==> !OnCycle(src, spine[i])
  }

  /** The finished keys of the path are longer in `m1`, and its last key is finished. */
  ghost predicate Longer(m1: Memo, m2: Memo, spine: seq<string>) {
    && Dominates(m1, m2) && spine != [] && spine[|spine| - 1] in m1.resolved
    && forall k :: k in spine && k in m1.resolved ==> |m1.resolved[k]| > |m2.resolved[k]|
  }

  /** A reference back into the path closes a cycle. */
  lemma BackReferenceClosesCycle(src: Sources, path: seq<string>, next: string)
    requires path != [] && Walk(src, path) && Refers(src, path[|path| - 1], next) && next in path
    ensures OnCycle(src, path[|path| - 1])
  {
    var j :| 0 <= j < |path| && path[j] == next;
    PartOfWalkReaches(src, path, j, |path| - 1);
  }

  /** A key of the path is not in progress when its predecessor is read. */
  lemma NextIsNotInProgress(src: Sources, path: seq<string>, spine: seq<string>, i: nat)
    requires Spine(src, spine) && i + 1 < |spine| && path != [] && Walk(src, path) && path[|path| - 1] == spine[i]
    ensures Refers(src, spine[i], spine[i + 1]) && spine[i + 1] !in path
  {
    assert Refers(src, spine[i + 1 - 1], spine[i + 1]);
    if spine[i + 1] in path { BackReferenceClosesCycle(src, path, spine[i + 1]); }
  }

  lemma {:induction false} LookupStaysLonger(src: Sources, m1: Memo, m2: Memo, path: seq<string>, spine: seq<string>,
                                             key: string)
    requires Spine(src, spine) && Longer(m1, m2, spine) && OnPath(src, m1, path, key)
    ensures Longer(Lookup(src, m1, key).0, Lookup(src, m2, key).0, spine)
    ensures key in spine && key !in m1.resolving ==>
              && Lookup(src, m1, key).1.Found? && Lookup(src, m2, key).1.Found?
              && |Lookup(src, m1, key).1.text| > |Lookup(src, m2, key).1.text|
    decreases src.dotenv.Keys - m1.resolving, 0
  {
    WalkStaysComputed(src, spine);
    LookupDominates(src, m1, m2, key);
    if key in src.Computed() && key !in m1.resolved && key !in m1.resolving {
      var i1, i2 := m1.(resolving := m1.resolving + {key}), m2.(resolving := m2.resolving + {key});
      var longer := path + [key];
      if path != [] { ExtendWalk(src, path, key); }
      assert longer[|longer| - 1] == key && i1.resolving == set k | k in longer;
      AtomsStayLonger(src, i1, i2, longer, spine, src.dotenv[key]);
      if key in spine {
        var i :| 0 <= i < |spine| && spine[i] == key;
        NextIsNotInProgress(src, longer, spine, i);
        RefersByName(src, key, spine[i + 1]);
        NamesOfVariables(src.dotenv[key], spine[i + 1]);
        assert ReadsSpine(i1, spine, src.dotenv[key]);
      }
    }
  }

  /** Some atom reads a key of the path that is not in progress. */
  ghost predicate ReadsSpine(m: Memo, spine: seq<string>, atoms: RawValue) {
    exists a :: a in atoms && a.Variable? && a.name in spine && a.name !in m.resolving
  }

  lemma {:induction false} AtomsStayLonger(src: Sources, m1: Memo, m2: Memo, path: seq<string>, spine: seq<string>,
                                           atoms: RawValue)
    requires Spine(src, spine) && Longer(m1, m2, spine)
    requires path != [] && Walk(src, path) && m1.resolving == (set k | k in path)
    requires path[|path| - 1] in src.Computed() && forall a :: a in atoms ==> a in src.dotenv[path[|path| - 1]]
    ensures Longer(ResolveAtoms(src, m1, atoms).0, ResolveAtoms(src, m2, atoms).0, spine)
    ensures ReadsSpine(m1, spine, atoms) ==>
              |ResolveAtoms(src, m1, atoms).1| > |ResolveAtoms(src, m2, atoms).1|
    decreases src.dotenv.Keys - m1.resolving, |atoms| + 1
  {
    if atoms == [] {
    } else {
      var a := atoms[0];
      assert a in atoms && forall b :: b in atoms[1..] ==> b in atoms;
      AtomStaysLonger(src, m1, m2, path, spine, a);
      var n1, n2 := ResolveAtom(src, m1, a).0, ResolveAtom(src, m2, a).0;
      AtomsStayLonger(src, n1, n2, path, spine, atoms[1..]);
      AtomsDominate(src, n1, n2, atoms[1..]);
      if ReadsSpine(m1, spine, atoms) && !ReadsSpine(m1, spine, [a]) {
        var b :| b in atoms && b.Variable? && b.name in spine && b.name !in m1.resolving;
        assert b in [a] || b in atoms[1..];
        assert ReadsSpine(n1, spine, atoms[1..]);
      }
    }
  }

  lemma AtomStaysLonger(src: Sources, m1: Memo, m2: Memo, path: seq<string>, spine: seq<string>, a: Atom)
    requires Spine(src, spine) && Longer(m1, m2, spine)
    requires path != [] && Walk(src, path) && m1.resolving == (set k | k in path)
    requires path[|path| - 1] in src.Computed() && a in src.dotenv[path[|path| - 1]]
    ensures Longer(ResolveAtom(src, m1, a).0, ResolveAtom(src, m2, a).0, spine)
    ensures |ResolveAtom(src, m1, a).1| >= |ResolveAtom(src, m2, a).1|
    ensures ReadsSpine(m1, spine, [a]) ==> |ResolveAtom(src, m1, a).1| > |ResolveAtom(src, m2, a).1|
    decreases src.dotenv.Keys - m1.resolving, 1
  {
    if a.Variable? {
      if a.name in src.Computed() { assert Refers(src, path[|path| - 1], a.name); }
      LookupStaysLonger(src, m1, m2, path, spine, a.name);
      LookupDominates(src, m1, m2, a.name);
    }
  }

  // ---- A tangled key ----

  /** After asking for `a` first the key at the head of the path reads longer than after asking for the
      marked key first: `a` lies on a cycle with it. */
  lemma AskingFirstMatters(src: Sources, spine: seq<string>, mark: string)
    requires Marked(src, mark) && Spine(src, spine)
    requires var a := spine[|spine| - 1]; a != mark && Reaches(src, a, mark) && Reaches(src, mark, a)
    ensures Lookup(src, After(src, [spine[|spine| - 1]]), spine[0]).1 != Lookup(src, After(src, [mark]), spine[0]).1
  {
    var a := spine[|spine| - 1];
    var m1, m2 := Lookup(src, FRESH, a).0, Lookup(src, FRESH, mark).0;
    AfterOne(src, a);
    AfterOne(src, mark);
    AskedFirstDominates(src, a, mark);
    SpineIsNotFinished(src, spine, mark);
    LookupStaysLonger(src, m1, m2, [], spine, spine[0]);
    assert spine[0] in spine;
  }

  lemma AfterOne(src: Sources, key: string)
    ensures After(src, [key]) == Lookup(src, FRESH, key).0
  {
    assert [key][..0] == [];
  }

  lemma AskedFirstDominates(src: Sources, a: string, mark: string)
    requires Marked(src, mark) && a in src.Computed() && a != mark && Reaches(src, a, mark) && Reaches(src, mark, a)
    ensures var m1, m2 := Lookup(src, FRESH, a).0, Lookup(src, FRESH, mark).0;
            Dominates(m1, m2) && a in m1.resolved && |m1.resolved[a]| > |m2.resolved[a]|
  {
    var m1, m2 := Lookup(src, FRESH, a).0, Lookup(src, FRESH, mark).0;
    forall k ensures k in m1.resolved <==> k in m2.resolved {
      FreshLookupFinishes(src, a, k);
      FreshLookupFinishes(src, mark, k);
      if Reaches(src, a, k) { ReachesTransitive(src, mark, a, k); }
      if Reaches(src, mark, k) { ReachesTransitive(src, a, mark, k); }
    }
    assert m1.resolved.Keys == m2.resolved.Keys;
    FreshLookupFinishes(src, a, mark);
    LookupContainsMark(src, FRESH, a, mark);
    forall k | k in m2.resolved ensures |m2.resolved[k]| == if k == mark then 1 else 0 { MarkAskedFirst(src, mark, k); }
    FreshLookupFinishes(src, a, a);
    ReachesItself(src, a);
  }

  /** Of the path only the last key can be reached from the cycle. */
  lemma SpineIsNotFinished(src: Sources, spine: seq<string>, mark: string)
    requires Marked(src, mark) && Spine(src, spine)
    requires var a := spine[|spine| - 1];
             && a in src.Computed()
             && Dominates(Lookup(src, FRESH, a).0, Lookup(src, FRESH, mark).0) && a in Lookup(src, FRESH, a).0.resolved
             && |Lookup(src, FRESH, a).0.resolved[a]| > |Lookup(src, FRESH, mark).0.resolved[a]|
    ensures Longer(Lookup(src, FRESH, spine[|spine| - 1]).0, Lookup(src, FRESH, mark).0, spine)
  {
    var n := |spine| - 1;
    var a := spine[n];
    var m1, m2 := Lookup(src, FRESH, a).0, Lookup(src, FRESH, mark).0;
    forall k | k in spine && k in m1.resolved ensures |m1.resolved[k]| > |m2.resolved[k]| {
      var i :| 0 <= i < |spine| && spine[i] == k;
      if i < n {
        FreshLookupFinishes(src, a, k);
        HeadIsOnCycle(src, spine, i);
      }
    }
  }

  lemma HeadIsOnCycle(src: Sources, p: seq<string>, i: nat)
    requires Walk(src, p) && i < |p| - 1 && Reaches(src, p[|p| - 1], p[i])
    ensures OnCycle(src, p[i])
  {
    assert Refers(src, p[i + 1 - 1], p[i + 1]);
    PartOfWalkReaches(src, p, i + 1, |p| - 1);
    ReachesTransitive(src, p[i + 1], p[|p| - 1], p[i]);
  }

  // ---- Choosing the texts ----

  /** `atoms` with their references and no text. */
  function Blanked(atoms: RawValue): RawValue {
    if atoms == [] then []
    else [if atoms[0].Variable? then Variable(atoms[0].name, None) else Literal("")] + Blanked(atoms[1..])
  }

  /** The same references with one text, in front of the value of `mark`. */
  function WithMark(src: Sources, mark: string): Sources {
    Sources(map k | k in src.process :: "",
            map k | k in src.dotenv :: (if k == mark then [Literal("x")] else []) + Blanked(src.dotenv[k]))
  }

  lemma {:induction false} BlankedIsSilent(key: string, atoms: RawValue)
    ensures Silent(Blanked(atoms)) && Silent(Unlooped(key, Blanked(atoms)))
    ensures Names(Blanked(atoms)) == Names(atoms)
  {
    if atoms == [] {
    } else {
      BlankedIsSilent(key, atoms[1..]);
    }
  }

  lemma WithMarkKeepsStructure(src: Sources, mark: string)
    ensures SameStructure(src, WithMark(src, mark))
  {
    forall k | k in src.dotenv ensures Names(WithMark(src, mark).dotenv[k]) == Names(src.dotenv[k]) {
      BlankedIsSilent(k, src.dotenv[k]);
      var v := WithMark(src, mark).dotenv[k];
      if k == mark { assert v[1..] == Blanked(src.dotenv[k]); } else { assert v == Blanked(src.dotenv[k]); }
    }
  }

  lemma WithMarkIsMarked(src: Sources, mark: string)
    requires mark in src.Computed()
    ensures Marked(WithoutSelfReferences(WithMark(src, mark)), mark)
  {
    var marked := WithMark(src, mark);
    forall k | k in src.dotenv && k != mark ensures Silent(WithoutSelfReferences(marked).dotenv[k]) {
      BlankedIsSilent(k, src.dotenv[k]);
      assert marked.dotenv[k] == Blanked(src.dotenv[k]);
    }
    BlankedIsSilent(mark, src.dotenv[mark]);
    assert marked.dotenv[mark][1..] == Blanked(src.dotenv[mark]);
    var v := WithoutSelfReferences(marked).dotenv[mark];
    assert v[1..] == Unlooped(mark, Blanked(src.dotenv[mark]));
  }

  /** The first key of a path that lies on a cycle. */
  lemma {:induction false} FirstOnCycle(src: Sources, p: seq<string>, n: nat) returns (i: nat)
    requires Walk(src, p) && n < |p| && OnCycle(src, p[n])
    ensures i <= n && OnCycle(src, p[i]) && Spine(src, p[..i + 1])
  {
    if j :| 0 <= j < n && OnCycle(src, p[j]) {
      i := FirstOnCycle(src, p, j);
    } else {
      i := n;
      var spine := p[..n + 1];
      forall k | 0 < k < |spine| ensures Refers(src, spine[k - 1], spine[k]) { assert Refers(src, p[k - 1], p[k]); }
      assert forall k :: 0 <= k < |spine| - 1 ==> spine[k] == p[k];
    }
  }

  /** The answer for `key` does not depend on what was looked up before. */
  ghost predicate OrderIndependent(src: Sources, key: string) {
    forall h1, h2 :: Lookup(src, After(src, h1), key).1 == Lookup(src, After(src, h2), key).1
  }

  lemma SameReferencesReach(a: Sources, b: Sources, from: string, to: string)
    requires forall p :: Walk(a, p) <==> Walk(b, p)
    ensures Reaches(a, from, to) <==> Reaches(b, from, to)
  {
    if Reaches(a, from, to) {
      var p :| WalkBetween(a, p, from, to);
      assert WalkBetween(b, p, from, to);
    }
    if Reaches(b, from, to) {
      var p :| WalkBetween(b, p, from, to);
      assert WalkBetween(a, p, from, to);
    }
  }

  ghost predicate SameReferences(a: Sources, b: Sources) {
    (forall p :: Walk(a, p) <==> Walk(b, p)) && forall f, t :: Refers(a, f, t) <==> Refers(b, f, t)
  }

  lemma SameReferencesSameSpine(a: Sources, b: Sources, spine: seq<string>)
    requires SameReferences(a, b) && Spine(a, spine)
    ensures Spine(b, spine)
  {
    forall i | 0 <= i < |spine| - 1 ensures !OnCycle(b, spine[i]) {
      if OnCycle(b, spine[i]) {
        var next :| Refers(b, spine[i], next) && Reaches(b, next, spine[i]);
        SameReferencesReach(a, b, next, spine[i]);
      }
    }
  }

  /** Changing texts leaves the references without self-references alone. */
  lemma SameStructureSameReferences(a: Sources, b: Sources)
    requires SameStructure(a, b)
    ensures SameReferences(WithoutSelfReferences(a), WithoutSelfReferences(b))
  {
    var u, v := WithoutSelfReferences(a), WithoutSelfReferences(b);
    forall p ensures Walk(u, p) <==> Walk(v, p) {
      UnloopedWalks(a, p);
      UnloopedWalks(b, p);
      SameStructureSameWalks(a, b, p);
    }
    forall f, t ensures Refers(u, f, t) <==> Refers(v, f, t) {
      UnloopedRefers(a, f, t);
      UnloopedRefers(b, f, t);
      RefersByName(a, f, t);
      RefersByName(b, f, t);
    }
  }

  lemma RepeatIsOnCycle(src: Sources, p: seq<string>, i: nat, j: nat)
    requires Walk(src, p) && i < j < |p| && p[i] == p[j]
    ensures OnCycle(src, p[i])
  {
    assert Refers(src, p[i + 1 - 1], p[i + 1]);
    PartOfWalkReaches(src, p, i + 1, j);
  }

  lemma TangledPath(src: Sources, key: string) returns (p: seq<string>, i: nat)
    requires !Untangled(src, key)
    ensures var u := WithoutSelfReferences(src);
            Walk(u, p) && p[0] == key && i < |p| && OnCycle(u, p[i])
  {
    p :| Walk(src, p) && Proper(p) && p[0] == key && !Distinct(p);
    UnloopedWalks(src, p);
    var x, y :| 0 <= x < y < |p| && p[x] == p[y];
    RepeatIsOnCycle(WithoutSelfReferences(src), p, x, y);
    i := x;
  }

  lemma OtherKeyOnCycle(src: Sources, a: string) returns (mark: string)
    requires OnCycle(WithoutSelfReferences(src), a)
    ensures var u := WithoutSelfReferences(src); a != mark && Reaches(u, a, mark) && Reaches(u, mark, a)
  {
    var u := WithoutSelfReferences(src);
    mark :| Refers(u, a, mark) && Reaches(u, mark, a);
    RefersReaches(u, a, mark);
    UnloopedRefers(src, a, mark);
  }

  /** A tangled key has a path to a cycle through two distinct keys, with no cycle before it. */
  lemma TangledHasSpine(src: Sources, key: string) returns (spine: seq<string>, mark: string)
    requires !Untangled(src, key)
    ensures var u := WithoutSelfReferences(src);
            && Spine(u, spine) && spine[0] == key
            && var a := spine[|spine| - 1];
               a != mark && Reaches(u, a, mark) && Reaches(u, mark, a)
  {
    var p, i := TangledPath(src, key);
    var n := FirstOnCycle(WithoutSelfReferences(src), p, i);
    spine := p[..n + 1];
    assert spine[|spine| - 1] == p[n];
    mark := OtherKeyOnCycle(src, p[n]);
  }

  /** For a tangled key there are texts with which asking for one key first or for another changes its
      value. */
  lemma TangledDependsOnOrder(src: Sources, key: string) returns (texts: Sources, a: string, mark: string)
    requires !Untangled(src, key)
    ensures SameStructure(src, texts) && {key, a, mark} <= src.Computed()
    ensures Lookup(texts, After(texts, [a]), key).1 != Lookup(texts, After(texts, [mark]), key).1
  {
    var spine: seq<string>;
    spine, mark := TangledHasSpine(src, key);
    a := spine[|spine| - 1];
    texts := WithMark(src, mark);
    WithMarkKeepsStructure(src, mark);
    SpineKeysAreComputed(src, spine, mark);
    MarkedSpineMatters(src, spine, mark);
    var v := WithoutSelfReferences(texts);
    AfterIgnoresSelfReferences(texts, [a]);
    AfterIgnoresSelfReferences(texts, [mark]);
    LookupIgnoresSelfReferences(texts, After(texts, [a]), key);
    LookupIgnoresSelfReferences(texts, After(texts, [mark]), key);
  }

  lemma SpineKeysAreComputed(src: Sources, spine: seq<string>, mark: string)
    requires var u := WithoutSelfReferences(src); Spine(u, spine) && Reaches(u, spine[|spine| - 1], mark)
    ensures {spine[0], spine[|spine| - 1], mark} <= src.Computed()
  {
    var u := WithoutSelfReferences(src);
    WalkStaysComputed(u, spine);
    assert spine[0] in spine && spine[|spine| - 1] in spine;
    var p :| WalkBetween(u, p, spine[|spine| - 1], mark);
    WalkStaysComputed(u, p);
    assert mark in p;
  }

  lemma MarkedSpineMatters(src: Sources, spine: seq<string>, mark: string)
    requires mark in src.Computed()
    requires var u := WithoutSelfReferences(src);
             && Spine(u, spine)
             && var a := spine[|spine| - 1];
                a != mark && Reaches(u, a, mark) && Reaches(u, mark, a)
    ensures var v := WithoutSelfReferences(WithMark(src, mark));
            Lookup(v, After(v, [spine[|spine| - 1]]), spine[0]).1 != Lookup(v, After(v, [mark]), spine[0]).1
  {
    var a := spine[|spine| - 1];
    var u, v := WithoutSelfReferences(src), WithoutSelfReferences(WithMark(src, mark));
    WithMarkKeepsStructure(src, mark);
    SameStructureSameReferences(src, WithMark(src, mark));
    SameReferencesSameSpine(u, v, spine);
    SameReferencesReach(u, v, a, mark);
    SameReferencesReach(u, v, mark, a);
    WithMarkIsMarked(src, mark);
    AskingFirstMatters(v, spine, mark);
  }

  /** The value of a key is the same after every history, whatever the texts around the references are,
      if and only if no cycle through two distinct keys can be reached from it. */
  lemma OrderIndependentIff(src: Sources, key: string)
    ensures (forall texts :: SameStructure(src, texts) ==> OrderIndependent(texts, key)) <==> Untangled(src, key)
  {
    if Untangled(src, key) {
      forall texts | SameStructure(src, texts) ensures OrderIndependent(texts, key) {
        SameStructureSameTangles(src, texts, key);
        UntangledIsOrderIndependent(texts, key);
      }
    } else {
      var texts, a, mark := TangledDependsOnOrder(src, key);
      assert !OrderIndependent(texts, key);
    }
  }

  /** In particular a key that only refers to itself reads the same after every history. */
  lemma UntangledIsOrderIndependent(src: Sources, key: string)
    requires Untangled(src, key)
    ensures OrderIndependent(src, key)
  {
    forall h1, h2 ensures Lookup(src, After(src, h1), key).1 == Lookup(src, After(src, h2), key).1 {
      UntangledHasOneMeaning(src, h1, key);
      UntangledHasOneMeaning(src, h2, key);
    }
  }
}
