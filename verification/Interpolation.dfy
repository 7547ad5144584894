/** The memoising interpolation environment: a lookup table that fills itself while it resolves
    references, with a set of keys under resolution that breaks cycles. */
module Interpolation {
  import opened Wrappers
  import opened DotenvMeaning

  /** The table of finished values and the keys whose resolution is in progress. */
  datatype Memo = Memo(resolved: map<string, string>, resolving: set<string>)

  /** What subscripting the environment yields: a value, or a raised `KeyError`. */
  datatype Reply = KeyError | Found(text: string)

  /** One subscription as a function of the table it starts from. Each nested resolution has one
      more key in progress, and within one value the atoms run out. */
  function Lookup(src: Sources, m: Memo, key: string): (r: (Memo, Reply))
    ensures r.0.resolving == m.resolving
    decreases src.dotenv.Keys - m.resolving, 0
  {
    if key in src.process then (m, Found(src.process[key]))
    else if key in m.resolved then (m, Found(m.resolved[key]))
    else if key !in src.dotenv then (m, KeyError)
    else if key in m.resolving then (m, Found(""))
    else
      var (m1, text) := ResolveAtoms(src, m.(resolving := m.resolving + {key}), src.dotenv[key]);
      (Memo(m1.resolved[key := text], m1.resolving - {key}), Found(text))
  }

  /** `Variable.resolve` calls `Mapping.get`, which turns a `KeyError` into the default. */
  function ResolveAtom(src: Sources, m: Memo, a: Atom): (r: (Memo, string))
    ensures r.0.resolving == m.resolving
    decreases src.dotenv.Keys - m.resolving, 1
  {
    match a
    case Literal(t) => (m, t)
    case Variable(name, _) =>
      var (m1, reply) := Lookup(src, m, name);
      (m1, if reply.Found? then reply.text else FallbackText(a))
  }

  function ResolveAtoms(src: Sources, m: Memo, atoms: RawValue): (r: (Memo, string))
    ensures r.0.resolving == m.resolving
    decreases src.dotenv.Keys - m.resolving, |atoms| + 2
  {
    if atoms == [] then (m, "")
    else
      var (m1, head) := ResolveAtom(src, m, atoms[0]);
      var (m2, rest) := ResolveAtoms(src, m1, atoms[1..]);
      (m2, head + rest)
  }

  /** The environment object. `GetItem` is `__getitem__`, recursing through `Resolve`. */
  class InterpolationEnvironment {
    const src: Sources
    var resolved: map<string, string>
    var resolving: set<string>

    constructor (process: map<string, string>, dotenv: map<string, RawValue>)
      ensures src == Sources(process, dotenv)
      ensures Table() == Memo(map[], {})
    {
      src := Sources(process, dotenv);
      resolved := map[];
      resolving := {};
    }

    function Table(): Memo
      reads this
    {
      Memo(resolved, resolving)
    }

    method GetItem(key: string) returns (r: Reply)
      modifies this
      ensures (Table(), r) == Lookup(src, old(Table()), key)
      decreases src.dotenv.Keys - resolving, 0
    {
      if key in src.process { return Found(src.process[key]); }
      if key in resolved { return Found(resolved[key]); }
      if key !in src.dotenv { return KeyError; }
      if key in resolving { return Found(""); }
      resolving := resolving + {key};
      var atoms := src.dotenv[key];
      ghost var start := Table();
      var text, i := "", 0;
      assert atoms[0..] == atoms && "" + ResolveAtoms(src, start, atoms).1 == ResolveAtoms(src, start, atoms).1;
      while i < |atoms|
        invariant 0 <= i <= |atoms|
        invariant resolving == old(resolving) + {key}
        invariant ResolveAtoms(src, start, atoms) ==
                  var (m, rest) := ResolveAtoms(src, Table(), atoms[i..]); (m, text + rest)
      {
        assert atoms[i..][0] == atoms[i] && atoms[i..][1..] == atoms[i + 1..];
        ghost var before := text;
        var piece := Resolve(atoms[i]);
        text := text + piece;
        ghost var rest := ResolveAtoms(src, Table(), atoms[i + 1..]).1;
        assert before + (piece + rest) == text + rest;
        i := i + 1;
      }
      assert text + "" == text;
      resolved := resolved[key := text];
      resolving := resolving - {key};
      r := Found(text);
    }

    method Resolve(a: Atom) returns (text: string)
      modifies this
      ensures (Table(), text) == ResolveAtom(src, old(Table()), a)
      decreases src.dotenv.Keys - resolving, 1
    {
      match a
      case Literal(t) => text := t;
      case Variable(name, fallback) =>
        var reply := GetItem(name);
        text := match reply case Found(t) => t case KeyError => FallbackText(a);
    }
  }

  /** A lookup only adds entries to the table: none is dropped or changed. */
  ghost predicate Grown(before: Memo, after: Memo) {
    && after.resolving == before.resolving
    && forall k :: k in before.resolved ==> k in after.resolved && after.resolved[k] == before.resolved[k]
  }

  lemma {:induction false} LookupGrows(src: Sources, m: Memo, key: string)
    ensures Grown(m, Lookup(src, m, key).0)
    decreases src.dotenv.Keys - m.resolving, 0
  {
    if key in src.Computed() && key !in m.resolved && key !in m.resolving {
      ResolveAtomsGrows(src, m.(resolving := m.resolving + {key}), src.dotenv[key]);
    }
  }

  lemma {:induction false} ResolveAtomsGrows(src: Sources, m: Memo, atoms: RawValue)
    ensures Grown(m, ResolveAtoms(src, m, atoms).0)
    decreases src.dotenv.Keys - m.resolving, |atoms| + 1
  {
    if atoms == [] {
    } else {
      if atoms[0].Variable? { LookupGrows(src, m, atoms[0].name); }
      ResolveAtomsGrows(src, ResolveAtom(src, m, atoms[0]).0, atoms[1..]);
    }
  }

  /** The reply is what the naive evaluator answers. */
  ghost predicate Agrees(src: Sources, key: string, r: Reply) {
    Means(src, key, if r.Found? then Text(r.text) else Missing)
  }

  /** Every cached value of a cycle-free key is its plain meaning. Keys on or behind cycles may
      hold anything: what they hold depends on what was looked up first. */
  ghost predicate Sound(src: Sources, m: Memo) {
    forall k :: k in m.resolved && CycleFree(src, k) ==> Agrees(src, k, Found(m.resolved[k]))
  }

  /** The keys in progress are exactly those of a reference path that leads to `key`. */
  ghost predicate OnPath(src: Sources, m: Memo, path: seq<string>, key: string) {
    && m.resolving == (set k | k in path)
    && (path != [] ==> Walk(src, path) && (key in src.Computed() ==> Refers(src, path[|path| - 1], key)))
  }

  /** A key in progress that is referred to again closes a cycle. */
  lemma ClosesLoop(src: Sources, m: Memo, path: seq<string>, key: string) returns (loop: seq<string>)
    requires OnPath(src, m, path, key) && key in src.Computed() && key in m.resolving
    ensures Walk(src, loop) && loop[0] == key && !Distinct(loop)
  {
    var i :| 0 <= i < |path| && path[i] == key;
    loop := path[i..] + [key];
    forall j | 0 < j < |loop| ensures Refers(src, loop[j - 1], loop[j]) {
      if j < |loop| - 1 { assert Refers(src, path[i + j - 1], path[i + j]); }
    }
    assert loop[0] == loop[|loop| - 1];
  }

  /** The cycle breaker never fires for a cycle-free key. */
  lemma CycleFreeIsNotInProgress(src: Sources, m: Memo, path: seq<string>, key: string)
    requires OnPath(src, m, path, key) && CycleFree(src, key) && key in src.Computed()
    ensures key !in m.resolving
  {
    if key in m.resolving { var _ := ClosesLoop(src, m, path, key); }
  }

  lemma {:induction false} LookupAgrees(src: Sources, m: Memo, path: seq<string>, key: string)
    requires Sound(src, m) && OnPath(src, m, path, key)
    ensures Sound(src, Lookup(src, m, key).0)
    ensures CycleFree(src, key) ==> Agrees(src, key, Lookup(src, m, key).1)
    decreases src.dotenv.Keys - m.resolving, 0
  {
    if key !in src.Computed() {
      var answer := Denote(src, 0, key);
      assert Means(src, key, answer);
    } else if key in m.resolved {
    } else if key in m.resolving {
      if CycleFree(src, key) { CycleFreeIsNotInProgress(src, m, path, key); }
    } else {
      var inner := m.(resolving := m.resolving + {key});
      var longer := path + [key];
      if path != [] { ExtendWalk(src, path, key); }
      assert Walk(src, longer) && longer[|longer| - 1] == key;
      assert inner.resolving == set k | k in longer;
      ResolveAtomsAgrees(src, inner, longer, src.dotenv[key]);
      if CycleFree(src, key) {
        forall a | a in src.dotenv[key] && a.Variable? && a.name in src.Computed()
          ensures CycleFree(src, a.name)
        {
          assert Refers(src, key, a.name);
          CycleFreeSuccessor(src, key, a.name);
        }
        var text := ResolveAtoms(src, inner, src.dotenv[key]).1;
        var fuel: nat :| DenoteAtoms(src, fuel, src.dotenv[key]) == Some(text);
        assert Denote(src, fuel + 1, key) == Text(text);
        assert Agrees(src, key, Found(text));
      }
    }
  }

  ghost predicate ReferencesCycleFree(src: Sources, atoms: RawValue) {
    forall a :: a in atoms && a.Variable? && a.name in src.Computed() ==> CycleFree(src, a.name)
  }

  lemma {:induction false} ResolveAtomsAgrees(src: Sources, m: Memo, path: seq<string>, atoms: RawValue)
    requires Sound(src, m) && path != [] && Walk(src, path) && m.resolving == (set k | k in path)
    requires path[|path| - 1] in src.Computed()
    requires forall a :: a in atoms ==> a in src.dotenv[path[|path| - 1]]
    ensures Sound(src, ResolveAtoms(src, m, atoms).0)
    ensures ReferencesCycleFree(src, atoms) ==>
              exists fuel: nat :: DenoteAtoms(src, fuel, atoms) == Some(ResolveAtoms(src, m, atoms).1)
    decreases src.dotenv.Keys - m.resolving, |atoms| + 1
  {
    if atoms == [] {
      assert DenoteAtoms(src, 0, atoms) == Some("");
    } else {
      var a := atoms[0];
      assert a in atoms;
      if a.Variable? {
        if a.name in src.Computed() { assert Refers(src, path[|path| - 1], a.name); }
        LookupAgrees(src, m, path, a.name);
      }
      var (m1, head) := ResolveAtom(src, m, a);
      assert forall b :: b in atoms[1..] ==> b in atoms;
      ResolveAtomsAgrees(src, m1, path, atoms[1..]);
      if ReferencesCycleFree(src, atoms) {
        var f := AtomAgrees(src, m, a);
        var rest := ResolveAtoms(src, m1, atoms[1..]).1;
        assert ReferencesCycleFree(src, atoms[1..]);
        var g: nat :| DenoteAtoms(src, g, atoms[1..]) == Some(rest);
        var h := if f <= g then g else f;
        if a.Variable? { DenoteMonotone(src, f, h, a.name); }
        DenoteAtomsMonotone(src, g, h, atoms[1..]);
        assert DenoteAtoms(src, h, atoms) == Some(head + rest);
      }
    }
  }

  lemma AtomAgrees(src: Sources, m: Memo, a: Atom) returns (fuel: nat)
    requires a.Variable? ==> Agrees(src, a.name, Lookup(src, m, a.name).1)
    ensures DenoteAtom(src, fuel, a) == Some(ResolveAtom(src, m, a).1)
  {
    fuel := 0;
    if a.Variable? {
      var reply := Lookup(src, m, a.name).1;
      fuel :| Denote(src, fuel, a.name) == if reply.Found? then Text(reply.text) else Missing;
    }
  }

  /** A history of subscriptions, starting from a fresh environment. */
  function After(src: Sources, history: seq<string>): (m: Memo)
    ensures m.resolving == {}
  {
    if history == [] then Memo(map[], {})
    else Lookup(src, After(src, history[..|history| - 1]), history[|history| - 1]).0
  }

  lemma {:induction false} AfterIsSound(src: Sources, history: seq<string>)
    ensures Sound(src, After(src, history))
  {
    if history == [] {
    } else {
      AfterIsSound(src, history[..|history| - 1]);
      LookupAgrees(src, After(src, history[..|history| - 1]), [], history[|history| - 1]);
    }
  }

  /** Whatever was looked up before, and whatever cycles exist elsewhere, a cycle-free key yields
      its plain meaning, and raises `KeyError` exactly when it means nothing. */
  lemma MemoAgreesWithPlainMeaning(src: Sources, history: seq<string>, key: string)
    requires CycleFree(src, key)
    ensures var reply := Lookup(src, After(src, history), key).1;
            Plain(src, key) == if reply.Found? then Text(reply.text) else Missing
  {
    AfterIsSound(src, history);
    LookupAgrees(src, After(src, history), [], key);
    var reply := Lookup(src, After(src, history), key).1;
    MeaningIsUnique(src, key, Plain(src, key), if reply.Found? then Text(reply.text) else Missing);
  }

  /** `A=x${B}` and `B=y${A}`. */
  function TwoKeyCycle(): Sources {
    Sources(map[], map["A" := [Literal("x"), Variable("B", None)], "B" := [Literal("y"), Variable("A", None)]])
  }

  /** On that cycle the first lookup decides: `A` reads `xy` when it is asked first, and `x` inside `B` when
      `B` is. */
  lemma CyclesDependOnOrder()
    ensures Lookup(TwoKeyCycle(), After(TwoKeyCycle(), []), "A").1 == Found("xy")
    ensures Lookup(TwoKeyCycle(), After(TwoKeyCycle(), ["B"]), "A").1 == Found("x")
  {
    var src := TwoKeyCycle();
    AskedFirst(src, "A", "B", "x", "y");
    AskedFirst(src, "B", "A", "y", "x");
    assert ["B"][..0] == [];
    assert After(src, ["B"]) == Lookup(src, After(src, ["B"][..0]), "B").0;
    assert After(src, ["B"]).resolved["A"] == "x";
  }

  lemma AskedFirst(src: Sources, k: string, other: string, kText: string, otherText: string)
    requires k != other && src.process == map[] && k in src.dotenv && other in src.dotenv
    requires src.dotenv[k] == [Literal(kText), Variable(other, None)]
    requires src.dotenv[other] == [Literal(otherText), Variable(k, None)]
    ensures Lookup(src, Memo(map[], {}), k) ==
            (Memo(map[other := otherText, k := kText + otherText], {}), Found(kText + otherText))
  {
    var m1 := Memo(map[], {k});
    var m2 := Memo(map[], {k, other});
    assert m2.resolving == m1.resolving + {other};
    assert ResolveAtom(src, m2, Variable(k, None)) == (m2, "");
    TwoAtoms(src, m2, src.dotenv[other]);
    assert otherText + "" == otherText;
    assert m2.resolving - {other} == {k};
    assert Lookup(src, m1, other) == (Memo(map[other := otherText], {k}), Found(otherText));
    TwoAtoms(src, m1, src.dotenv[k]);
    assert {} + {k} == {k};
    assert {k} - {k} == {};
  }

  lemma TwoAtoms(src: Sources, m: Memo, atoms: RawValue)
    requires |atoms| == 2
    ensures var (m1, t1) := ResolveAtom(src, m, atoms[0]);
            var (m2, t2) := ResolveAtom(src, m1, atoms[1]);
            ResolveAtoms(src, m, atoms) == (m2, t1 + t2)
  {
    var (m1, t1) := ResolveAtom(src, m, atoms[0]);
    var (m2, t2) := ResolveAtom(src, m1, atoms[1]);
    assert atoms[1..][1..] == [];
    assert ResolveAtoms(src, m2, atoms[1..][1..]) == (m2, "");
    assert t2 + "" == t2;
    assert ResolveAtoms(src, m1, atoms[1..]) == (m2, t2);
  }
}
