/** What each atom contributes to a value, as laws about rewriting the dotenv file: a reference that is
    resolved outside the file is as good as literal text, a reference to another key is as good as that
    key's own atoms, and literal text reads as it is written. Together they fix every value that does
    not depend on a cycle. */
module ReferenceTexts {
  import opened Wrappers
  import opened DotenvMeaning
  import opened Interpolation

  /** Outside the dotenv values `name` stands for `text`: its process value, or, when nothing defines it,
      the default written in the reference, which is empty if there is none. */
  predicate StandsFor(src: Sources, name: string, fallback: Option<string>, text: string) {
    if name in src.process then text == src.process[name]
    else name !in src.dotenv && (fallback == Some(text) || (fallback == None && text == ""))
  }

  predicate SameText(src: Sources, a: Atom, b: Atom) {
    a == b || (a.Variable? && b.Literal? && StandsFor(src, a.name, a.fallback, b.text))
  }

  predicate SameTexts(src: Sources, a: RawValue, b: RawValue) {
    |a| == |b| && forall i :: 0 <= i < |a| ==> SameText(src, a[i], b[i])
  }

  /** `after` is `before` with such references written out as literal text. */
  predicate WrittenOut(before: Sources, after: Sources) {
    && after.process == before.process && after.dotenv.Keys == before.dotenv.Keys
    && forall k :: k in before.dotenv ==> SameTexts(before, before.dotenv[k], after.dotenv[k])
  }

  /** Only dotenv keys have been finished. */
  predicate FromFile(src: Sources, m: Memo) {
    forall k :: k in m.resolved ==> k in src.dotenv
  }

  lemma {:induction false} LookupWrittenOut(src: Sources, src': Sources, m: Memo, key: string)
    requires WrittenOut(src, src') && FromFile(src, m)
    ensures Lookup(src', m, key) == Lookup(src, m, key) && FromFile(src, Lookup(src, m, key).0)
    decreases src.dotenv.Keys - m.resolving, 0
  {
    if key in src.Computed() && key !in m.resolved && key !in m.resolving {
      var inner := m.(resolving := m.resolving + {key});
      AtomsWrittenOut(src, src', inner, src.dotenv[key], src'.dotenv[key]);
    }
  }

  lemma {:induction false} AtomsWrittenOut(src: Sources, src': Sources, m: Memo, a: RawValue, b: RawValue)
    requires WrittenOut(src, src') && FromFile(src, m) && SameTexts(src, a, b)
    ensures ResolveAtoms(src', m, b) == ResolveAtoms(src, m, a) && FromFile(src, ResolveAtoms(src, m, a).0)
    decreases src.dotenv.Keys - m.resolving, |a| + 1
  {
    if a == [] {
    } else {
      assert SameText(src, a[0], b[0]);
      if a[0].Variable? { LookupWrittenOut(src, src', m, a[0].name); }
      AtomsWrittenOut(src, src', ResolveAtom(src, m, a[0]).0, a[1..], b[1..]);
    }
  }

  lemma {:induction false} AfterWrittenOut(src: Sources, src': Sources, history: seq<string>)
    requires WrittenOut(src, src')
    ensures After(src', history) == After(src, history) && FromFile(src, After(src, history))
  {
    if history == [] {
    } else {
      var before := history[..|history| - 1];
      AfterWrittenOut(src, src', before);
      LookupWrittenOut(src, src', After(src, before), history[|history| - 1]);
    }
  }

  /** The dotenv file with the value of `k` replaced. */
  function With(src: Sources, k: string, atoms: RawValue): Sources {
    src.(dotenv := src.dotenv[k := atoms])
  }

  /** Writing the text a reference stands for in its place changes no reply on any key after any history:
      cycles, cached values and raised `KeyError`s elsewhere included. */
  lemma ReferenceIsItsText(src: Sources, k: string, p: RawValue, name: string, fallback: Option<string>, text: string,
                           q: RawValue, history: seq<string>, key: string)
    requires k in src.dotenv && src.dotenv[k] == p + [Variable(name, fallback)] + q
    requires StandsFor(src, name, fallback, text)
    ensures var src' := With(src, k, p + [Literal(text)] + q);
            Lookup(src', After(src', history), key).1 == Lookup(src, After(src, history), key).1
  {
    var src' := With(src, k, p + [Literal(text)] + q);
    AfterWrittenOut(src, src', history);
    LookupWrittenOut(src, src', After(src, history), key);
  }

  // ---- Literal text ----

  /** The literal texts of a value, one after the other. */
  function Spelled(texts: seq<string>): RawValue {
    seq(|texts|, i requires 0 <= i < |texts| => Literal(texts[i]))
  }

  function Joined(texts: seq<string>): string {
    if texts == [] then "" else texts[0] + Joined(texts[1..])
  }

  /** A value without references reads as its texts in order. */
  lemma LiteralTextIsKept(src: Sources, history: seq<string>, key: string, texts: seq<string>)
    requires key in src.Computed() && src.dotenv[key] == Spelled(texts)
    ensures Lookup(src, After(src, history), key).1 == Found(Joined(texts))
  {
    SpelledDenotesJoined(src, texts);
    assert Denote(src, 1, key) == Text(Joined(texts));
    assert Means(src, key, Text(Joined(texts)));
    MeaningIffCycleFree(src, key);
    MemoAgreesWithPlainMeaning(src, history, key);
    MeaningIsUnique(src, key, Plain(src, key), Text(Joined(texts)));
  }

  lemma {:induction false} SpelledDenotesJoined(src: Sources, texts: seq<string>)
    ensures DenoteAtoms(src, 0, Spelled(texts)) == Some(Joined(texts))
  {
    if texts == [] {
    } else {
      assert Spelled(texts)[1..] == Spelled(texts[1..]);
      SpelledDenotesJoined(src, texts[1..]);
    }
  }

  // ---- References to other keys ----

  /** One value after another. */
  lemma {:induction false} DenoteConcat(src: Sources, fuel: nat, a: RawValue, b: RawValue)
    ensures var x, y := DenoteAtoms(src, fuel, a), DenoteAtoms(src, fuel, b);
            DenoteAtoms(src, fuel, a + b) == if x.Some? && y.Some? then Some(x.value + y.value) else None
  {
    if a == [] {
      assert a + b == b;
      var y := DenoteAtoms(src, fuel, b);
      if y.Some? { assert "" + y.value == y.value; }
    } else {
      assert (a + b)[1..] == a[1..] + b;
      DenoteConcat(src, fuel, a[1..], b);
      var head, x, y := DenoteAtom(src, fuel, a[0]), DenoteAtoms(src, fuel, a[1..]), DenoteAtoms(src, fuel, b);
      if head.Some? && x.Some? && y.Some? {
        assert head.value + (x.value + y.value) == head.value + x.value + y.value;
      }
    }
  }

  lemma DenoteOne(src: Sources, fuel: nat, a: Atom)
    ensures DenoteAtoms(src, fuel, [a]) == DenoteAtom(src, fuel, a)
  {
    assert [a][1..] == [];
    var text := DenoteAtom(src, fuel, a);
    if text.Some? { assert text.value + "" == text.value; }
  }

  /** `k` in `src` is `p`, a reference to the computed key `name`, and `q`. */
  predicate HasReference(src: Sources, k: string, p: RawValue, name: string, fallback: Option<string>, q: RawValue) {
    k in src.dotenv && src.dotenv[k] == p + [Variable(name, fallback)] + q && name in src.Computed()
  }

  /** The file with that reference replaced by the atoms it leads to. */
  function Inlined(src: Sources, k: string, p: RawValue, name: string, q: RawValue): Sources
    requires name in src.dotenv
  {
    With(src, k, p + src.dotenv[name] + q)
  }

  lemma {:induction false} InlinedDenotes(src: Sources, k: string, p: RawValue, name: string, fallback: Option<string>,
                                          q: RawValue, fuel: nat, key: string)
    requires HasReference(src, k, p, name, fallback, q) && Denote(src, fuel, key) != Diverges
    ensures Denote(Inlined(src, k, p, name, q), fuel, key) == Denote(src, fuel, key)
    decreases fuel, 0
  {
    if key in src.Computed() {
      var src' := Inlined(src, k, p, name, q);
      if key == k {
        InlinedValue(src, k, p, name, fallback, q, fuel - 1);
        InlinedAtoms(src, k, p, name, fallback, q, fuel - 1, p + src.dotenv[name] + q);
      } else {
        InlinedAtoms(src, k, p, name, fallback, q, fuel - 1, src.dotenv[key]);
      }
    }
  }

  /** In the original file the inlined value reads as the value with the reference. */
  lemma InlinedValue(src: Sources, k: string, p: RawValue, name: string, fallback: Option<string>, q: RawValue,
                     fuel: nat)
    requires HasReference(src, k, p, name, fallback, q) && DenoteAtoms(src, fuel, src.dotenv[k]).Some?
    ensures DenoteAtoms(src, fuel, p + src.dotenv[name] + q) == DenoteAtoms(src, fuel, src.dotenv[k])
  {
    var a := Variable(name, fallback);
    DenoteConcat(src, fuel, p + [a], q);
    DenoteConcat(src, fuel, p, [a]);
    DenoteOne(src, fuel, a);
    DenoteConcat(src, fuel, p + src.dotenv[name], q);
    DenoteConcat(src, fuel, p, src.dotenv[name]);
    DenoteAtomsMonotone(src, fuel - 1, fuel, src.dotenv[name]);
  }

  lemma {:induction false} InlinedAtoms(src: Sources, k: string, p: RawValue, name: string, fallback: Option<string>,
                                        q: RawValue, fuel: nat, atoms: RawValue)
    requires HasReference(src, k, p, name, fallback, q) && DenoteAtoms(src, fuel, atoms).Some?
    ensures DenoteAtoms(Inlined(src, k, p, name, q), fuel, atoms) == DenoteAtoms(src, fuel, atoms)
    decreases fuel, |atoms| + 1
  {
    if atoms == [] {
    } else {
      if atoms[0].Variable? { InlinedDenotes(src, k, p, name, fallback, q, fuel, atoms[0].name); }
      InlinedAtoms(src, k, p, name, fallback, q, fuel, atoms[1..]);
    }
  }

  /** Inlining a reference to another dotenv key changes no reply on a cycle-free key, whatever was looked
      up before in either file. */
  lemma ReferenceIsItsDefinition(src: Sources, k: string, p: RawValue, name: string, fallback: Option<string>,
                                 q: RawValue, history: seq<string>, history': seq<string>, key: string)
    requires HasReference(src, k, p, name, fallback, q) && CycleFree(src, key)
    ensures var src' := Inlined(src, k, p, name, q);
            && CycleFree(src', key)
            && Lookup(src', After(src', history'), key).1 == Lookup(src, After(src, history), key).1
  {
    var src' := Inlined(src, k, p, name, q);
    var m := Plain(src, key);
    var fuel: nat :| Denote(src, fuel, key) == m;
    InlinedDenotes(src, k, p, name, fallback, q, fuel, key);
    assert Means(src', key, m);
    MeaningIffCycleFree(src', key);
    MemoAgreesWithPlainMeaning(src, history, key);
    MemoAgreesWithPlainMeaning(src', history', key);
    MeaningIsUnique(src', key, m, Plain(src', key));
  }
}
