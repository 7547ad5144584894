/** Which loaded values depend on the order of the keys in the dotenv files. */
module LoadOrder {
  import opened DotenvMeaning
  import opened Interpolation
  import opened ReferenceStructure
  import opened LookupOrder
  import opened EnvironmentLoading

  /** `order` lists the dotenv keys once each. */
  ghost predicate IsOrder(src: Sources, order: seq<string>) {
    Distinct(order) && forall k :: k in order <==> k in src.dotenv
  }

  /** `key` ends up with the same value, or undefined, whichever order the keys have. */
  ghost predicate LoadsAlike(src: Sources, key: string) {
    forall o1, o2 :: IsOrder(src, o1) && IsOrder(src, o2) ==> SameLoaded(src, o1, o2, key)
  }

  predicate SameLoaded(src: Sources, o1: seq<string>, o2: seq<string>, key: string) {
    var vars1, vars2 := WriteAll(src, o1).1, WriteAll(src, o2).1;
    (key in vars1 <==> key in vars2) && (key in vars1 ==> vars1[key] == vars2[key])
  }

  /** A loaded value is the one the table ends up with. */
  lemma {:induction false} LoadedIsResolved(src: Sources, order: seq<string>, key: string)
    requires forall k :: k in order ==> k in src.dotenv
    requires key in order && key !in src.process
    ensures var m, vars := After(src, order), WriteAll(src, order).1;
            key in m.resolved && key in vars && vars[key] == m.resolved[key]
  {
    var n := |order| - 1;
    assert order == order[..n] + [order[n]];
    WriteAllTable(src, order[..n]);
    WriteAllTable(src, order);
    LookupGrows(src, After(src, order[..n]), order[n]);
    if key in order[..n] {
      LoadedIsResolved(src, order[..n], key);
    }
  }

  lemma {:induction false} AfterGrows(src: Sources, before: seq<string>, rest: seq<string>)
    ensures Grown(After(src, before), After(src, before + rest))
  {
    if rest == [] {
      assert before + rest == before;
    } else {
      var n := |rest| - 1;
      assert (before + rest)[..|before + rest| - 1] == before + rest[..n];
      AfterGrows(src, before, rest[..n]);
      LookupGrows(src, After(src, before + rest[..n]), rest[n]);
    }
  }

  lemma {:induction false} Listing(s: set<string>) returns (list: seq<string>)
    ensures Distinct(list) && forall k :: k in list <==> k in s
  {
    if s == {} {
      list := [];
    } else {
      var k :| k in s;
      var rest := Listing(s - {k});
      list := [k] + rest;
    }
  }

  /** There is an order that begins with `first` and then has `key`. */
  lemma OrderBeginningWith(src: Sources, first: string, key: string) returns (order: seq<string>, rest: seq<string>)
    requires first in src.dotenv && key in src.dotenv
    ensures IsOrder(src, order) && order == (if first == key then [key] else [first, key]) + rest
  {
    rest := Listing(src.dotenv.Keys - {first, key});
    order := (if first == key then [key] else [first, key]) + rest;
  }

  /** With such an order `key` is loaded as it reads after `first` was looked up. */
  lemma LoadedAfter(src: Sources, first: string, key: string) returns (order: seq<string>)
    requires {first, key} <= src.Computed()
    ensures IsOrder(src, order)
    ensures key in WriteAll(src, order).1
    ensures Lookup(src, After(src, [first]), key).1 == Found(WriteAll(src, order).1[key])
  {
    var rest: seq<string>;
    order, rest := OrderBeginningWith(src, first, key);
    assert key in order;
    LoadedIsResolved(src, order, key);
    var head := if first == key then [key] else [first, key];
    AfterGrows(src, head, rest);
    LookupIsResolved(src, [first], key);
    assert [first, key] == [first] + [key];
    if first == key { LookupIsResolved(src, [], key); assert [] + [key] == [key]; }
  }

  /** Looking up a computed key leaves its answer in the table. */
  lemma LookupIsResolved(src: Sources, history: seq<string>, key: string)
    requires key in src.Computed()
    ensures After(src, history + [key]) == Lookup(src, After(src, history), key).0
    ensures var (m, reply) := Lookup(src, After(src, history), key);
            reply.Found? && key in m.resolved && m.resolved[key] == reply.text
  {
    assert (history + [key])[..|history|] == history;
  }

  /** A loaded value is independent of the order of the keys, whatever the texts around the references
      are, if and only if no cycle through two distinct keys can be reached from its key. */
  lemma LoadOrderIsIrrelevantIff(src: Sources, key: string)
    ensures (forall texts :: SameStructure(src, texts) ==> LoadsAlike(texts, key)) <==> Untangled(src, key)
  {
    if Untangled(src, key) {
      forall texts | SameStructure(src, texts) ensures LoadsAlike(texts, key) {
        SameStructureSameTangles(src, texts, key);
        forall o1, o2 | IsOrder(texts, o1) && IsOrder(texts, o2) ensures SameLoaded(texts, o1, o2, key) {
          LoadOrderIsIrrelevant(texts, o1, o2, key);
        }
      }
    } else {
      var texts, a, mark := TangledDependsOnOrder(src, key);
      var o1 := LoadedAfter(texts, a, key);
      var o2 := LoadedAfter(texts, mark, key);
      assert !SameLoaded(texts, o1, o2, key);
    }
  }
}
