/** Loading the project and home dotenv files into a process environment. */
module EnvironmentLoading {
  import opened Wrappers
  import opened DotenvMeaning
  import opened Interpolation
  import opened ReferenceStructure

  /** The entries of one dotenv file in file order; a bare key without `=` has no value. */
  type DotenvFile = seq<(string, Option<RawValue>)>

  type Definition = (string, RawValue)

  /** An insertion-ordered dictionary of raw values. */
  datatype Merged = Merged(order: seq<string>, values: map<string, RawValue>)

  const DISABLE_KEY := "CEREBRO_DISABLE_DOTENV"
  const DISABLE_WORDS := {"1", "true", "yes", "on"}

  function LowerChar(c: char): char {
    if 'A' <= c <= 'Z' then c - 'A' + 'a' else c
  }

  function Lower(s: string): string {
    seq(|s|, i requires 0 <= i < |s| => LowerChar(s[i]))
  }

  predicate Disabled(vars: map<string, string>) {
    DISABLE_KEY in vars && Lower(vars[DISABLE_KEY]) in DISABLE_WORDS
  }

  /** The definitions a file contributes, if the file exists. */
  function Definitions(file: Option<DotenvFile>): seq<Definition> {
    if file.None? then [] else DefinedEntries(file.value)
  }

  function DefinedEntries(entries: DotenvFile): seq<Definition> {
    if entries == [] then []
    else
      var n := |entries| - 1;
      DefinedEntries(entries[..n]) + (if entries[n].1.Some? then [(entries[n].0, entries[n].1.value)] else [])
  }

  /** The value the last definition of `key` gives it. */
  function LastOf(defs: seq<Definition>, key: string): Option<RawValue> {
    if defs == [] then None
    else if defs[|defs| - 1].0 == key then Some(defs[|defs| - 1].1)
    else LastOf(defs[..|defs| - 1], key)
  }

  /** The defined keys, each at the place of its first definition. */
  function FirstSeen(defs: seq<Definition>): seq<string> {
    if defs == [] then []
    else
      var before := FirstSeen(defs[..|defs| - 1]);
      var key := defs[|defs| - 1].0;
      if key in before then before else before + [key]
  }

  /** `m` is the dictionary that `defs`, assigned one after the other, builds. */
  ghost predicate Builds(defs: seq<Definition>, m: Merged) {
    && m.order == FirstSeen(defs)
    && forall k :: LastOf(defs, k) == if k in m.values then Some(m.values[k]) else None
  }

  lemma BuildsNext(defs: seq<Definition>, m: Merged, d: Definition)
    requires Builds(defs, m)
    ensures Builds(defs + [d], Merged(if d.0 in m.order then m.order else m.order + [d.0], m.values[d.0 := d.1]))
  {
    assert (defs + [d])[..|defs|] == defs;
  }

  /** Assigns the entries of one file into `m`. */
  method MergeFile(m: Merged, entries: DotenvFile, ghost defs: seq<Definition>) returns (r: Merged)
    requires Builds(defs, m)
    ensures Builds(defs + DefinedEntries(entries), r)
  {
    r := m;
    ghost var done := defs;
    assert defs == defs + DefinedEntries(entries[..0]);
    for i := 0 to |entries|
      invariant done == defs + DefinedEntries(entries[..i])
      invariant Builds(done, r)
    {
      assert entries[..i + 1][..i] == entries[..i];
      var (key, value) := entries[i];
      if value.Some? {
        BuildsNext(done, r, (key, value.value));
        r := Merged(if key in r.order then r.order else r.order + [key], r.values[key := value.value]);
        done := done + [(key, value.value)];
      }
      assert done == defs + DefinedEntries(entries[..i + 1]);
    }
    assert entries[..|entries|] == entries;
  }

  method MergeFiles(project: Option<DotenvFile>, home: Option<DotenvFile>) returns (m: Merged)
    ensures m == MergedOf(project, home)
  {
    m := Merged([], map[]);
    var files := [project, home];
    ghost var done: seq<Definition> := [];
    for f := 0 to |files|
      invariant done == (if f > 0 then Definitions(project) else []) + (if f > 1 then Definitions(home) else [])
      invariant Builds(done, m)
    {
      if files[f].Some? {
        m := MergeFile(m, files[f].value, done);
      }
      done := done + Definitions(files[f]);
    }
    BuildsIsMergedOf(project, home, m);
  }

  /** The merged dictionary of the project file and, after it, the home file. */
  function MergedOf(project: Option<DotenvFile>, home: Option<DotenvFile>): Merged {
    var defs := Definitions(project) + Definitions(home);
    Merged(FirstSeen(defs), map k <- FirstSeen(defs) | LastOf(defs, k).Some? :: LastOf(defs, k).value)
  }

  lemma {:induction false} FirstSeenIsDefined(defs: seq<Definition>, key: string)
    ensures key in FirstSeen(defs) <==> LastOf(defs, key).Some?
    ensures Distinct(FirstSeen(defs))
  {
    if defs == [] {
    } else {
      FirstSeenIsDefined(defs[..|defs| - 1], key);
    }
  }

  lemma BuildsIsMergedOf(project: Option<DotenvFile>, home: Option<DotenvFile>, m: Merged)
    requires Builds(Definitions(project) + Definitions(home), m)
    ensures m == MergedOf(project, home)
  {
    var defs := Definitions(project) + Definitions(home);
    var spec := MergedOf(project, home);
    forall k ensures k in m.values <==> k in spec.values
      ensures k in m.values ==> m.values[k] == spec.values[k]
    {
      FirstSeenIsDefined(defs, k);
    }
    assert m.values == spec.values;
  }

  lemma {:induction false} LastOfConcat(a: seq<Definition>, b: seq<Definition>, key: string)
    ensures LastOf(a + b, key) == if LastOf(b, key).Some? then LastOf(b, key) else LastOf(a, key)
  {
    if b == [] {
      assert a + b == a;
    } else {
      var n := |b| - 1;
      assert (a + b)[..|a + b| - 1] == a + b[..n];
      LastOfConcat(a, b[..n], key);
    }
  }

  /** The home file overrides the project file, and a bare key overrides nothing. */
  lemma HomeOverridesProject(project: Option<DotenvFile>, home: Option<DotenvFile>, key: string)
    ensures var values := MergedOf(project, home).values;
            var inHome := LastOf(Definitions(home), key);
            var chosen := if inHome.Some? then inHome else LastOf(Definitions(project), key);
            chosen == if key in values then Some(values[key]) else None
  {
    FirstSeenIsDefined(Definitions(project) + Definitions(home), key);
    LastOfConcat(Definitions(project), Definitions(home), key);
  }

  /** One turn of the write-back loop: the keys of the snapshot are skipped. */
  function WriteOne(src: Sources, m: Memo, vars: map<string, string>, key: string): (Memo, map<string, string>) {
    if key in src.process then (m, vars)
    else
      var (next, reply) := Lookup(src, m, key);
      (next, if reply.Found? then vars[key := reply.text] else vars)
  }

  /** The whole loop, from a fresh table and the environment the snapshot was taken of. */
  function WriteAll(src: Sources, order: seq<string>): (Memo, map<string, string>) {
    if order == [] then (Memo(map[], {}), src.process)
    else
      var (m, vars) := WriteAll(src, order[..|order| - 1]);
      WriteOne(src, m, vars, order[|order| - 1])
  }

  /** The environment after loading. The snapshot is taken before the first write. */
  function LoadResult(vars: map<string, string>, project: Option<DotenvFile>, home: Option<DotenvFile>)
    : map<string, string>
  {
    if Disabled(vars) then vars
    else
      var merged := MergedOf(project, home);
      WriteAll(Sources(vars, merged.values), merged.order).1
  }

  class ProcessEnvironment {
    var vars: map<string, string>

    method Load(project: Option<DotenvFile>, home: Option<DotenvFile>)
      modifies this
      ensures vars == LoadResult(old(vars), project, home)
    {
      if DISABLE_KEY in vars {
        if Lower(vars[DISABLE_KEY]) in DISABLE_WORDS { return; }
      }
      var processValues := vars;
      var merged := MergeFiles(project, home);
      var environment := new InterpolationEnvironment(processValues, merged.values);
      for i := 0 to |merged.order|
        invariant fresh(environment) && environment.src == Sources(processValues, merged.values)
        invariant (environment.Table(), vars) == WriteAll(environment.src, merged.order[..i])
      {
        assert merged.order[..i + 1][..i] == merged.order[..i];
        WriteKey(environment, merged.order[i]);
      }
      assert merged.order[..|merged.order|] == merged.order;
    }

    method WriteKey(environment: InterpolationEnvironment, key: string)
      modifies this, environment
      ensures (environment.Table(), vars) == WriteOne(environment.src, old(environment.Table()), old(vars), key)
    {
      if key !in environment.src.process {
        var reply := environment.GetItem(key);
        if reply.Found? { vars := vars[key := reply.text]; }
      }
    }
  }

  lemma {:induction false} WriteAllTable(src: Sources, order: seq<string>)
    ensures WriteAll(src, order).0 == After(src, order)
  {
    if order == [] {
    } else {
      WriteAllTable(src, order[..|order| - 1]);
    }
  }

  /** Every key of the dictionary gets defined, and no key of the snapshot is touched. */
  lemma {:induction false} WrittenKeys(src: Sources, order: seq<string>, key: string)
    requires forall k :: k in order ==> k in src.dotenv
    ensures var vars := WriteAll(src, order).1;
            && (key in vars <==> key in src.process || key in order)
            && (key in src.process ==> vars[key] == src.process[key])
  {
    if order == [] {
    } else {
      var n := |order| - 1;
      assert order == order[..n] + [order[n]];
      WrittenKeys(src, order[..n], key);
    }
  }

  lemma DefinedIsNotMissing(src: Sources, key: string)
    requires key in src.dotenv && CycleFree(src, key)
    ensures Plain(src, key) != Missing
  {
    var fuel: nat :| Denote(src, fuel, key) == Plain(src, key);
  }

  /** What is loaded for a key is the answer to some lookup of it. */
  lemma {:induction false} LoadedIsLookedUp(src: Sources, order: seq<string>, key: string)
    returns (history: seq<string>)
    requires forall k :: k in order ==> k in src.dotenv
    requires key in order && key !in src.process
    ensures var vars, reply := WriteAll(src, order).1, Lookup(src, After(src, history), key).1;
            key in vars && (reply.Found? ==> vars[key] == reply.text)
  {
    var n := |order| - 1;
    assert order == order[..n] + [order[n]];
    WriteAllTable(src, order[..n]);
    WrittenKeys(src, order, key);
    if order[n] == key {
      history := order[..n];
    } else {
      history := LoadedIsLookedUp(src, order[..n], key);
    }
  }

  /** An untangled key is loaded with the plain meaning it has without self-references. */
  lemma LoadedIsPlainWithoutSelfReferences(src: Sources, order: seq<string>, key: string)
    requires forall k :: k in order ==> k in src.dotenv
    requires key in order && key !in src.process && Untangled(src, key)
    ensures CycleFree(WithoutSelfReferences(src), key)
    ensures var vars := WriteAll(src, order).1;
            key in vars && Plain(WithoutSelfReferences(src), key) == Text(vars[key])
  {
    var history := LoadedIsLookedUp(src, order, key);
    UntangledHasOneMeaning(src, history, key);
    DefinedIsNotMissing(WithoutSelfReferences(src), key);
  }

  /** Every cycle-free key is loaded with its plain meaning, wherever it stands in the order. */
  lemma LoadedIsPlain(src: Sources, order: seq<string>, key: string)
    requires forall k :: k in order ==> k in src.dotenv
    requires key in order && key !in src.process && CycleFree(src, key)
    ensures var vars := WriteAll(src, order).1;
            key in vars && Plain(src, key) == Text(vars[key])
  {
    CycleFreeIsUntangled(src, key);
    LoadedIsPlainWithoutSelfReferences(src, order, key);
    UntangledHasOneMeaning(src, [], key);
    MemoAgreesWithPlainMeaning(src, [], key);
  }

  /** So the order of the keys does not matter to a key from which no cycle through two distinct keys can
      be reached. */
  lemma LoadOrderIsIrrelevant(src: Sources, order1: seq<string>, order2: seq<string>, key: string)
    requires forall k :: k in order1 ==> k in src.dotenv
    requires forall k :: k in order1 <==> k in order2
    requires Untangled(src, key)
    ensures var vars1, vars2 := WriteAll(src, order1).1, WriteAll(src, order2).1;
            (key in vars1 <==> key in vars2) && (key in vars1 ==> vars1[key] == vars2[key])
  {
    WrittenKeys(src, order1, key);
    WrittenKeys(src, order2, key);
    if key in order1 && key !in src.process {
      LoadedIsPlainWithoutSelfReferences(src, order1, key);
      LoadedIsPlainWithoutSelfReferences(src, order2, key);
    }
  }

  /** Loading defines exactly the merged keys that were not set, and keeps every key that was. */
  lemma LoadKeepsProcessValues(vars: map<string, string>, project: Option<DotenvFile>, home: Option<DotenvFile>,
                               key: string)
    requires !Disabled(vars)
    ensures var result := LoadResult(vars, project, home);
            && (key in result <==> key in vars || key in MergedOf(project, home).values)
            && (key in vars ==> result[key] == vars[key])
  {
    var merged := MergedOf(project, home);
    forall k ensures k in merged.order <==> k in merged.values {
      FirstSeenIsDefined(Definitions(project) + Definitions(home), k);
    }
    WrittenKeys(Sources(vars, merged.values), merged.order, key);
  }

  /** Loading the same files again changes nothing. */
  lemma LoadIsIdempotent(vars: map<string, string>, project: Option<DotenvFile>, home: Option<DotenvFile>)
    ensures var once := LoadResult(vars, project, home);
            LoadResult(once, project, home) == once
  {
    var once := LoadResult(vars, project, home);
    var twice := LoadResult(once, project, home);
    if !Disabled(vars) && !Disabled(once) {
      forall k ensures (k in twice <==> k in once) && (k in once ==> twice[k] == once[k]) {
        LoadKeepsProcessValues(vars, project, home, k);
        LoadKeepsProcessValues(once, project, home, k);
      }
    }
  }

  // ---- The switch ----

  predicate Capital(c: char) {
    'A' <= c <= 'Z'
  }

  /** `value` is `word` with any of its letters capitalised. */
  predicate Spells(value: string, word: string) {
    && |value| == |word|
    && forall i :: 0 <= i < |word| ==>
         value[i] == word[i] || (Capital(value[i]) && value[i] as int + 32 == word[i] as int)
  }

  lemma LowerIffSpells(value: string, word: string)
    requires forall c :: c in word ==> !Capital(c)
    ensures Lower(value) == word <==> Spells(value, word)
  {
    if |value| == |word| {
      forall i | 0 <= i < |word| ensures Lower(value)[i] == word[i] <==>
          value[i] == word[i] || (Capital(value[i]) && value[i] as int + 32 == word[i] as int)
      {
        assert word[i] in word;
      }
    }
  }

  /** The variable is set to one of the four words, in capitals or not. */
  predicate SwitchedOff(vars: map<string, string>) {
    && "CEREBRO_DISABLE_DOTENV" in vars
    && var value := vars["CEREBRO_DISABLE_DOTENV"];
       Spells(value, "1") || Spells(value, "true") || Spells(value, "yes") || Spells(value, "on")
  }

  lemma DisabledIffSwitchedOff(vars: map<string, string>)
    ensures Disabled(vars) <==> SwitchedOff(vars)
  {
    if DISABLE_KEY in vars {
      var value := vars[DISABLE_KEY];
      LowerIffSpells(value, "1");
      LowerIffSpells(value, "true");
      LowerIffSpells(value, "yes");
      LowerIffSpells(value, "on");
    }
  }

  /** Loading defines every merged key unless the switch is set to one of its words, and then changes
      nothing. */
  lemma LoadsUnlessSwitchedOff(vars: map<string, string>, project: Option<DotenvFile>, home: Option<DotenvFile>,
                               key: string)
    ensures SwitchedOff(vars) ==> LoadResult(vars, project, home) == vars
    ensures key in LoadResult(vars, project, home) <==>
            key in vars || (!SwitchedOff(vars) && key in MergedOf(project, home).values)
  {
    DisabledIffSwitchedOff(vars);
    if !Disabled(vars) { LoadKeepsProcessValues(vars, project, home, key); }
  }

  // ---- What the files define ----

  predicate Defines(file: Option<DotenvFile>, key: string) {
    file.Some? && DefinesAmong(file.value, key)
  }

  predicate DefinesAmong(entries: DotenvFile, key: string) {
    exists i :: 0 <= i < |entries| && entries[i].0 == key && entries[i].1.Some?
  }

  /** The last line of the file that gives `key` a value gives it `value`. */
  ghost predicate LastDefines(file: Option<DotenvFile>, key: string, value: RawValue) {
    file.Some? && exists i :: 0 <= i < |file.value| && file.value[i] == (key, Some(value))
                              && !DefinesAmong(file.value[i + 1..], key)
  }

  lemma LastOfNext(entries: DotenvFile, key: string)
    requires entries != []
    ensures var n := |entries| - 1;
            LastOf(DefinedEntries(entries), key) ==
              if entries[n].0 == key && entries[n].1.Some? then entries[n].1
              else LastOf(DefinedEntries(entries[..n]), key)
  {
    var n := |entries| - 1;
    var defs := DefinedEntries(entries[..n]);
    if entries[n].1.Some? {
      assert (defs + [(entries[n].0, entries[n].1.value)])[..|defs|] == defs;
    } else {
      assert DefinedEntries(entries) == defs;
    }
  }

  lemma {:induction false} LastOfDefined(entries: DotenvFile, key: string)
    ensures LastOf(DefinedEntries(entries), key).Some? <==> DefinesAmong(entries, key)
  {
    if entries == [] {
    } else {
      var n := |entries| - 1;
      LastOfNext(entries, key);
      LastOfDefined(entries[..n], key);
      assert forall i :: 0 <= i < n ==> entries[..n][i] == entries[i];
    }
  }

  lemma {:induction false} LastOfEntry(entries: DotenvFile, i: nat, key: string)
    requires i < |entries| && entries[i].0 == key && entries[i].1.Some? && !DefinesAmong(entries[i + 1..], key)
    ensures LastOf(DefinedEntries(entries), key) == entries[i].1
  {
    var n := |entries| - 1;
    LastOfNext(entries, key);
    if i < n {
      assert entries[i + 1..][n - i - 1] == entries[n];
      assert entries[..n][i + 1..] == entries[i + 1..][..n - i - 1];
      LastOfEntry(entries[..n], i, key);
    }
  }

  lemma LastDefinesIsLast(file: Option<DotenvFile>, key: string, value: RawValue)
    ensures LastOf(Definitions(file), key).Some? <==> Defines(file, key)
    ensures LastDefines(file, key, value) ==> LastOf(Definitions(file), key) == Some(value)
  {
    if file.Some? { LastOfDefined(file.value, key); }
    if LastDefines(file, key, value) {
      var i :| 0 <= i < |file.value| && file.value[i] == (key, Some(value)) && !DefinesAmong(file.value[i + 1..], key);
      LastOfEntry(file.value, i, key);
    }
  }

  /** A key is merged exactly when a line of a file gives it a value; the last such line of the home file
      decides, and without one the last such line of the project file. */
  lemma MergedAsWritten(project: Option<DotenvFile>, home: Option<DotenvFile>, key: string, value: RawValue)
    ensures var values := MergedOf(project, home).values;
            && (key in values <==> Defines(project, key) || Defines(home, key))
            && (LastDefines(home, key, value) ==> key in values && values[key] == value)
            && (LastDefines(project, key, value) && !Defines(home, key) ==> key in values && values[key] == value)
  {
    HomeOverridesProject(project, home, key);
    LastDefinesIsLast(project, key, value);
    LastDefinesIsLast(home, key, value);
  }
}
