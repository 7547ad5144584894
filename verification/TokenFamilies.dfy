/** Rotation in every interleaving: a login and its refreshes form one chain of pairs. */
module TokenFamilies {
  import opened Wrappers
  import opened TokenProtocol
  import opened TokenInvariants

  /** What can still give a login family its next pair: a refresh record in the store, or a call
      between GETDEL and SETEX (for a login, before its SETEX). */
  datatype Carrier = RecordOf(id: PairId) | CallOf(call: CallId)

  ghost predicate Carries(s: State, c: Carrier) {
    match c
    case RecordOf(id) => id in s.refresh && id in s.minted
    case CallOf(p) => p in s.calls && (s.calls[p].Minting? || (s.calls[p].Storing? && s.calls[p].id in s.minted))
  }

  ghost function FamilyOf(s: State, c: Carrier): CallId
    requires Carries(s, c)
  {
    match c
    case RecordOf(id) => s.minted[id].family
    case CallOf(p) => if s.calls[p].Minting? then s.calls[p].family else s.minted[s.calls[p].id].family
  }

  /** The newest generation minted by what `c` stands for. */
  ghost function Reach(s: State, c: Carrier): int
    requires Carries(s, c)
  {
    match c
    case RecordOf(id) => s.minted[id].generation
    case CallOf(p) => if s.calls[p].Minting? then s.calls[p].generation - 1 else s.minted[s.calls[p].id].generation
  }

  /** A pair without parent is its family's first; any other follows its parent. */
  ghost predicate Follows(s: State, parent: Option<PairId>, family: CallId, generation: nat) {
    match parent
    case None => generation == 0
    case Some(q) => q in s.minted && s.minted[q].family == family && s.minted[q].generation + 1 == generation
  }

  ghost predicate OneCarrier(s: State) {
    forall c, d :: Carries(s, c) && Carries(s, d) && FamilyOf(s, c) == FamilyOf(s, d) ==> c == d
  }

  ghost predicate CarriersAreNewest(s: State) {
    forall c, id :: Carries(s, c) && id in s.minted && s.minted[id].family == FamilyOf(s, c) ==>
      s.minted[id].generation <= Reach(s, c)
  }

  ghost predicate FamiliesStarted(s: State) {
    && (forall c :: Carries(s, c) ==> FamilyOf(s, c) in s.calls)
    && (forall id :: id in s.minted ==> s.minted[id].family in s.calls)
  }

  ghost predicate OnePairPerGeneration(s: State) {
    forall i, j :: i in s.minted && j in s.minted ==>
      (s.minted[i].family == s.minted[j].family && s.minted[i].generation == s.minted[j].generation ==> i == j)
  }

  ghost predicate AllFollow(s: State) {
    && (forall id :: id in s.minted ==> Follows(s, s.minted[id].parent, s.minted[id].family, s.minted[id].generation))
    && (forall p :: p in s.calls && s.calls[p].Minting? ==>
          Follows(s, s.calls[p].parent, s.calls[p].family, s.calls[p].generation))
  }

  ghost predicate Chained(s: State) {
    OneCarrier(s) && CarriersAreNewest(s) && FamiliesStarted(s) && OnePairPerGeneration(s) && AllFollow(s)
  }

  /** `c` stands in `s'` for what `d` stood for in `s`. */
  ghost predicate Replaces(s: State, s': State, c: Carrier, d: Carrier) {
    Carries(s', c) && Carries(s, d) && FamilyOf(s', c) == FamilyOf(s, d) && Reach(s', c) == Reach(s, d)
  }

  /** Each carrier of `s'` replaces one of before and no two replace the same one: `y` replaces `x`
      and every other carrier replaces itself. */
  ghost predicate AllReplaced(s: State, s': State, x: Carrier, y: Carrier) {
    && (forall c :: Carries(s', c) && c != y ==> c != x && Replaces(s, s', c, c))
    && (Carries(s', y) ==> Replaces(s, s', y, x))
  }

  lemma ReplacingKeepsOneCarrier(s: State, s': State, x: Carrier, y: Carrier)
    requires OneCarrier(s) && AllReplaced(s, s', x, y)
    ensures OneCarrier(s')
  {
  }

  lemma ReplacingKeepsOrder(s: State, s': State, x: Carrier, y: Carrier)
    requires CarriersAreNewest(s) && FamiliesStarted(s) && OnePairPerGeneration(s)
    requires AllReplaced(s, s', x, y) && s'.minted == s.minted && s.calls.Keys <= s'.calls.Keys
    ensures CarriersAreNewest(s') && FamiliesStarted(s') && OnePairPerGeneration(s')
  {
  }

  /** So a step that mints nothing keeps the chains. */
  lemma ReplacingKeepsChained(s: State, s': State, x: Carrier, y: Carrier)
    requires Chained(s) && AllReplaced(s, s', x, y) && s'.minted == s.minted && s.calls.Keys <= s'.calls.Keys
    requires forall p :: p in s'.calls && s'.calls[p].Minting? ==>
               Follows(s', s'.calls[p].parent, s'.calls[p].family, s'.calls[p].generation)
    ensures Chained(s')
  {
    ReplacingKeepsOneCarrier(s, s', x, y);
    ReplacingKeepsOrder(s, s', x, y);
    forall id | id in s'.minted
      ensures Follows(s', s'.minted[id].parent, s'.minted[id].family, s'.minted[id].generation)
    {
      assert Follows(s, s.minted[id].parent, s.minted[id].family, s.minted[id].generation);
    }
  }

  /** A state with the same pairs and no new carriers. */
  lemma FewerCarriersKeepsChained(s: State, s': State)
    requires Chained(s) && s'.minted == s.minted && s.calls.Keys <= s'.calls.Keys
    requires forall c :: Carries(s', c) ==> Replaces(s, s', c, c)
    requires forall p :: p in s'.calls && s'.calls[p].Minting? ==> p in s.calls && s'.calls[p] == s.calls[p]
    ensures Chained(s')
  {
    forall p | p in s'.calls && s'.calls[p].Minting?
      ensures Follows(s', s'.calls[p].parent, s'.calls[p].family, s'.calls[p].generation)
    {
      assert Follows(s, s.calls[p].parent, s.calls[p].family, s.calls[p].generation);
    }
    var anyone := RecordOf(0);
    ReplacingKeepsChained(s, s', anyone, anyone);
  }

  lemma MintingStillFollows(s: State, s': State, p: CallId)
    requires AllFollow(s) && s'.minted == s.minted && p in s'.calls && s'.calls == s.calls[p := s'.calls[p]]
    requires var c := s'.calls[p]; c.Minting? ==> Follows(s', c.parent, c.family, c.generation)
    ensures forall q :: q in s'.calls && s'.calls[q].Minting? ==>
              Follows(s', s'.calls[q].parent, s'.calls[q].family, s'.calls[q].generation)
  {
    forall q | q in s'.calls && s'.calls[q].Minting?
      ensures Follows(s', s'.calls[q].parent, s'.calls[q].family, s'.calls[q].generation)
    {
      if q != p { assert Follows(s, s.calls[q].parent, s.calls[q].family, s.calls[q].generation); }
    }
  }

  /** One carrier replaces another while call `p` moves. */
  lemma ReplacementKeepsChained(s: State, s': State, x: Carrier, y: Carrier, p: CallId)
    requires Chained(s) && AllReplaced(s, s', x, y) && s'.minted == s.minted
    requires p in s'.calls && s'.calls == s.calls[p := s'.calls[p]]
    requires var c := s'.calls[p]; c.Minting? ==> Follows(s', c.parent, c.family, c.generation)
    ensures Chained(s')
  {
    MintingStillFollows(s, s', p);
    ReplacingKeepsChained(s, s', x, y);
  }

  lemma LoginKeepsChained(s: State, p: CallId, c: Call)
    requires Chained(s) && p !in s.calls && c.Minting? && c.family == p && c.generation == 0 && c.parent == None
    ensures Chained(s.To(p, c))
  {
    var s' := s.To(p, c);
    forall d | Carries(s', d) && d != CallOf(p) ensures Replaces(s, s', d, d) {
    }
    assert FamilyOf(s', CallOf(p)) == p;
    MintingStillFollows(s, s', p);
    forall j | j in s'.minted
      ensures Follows(s', s'.minted[j].parent, s'.minted[j].family, s'.minted[j].generation)
    {
      assert Follows(s, s.minted[j].parent, s.minted[j].family, s.minted[j].generation);
    }
  }

  lemma ConsumeReplaces(s: State, p: CallId, c': Call, id: PairId)
    requires p in s.calls && s.calls[p].Consuming? && EffectOk(s, s.calls[p], c', Drop(id)) && c'.Minting?
    ensures AllReplaced(s, Apply(s, Drop(id)).To(p, c'), RecordOf(id), CallOf(p))
  {
  }

  /** A successful GETDEL: the record goes, the call takes its place. */
  lemma ConsumeKeepsChained(s: State, p: CallId, c': Call, id: PairId)
    requires Chained(s) && p in s.calls && s.calls[p].Consuming?
    requires EffectOk(s, s.calls[p], c', Drop(id)) && c'.Minting?
    ensures Chained(Apply(s, Drop(id)).To(p, c'))
  {
    ConsumeReplaces(s, p, c', id);
    ReplacementKeepsChained(s, Apply(s, Drop(id)).To(p, c'), RecordOf(id), CallOf(p), p);
  }

  lemma MintReplaces(s: State, p: CallId, c': Call, id: PairId, pair: Pair)
    requires WellFormed(s) && p in s.calls && EffectOk(s, s.calls[p], c', Mint(id, pair))
    ensures var s', y := Apply(s, Mint(id, pair)).To(p, c'), CallOf(p);
            && (forall d :: Carries(s', d) && d != y ==> Replaces(s, s', d, d))
            && Carries(s, y) && Carries(s', y) && FamilyOf(s', y) == FamilyOf(s, y) && Reach(s', y) == Reach(s, y) + 1
  {
    var s', y := Apply(s, Mint(id, pair)).To(p, c'), CallOf(p);
    forall d | Carries(s', d) && d != y ensures Replaces(s, s', d, d) {
      if d.CallOf? { assert CallOk(s, s.calls[d.call]); }
    }
  }

  /** The minted pair is newer than every pair of its family. */
  lemma MintIsNewest(s: State, p: CallId, c': Call, id: PairId, pair: Pair)
    requires p in s.calls && EffectOk(s, s.calls[p], c', Mint(id, pair)) && CarriersAreNewest(s)
    ensures forall j :: j in s.minted && s.minted[j].family == pair.family ==> s.minted[j].generation < pair.generation
  {
    assert Carries(s, CallOf(p)) && Reach(s, CallOf(p)) == pair.generation - 1;
  }

  lemma MintKeepsCarriers(s: State, p: CallId, c': Call, id: PairId, pair: Pair)
    requires WellFormed(s) && p in s.calls && EffectOk(s, s.calls[p], c', Mint(id, pair))
    requires OneCarrier(s) && CarriersAreNewest(s)
    ensures var s' := Apply(s, Mint(id, pair)).To(p, c'); OneCarrier(s') && CarriersAreNewest(s')
  {
    MintReplaces(s, p, c', id, pair);
    MintIsNewest(s, p, c', id, pair);
  }

  lemma MintKeepsPairs(s: State, p: CallId, c': Call, id: PairId, pair: Pair)
    requires WellFormed(s) && p in s.calls && EffectOk(s, s.calls[p], c', Mint(id, pair))
    requires CarriersAreNewest(s) && FamiliesStarted(s) && OnePairPerGeneration(s)
    ensures var s' := Apply(s, Mint(id, pair)).To(p, c'); FamiliesStarted(s') && OnePairPerGeneration(s')
  {
    MintReplaces(s, p, c', id, pair);
    MintIsNewest(s, p, c', id, pair);
    assert Carries(s, CallOf(p));
  }

  lemma MintKeepsFollows(s: State, p: CallId, c': Call, id: PairId, pair: Pair)
    requires AllFollow(s) && p in s.calls && EffectOk(s, s.calls[p], c', Mint(id, pair))
    ensures AllFollow(Apply(s, Mint(id, pair)).To(p, c'))
  {
    var s' := Apply(s, Mint(id, pair)).To(p, c');
    assert Follows(s, s.calls[p].parent, s.calls[p].family, s.calls[p].generation);
    forall j | j in s'.minted
      ensures Follows(s', s'.minted[j].parent, s'.minted[j].family, s'.minted[j].generation)
    {
      if j != id { assert Follows(s, s.minted[j].parent, s.minted[j].family, s.minted[j].generation); }
    }
  }

  lemma StoreReplaces(s: State, p: CallId, c': Call, id: PairId, handOut: bool)
    requires WellFormed(s) && p in s.calls && s.calls[p] == Storing(id) && id in s.minted && c'.Done?
    ensures AllReplaced(s, Apply(s, Store(id, handOut)).To(p, c'), CallOf(p), RecordOf(id))
  {
  }

  /** SETEX: the call is over and its record takes its place. */
  lemma StoreKeepsChained(s: State, p: CallId, c': Call, id: PairId, handOut: bool)
    requires WellFormed(s) && Chained(s) && p in s.calls && s.calls[p] == Storing(id) && id in s.minted && c'.Done?
    ensures Chained(Apply(s, Store(id, handOut)).To(p, c'))
  {
    StoreReplaces(s, p, c', id, handOut);
    ReplacementKeepsChained(s, Apply(s, Store(id, handOut)).To(p, c'), CallOf(p), RecordOf(id), p);
  }

  /** Any other access only loses carriers. */
  lemma OtherKeepsChained(s: State, p: CallId, c': Call, e: Effect)
    requires Chained(s) && p in s.calls && !e.Mint? && !e.Store?
    requires c'.Minting? || c'.Storing? ==> c' == s.calls[p]
    ensures Chained(Apply(s, e).To(p, c'))
  {
    var s' := Apply(s, e).To(p, c');
    forall d | Carries(s', d) ensures Replaces(s, s', d, d) { OtherKeepsCarrier(s, p, c', e, d); }
    OtherMintsNothing(s, p, c', e);
    FewerCarriersKeepsChained(s, s');
  }

  lemma OtherKeepsCarrier(s: State, p: CallId, c': Call, e: Effect, d: Carrier)
    requires p in s.calls && !e.Mint? && !e.Store?
    requires c'.Minting? || c'.Storing? ==> c' == s.calls[p]
    requires Carries(Apply(s, e).To(p, c'), d)
    ensures Replaces(s, Apply(s, e).To(p, c'), d, d)
  {
  }

  lemma OtherMintsNothing(s: State, p: CallId, c': Call, e: Effect)
    requires p in s.calls && !e.Mint? && !e.Store?
    requires c'.Minting? || c'.Storing? ==> c' == s.calls[p]
    ensures var s' := Apply(s, e).To(p, c');
            && s'.minted == s.minted && s.calls.Keys <= s'.calls.Keys
            && forall q :: q in s'.calls && s'.calls[q].Minting? ==> q in s.calls && s'.calls[q] == s.calls[q]
  {
  }

  lemma AccessKeepsChained(s: State, p: CallId, c': Call, e: Effect)
    requires WellFormed(s) && Chained(s) && p in s.calls && AdvanceOk(s, s.calls[p], c', e)
    ensures Chained(Apply(s, e).To(p, c'))
  {
    if e.Mint? {
      MintKeepsCarriers(s, p, c', e.id, e.pair);
      MintKeepsPairs(s, p, c', e.id, e.pair);
      MintKeepsFollows(s, p, c', e.id, e.pair);
    } else if e.Store? {
      assert CallOk(s, s.calls[p]);
      StoreKeepsChained(s, p, c', e.id, e.handOut);
    } else if e.Drop? && c'.Minting? {
      ConsumeKeepsChained(s, p, c', e.id);
    } else {
      OtherKeepsChained(s, p, c', e);
    }
  }

  lemma StartKeepsChained(s: State, p: CallId, r: Request)
    requires Chained(s) && p !in s.calls && Begin(s, p, r).Some?
    ensures Chained(s.To(p, Begin(s, p, r).value))
  {
    var c := Begin(s, p, r).value;
    if c.Minting? {
      LoginKeepsChained(s, p, c);
    } else {
      var s' := s.To(p, c);
      forall d | Carries(s', d) ensures Replaces(s, s', d, d) {
      }
      FewerCarriersKeepsChained(s, s');
    }
  }

  lemma TickKeepsChained(s: State, ns: nat)
    requires Chained(s)
    ensures Chained(Step(s, Tick(ns)))
  {
    var s' := Step(s, Tick(ns));
    forall d | Carries(s', d) ensures Replaces(s, s', d, d) {
    }
    FewerCarriersKeepsChained(s, s');
  }

  lemma StepKeepsChained(s: State, e: Event)
    requires WellFormed(s) && Chained(s)
    ensures Chained(Step(s, e))
  {
    match e
    case Tick(ns) => TickKeepsChained(s, ns);
    case Start(p, r) =>
      if p !in s.calls && Begin(s, p, r).Some? { StartKeepsChained(s, p, r); }
    case Go(p, choice) =>
      if p in s.calls {
        assert CallOk(s, s.calls[p]);
        AdvanceIsOk(s, s.calls[p], choice);
        AccessKeepsChained(s, p, Advance(s, s.calls[p], choice).0, Advance(s, s.calls[p], choice).1);
      }
  }

  lemma {:induction false} ExecKeepsChained(s: State, es: seq<Event>)
    requires WellFormed(s) && Chained(s)
    ensures Chained(Exec(s, es))
  {
    if es == [] {
    } else {
      ExecKeepsChained(s, es[..|es| - 1]);
      ExecKeepsWellFormed(s, es[..|es| - 1]);
      StepKeepsChained(Exec(s, es[..|es| - 1]), es[|es| - 1]);
    }
  }

  lemma ReachableIsChained(s: State)
    requires Reachable(s)
    ensures WellFormed(s) && Chained(s)
  {
    var config, es :| s == Exec(Initial(config), es);
    ExecKeepsWellFormed(Initial(config), es);
    ExecKeepsChained(Initial(config), es);
  }

  /** In every interleaving, a login family has at most one refresh record or rotation in flight. */
  lemma AtMostOneLiveSession(s: State, c: Carrier, d: Carrier)
    requires Reachable(s) && Carries(s, c) && Carries(s, d) && FamilyOf(s, c) == FamilyOf(s, d)
    ensures c == d
  {
    ReachableIsChained(s);
  }

  /** Each pair has at most one successor. */
  lemma AtMostOneSuccessor(s: State, i: PairId, j: PairId)
    requires Reachable(s) && i in s.minted && j in s.minted
    requires s.minted[i].parent.Some? && s.minted[i].parent == s.minted[j].parent
    ensures i == j
  {
    ReachableIsChained(s);
    assert Follows(s, s.minted[i].parent, s.minted[i].family, s.minted[i].generation);
    assert Follows(s, s.minted[j].parent, s.minted[j].family, s.minted[j].generation);
  }

  /** The pairs of a family, oldest first, as far back as `id`. */
  ghost function Ancestry(s: State, id: PairId): (chain: seq<PairId>)
    requires AllFollow(s) && id in s.minted
    ensures |chain| == s.minted[id].generation + 1 && chain[|chain| - 1] == id
    decreases s.minted[id].generation
  {
    assert Follows(s, s.minted[id].parent, s.minted[id].family, s.minted[id].generation);
    match s.minted[id].parent
    case None => [id]
    case Some(q) => Ancestry(s, q) + [id]
  }

  /** Rotation forms a chain: the pairs of a family are exactly the ancestry of its newest pair, one
      for each generation. */
  lemma {:induction false} RotationIsAChain(s: State, newest: PairId, id: PairId)
    requires AllFollow(s) && OnePairPerGeneration(s) && newest in s.minted && id in s.minted
    requires s.minted[id].family == s.minted[newest].family && s.minted[id].generation <= s.minted[newest].generation
    ensures var chain := Ancestry(s, newest);
            s.minted[id].generation < |chain| && chain[s.minted[id].generation] == id
    decreases s.minted[newest].generation
  {
    assert Follows(s, s.minted[newest].parent, s.minted[newest].family, s.minted[newest].generation);
    if s.minted[id].generation < s.minted[newest].generation {
      RotationIsAChain(s, s.minted[newest].parent.value, id);
    }
  }

  /** A live session is the newest pair of its family. */
  lemma LiveSessionIsNewest(s: State, live: PairId, id: PairId)
    requires Reachable(s) && live in s.refresh && live in s.minted && id in s.minted
    requires s.minted[id].family == s.minted[live].family
    ensures s.minted[id].generation <= s.minted[live].generation
  {
    ReachableIsChained(s);
    assert Carries(s, RecordOf(live));
    assert Reach(s, RecordOf(live)) == s.minted[live].generation;
  }
}
