/** What every interleaving of token calls keeps. */
module TokenInvariants {
  import opened Wrappers
  import opened TokenProtocol

  predicate HoldsToken(c: Call) {
    c.Decoding? || c.CheckingBlacklist? || c.CheckingMarker? || c.Consuming?
    || c.ReadingExpiry? || c.Blacklisting? || c.DeletingRecord?
  }

  /** What a call in progress relies on. */
  predicate CallOk(s: State, c: Call) {
    && (HoldsToken(c) ==> c.token in s.returned)
    && (c.Storing? ==> c.id in s.minted && c.id !in s.stored)
    && (c.MarkingUser? ==> c.marker <= s.clock)
  }

  /** Store, history and calls agree. */
  ghost predicate WellFormed(s: State) {
    && s.refresh.Keys <= s.stored <= s.minted.Keys
    && (forall id :: id in s.refresh ==> s.refresh[id].user == s.minted[id].user)
    && (forall t :: t in s.returned ==> t.id in s.stored && t == s.minted[t.id].Signed(t.kind, t.id))
    && (forall id :: id in s.minted ==> s.minted[id].issuedNs <= s.clock)
    && (forall p :: p in s.calls ==> CallOk(s, s.calls[p]))
    && (forall p, q :: p in s.calls && q in s.calls && s.calls[p].Storing? && s.calls[q] == s.calls[p] ==> p == q)
  }

  /** What an access may do to the store, depending on the call before and after it. */
  predicate EffectOk(s: State, c: Call, c': Call, e: Effect) {
    match e
    case Nothing => c'.Storing? || c'.Minting? ==> c' == c
    case Drop(id) =>
      && !c'.Storing?
      && (c'.Minting? ==>
            c.Consuming? && id in s.refresh && id in s.minted && c'.parent == Some(id)
            && c'.family == s.minted[id].family && c'.generation == s.minted[id].generation + 1)
    case Blacklist(t, ttl) => c == Blacklisting(t, ttl) && !c'.Storing? && !c'.Minting?
    case Mark(u, m) => c == MarkingUser(u, m) && !c'.Storing? && !c'.Minting?
    case Mint(id, pair) =>
      && c.Minting? && c' == Storing(id) && id !in s.minted && pair.issuedNs == s.clock
      && pair.family == c.family && pair.generation == c.generation && pair.parent == c.parent
    case Store(id, _) => c == Storing(id) && c'.Done?
  }

  predicate AdvanceOk(s: State, c: Call, c': Call, e: Effect) {
    EffectOk(s, c, c', e) && (e.Mint? || CallOk(s, c'))
  }

  lemma FailingIsOk(s: State, c: Call, applied: bool)
    requires CallOk(s, c)
    ensures AdvanceOk(s, c, Failing(c, applied).0, Failing(c, applied).1)
  {
  }

  lemma ScanIsOk(s: State, c: Call, choice: Choice)
    requires c.Scanning?
    ensures AdvanceOk(s, c, ScanStep(s, c, choice).0, ScanStep(s, c, choice).1)
  {
  }

  lemma AdvanceIsOk(s: State, c: Call, choice: Choice)
    requires CallOk(s, c)
    ensures AdvanceOk(s, c, Advance(s, c, choice).0, Advance(s, c, choice).1)
  {
    if choice.Fails? { FailingIsOk(s, c, choice.applied); }
    else if c.Scanning? { ScanIsOk(s, c, choice); }
  }

  /** Time passes, history grows, and no dropped refresh record is ever written again. */
  ghost predicate Later(s: State, s': State) {
    && s'.config == s.config && s.clock <= s'.clock
    && s.calls.Keys <= s'.calls.Keys && s.stored <= s'.stored && s.returned <= s'.returned
    && (forall id :: id in s.minted ==> id in s'.minted && s'.minted[id] == s.minted[id])
    && (forall id :: id in s.stored && id in s'.refresh ==> id in s.refresh && s'.refresh[id] == s.refresh[id])
    && s.blacklist.Keys <= s'.blacklist.Keys
  }

  lemma LaterTransitive(a: State, b: State, c: State)
    requires Later(a, b) && Later(b, c)
    ensures Later(a, c)
  {
  }

  lemma ApplyIsLater(s: State, c: Call, c': Call, e: Effect)
    requires WellFormed(s) && CallOk(s, c) && EffectOk(s, c, c', e)
    ensures Later(s, Apply(s, e))
  {
  }

  /** The effect of one call leaves every other call what it relies on. */
  lemma ApplyKeepsCalls(s: State, p: CallId, c': Call, e: Effect)
    requires WellFormed(s) && p in s.calls && EffectOk(s, s.calls[p], c', e)
    requires e.Mint? || CallOk(s, c')
    ensures var s' := Apply(s, e).To(p, c');
            forall q :: q in s'.calls ==> CallOk(s', s'.calls[q])
  {
    var s' := Apply(s, e).To(p, c');
    assert CallOk(s, s.calls[p]);
    forall q | q in s'.calls ensures CallOk(s', s'.calls[q]) {
      if q != p { assert CallOk(s, s.calls[q]); }
    }
  }

  lemma ApplyKeepsStoring(s: State, p: CallId, c': Call, e: Effect)
    requires WellFormed(s) && p in s.calls && EffectOk(s, s.calls[p], c', e)
    ensures var s' := s.To(p, c');
            forall q, r ::
              q in s'.calls && r in s'.calls && s'.calls[q].Storing? && s'.calls[r] == s'.calls[q] ==> q == r
  {
    forall q | q in s.calls && e.Mint? ensures s.calls[q] != Storing(e.id) {
      assert CallOk(s, s.calls[q]);
    }
  }

  lemma ApplyKeepsStore(s: State, c: Call, c': Call, e: Effect)
    requires WellFormed(s) && CallOk(s, c) && EffectOk(s, c, c', e)
    ensures var s' := Apply(s, e);
            && s'.refresh.Keys <= s'.stored <= s'.minted.Keys
            && (forall id :: id in s'.refresh ==> s'.refresh[id].user == s'.minted[id].user)
            && (forall t :: t in s'.returned ==> t.id in s'.stored && t == s'.minted[t.id].Signed(t.kind, t.id))
            && (forall id :: id in s'.minted ==> s'.minted[id].issuedNs <= s'.clock)
  {
  }

  lemma AccessKeepsWellFormed(s: State, p: CallId, c': Call, e: Effect)
    requires WellFormed(s) && p in s.calls && AdvanceOk(s, s.calls[p], c', e)
    ensures WellFormed(Apply(s, e).To(p, c')) && Later(s, Apply(s, e).To(p, c'))
  {
    assert CallOk(s, s.calls[p]);
    ApplyIsLater(s, s.calls[p], c', e);
    ApplyKeepsCalls(s, p, c', e);
    ApplyKeepsStoring(s, p, c', e);
    ApplyKeepsStore(s, s.calls[p], c', e);
  }

  lemma TickKeepsWellFormed(s: State, ns: nat)
    requires WellFormed(s)
    ensures WellFormed(Step(s, Tick(ns))) && Later(s, Step(s, Tick(ns)))
  {
    var s' := Step(s, Tick(ns));
    forall q | q in s'.calls ensures CallOk(s', s'.calls[q]) { assert CallOk(s, s.calls[q]); }
  }

  lemma StartKeepsWellFormed(s: State, p: CallId, c: Call)
    requires WellFormed(s) && p !in s.calls && CallOk(s, c) && !c.Storing?
    ensures WellFormed(s.To(p, c)) && Later(s, s.To(p, c))
  {
    var s' := s.To(p, c);
    forall q | q in s'.calls ensures CallOk(s', s'.calls[q]) {
      if q != p { assert CallOk(s, s.calls[q]); }
    }
  }

  lemma StepKeepsWellFormed(s: State, e: Event)
    requires WellFormed(s)
    ensures WellFormed(Step(s, e)) && Later(s, Step(s, e))
  {
    match e
    case Tick(ns) => TickKeepsWellFormed(s, ns);
    case Start(p, r) =>
      if Begin(s, p, r).Some? && p !in s.calls { StartKeepsWellFormed(s, p, Begin(s, p, r).value); }
    case Go(p, choice) =>
      if p in s.calls {
        assert CallOk(s, s.calls[p]);
        AdvanceIsOk(s, s.calls[p], choice);
        AccessKeepsWellFormed(s, p, Advance(s, s.calls[p], choice).0, Advance(s, s.calls[p], choice).1);
      }
  }

  lemma {:induction false} ExecKeepsWellFormed(s: State, es: seq<Event>)
    requires WellFormed(s)
    ensures WellFormed(Exec(s, es)) && Later(s, Exec(s, es))
  {
    if es == [] {
    } else {
      var before := Exec(s, es[..|es| - 1]);
      ExecKeepsWellFormed(s, es[..|es| - 1]);
      StepKeepsWellFormed(before, es[|es| - 1]);
      LaterTransitive(s, before, Exec(s, es));
    }
  }

  lemma ReachableStep(s: State, e: Event)
    requires Reachable(s)
    ensures Reachable(Step(s, e))
  {
    var config, es :| s == Exec(Initial(config), es);
    assert (es + [e])[..|es|] == es;
    assert Step(s, e) == Exec(Initial(config), es + [e]);
  }

  lemma ReachableIsWellFormed(s: State)
    requires Reachable(s)
    ensures WellFormed(s)
  {
    var config, es :| s == Exec(Initial(config), es);
    ExecKeepsWellFormed(Initial(config), es);
  }

  /** A step of another call leaves call `p` where it is. */
  lemma OtherCallsStay(s: State, e: Event, p: CallId)
    requires p in s.calls && !(e.Go? && e.call == p)
    ensures p in Step(s, e).calls && Step(s, e).calls[p] == s.calls[p]
  {
  }

  lemma GoMovesCall(s: State, p: CallId, choice: Choice)
    requires p in s.calls
    ensures p in Step(s, Go(p, choice)).calls && Step(s, Go(p, choice)).calls[p] == Advance(s, s.calls[p], choice).0
  {
  }
}
