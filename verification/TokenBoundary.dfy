/** User-wide revocation: the boundary marker refuses every token minted up to it, for good. */
module TokenBoundary {
  import opened Wrappers
  import opened TokenProtocol
  import opened TokenInvariants

  /** No two revocations of one user are between reading the clock and storing the marker. */
  ghost predicate SerialMarks(s: State) {
    forall p, q :: p in s.calls && q in s.calls && s.calls[p].MarkingUser? && s.calls[q].MarkingUser? ==>
      (s.calls[p].user == s.calls[q].user ==> p == q)
  }

  ghost predicate Serialised(s: State, es: seq<Event>) {
    forall i :: 0 <= i <= |es| ==> SerialMarks(Exec(s, es[..i]))
  }

  /** Stored markers are past clock readings, and a marker about to be stored is no older. */
  ghost predicate MarksInOrder(s: State) {
    && (forall u :: u in s.markers ==> s.markers[u] <= s.clock)
    && (forall p :: p in s.calls && s.calls[p].MarkingUser? && s.calls[p].user in s.markers ==>
          s.markers[s.calls[p].user] <= s.calls[p].marker)
  }

  ghost predicate MarksGrow(s: State, s': State) {
    forall u :: u in s.markers ==> u in s'.markers && s.markers[u] <= s'.markers[u]
  }

  lemma MarkerIsClock(s: State, c: Call, choice: Choice)
    requires Advance(s, c, choice).0.MarkingUser?
    ensures var c' := Advance(s, c, choice).0;
            c' == c || (c == ReadingBoundary(c'.user) && c'.marker == s.clock)
  {
  }

  lemma AccessKeepsMarks(s: State, p: CallId, c': Call, e: Effect)
    requires p in s.calls && MarksInOrder(s) && SerialMarks(s) && AdvanceOk(s, s.calls[p], c', e)
    requires CallOk(s, s.calls[p]) && (c'.MarkingUser? ==> c' == s.calls[p] || c'.marker == s.clock)
    requires e.Mark? ==> !c'.MarkingUser?
    ensures var s' := Apply(s, e).To(p, c'); MarksInOrder(s') && MarksGrow(s, s')
  {
  }

  lemma StepKeepsMarks(s: State, e: Event)
    requires WellFormed(s) && MarksInOrder(s) && SerialMarks(s)
    ensures MarksInOrder(Step(s, e)) && MarksGrow(s, Step(s, e))
  {
    if e.Go? && e.call in s.calls {
      var c := s.calls[e.call];
      assert CallOk(s, c);
      AdvanceIsOk(s, c, e.choice);
      var (c', effect) := Advance(s, c, e.choice);
      if c'.MarkingUser? { MarkerIsClock(s, c, e.choice); }
      MarkLeaves(s, c, e.choice);
      AccessKeepsMarks(s, e.call, c', effect);
    }
  }

  lemma MarkLeaves(s: State, c: Call, choice: Choice)
    ensures Advance(s, c, choice).1.Mark? ==> !Advance(s, c, choice).0.MarkingUser?
  {
  }

  lemma MarksGrowTransitive(a: State, b: State, c: State)
    requires MarksGrow(a, b) && MarksGrow(b, c)
    ensures MarksGrow(a, c)
  {
  }

  lemma SerialisedPrefix(s: State, es: seq<Event>)
    requires Serialised(s, es) && es != []
    ensures Serialised(s, es[..|es| - 1]) && SerialMarks(Exec(s, es[..|es| - 1]))
  {
    var init := es[..|es| - 1];
    forall i | 0 <= i <= |init| ensures SerialMarks(Exec(s, init[..i])) {
      assert init[..i] == es[..i];
    }
    assert init[..|init|] == init;
  }

  lemma {:induction false} ExecKeepsMarks(s: State, es: seq<Event>)
    requires WellFormed(s) && MarksInOrder(s) && Serialised(s, es)
    ensures MarksInOrder(Exec(s, es)) && MarksGrow(s, Exec(s, es))
  {
    if es == [] {
    } else {
      SerialisedPrefix(s, es);
      var before := Exec(s, es[..|es| - 1]);
      ExecKeepsMarks(s, es[..|es| - 1]);
      ExecKeepsWellFormed(s, es[..|es| - 1]);
      StepKeepsMarks(before, es[|es| - 1]);
      MarksGrowTransitive(s, before, Exec(s, es));
    }
  }

  /** Once a token is behind its user's marker it stays behind it, however calls interleave. */
  lemma BoundaryIsPermanent(s: State, es: seq<Event>, t: Token)
    requires WellFormed(s) && MarksInOrder(s) && Serialised(s, es) && s.PastBoundary(t)
    ensures Exec(s, es).PastBoundary(t)
  {
    ExecKeepsMarks(s, es);
  }

  /** The checks of call `c` have let `t` through: to its caller, or on to the rotation. */
  predicate Admits(c: Call, t: Token) {
    c == Done(Accepted(t, true)) || (c.Consuming? && c.token == t)
  }

  predicate Admitted(s: State, p: CallId, t: Token) {
    p in s.calls && Admits(s.calls[p], t)
  }

  lemma NotAdmittedBehindBoundary(s: State, c: Call, choice: Choice, t: Token)
    requires s.PastBoundary(t) && Admits(Advance(s, c, choice).0, t)
    ensures Admits(c, t)
  {
  }

  lemma StepAdmitsNoneBehindBoundary(s: State, e: Event, p: CallId, t: Token)
    requires s.PastBoundary(t) && Admitted(Step(s, e), p, t)
    ensures Admitted(s, p, t)
  {
    if e.Go? && e.call == p && p in s.calls { NotAdmittedBehindBoundary(s, s.calls[p], e.choice, t); }
  }

  /** So no validation and no refresh admits it any more, whatever records still exist: whoever has
      been admitted at the end had been admitted before the marker was stored. */
  lemma {:induction false} NothingBehindBoundaryIsAdmitted(s: State, es: seq<Event>, p: CallId, t: Token)
    requires WellFormed(s) && MarksInOrder(s) && Serialised(s, es) && s.PastBoundary(t)
    requires Admitted(Exec(s, es), p, t)
    ensures Admitted(s, p, t)
  {
    if es == [] {
    } else {
      var before := Exec(s, es[..|es| - 1]);
      SerialisedPrefix(s, es);
      BoundaryIsPermanent(s, es[..|es| - 1], t);
      StepAdmitsNoneBehindBoundary(before, es[|es| - 1], p, t);
      NothingBehindBoundaryIsAdmitted(s, es[..|es| - 1], p, t);
    }
  }

  /** The scan of a revocation whose marker has been stored. */
  function ScanOf(c: Call): Option<Scan> {
    match c
    case Scanning(scan) => Some(scan)
    case DeletingScanned(scan) => Some(scan)
    case Done(RevokedAll(scan)) => Some(scan)
    case _ => None
  }

  /** A revocation that is not among `known` took its marker at `t0` or later, and once past its SET
      has that marker, or a newer one, in the store. */
  predicate MarkStored(s: State, c: Call, t0: nat) {
    && (c.MarkingUser? ==> t0 <= c.marker)
    && (ScanOf(c).Some? ==>
          var scan := ScanOf(c).value;
          t0 <= scan.marker && scan.user in s.markers && scan.marker <= s.markers[scan.user])
  }

  ghost predicate MarksStored(s: State, known: set<CallId>, t0: nat) {
    t0 <= s.clock && forall p :: p in s.calls && p !in known ==> MarkStored(s, s.calls[p], t0)
  }

  lemma AdvanceKeepsMarkStored(s: State, c: Call, choice: Choice, t0: nat)
    requires MarkStored(s, c, t0) && t0 <= s.clock
    ensures var (c', e) := Advance(s, c, choice); MarkStored(Apply(s, e), c', t0)
  {
  }

  lemma GrownKeepsMarkStored(s: State, s': State, c: Call, t0: nat)
    requires MarkStored(s, c, t0) && MarksGrow(s, s')
    ensures MarkStored(s', c, t0)
  {
  }

  lemma OthersKeepMarksStored(s: State, s': State, known: set<CallId>, t0: nat, p: CallId)
    requires MarksStored(s, known, t0) && MarksGrow(s, s') && s.clock <= s'.clock
    requires p in s'.calls && s'.calls == s.calls[p := s'.calls[p]] && (p !in known ==> MarkStored(s', s'.calls[p], t0))
    ensures MarksStored(s', known, t0)
  {
    forall q | q in s'.calls && q !in known ensures MarkStored(s', s'.calls[q], t0) {
      if q != p { GrownKeepsMarkStored(s, s', s.calls[q], t0); }
    }
  }

  lemma AccessKeepsMarksStored(s: State, p: CallId, c': Call, e: Effect, known: set<CallId>, t0: nat)
    requires MarksStored(s, known, t0) && p in s.calls && MarksGrow(s, Apply(s, e).To(p, c'))
    requires p !in known ==> MarkStored(Apply(s, e), c', t0)
    ensures MarksStored(Apply(s, e).To(p, c'), known, t0)
  {
    OthersKeepMarksStored(s, Apply(s, e).To(p, c'), known, t0, p);
  }

  lemma GoKeepsMarksStored(s: State, p: CallId, choice: Choice, known: set<CallId>, t0: nat)
    requires MarksStored(s, known, t0) && p in s.calls && MarksGrow(s, Step(s, Go(p, choice)))
    ensures MarksStored(Step(s, Go(p, choice)), known, t0)
  {
    var (c', e) := Advance(s, s.calls[p], choice);
    if p !in known { AdvanceKeepsMarkStored(s, s.calls[p], choice, t0); }
    AccessKeepsMarksStored(s, p, c', e, known, t0);
  }

  lemma StartKeepsMarksStored(s: State, p: CallId, r: Request, known: set<CallId>, t0: nat)
    requires MarksStored(s, known, t0) && p !in s.calls && Begin(s, p, r).Some?
    ensures MarksStored(s.To(p, Begin(s, p, r).value), known, t0)
  {
    OthersKeepMarksStored(s, s.To(p, Begin(s, p, r).value), known, t0, p);
  }

  lemma StepKeepsMarksStored(s: State, e: Event, known: set<CallId>, t0: nat)
    requires MarksStored(s, known, t0) && MarksGrow(s, Step(s, e))
    ensures MarksStored(Step(s, e), known, t0)
  {
    match e
    case Tick(ns) =>
    case Start(p, r) =>
      if p !in s.calls && Begin(s, p, r).Some? { StartKeepsMarksStored(s, p, r, known, t0); }
    case Go(p, choice) =>
      if p in s.calls { GoKeepsMarksStored(s, p, choice, known, t0); }
  }

  lemma {:induction false} ExecKeepsMarksStored(s: State, es: seq<Event>, known: set<CallId>, t0: nat)
    requires WellFormed(s) && MarksInOrder(s) && Serialised(s, es) && MarksStored(s, known, t0)
    ensures MarksStored(Exec(s, es), known, t0)
  {
    if es == [] {
    } else {
      SerialisedPrefix(s, es);
      ExecKeepsMarksStored(s, es[..|es| - 1], known, t0);
      ExecKeepsWellFormed(s, es[..|es| - 1]);
      ExecKeepsMarks(s, es[..|es| - 1]);
      StepKeepsMarks(Exec(s, es[..|es| - 1]), es[|es| - 1]);
      StepKeepsMarksStored(Exec(s, es[..|es| - 1]), es[|es| - 1], known, t0);
    }
  }

  /** A revocation that has stored its marker refuses every token of the user that was minted before
      the revocation began. */
  lemma RevokeAllCoversMintedTokens(s: State, es: seq<Event>, p: CallId, id: PairId, kind: Kind)
    requires WellFormed(s) && MarksInOrder(s) && Serialised(s, es)
    requires p !in s.calls && id in s.minted
    requires var s' := Exec(s, es);
             p in s'.calls && ScanOf(s'.calls[p]).Some? && ScanOf(s'.calls[p]).value.user == s.minted[id].user
    ensures Exec(s, es).PastBoundary(s.minted[id].Signed(kind, id))
  {
    ExecKeepsMarksStored(s, es, s.calls.Keys, s.clock);
  }

  /** Storing marker `m` keeps every refused token refused exactly when it is no older than the
      marker it replaces. */
  lemma MarkKeepsBoundaryIff(s: State, u: User, m: nat)
    ensures (forall t :: s.PastBoundary(t) ==> Apply(s, Mark(u, m)).PastBoundary(t))
        <==> (u in s.markers ==> s.markers[u] <= m)
  {
    if u in s.markers && m < s.markers[u] {
      var t := Token(Access, 0, u, None, s.markers[u], 0);
      assert s.PastBoundary(t) && !Apply(s, Mark(u, m)).PastBoundary(t);
    }
  }

  /** What is refused in `s` is refused in `s'`. */
  ghost predicate KeepsRefusals(s: State, s': State) {
    forall t :: s.PastBoundary(t) ==> s'.PastBoundary(t)
  }

  lemma KeepsRefusalsIff(s: State, s': State)
    ensures KeepsRefusals(s, s') <==> MarksGrow(s, s')
  {
    if KeepsRefusals(s, s') {
      forall u | u in s.markers ensures u in s'.markers && s.markers[u] <= s'.markers[u] {
        var t := Token(Access, 0, u, None, s.markers[u], 0);
        assert s.PastBoundary(t);
      }
    }
  }

  /** If event `e` stores a marker, it is no older than the one it replaces. */
  predicate MarksForward(s: State, e: Event) {
    e.Go? && e.call in s.calls ==>
      var effect := Advance(s, s.calls[e.call], e.choice).1;
      effect.Mark? && effect.user in s.markers ==> s.markers[effect.user] <= effect.marker
  }

  lemma StepMarksForwardIff(s: State, e: Event)
    ensures MarksGrow(s, Step(s, e)) <==> MarksForward(s, e)
  {
    if e.Go? && e.call in s.calls {
      EffectMarksForwardIff(s, Advance(s, s.calls[e.call], e.choice).1);
    }
  }

  lemma EffectMarksForwardIff(s: State, e: Effect)
    ensures MarksGrow(s, Apply(s, e)) <==>
            (e.Mark? && e.user in s.markers ==> s.markers[e.user] <= e.marker)
  {
  }

  /** No event of the run stores a marker older than the one it replaces. */
  ghost predicate RunMarksForward(s: State, es: seq<Event>) {
    forall i :: 0 <= i < |es| ==> MarksForward(Exec(s, es[..i]), es[i])
  }

  /** At no point of the run is a token accepted again that was refused before. */
  ghost predicate NeverReopens(s: State, es: seq<Event>) {
    forall i, j :: 0 <= i <= j <= |es| ==> KeepsRefusals(Exec(s, es[..i]), Exec(s, es[..j]))
  }

  lemma {:induction false} ForwardRunKeepsMarks(s: State, es: seq<Event>, i: nat, j: nat)
    requires RunMarksForward(s, es) && i <= j <= |es|
    ensures MarksGrow(Exec(s, es[..i]), Exec(s, es[..j]))
    decreases j
  {
    if i == j {
    } else {
      ForwardRunKeepsMarks(s, es, i, j - 1);
      assert es[..j][..j - 1] == es[..j - 1];
      StepMarksForwardIff(Exec(s, es[..j - 1]), es[j - 1]);
      MarksGrowTransitive(Exec(s, es[..i]), Exec(s, es[..j - 1]), Exec(s, es[..j]));
    }
  }

  /** A run never reopens a boundary if and only if none of its stores goes backwards. */
  lemma NeverReopensIff(s: State, es: seq<Event>)
    ensures NeverReopens(s, es) <==> RunMarksForward(s, es)
  {
    if RunMarksForward(s, es) {
      forall i, j | 0 <= i <= j <= |es| ensures KeepsRefusals(Exec(s, es[..i]), Exec(s, es[..j])) {
        ForwardRunKeepsMarks(s, es, i, j);
        KeepsRefusalsIff(Exec(s, es[..i]), Exec(s, es[..j]));
      }
    }
    if NeverReopens(s, es) {
      forall i | 0 <= i < |es| ensures MarksForward(Exec(s, es[..i]), es[i]) {
        assert KeepsRefusals(Exec(s, es[..i]), Exec(s, es[..i + 1]));
        assert es[..i + 1][..i] == es[..i];
        KeepsRefusalsIff(Exec(s, es[..i]), Exec(s, es[..i + 1]));
        StepMarksForwardIff(Exec(s, es[..i]), es[i]);
      }
    }
  }

  /** Revocations of one user that do not overlap never store backwards. */
  lemma SerialisedMarksForward(s: State, es: seq<Event>)
    requires WellFormed(s) && MarksInOrder(s) && Serialised(s, es)
    ensures RunMarksForward(s, es)
  {
    forall i | 0 <= i < |es| ensures MarksForward(Exec(s, es[..i]), es[i]) {
      forall k | 0 <= k <= i ensures SerialMarks(Exec(s, es[..i][..k])) { assert es[..i][..k] == es[..k]; }
      ExecKeepsMarks(s, es[..i]);
      ExecKeepsWellFormed(s, es[..i]);
      StepKeepsMarks(Exec(s, es[..i]), es[i]);
      StepMarksForwardIff(Exec(s, es[..i]), es[i]);
    }
  }

  /** Call 1 reads the clock for a revocation of user 7. */
  lemma RevocationReadsClock() returns (s: State)
    ensures Reachable(s) && s == Initial(Config(100, 1000)).(calls := map[1 := MarkingUser(7, 0)])
  {
    s := Initial(Config(100, 1000));
    assert Exec(s, []) == s;
    ReachableStep(s, Start(1, RevokeAll(7)));
    s := s.(calls := map[1 := ReadingBoundary(7)]);
    ReachableStep(s, Go(1, Proceed));
    s := s.(calls := map[1 := MarkingUser(7, 0)]);
  }

  /** Then user 7 logs in. */
  lemma StaleRevocationInFlight() returns (s: State, t: Token)
    ensures Reachable(s) && s.clock == 1 && s.markers == map[]
    ensures s.calls.Keys == {1, 3} && s.calls[1] == MarkingUser(7, 0)
    ensures t in s.returned && t.user == 7 && t.issuedNs == 1
  {
    s := RevocationReadsClock();
    ReachableStep(s, Tick(1));
    s, t := LoginOf(s.(clock := 1), 3, 7);
  }

  lemma LoginMints(s0: State, p: CallId, u: User) returns (s: State)
    requires Reachable(s0) && p !in s0.calls && s0.minted == map[]
    ensures Reachable(s) && s.clock == s0.clock && s.markers == s0.markers && s.calls == s0.calls[p := Storing(0)]
    ensures 0 in s.minted && s.minted[0].user == u && s.minted[0].issuedNs == s0.clock
  {
    var s1 := Step(s0, Start(p, Login(u, None)));
    ReachableStep(s0, Start(p, Login(u, None)));
    s := Step(s1, Go(p, MintAs(0, 0)));
    ReachableStep(s1, Go(p, MintAs(0, 0)));
    assert s0.calls[p := s1.calls[p]][p := Storing(0)] == s0.calls[p := Storing(0)];
  }

  lemma LoginOf(s0: State, p: CallId, u: User) returns (s: State, t: Token)
    requires Reachable(s0) && p !in s0.calls && s0.minted == map[]
    ensures Reachable(s) && s.clock == s0.clock && s.markers == s0.markers
    ensures s.calls.Keys == s0.calls.Keys + {p} && forall q :: q in s0.calls ==> s.calls[q] == s0.calls[q]
    ensures t in s.returned && t.user == u && t.issuedNs == s0.clock
  {
    var s1 := LoginMints(s0, p, u);
    s := Step(s1, Go(p, Proceed));
    ReachableStep(s1, Go(p, Proceed));
    t := s1.minted[0].Signed(Access, 0);
  }

  lemma RevocationBegins(s1: State) returns (s: State)
    requires Reachable(s1) && 2 !in s1.calls
    ensures Reachable(s) && s == s1.To(2, MarkingUser(7, s1.clock))
  {
    var s2 := Step(s1, Start(2, RevokeAll(7)));
    ReachableStep(s1, Start(2, RevokeAll(7)));
    s := Step(s2, Go(2, Proceed));
    ReachableStep(s2, Go(2, Proceed));
    assert s1.calls[2 := s2.calls[2]][2 := s.calls[2]] == s1.calls[2 := s.calls[2]];
  }

  /** A second revocation of user 7 overtakes call 1 and stores the current time. */
  lemma RevocationOvertakes(s1: State) returns (s: State)
    requires Reachable(s1) && 2 !in s1.calls && 1 in s1.calls
    ensures Reachable(s) && s.markers == s1.markers[7 := s1.clock] && s.returned == s1.returned
    ensures 1 in s.calls && s.calls[1] == s1.calls[1]
  {
    var s2 := RevocationBegins(s1);
    s := Step(s2, Go(2, Proceed));
    ReachableStep(s2, Go(2, Proceed));
  }

  /** Two overlapping revocations of one user can store their markers in the wrong order, and then a
      token that was already refused is admitted again. */
  lemma OverlappingRevocationsReopen()
    ensures exists s, e, t :: Reachable(s) && t in s.returned && s.PastBoundary(t) && !Step(s, e).PastBoundary(t)
  {
    var s1, t := StaleRevocationInFlight();
    var s := RevocationOvertakes(s1);
    assert s.PastBoundary(t) && s.calls[1] == MarkingUser(7, 0);
    assert !Step(s, Go(1, Proceed)).PastBoundary(t);
  }
}
