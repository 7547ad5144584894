/** When a token is accepted: nothing but its expiry, its user's marker and a revocation of that very token
    can refuse it, and a session that no call is aimed at stays as it is. */
module TokenAcceptance {
  import opened Wrappers
  import opened TokenProtocol
  import opened TokenInvariants
  import opened TokenRevocation
  import opened TokenRuns

  // ---- Tokens nobody revokes ----

  /** No request in `es` revokes `t`. */
  predicate Spares(es: seq<Event>, t: Token) {
    forall e :: e in es && e.Start? ==> e.request != Revoke(t)
  }

  predicate Revokes(c: Call, t: Token) {
    Revoking(c) && c.token == t
  }

  /** The blacklist has no entry for `t`, and no call is about to write one. */
  ghost predicate Unrevoked(s: State, t: Token) {
    Jti(t.kind, t.id) !in s.blacklist && forall q :: q in s.calls ==> !Revokes(s.calls[q], t)
  }

  /** Nothing but `t` was handed out under its key. */
  ghost predicate OwnsKey(s: State, t: Token) {
    forall u :: u in s.returned && u.kind == t.kind && u.id == t.id ==> u == t
  }

  lemma AdvanceRevokesNothingElse(s: State, c: Call, choice: Choice, t: Token)
    requires CallOk(s, c) && OwnsKey(s, t) && !Revokes(c, t)
    ensures var (c', e) := Advance(s, c, choice);
            !Revokes(c', t) && (e.Blacklist? ==> Jti(e.token.kind, e.token.id) != Jti(t.kind, t.id))
  {
    AdvanceIsOk(s, c, choice);
    if Revoking(c) && !choice.Fails? { RevokeStepStaysWithToken(s, c); }
  }

  lemma RevokeStepStaysWithToken(s: State, c: Call)
    requires Revoking(c)
    ensures var c' := RevokeStep(s, c).0; Revoking(c') ==> c'.token == c.token
  {
  }

  lemma GoKeepsUnrevoked(s: State, p: CallId, choice: Choice, t: Token)
    requires WellFormed(s) && OwnsKey(s, t) && Unrevoked(s, t) && p in s.calls
    ensures Unrevoked(Step(s, Go(p, choice)), t)
  {
    assert CallOk(s, s.calls[p]);
    AdvanceRevokesNothingElse(s, s.calls[p], choice, t);
  }

  lemma StepKeepsUnrevoked(s: State, e: Event, t: Token)
    requires WellFormed(s) && OwnsKey(s, t) && Unrevoked(s, t) && Spares([e], t)
    ensures Unrevoked(Step(s, e), t)
  {
    assert e in [e];
    if e.Go? && e.call in s.calls { GoKeepsUnrevoked(s, e.call, e.choice, t); }
  }

  lemma StaysUnrevoked(s: State, es: seq<Event>, t: Token)
    requires WellFormed(s) && Unrevoked(s, t) && Spares(es, t) && t in Exec(s, es).returned
    ensures WellFormed(Exec(s, es)) && Unrevoked(Exec(s, es), t)
  {
    ExecKeepsWellFormed(s, es);
    KeepsUnrevoked(s, es, t, Exec(s, es));
  }

  lemma {:induction false} KeepsUnrevoked(s: State, es: seq<Event>, t: Token, end: State)
    requires WellFormed(s) && Unrevoked(s, t) && Spares(es, t)
    requires WellFormed(end) && t in end.returned && Exec(s, es).returned <= end.returned
    ensures Unrevoked(Exec(s, es), t)
  {
    if es == [] {
    } else {
      var n := |es| - 1;
      var before := Exec(s, es[..n]);
      ExecKeepsWellFormed(s, es[..n]);
      StepKeepsWellFormed(before, es[n]);
      KeepsUnrevoked(s, es[..n], t, end);
      forall u | u in before.returned && u.kind == t.kind && u.id == t.id ensures u == t {
        SameJtiSameToken(end, u, t);
      }
      StepKeepsUnrevoked(before, es[n], t);
    }
  }

  /** Neither expired nor behind a marker of its user. */
  predicate InForce(s: State, t: Token) {
    s.clock < t.exp * SECOND && (t.user in s.markers ==> s.markers[t.user] < t.issuedNs)
  }

  lemma UnrevokedDecides(s: State, t: Token, p: CallId)
    requires t in s.returned && p !in s.calls && Jti(t.kind, t.id) !in s.blacklist
    ensures Exec(s, ValidateEvents(p, Validate(t, t.kind, true))) ==
            s.To(p, Done(if InForce(s, t) then Accepted(t, true) else Refused(t)))
  {
    var c := Decoding(t, ForCaller(t.kind, true));
    ChecksDecide(s, t, c.goal);
    ChecksAreARun(s, p, Validate(t, t.kind, true), c);
  }

  /** In every reachable state, a validation of a handed-out token that no request ever asked to revoke
      accepts it if and only if it has not expired and every marker of its user is older. */
  lemma AcceptedIffInForce(config: Config, es: seq<Event>, t: Token, p: CallId)
    requires var s := Exec(Initial(config), es); t in s.returned && p !in s.calls
    requires Spares(es, t)
    ensures var s := Exec(Initial(config), es);
            var s' := Exec(s, ValidateEvents(p, Validate(t, t.kind, true)));
            && p in s'.calls && s'.calls[p].Done?
            && (s'.calls[p].outcome == Accepted(t, true) <==>
                  s.clock < t.exp * SECOND && (t.user in s.markers ==> s.markers[t.user] < t.issuedNs))
  {
    StaysUnrevoked(Initial(config), es, t);
    UnrevokedDecides(Exec(Initial(config), es), t, p);
  }

  // ---- Validations that others interleave with ----

  /** The call validates `t` and has not refused it. */
  predicate Admitting(c: Call, t: Token, verify: bool) {
    var goal := ForCaller(t.kind, verify);
    || c == Decoding(t, goal) || (verify && (c == CheckingBlacklist(t, goal) || c == CheckingMarker(t, goal)))
    || c == Done(Accepted(t, verify)) || c == Done(Unavailable)
  }

  lemma AdvanceKeepsAdmitting(s: State, c: Call, choice: Choice, t: Token, verify: bool)
    requires Admitting(c, t, verify) && Jti(t.kind, t.id) !in s.blacklist && InForce(s, t)
    ensures Admitting(Advance(s, c, choice).0, t, verify)
  {
  }

  lemma StepKeepsAdmitting(s: State, e: Event, p: CallId, t: Token, verify: bool)
    requires p in s.calls && Admitting(s.calls[p], t, verify) && Jti(t.kind, t.id) !in s.blacklist && InForce(s, t)
    ensures p in Step(s, e).calls && Admitting(Step(s, e).calls[p], t, verify)
  {
    if e.Go? && e.call == p {
      GoMovesCall(s, p, e.choice);
      AdvanceKeepsAdmitting(s, s.calls[p], e.choice, t, verify);
    } else {
      OtherCallsStay(s, e, p);
    }
  }

  /** `t` is in force after every part of `es`. */
  ghost predicate StaysInForce(s: State, es: seq<Event>, t: Token) {
    forall n: nat :: n <= |es| ==> InForce(Exec(s, es[..n]), t)
  }

  /** Whatever other calls do in between, a validation of a token that stays in force and that nobody
      revokes is never refused. */
  lemma {:induction false} NeverRefused(s: State, es: seq<Event>, p: CallId, t: Token, verify: bool)
    requires WellFormed(s) && t in s.returned && Unrevoked(s, t) && Spares(es, t) && StaysInForce(s, es, t)
    requires p in s.calls && s.calls[p] == Decoding(t, ForCaller(t.kind, verify))
    ensures p in Exec(s, es).calls && Admitting(Exec(s, es).calls[p], t, verify)
  {
    if es == [] {
    } else {
      var init := es[..|es| - 1];
      forall n: nat | n <= |init| ensures InForce(Exec(s, init[..n]), t) {
        assert init[..n] == es[..n];
      }
      NeverRefused(s, init, p, t, verify);
      ExecKeepsWellFormed(s, init);
      StaysUnrevoked(s, init, t);
      assert init[..|init|] == init;
      StepKeepsAdmitting(Exec(s, init), es[|es| - 1], p, t, verify);
    }
  }

  // ---- Records outlast their tokens ----

  /** A refresh token expires no later than the lifetime after its minting; its record, stored after
      that, is kept at least as long. */
  ghost predicate RecordsOutlast(s: State) {
    && (forall id :: id in s.minted ==>
          s.minted[id].refreshExp * SECOND <= s.minted[id].issuedNs + s.config.refreshSeconds * SECOND)
    && (forall id :: id in s.refresh && id in s.minted ==> s.minted[id].refreshExp * SECOND <= s.refresh[id].expires)
  }

  lemma WholeSeconds(created: nat, clock: nat, seconds: nat)
    requires created <= clock
    ensures (created / SECOND + seconds) * SECOND <= clock + seconds * SECOND
  {
  }

  lemma MintedLifetime(s: State, c: Call, choice: Choice)
    ensures var e := Advance(s, c, choice).1;
            e.Mint? ==> e.pair.refreshExp * SECOND <= e.pair.issuedNs + s.config.refreshSeconds * SECOND
  {
    if c.Minting? && choice.MintAs? && choice.created <= s.clock {
      WholeSeconds(choice.created, s.clock, s.config.refreshSeconds);
    }
  }

  lemma ApplyKeepsRecordsOutlast(s: State, c: Call, c': Call, e: Effect)
    requires WellFormed(s) && CallOk(s, c) && EffectOk(s, c, c', e) && RecordsOutlast(s)
    requires e.Mint? ==> e.pair.refreshExp * SECOND <= e.pair.issuedNs + s.config.refreshSeconds * SECOND
    ensures RecordsOutlast(Apply(s, e))
  {
  }

  lemma StepKeepsRecordsOutlast(s: State, e: Event)
    requires WellFormed(s) && RecordsOutlast(s)
    ensures RecordsOutlast(Step(s, e))
  {
    if e.Go? && e.call in s.calls {
      var c := s.calls[e.call];
      var (c', effect) := Advance(s, c, e.choice);
      assert CallOk(s, c);
      AdvanceIsOk(s, c, e.choice);
      MintedLifetime(s, c, e.choice);
      ApplyKeepsRecordsOutlast(s, c, c', effect);
    }
  }

  lemma {:induction false} ExecKeepsRecordsOutlast(s: State, es: seq<Event>)
    requires WellFormed(s) && RecordsOutlast(s)
    ensures RecordsOutlast(Exec(s, es))
  {
    if es == [] {
    } else {
      ExecKeepsWellFormed(s, es[..|es| - 1]);
      ExecKeepsRecordsOutlast(s, es[..|es| - 1]);
      StepKeepsRecordsOutlast(Exec(s, es[..|es| - 1]), es[|es| - 1]);
    }
  }

  /** The store never drops the record of an unexpired refresh token by itself. */
  lemma RecordOutlastsToken(s: State, t: Token)
    requires Reachable(s) && t in s.returned && t.kind == Refresh && t.id in s.refresh && s.clock < t.exp * SECOND
    ensures s.clock < s.refresh[t.id].expires
  {
    var config, es :| s == Exec(Initial(config), es);
    ReachableIsWellFormed(s);
    ExecKeepsRecordsOutlast(Initial(config), es);
  }

  // ---- Sessions nobody touches ----

  /** A user-wide revocation in flight. */
  predicate RevokesAllOf(c: Call, u: User) {
    match c
    case ReadingBoundary(user) => user == u
    case MarkingUser(user, _) => user == u
    case Scanning(scan) => scan.user == u
    case DeletingScanned(scan) => scan.user == u
    case _ => false
  }

  /** A refresh with `t` that has not got past its GETDEL. */
  predicate Redeems(c: Call, t: Token) {
    match c
    case Decoding(u, goal) => u == t && goal.ForRotation?
    case CheckingBlacklist(u, goal) => u == t && goal.ForRotation?
    case CheckingMarker(u, goal) => u == t && goal.ForRotation?
    case Consuming(u, _) => u == t
    case _ => false
  }

  /** Calls that may revoke or redeem the refresh token `t`, or store a marker of its user. */
  predicate Targets(c: Call, t: Token) {
    Revokes(c, t) || Redeems(c, t) || RevokesAllOf(c, t.user)
  }

  predicate Threatens(r: Request, t: Token) {
    r == Revoke(t) || (r.Rotate? && r.token == t) || r == RevokeAll(t.user)
  }

  predicate LeavesAlone(es: seq<Event>, t: Token) {
    forall e :: e in es && e.Start? ==> !Threatens(e.request, t)
  }

  /** Whose record a call is going to delete. */
  predicate DeletesOwn(s: State, c: Call) {
    match c
    case Decoding(t, goal) => true
    case CheckingBlacklist(t, goal) => goal.ForRotation? ==> t.kind == Refresh
    case CheckingMarker(t, goal) => goal.ForRotation? ==> t.kind == Refresh
    case Consuming(t, _) => t.kind == Refresh
    case DeletingRecord(t) => t.kind == Refresh
    case DeletingScanned(scan) =>
      scan.queue != [] && scan.queue[0] in s.minted && s.minted[scan.queue[0]].user == scan.user
    case _ => true
  }

  ghost predicate AllDeleteOwn(s: State) {
    forall p :: p in s.calls ==> DeletesOwn(s, s.calls[p])
  }

  lemma ScanDeletesOwn(s: State, c: Call, choice: Choice)
    requires WellFormed(s) && c.Scanning?
    ensures DeletesOwn(s, ScanStep(s, c, choice).0)
  {
  }

  lemma AdvanceDeletesOwn(s: State, c: Call, choice: Choice)
    requires WellFormed(s) && DeletesOwn(s, c)
    ensures DeletesOwn(s, Advance(s, c, choice).0)
  {
    if c.Scanning? && !choice.Fails? { ScanDeletesOwn(s, c, choice); }
  }

  lemma LaterKeepsDeletesOwn(s: State, s': State, c: Call)
    requires Later(s, s') && DeletesOwn(s, c)
    ensures DeletesOwn(s', c)
  {
  }

  lemma GoDeletesOwn(s: State, p: CallId, choice: Choice)
    requires WellFormed(s) && p in s.calls && DeletesOwn(s, s.calls[p])
    ensures p in Step(s, Go(p, choice)).calls && DeletesOwn(s, Step(s, Go(p, choice)).calls[p])
  {
    GoMovesCall(s, p, choice);
    AdvanceDeletesOwn(s, s.calls[p], choice);
  }

  lemma CallDeletesOwn(s: State, e: Event, q: CallId)
    requires WellFormed(s) && q in Step(s, e).calls && (q in s.calls ==> DeletesOwn(s, s.calls[q]))
    ensures DeletesOwn(s, Step(s, e).calls[q])
  {
    if q in s.calls {
      if e.Go? && e.call == q { GoDeletesOwn(s, q, e.choice); } else { OtherCallsStay(s, e, q); }
    } else {
      assert e.Start? && Begin(s, q, e.request).Some?;
    }
  }

  lemma StepDeletesOwn(s: State, e: Event)
    requires WellFormed(s) && AllDeleteOwn(s)
    ensures AllDeleteOwn(Step(s, e))
  {
    StepKeepsWellFormed(s, e);
    var s' := Step(s, e);
    forall q | q in s'.calls ensures DeletesOwn(s', s'.calls[q]) {
      CallDeletesOwn(s, e, q);
      LaterKeepsDeletesOwn(s, s', s'.calls[q]);
    }
  }

  lemma {:induction false} ExecDeletesOwn(s: State, es: seq<Event>)
    requires WellFormed(s) && AllDeleteOwn(s)
    ensures AllDeleteOwn(Exec(s, es))
  {
    if es == [] {
    } else {
      ExecKeepsWellFormed(s, es[..|es| - 1]);
      ExecDeletesOwn(s, es[..|es| - 1]);
      StepDeletesOwn(Exec(s, es[..|es| - 1]), es[|es| - 1]);
    }
  }

  /** An effect spares the session of the refresh token `t`. */
  predicate EffectSpares(e: Effect, t: Token) {
    match e
    case Drop(id) => id != t.id
    case Blacklist(u, _) => u.kind != t.kind || u.id != t.id
    case Mark(user, _) => user != t.user
    case Mint(id, _) => id != t.id
    case Store(id, _) => id != t.id
    case Nothing => true
  }

  lemma FailingSpares(s: State, c: Call, applied: bool, t: Token)
    requires WellFormed(s) && CallOk(s, c) && DeletesOwn(s, c) && t in s.returned && t.kind == Refresh
    requires !Targets(c, t)
    ensures EffectSpares(Failing(c, applied).1, t) && !Targets(Failing(c, applied).0, t)
  {
    if HoldsToken(c) && c.token.kind == t.kind && c.token.id == t.id { SameJtiSameToken(s, c.token, t); }
  }

  lemma CheckingSpares(s: State, c: Call, choice: Choice, t: Token)
    requires WellFormed(s) && CallOk(s, c) && DeletesOwn(s, c) && t in s.returned && t.kind == Refresh
    requires !Targets(c, t) && HoldsToken(c)
    ensures EffectSpares(Proceeding(s, c, choice).1, t) && !Targets(Proceeding(s, c, choice).0, t)
  {
    if c.token.kind == t.kind && c.token.id == t.id { SameJtiSameToken(s, c.token, t); }
  }

  lemma ScanningSpares(s: State, c: Call, choice: Choice, t: Token)
    requires WellFormed(s) && DeletesOwn(s, c) && t in s.returned && t.kind == Refresh
    requires !Targets(c, t) && (c.Scanning? || c.DeletingScanned?)
    ensures EffectSpares(Proceeding(s, c, choice).1, t) && !Targets(Proceeding(s, c, choice).0, t)
  {
  }

  lemma MintingSpares(s: State, c: Call, choice: Choice, t: Token)
    requires WellFormed(s) && CallOk(s, c) && t in s.returned
    requires !Targets(c, t) && !HoldsToken(c) && !c.Scanning? && !c.DeletingScanned?
    ensures EffectSpares(Proceeding(s, c, choice).1, t) && !Targets(Proceeding(s, c, choice).0, t)
  {
  }

  lemma OthersSpare(s: State, c: Call, choice: Choice, t: Token)
    requires WellFormed(s) && CallOk(s, c) && DeletesOwn(s, c) && t in s.returned && t.kind == Refresh
    requires !Targets(c, t)
    ensures EffectSpares(Advance(s, c, choice).1, t) && !Targets(Advance(s, c, choice).0, t)
  {
    if choice.Fails? {
      FailingSpares(s, c, choice.applied, t);
    } else if HoldsToken(c) {
      CheckingSpares(s, c, choice, t);
    } else if c.Scanning? || c.DeletingScanned? {
      ScanningSpares(s, c, choice, t);
    } else {
      MintingSpares(s, c, choice, t);
    }
  }

  /** What decides about the session of `t` is in the store as it was. */
  ghost predicate SameSession(before: State, s: State, t: Token) {
    && (Jti(t.kind, t.id) in s.blacklist <==> Jti(t.kind, t.id) in before.blacklist)
    && (t.user in s.markers <==> t.user in before.markers)
    && (t.user in s.markers ==> s.markers[t.user] == before.markers[t.user])
    && (t.id in s.refresh <==> t.id in before.refresh)
    && (t.id in s.refresh ==> s.refresh[t.id] == before.refresh[t.id])
  }

  ghost predicate Untargeted(s: State, t: Token) {
    forall p :: p in s.calls ==> !Targets(s.calls[p], t)
  }

  lemma ApplySparesSession(before: State, s: State, e: Effect, t: Token)
    requires SameSession(before, s, t) && EffectSpares(e, t)
    ensures SameSession(before, Apply(s, e), t) && Apply(s, e).calls == s.calls
  {
  }

  lemma GoSparesSession(before: State, s: State, p: CallId, choice: Choice, t: Token)
    requires WellFormed(s) && AllDeleteOwn(s) && t in s.returned && t.kind == Refresh
    requires SameSession(before, s, t) && Untargeted(s, t) && p in s.calls
    ensures SameSession(before, Step(s, Go(p, choice)), t) && Untargeted(Step(s, Go(p, choice)), t)
  {
    assert CallOk(s, s.calls[p]) && DeletesOwn(s, s.calls[p]);
    OthersSpare(s, s.calls[p], choice, t);
    ApplySparesSession(before, s, Advance(s, s.calls[p], choice).1, t);
  }

  lemma BeginIsAimedByRequest(s: State, p: CallId, r: Request, t: Token)
    requires !Threatens(r, t) && Begin(s, p, r).Some?
    ensures !Targets(Begin(s, p, r).value, t)
  {
  }

  lemma StartSparesSession(before: State, s: State, p: CallId, c: Call, t: Token)
    requires SameSession(before, s, t) && Untargeted(s, t) && !Targets(c, t)
    ensures SameSession(before, s.To(p, c), t) && Untargeted(s.To(p, c), t)
  {
  }

  lemma StepSparesSession(before: State, s: State, e: Event, t: Token)
    requires WellFormed(s) && AllDeleteOwn(s) && t in s.returned && t.kind == Refresh
    requires SameSession(before, s, t) && Untargeted(s, t) && (e.Start? ==> !Threatens(e.request, t))
    ensures SameSession(before, Step(s, e), t) && Untargeted(Step(s, e), t)
  {
    match e
    case Tick(_) =>
    case Start(p, r) =>
      if p !in s.calls && Begin(s, p, r).Some? {
        BeginIsAimedByRequest(s, p, r, t);
        StartSparesSession(before, s, p, Begin(s, p, r).value, t);
      }
    case Go(p, choice) => if p in s.calls { GoSparesSession(before, s, p, choice, t); }
  }

  /** A session that no call is aimed at and no request threatens stays as it is. */
  lemma {:induction false} SessionStays(s: State, es: seq<Event>, t: Token)
    requires WellFormed(s) && AllDeleteOwn(s) && t in s.returned && t.kind == Refresh
    requires Untargeted(s, t) && LeavesAlone(es, t)
    ensures SameSession(s, Exec(s, es), t) && Untargeted(Exec(s, es), t)
  {
    if es == [] {
    } else {
      var init := es[..|es| - 1];
      SessionStays(s, init, t);
      ExecKeepsWellFormed(s, init);
      ExecDeletesOwn(s, init);
      StepSparesSession(s, Exec(s, init), es[|es| - 1], t);
    }
  }

  lemma ReachableDeletesOwn(s: State)
    requires Reachable(s)
    ensures AllDeleteOwn(s)
  {
    var config, es :| s == Exec(Initial(config), es);
    ExecDeletesOwn(Initial(config), es);
  }

  lemma ReachableExec(s: State, es: seq<Event>)
    requires Reachable(s)
    ensures Reachable(Exec(s, es))
  {
    var config, before :| s == Exec(Initial(config), before);
    LaterExec(Initial(config), before, es);
    assert Exec(s, es) == Exec(Initial(config), before + es);
  }

  lemma {:induction false} LaterExec(s: State, before: seq<Event>, es: seq<Event>)
    ensures Exec(s, before + es) == Exec(Exec(s, before), es)
  {
    if es == [] {
      assert before + es == before;
    } else {
      var n := |es| - 1;
      assert before + es == before + es[..n] + [es[n]];
      ThenStep(s, before + es[..n], es[n]);
      LaterExec(s, before, es[..n]);
    }
  }

  function RotateEvents(p: CallId, t: Token, device: Option<Device>): seq<Event> {
    ValidateEvents(p, Rotate(t, device)) + [Go(p, Proceed)]
  }

  /** An unexpired refresh token that is not revoked and whose record is there is redeemed. */
  lemma UnrevokedRotates(s: State, t: Token, p: CallId)
    requires t in s.returned && t.kind == Refresh && t.id in s.minted && p !in s.calls
    requires Jti(t.kind, t.id) !in s.blacklist && InForce(s, t) && s.Live(t.id)
    ensures Rotating(Exec(s, RotateEvents(p, t, None)), p, t.id)
  {
    var c := Decoding(t, ForRotation(None));
    ChecksDecide(s, t, c.goal);
    ChecksAreARun(s, p, Rotate(t, None), c);
    ThenStep(s, ValidateEvents(p, Rotate(t, None)), Go(p, Proceed));
    ConsumeGo(s, p, Consuming(t, None));
  }

  // ---- A fresh login ----

  function LoginPair(s: State, p: CallId, u: User, d: Option<Device>, created: nat): Pair {
    Pair(u, d, s.clock, created / SECOND + s.config.accessSeconds, created / SECOND + s.config.refreshSeconds,
         p, 0, None)
  }

  /** The call that minted plays no part in what was minted. */
  lemma MintsAfterStart(s: State, c: Call, s': State, p: CallId, pair: Pair, id: PairId)
    requires Mints(s.To(p, c), s', p, pair, id)
    ensures Mints(s, s', p, pair, id)
  {
    assert s.calls[p := c][p := Done(Issued(id))] == s.calls[p := Done(Issued(id))];
  }

  lemma ReachableLeads(s: State, s': State)
    requires Reachable(s) && Leads(s, s')
    ensures Reachable(s')
  {
    var config, es :| s == Exec(Initial(config), es);
    ExecLeads(Initial(config), es);
    LeadsTransitive(Initial(config), s, s');
    LeadsIsReachable(config, s');
  }

  /** A login that nothing interleaves with mints a pair and stores its record. */
  lemma LoginRun(s: State, p: CallId, u: User, d: Option<Device>, id: PairId, created: nat) returns (next: State)
    requires Reachable(s) && p !in s.calls && id !in s.minted && created <= s.clock
    ensures Leads(s, next) && Reachable(next) && Mints(s, next, p, LoginPair(s, p, u, d, created), id)
  {
    var c := Minting(u, d, p, 0, None);
    var started := LoginStarts(s, p, u, d);
    next := MintRun(started, p, c, id, created);
    MintsAfterStart(s, c, next, p, LoginPair(s, p, u, d, created), id);
    LeadsTransitive(s, started, next);
    ReachableLeads(s, next);
  }

  /** A new pair can be neither on the blacklist nor the business of any call but its own. */
  lemma NewPairIsUntouched(s: State, s': State, p: CallId, pair: Pair, id: PairId)
    requires WellFormed(s) && BlacklistOk(s) && id !in s.minted && Mints(s, s', p, pair, id)
    requires forall q :: q in s.calls ==> !RevokesAllOf(s.calls[q], pair.user)
    ensures Unrevoked(s', pair.Signed(Access, id)) && Unrevoked(s', pair.Signed(Refresh, id))
    ensures Untargeted(s', pair.Signed(Refresh, id))
  {
    var a, t := pair.Signed(Access, id), pair.Signed(Refresh, id);
    forall q | q in s'.calls ensures !Targets(s'.calls[q], t) && !Revokes(s'.calls[q], a) && !Revokes(s'.calls[q], t) {
      if q != p { OldCallsIgnore(s, s.calls[q], pair, id); }
    }
  }

  lemma OldCallsIgnore(s: State, c: Call, pair: Pair, id: PairId)
    requires WellFormed(s) && CallOk(s, c) && id !in s.minted && !RevokesAllOf(c, pair.user)
    ensures !Targets(c, pair.Signed(Refresh, id))
    ensures !Revokes(c, pair.Signed(Access, id)) && !Revokes(c, pair.Signed(Refresh, id))
  {
    if HoldsToken(c) { assert c.token.id in s.minted; }
  }

  /** A validation of `t` as call `p` accepts it. */
  ghost predicate IsAccepted(s: State, t: Token, p: CallId) {
    Exec(s, ValidateEvents(p, Validate(t, t.kind, true))) == s.To(p, Done(Accepted(t, true)))
  }

  /** A refresh with `t` as call `p` gets as far as minting its successor. */
  ghost predicate IsRedeemed(s: State, t: Token, p: CallId) {
    Rotating(Exec(s, RotateEvents(p, t, None)), p, t.id)
  }

  /** Both tokens of a session are in force apart from expiry, its record is there, and no call is aimed at
      them. */
  ghost predicate Ready(s: State, access: Token, t: Token) {
    && Reachable(s) && access in s.returned && t in s.returned && access.kind == Access && t.kind == Refresh
    && access.user == t.user && access.issuedNs == t.issuedNs
    && Unrevoked(s, access) && Unrevoked(s, t) && Untargeted(s, t) && t.id in s.refresh
    && (t.user in s.markers ==> s.markers[t.user] < t.issuedNs)
  }

  lemma SessionIsAdmitted(s: State, es: seq<Event>, s': State, access: Token, t: Token, q: CallId)
    requires Ready(s, access, t) && LeavesAlone(es, t) && Spares(es, access)
    requires s' == Exec(s, es) && q !in s'.calls
    ensures s'.clock < access.exp * SECOND ==> IsAccepted(s', access, q)
    ensures s'.clock < t.exp * SECOND ==> IsRedeemed(s', t, q)
  {
    ReachableIsWellFormed(s);
    ReachableDeletesOwn(s);
    ExecKeepsWellFormed(s, es);
    SessionStays(s, es, t);
    StaysUnrevoked(s, es, access);
    UnrevokedDecides(s', access, q);
    if s'.clock < t.exp * SECOND {
      ReachableExec(s, es);
      RecordOutlastsToken(s', t);
      UnrevokedRotates(s', t, q);
    }
  }

  lemma FreshLoginIsReady(s: State, p: CallId, u: User, d: Option<Device>, id: PairId, created: nat, begun: State)
    requires Reachable(s) && Reachable(begun) && id !in s.minted
    requires Mints(s, begun, p, LoginPair(s, p, u, d, created), id)
    requires forall r :: r in s.calls ==> !RevokesAllOf(s.calls[r], u)
    requires u in s.markers ==> s.markers[u] < s.clock
    ensures var pair := LoginPair(s, p, u, d, created);
            Ready(begun, pair.Signed(Access, id), pair.Signed(Refresh, id))
  {
    ReachableIsBlacklistOk(s);
    NewPairIsUntouched(s, begun, p, LoginPair(s, p, u, d, created), id);
  }

  /** A login after the user's last marker begins a session that lasts: whatever other calls do, as long as
      no request revokes or redeems its refresh token, revokes its access token or revokes all of the user,
      the access token is accepted and the refresh token redeemed at every time before they expire. */
  lemma FreshLoginIsAdmitted(s: State, p: CallId, u: User, d: Option<Device>, id: PairId, created: nat, begun: State,
                             es: seq<Event>, s': State, access: Token, refresh: Token, q: CallId)
    requires Reachable(s) && Reachable(begun) && id !in s.minted
    requires Mints(s, begun, p, LoginPair(s, p, u, d, created), id)
    requires forall r :: r in s.calls ==> !RevokesAllOf(s.calls[r], u)
    requires u in s.markers ==> s.markers[u] < s.clock
    requires access == Token(Access, id, u, d, s.clock, created / SECOND + s.config.accessSeconds)
    requires refresh == Token(Refresh, id, u, d, s.clock, created / SECOND + s.config.refreshSeconds)
    requires LeavesAlone(es, refresh) && Spares(es, access)
    requires s' == Exec(begun, es) && q !in s'.calls
    ensures s'.clock < access.exp * SECOND ==> IsAccepted(s', access, q)
    ensures s'.clock < refresh.exp * SECOND ==> IsRedeemed(s', refresh, q)
  {
    FreshLoginIsReady(s, p, u, d, id, created, begun);
    SessionIsAdmitted(begun, es, s', access, refresh, q);
  }
}
