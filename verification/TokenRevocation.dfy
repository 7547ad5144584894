/** Revoking one token: how long it stays on the blacklist, and that a revoked refresh token never
    rotates again. */
module TokenRevocation {
  import opened Wrappers
  import opened TokenProtocol
  import opened TokenInvariants

  /** An entry that expires at `expires` outlasts everything but the last second before `exp`. */
  predicate Outlasts(expires: nat, t: Token) {
    t.exp * SECOND < expires + SECOND
  }

  predicate OnBlacklist(blacklist: map<Jti, nat>, t: Token) {
    Jti(t.kind, t.id) in blacklist && Outlasts(blacklist[Jti(t.kind, t.id)], t)
  }

  /** What a revocation in progress, or one that has reported success, has achieved. */
  predicate RevocationOk(s: State, c: Call) {
    match c
    case Blacklisting(t, ttl) => Outlasts(s.clock + ttl * SECOND, t)
    case DeletingRecord(t) => OnBlacklist(s.blacklist, t)
    case Done(Revoked(t, ok)) =>
      ok ==> OnBlacklist(s.blacklist, t) && t in s.returned && (t.kind == Refresh ==> t.id !in s.refresh)
    case _ => true
  }

  /** Every blacklist entry outlasts the token it is for. */
  ghost predicate EntriesOk(blacklist: map<Jti, nat>, returned: set<Token>, stored: set<PairId>) {
    && (forall t :: t in returned && Jti(t.kind, t.id) in blacklist ==> OnBlacklist(blacklist, t))
    && (forall j :: j in blacklist ==> j.id in stored)
  }

  ghost predicate BlacklistOk(s: State) {
    && EntriesOk(s.blacklist, s.returned, s.stored)
    && forall p :: p in s.calls ==> RevocationOk(s, s.calls[p])
  }

  lemma TtlRoundsDown(exp: nat, clock: nat)
    ensures exp * SECOND < clock + SecondsLeft(exp, clock) * SECOND + SECOND
  {
  }

  predicate Revoking(c: Call) {
    c.ReadingExpiry? || c.Blacklisting? || c.DeletingRecord?
  }

  lemma RevokeStepKeepsOk(s: State, c: Call)
    requires Revoking(c) && CallOk(s, c) && RevocationOk(s, c)
    ensures var (c', e) := RevokeStep(s, c); RevocationOk(Apply(s, e), c')
  {
    if c.ReadingExpiry? { TtlRoundsDown(c.token.exp, s.clock); }
  }

  /** No other step begins, or reports the success of, a revocation. */
  lemma OnlyRevokeStepsRevoke(s: State, c: Call, choice: Choice)
    requires !Revoking(c) || choice.Fails?
    ensures var (c', e) := Advance(s, c, choice);
            || (c' == c && e == Nothing)
            || (!c'.Blacklisting? && !c'.DeletingRecord? && (c'.Done? && c'.outcome.Revoked? ==> !c'.outcome.ok))
  {
  }

  lemma AdvanceKeepsRevocationOk(s: State, c: Call, choice: Choice)
    requires CallOk(s, c) && RevocationOk(s, c)
    ensures var (c', e) := Advance(s, c, choice); RevocationOk(Apply(s, e), c')
  {
    if Revoking(c) && !choice.Fails? {
      RevokeStepKeepsOk(s, c);
    } else {
      OnlyRevokeStepsRevoke(s, c, choice);
    }
  }

  ghost predicate EntriesStay(returned: set<Token>, before: map<Jti, nat>, after: map<Jti, nat>) {
    forall t :: t in returned && OnBlacklist(before, t) ==> OnBlacklist(after, t)
  }

  /** Blacklist entries of the tokens in `s` stay, and stay long enough. */
  ghost predicate BlacklistHolds(s: State, s': State) {
    Later(s, s') && EntriesStay(s.returned, s.blacklist, s'.blacklist)
  }

  lemma OthersKeepRevocationOk(s: State, s': State, c: Call)
    requires WellFormed(s) && CallOk(s, c) && RevocationOk(s, c) && BlacklistHolds(s, s')
    ensures RevocationOk(s', c)
  {
  }

  /** Two signed tokens with the same key are the same token. */
  lemma SameJtiSameToken(s: State, t: Token, u: Token)
    requires WellFormed(s) && t in s.returned && u in s.returned && t.kind == u.kind && t.id == u.id
    ensures t == u
  {
  }

  lemma ApplyKeepsEntries(s: State, c: Call, c': Call, e: Effect)
    requires WellFormed(s) && BlacklistOk(s) && CallOk(s, c) && RevocationOk(s, c) && EffectOk(s, c, c', e)
    ensures var s' := Apply(s, e);
            && BlacklistHolds(s, s')
            && EntriesOk(s'.blacklist, s'.returned, s'.stored)
  {
    var s' := Apply(s, e);
    ApplyIsLater(s, c, c', e);
    if e.Blacklist? {
      forall t | t in s.returned && t.kind == e.token.kind && t.id == e.token.id ensures t == e.token {
        SameJtiSameToken(s, t, e.token);
      }
    }
  }

  lemma AccessKeepsBlacklistOk(s: State, p: CallId, c': Call, e: Effect)
    requires WellFormed(s) && BlacklistOk(s) && p in s.calls && AdvanceOk(s, s.calls[p], c', e)
    requires RevocationOk(Apply(s, e), c')
    ensures BlacklistOk(Apply(s, e).To(p, c'))
  {
    var s' := Apply(s, e).To(p, c');
    assert CallOk(s, s.calls[p]) && RevocationOk(s, s.calls[p]);
    ApplyKeepsEntries(s, s.calls[p], c', e);
    OthersKeepAllRevocationsOk(s, s', p);
  }

  lemma OthersKeepAllRevocationsOk(s: State, s': State, p: CallId)
    requires WellFormed(s) && BlacklistOk(s) && BlacklistHolds(s, s')
    requires p in s'.calls && s'.calls == s.calls[p := s'.calls[p]] && RevocationOk(s', s'.calls[p])
    ensures forall q :: q in s'.calls ==> RevocationOk(s', s'.calls[q])
  {
    forall q | q in s'.calls ensures RevocationOk(s', s'.calls[q]) {
      if q != p {
        assert CallOk(s, s.calls[q]) && RevocationOk(s, s.calls[q]);
        OthersKeepRevocationOk(s, s', s.calls[q]);
      }
    }
  }

  lemma QuietKeepsBlacklistOk(s: State, s': State, p: CallId)
    requires WellFormed(s) && BlacklistOk(s)
    requires s' == s.(clock := s'.clock, calls := s'.calls) && s.clock <= s'.clock
    requires s.calls.Keys <= s'.calls.Keys <= s.calls.Keys + {p}
    requires forall q :: q in s.calls ==> s'.calls[q] == s.calls[q]
    requires p in s'.calls && p !in s.calls ==> RevocationOk(s', s'.calls[p])
    ensures BlacklistOk(s')
  {
    forall q | q in s'.calls ensures RevocationOk(s', s'.calls[q]) {
      if q in s.calls {
        assert CallOk(s, s.calls[q]) && RevocationOk(s, s.calls[q]);
        OthersKeepRevocationOk(s, s', s.calls[q]);
      }
    }
  }

  lemma StartKeepsBlacklistOk(s: State, p: CallId, r: Request)
    requires WellFormed(s) && BlacklistOk(s)
    ensures BlacklistOk(Step(s, Start(p, r)))
  {
    QuietKeepsBlacklistOk(s, Step(s, Start(p, r)), p);
  }

  lemma StepKeepsBlacklistOk(s: State, e: Event)
    requires WellFormed(s) && BlacklistOk(s)
    ensures BlacklistOk(Step(s, e))
  {
    match e
    case Tick(ns) => QuietKeepsBlacklistOk(s, Step(s, e), 0);
    case Start(p, r) => StartKeepsBlacklistOk(s, p, r);
    case Go(p, choice) => if p in s.calls { GoKeepsBlacklistOk(s, p, choice); }
  }

  lemma GoKeepsBlacklistOk(s: State, p: CallId, choice: Choice)
    requires WellFormed(s) && BlacklistOk(s) && p in s.calls
    ensures BlacklistOk(Step(s, Go(p, choice)))
  {
    var c := s.calls[p];
    assert CallOk(s, c) && RevocationOk(s, c);
    AdvanceIsOk(s, c, choice);
    AdvanceKeepsRevocationOk(s, c, choice);
    AccessKeepsBlacklistOk(s, p, Advance(s, c, choice).0, Advance(s, c, choice).1);
  }

  lemma {:induction false} ExecKeepsBlacklistOk(s: State, es: seq<Event>)
    requires WellFormed(s) && BlacklistOk(s)
    ensures BlacklistOk(Exec(s, es))
  {
    if es == [] {
    } else {
      ExecKeepsBlacklistOk(s, es[..|es| - 1]);
      ExecKeepsWellFormed(s, es[..|es| - 1]);
      StepKeepsBlacklistOk(Exec(s, es[..|es| - 1]), es[|es| - 1]);
    }
  }

  lemma ReachableIsBlacklistOk(s: State)
    requires Reachable(s)
    ensures WellFormed(s) && BlacklistOk(s)
  {
    var config, es :| s == Exec(Initial(config), es);
    ExecKeepsWellFormed(Initial(config), es);
    ExecKeepsBlacklistOk(Initial(config), es);
  }

  /** A finished call stays as it is. */
  lemma {:induction false} FinishedStays(s: State, es: seq<Event>, p: CallId)
    requires p in s.calls && s.calls[p].Done?
    ensures p in Exec(s, es).calls && Exec(s, es).calls[p] == s.calls[p]
  {
    if es == [] {
    } else {
      FinishedStays(s, es[..|es| - 1], p);
      FinishedStaysOneStep(Exec(s, es[..|es| - 1]), es[|es| - 1], p);
    }
  }

  lemma FinishedStaysOneStep(s: State, e: Event, p: CallId)
    requires p in s.calls && s.calls[p].Done?
    ensures p in Step(s, e).calls && Step(s, e).calls[p] == s.calls[p]
  {
    if e.Go? && e.call == p {
      GoMovesCall(s, p, e.choice);
      FinishedDoesNothing(s, s.calls[p], e.choice);
    } else {
      OtherCallsStay(s, e, p);
    }
  }

  lemma FinishedDoesNothing(s: State, c: Call, choice: Choice)
    requires c.Done?
    ensures Advance(s, c, choice) == (c, Nothing)
  {
  }

  /** At every time after `revoke_token` has returned true for `t`, up to one second before `exp`,
      `t` is on the blacklist. */
  lemma RevokedIsBlacklisted(s: State, es: seq<Event>, p: CallId, t: Token)
    requires Reachable(s) && p in s.calls && s.calls[p] == Done(Revoked(t, true))
    requires Exec(s, es).clock + SECOND <= t.exp * SECOND
    ensures Exec(s, es).Blacklisted(t)
  {
    ReachableIsBlacklistOk(s);
    ExecKeepsBlacklistOk(s, es);
    FinishedStays(s, es, p);
    var s' := Exec(s, es);
    assert RevocationOk(s', s'.calls[p]);
  }

  /** The record of a revoked refresh token is gone for good. */
  lemma RevokedRecordIsGone(s: State, es: seq<Event>, p: CallId, t: Token)
    requires Reachable(s) && p in s.calls && s.calls[p] == Done(Revoked(t, true)) && t.kind == Refresh
    ensures t.id !in Exec(s, es).refresh
  {
    ReachableIsBlacklistOk(s);
    ExecKeepsBlacklistOk(s, es);
    FinishedStays(s, es, p);
    var s' := Exec(s, es);
    assert RevocationOk(s', s'.calls[p]);
  }

  /** Call `p` is minting the successor of pair `id`. */
  predicate Rotating(s: State, p: CallId, id: PairId) {
    p in s.calls && s.calls[p].Minting? && s.calls[p].parent == Some(id)
  }

  lemma StepRotatesLiveOnly(s: State, e: Event, p: CallId, id: PairId)
    requires id !in s.refresh && Rotating(Step(s, e), p, id)
    ensures Rotating(s, p, id)
  {
    if e.Go? && e.call == p && p in s.calls { AdvanceRotatesLiveOnly(s, s.calls[p], e.choice, id); }
  }

  lemma AdvanceRotatesLiveOnly(s: State, c: Call, choice: Choice, id: PairId)
    requires id !in s.refresh
    requires var c' := Advance(s, c, choice).0; c'.Minting? && c'.parent == Some(id)
    ensures c.Minting? && c.parent == Some(id)
  {
  }

  /** So no refresh of a revoked refresh token gets through GETDEL any more: a call that rotates it
      later was already past GETDEL when the revocation returned. */
  lemma {:induction false} RevokedNeverRotates(s: State, es: seq<Event>, p: CallId, t: Token, q: CallId)
    requires Reachable(s) && p in s.calls && s.calls[p] == Done(Revoked(t, true)) && t.kind == Refresh
    requires Rotating(Exec(s, es), q, t.id)
    ensures Rotating(s, q, t.id)
  {
    if es == [] {
    } else {
      RevokedRecordIsGone(s, es[..|es| - 1], p, t);
      StepRotatesLiveOnly(Exec(s, es[..|es| - 1]), es[|es| - 1], q, t.id);
      RevokedNeverRotates(s, es[..|es| - 1], p, t, q);
    }
  }

  /** Call `p` is past the blacklist check of `t`. */
  predicate PastBlacklist(s: State, p: CallId, t: Token) {
    p in s.calls && BeyondBlacklist(s.calls[p], t)
  }

  predicate BeyondBlacklist(c: Call, t: Token) {
    c == Done(Accepted(t, true)) || ((c.CheckingMarker? || c.Consuming?) && c.token == t)
  }

  lemma AdvanceStopsBlacklisted(s: State, c: Call, choice: Choice, t: Token)
    requires s.Blacklisted(t) && BeyondBlacklist(Advance(s, c, choice).0, t)
    ensures BeyondBlacklist(c, t)
  {
  }

  lemma StepStopsBlacklisted(s: State, e: Event, p: CallId, t: Token)
    requires s.Blacklisted(t) && PastBlacklist(Step(s, e), p, t)
    ensures PastBlacklist(s, p, t)
  {
    if e.Go? && e.call == p && p in s.calls { AdvanceStopsBlacklisted(s, s.calls[p], e.choice, t); }
  }

  lemma ClockNeverGoesBack(s: State, e: Event)
    ensures s.clock <= Step(s, e).clock
  {
  }

  /** Until one second before `exp`, no check of a revoked token gets past the blacklist any more. */
  lemma {:induction false} RevokedIsRefused(s: State, es: seq<Event>, p: CallId, t: Token, q: CallId)
    requires Reachable(s) && p in s.calls && s.calls[p] == Done(Revoked(t, true))
    requires Exec(s, es).clock + SECOND <= t.exp * SECOND && PastBlacklist(Exec(s, es), q, t)
    ensures PastBlacklist(s, q, t)
  {
    if es == [] {
    } else {
      var init := es[..|es| - 1];
      ClockNeverGoesBack(Exec(s, init), es[|es| - 1]);
      RevokedIsBlacklisted(s, init, p, t);
      StepStopsBlacklisted(Exec(s, init), es[|es| - 1], q, t);
      RevokedIsRefused(s, init, p, t, q);
    }
  }
}
