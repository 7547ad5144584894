/** The protocol runs of single calls that nothing interleaves with. */
module TokenRuns {
  import opened Wrappers
  import opened TokenProtocol
  import opened TokenInvariants

  lemma ThenStep(s: State, es: seq<Event>, e: Event)
    ensures Exec(s, es + [e]) == Step(Exec(s, es), e)
  {
    assert (es + [e])[..|es|] == es;
  }

  lemma TwoEvents(s: State, a: Event, b: Event)
    ensures Exec(s, [a, b]) == Step(Step(s, a), b)
  {
    assert [a, b] == [] + [a] + [b];
    ThenStep(s, [], a);
    ThenStep(s, [] + [a], b);
  }

  lemma FourEvents(s: State, a: Event, b: Event, c: Event, d: Event)
    ensures Exec(s, [a, b, c, d]) == Step(Step(Step(Step(s, a), b), c), d)
  {
    assert [a, b, c, d] == [a, b] + [c] + [d];
    TwoEvents(s, a, b);
    ThenStep(s, [a, b], c);
    ThenStep(s, [a, b] + [c], d);
  }

  // ---- Runs as paths of states ----

  ghost predicate OneStep(s: State, s': State) {
    exists e :: Step(s, e) == s'
  }

  ghost predicate Linked(path: seq<State>, i: nat) {
    i + 1 < |path| && OneStep(path[i], path[i + 1])
  }

  ghost predicate IsPath(path: seq<State>, s: State, s': State) {
    && path != [] && path[0] == s && path[|path| - 1] == s'
    && forall i: nat {:trigger Linked(path, i)} :: i < |path| - 1 ==> Linked(path, i)
  }

  /** Some run leads from `s` to `s'`. */
  ghost predicate Leads(s: State, s': State) {
    exists path :: IsPath(path, s, s')
  }

  lemma LeadsReflexive(s: State)
    ensures Leads(s, s)
  {
    assert IsPath([s], s, s);
  }

  lemma LeadsTransitive(a: State, b: State, c: State)
    requires Leads(a, b) && Leads(b, c)
    ensures Leads(a, c)
  {
    var p :| IsPath(p, a, b);
    var q :| IsPath(q, b, c);
    var n := |p| - 1;
    var r := p[..n] + q;
    forall i: nat | i < |r| - 1 ensures Linked(r, i) {
      if i < n {
        assert Linked(p, i);
        assert r[i] == p[i] && r[i + 1] == p[i + 1];
      } else {
        assert Linked(q, i - n);
        assert r[i] == q[i - n] && r[i + 1] == q[i + 1 - n];
      }
    }
    assert IsPath(r, a, c);
  }

  lemma StepLeads(s: State, e: Event)
    ensures Leads(s, Step(s, e))
  {
    var path := [s, Step(s, e)];
    assert OneStep(s, Step(s, e));
    assert Linked(path, 0);
    assert IsPath(path, s, Step(s, e));
  }

  lemma {:induction false} ExecLeads(s: State, es: seq<Event>)
    ensures Leads(s, Exec(s, es))
  {
    if es == [] {
      LeadsReflexive(s);
    } else {
      ExecLeads(s, es[..|es| - 1]);
      StepLeads(Exec(s, es[..|es| - 1]), es[|es| - 1]);
      LeadsTransitive(s, Exec(s, es[..|es| - 1]), Exec(s, es));
    }
  }

  lemma {:induction false} PathIsReachable(config: Config, path: seq<State>, s: State)
    requires IsPath(path, Initial(config), s)
    ensures Reachable(s)
  {
    var n := |path| - 1;
    if n == 0 {
      assert Exec(Initial(config), []) == s;
    } else {
      var init := path[..n];
      forall i: nat | i < |init| - 1 ensures Linked(init, i) {
        assert Linked(path, i);
      }
      PathIsReachable(config, init, path[n - 1]);
      assert Linked(path, n - 1);
      var e :| Step(path[n - 1], e) == path[n];
      ReachableStep(path[n - 1], e);
    }
  }

  lemma LeadsIsReachable(config: Config, s: State)
    requires Leads(Initial(config), s)
    ensures Reachable(s) && WellFormed(s)
  {
    var path :| IsPath(path, Initial(config), s);
    PathIsReachable(config, path, s);
    ReachableIsWellFormed(s);
  }

  // ---- Minting ----

  function MintedPair(s: State, c: Call, created: nat): Pair
    requires c.Minting?
  {
    Pair(c.user, c.device, s.clock,
         created / SECOND + s.config.accessSeconds, created / SECOND + s.config.refreshSeconds,
         c.family, c.generation, c.parent)
  }

  function Minted(s: State, p: CallId, c: Call, id: PairId, created: nat): State
    requires c.Minting?
  {
    s.(minted := s.minted[id := MintedPair(s, c, created)], calls := s.calls[p := Storing(id)])
  }

  function AfterMint(s: State, p: CallId, c: Call, id: PairId, created: nat): State
    requires c.Minting?
  {
    Apply(Minted(s, p, c, id, created), Store(id, true)).To(p, Done(Issued(id)))
  }

  /** The pair is in the store and with the caller, and the call is over. */
  lemma MintStores(s: State, p: CallId, c: Call, id: PairId, created: nat)
    requires c.Minting?
    ensures var s', pair := AfterMint(s, p, c, id, created), MintedPair(s, c, created);
            && s'.refresh == s.refresh[id := Record(c.user, s.clock + s.config.refreshSeconds * SECOND)]
            && s'.minted == s.minted[id := pair] && s'.calls == s.calls[p := Done(Issued(id))]
            && s'.returned == s.returned + {pair.Signed(Access, id), pair.Signed(Refresh, id)}
            && s'.config == s.config && s'.clock == s.clock && s'.blacklist == s.blacklist && s'.markers == s.markers
  {
    assert s.calls[p := Storing(id)][p := Done(Issued(id))] == s.calls[p := Done(Issued(id))];
  }

  function MintEvents(p: CallId, id: PairId, created: nat): seq<Event> {
    [Go(p, MintAs(id, created)), Go(p, Proceed)]
  }

  lemma MintStep(s: State, p: CallId, c: Call, id: PairId, created: nat)
    requires p in s.calls && s.calls[p] == c && c.Minting? && id !in s.minted && created <= s.clock
    ensures Step(s, Go(p, MintAs(id, created))) == Minted(s, p, c, id, created)
  {
  }

  lemma StoreStep(s: State, p: CallId, id: PairId)
    requires p in s.calls && s.calls[p] == Storing(id)
    ensures Step(s, Go(p, Proceed)) == Apply(s, Store(id, true)).To(p, Done(Issued(id)))
  {
  }

  lemma MintIsARun(s: State, p: CallId, c: Call, id: PairId, created: nat)
    requires p in s.calls && s.calls[p] == c && c.Minting? && id !in s.minted && created <= s.clock
    ensures Exec(s, MintEvents(p, id, created)) == AfterMint(s, p, c, id, created)
  {
    TwoEvents(s, Go(p, MintAs(id, created)), Go(p, Proceed));
    MintStep(s, p, c, id, created);
    StoreStep(Minted(s, p, c, id, created), p, id);
  }

  /** What minting changes: the pair is in the store and with the caller, and the call is over. */
  ghost predicate Mints(s: State, s': State, p: CallId, pair: Pair, id: PairId) {
    && s'.refresh == s.refresh[id := Record(pair.user, s.clock + s.config.refreshSeconds * SECOND)]
    && s'.minted == s.minted[id := pair] && s'.calls == s.calls[p := Done(Issued(id))]
    && s'.returned == s.returned + {pair.Signed(Access, id), pair.Signed(Refresh, id)}
    && s'.config == s.config && s'.clock == s.clock && s'.blacklist == s.blacklist && s'.markers == s.markers
  }

  lemma MintRun(s: State, p: CallId, c: Call, id: PairId, created: nat) returns (next: State)
    requires p in s.calls && s.calls[p] == c && c.Minting? && id !in s.minted && created <= s.clock
    ensures Leads(s, next) && Mints(s, next, p, MintedPair(s, c, created), id)
  {
    next := AfterMint(s, p, c, id, created);
    ExecLeads(s, MintEvents(p, id, created));
    MintIsARun(s, p, c, id, created);
    MintStores(s, p, c, id, created);
  }

  lemma LoginStarts(s: State, p: CallId, u: User, d: Option<Device>) returns (next: State)
    requires p !in s.calls
    ensures Leads(s, next) && next == s.To(p, Minting(u, d, p, 0, None))
  {
    next := Step(s, Start(p, Login(u, d)));
    StepLeads(s, Start(p, Login(u, d)));
  }

  // ---- Validation ----

  predicate Passes(s: State, t: Token, expected: Kind, verify: bool) {
    s.clock < t.exp * SECOND && t.kind == expected && (verify ==> !s.Blacklisted(t) && !s.PastBoundary(t))
  }

  /** A step of a call that only reads. */
  lemma ReadStep(s: State, p: CallId, c: Call)
    requires p in s.calls && s.calls[p] == c && (c.Decoding? || c.CheckingBlacklist? || c.CheckingMarker? || c.Done?)
    ensures Step(s, Go(p, Proceed)) ==
            s.To(p, if c.Decoding? then DecodeStep(s, c) else if c.Done? then c else CheckStep(s, c))
  {
  }

  /** The call after at most three reads. */
  function ReadThrice(s: State, c: Call): Call
    requires c.Decoding?
  {
    Read(s, Read(s, Read(s, c)))
  }

  function Read(s: State, c: Call): Call {
    if c.Decoding? then DecodeStep(s, c) else if c.CheckingBlacklist? || c.CheckingMarker? then CheckStep(s, c) else c
  }

  lemma ToTwice(s: State, p: CallId, a: Call, b: Call)
    ensures s.To(p, a).To(p, b) == s.To(p, b)
  {
    assert s.calls[p := a][p := b] == s.calls[p := b];
  }

  lemma ReadSteps(s: State, p: CallId, c: Call)
    requires c.Decoding? || c.CheckingBlacklist? || c.CheckingMarker? || c.Done?
    ensures Step(s.To(p, c), Go(p, Proceed)) == s.To(p, Read(s, c))
  {
    ReadStep(s.To(p, c), p, c);
    ToTwice(s, p, c, Read(s, c));
  }

  function ValidateEvents(p: CallId, r: Request): seq<Event> {
    [Start(p, r), Go(p, Proceed), Go(p, Proceed), Go(p, Proceed)]
  }

  /** The checks of a validation in sequence; a call that is over earlier stays over. */
  lemma ChecksAreARun(s: State, p: CallId, r: Request, c: Call)
    requires p !in s.calls && Begin(s, p, r) == Some(c) && c.Decoding?
    requires Read(s, Read(s, c)).Done? || Read(s, Read(s, c)).CheckingMarker?
    ensures Exec(s, ValidateEvents(p, r)) == s.To(p, ReadThrice(s, c))
  {
    FourEvents(s, Start(p, r), Go(p, Proceed), Go(p, Proceed), Go(p, Proceed));
    assert Step(s, Start(p, r)) == s.To(p, c);
    ReadSteps(s, p, c);
    ReadSteps(s, p, Read(s, c));
    ReadSteps(s, p, Read(s, Read(s, c)));
  }

  lemma ChecksDecide(s: State, t: Token, goal: Goal)
    ensures var c := Decoding(t, goal);
            var expected := if goal.ForCaller? then goal.expected else Refresh;
            var passed := Passes(s, t, expected, goal.ForRotation? || goal.verify);
            && (Read(s, Read(s, c)).Done? || Read(s, Read(s, c)).CheckingMarker?)
            && ReadThrice(s, c) ==
               if !passed then Done(Refused(t))
               else match goal
                    case ForCaller(_, verify) => Done(Accepted(t, verify))
                    case ForRotation(d) => if d.Some? && t.device != d then Done(Refused(t)) else Consuming(t, d)
  {
  }

  lemma ValidateRun(s: State, p: CallId, t: Token, expected: Kind, verify: bool) returns (next: State)
    requires p !in s.calls && t in s.returned
    ensures Leads(s, next)
    ensures next == s.To(p, Done(if Passes(s, t, expected, verify) then Accepted(t, verify) else Refused(t)))
  {
    var c, r := Decoding(t, ForCaller(expected, verify)), Validate(t, expected, verify);
    ChecksDecide(s, t, c.goal);
    ChecksAreARun(s, p, r, c);
    ExecLeads(s, ValidateEvents(p, r));
    next := s.To(p, ReadThrice(s, c));
  }

  // ---- Rotation ----

  /** A refresh goes through for a valid refresh token on its device whose record is live. */
  predicate MayRotate(s: State, t: Token, device: Option<Device>) {
    Passes(s, t, Refresh, true) && (device.Some? ==> t.device == device) && s.Live(t.id)
  }

  lemma ConsumeGo(s: State, p: CallId, c: Call)
    requires c.Consuming?
    ensures Step(s.To(p, c), Go(p, Proceed)) == Apply(s, ConsumeStep(s, c).1).To(p, ConsumeStep(s, c).0)
  {
    var (c', e) := ConsumeStep(s, c);
    assert ConsumeStep(s.To(p, c), c) == (c', e);
    assert s.calls[p := c][p := c'] == s.calls[p := c'];
  }

  /** The call that mints the successor of `t`. */
  function Successor(s: State, t: Token, device: Option<Device>): Call
    requires t.id in s.minted
  {
    Minting(t.user, if device.Some? then device else t.device,
            s.minted[t.id].family, s.minted[t.id].generation + 1, Some(t.id))
  }

  lemma RotationChecksRun(s: State, p: CallId, t: Token, device: Option<Device>) returns (next: State)
    requires p !in s.calls && t in s.returned
    ensures Leads(s, next)
    ensures next == s.To(p, if Passes(s, t, Refresh, true) && (device.Some? ==> t.device == device)
                            then Consuming(t, device) else Done(Refused(t)))
  {
    var c, r := Decoding(t, ForRotation(device)), Rotate(t, device);
    ChecksDecide(s, t, c.goal);
    ChecksAreARun(s, p, r, c);
    ExecLeads(s, ValidateEvents(p, r));
    next := s.To(p, ReadThrice(s, c));
  }

  lemma GetDelRun(s: State, p: CallId, t: Token, device: Option<Device>) returns (next: State)
    requires t.id in s.minted
    ensures Leads(s.To(p, Consuming(t, device)), next)
    ensures next == if s.Live(t.id) then Apply(s, Drop(t.id)).To(p, Successor(s, t, device))
                    else s.To(p, Done(Refused(t)))
  {
    ConsumeGo(s, p, Consuming(t, device));
    StepLeads(s.To(p, Consuming(t, device)), Go(p, Proceed));
    next := Step(s.To(p, Consuming(t, device)), Go(p, Proceed));
  }

  lemma RotateRun(s: State, p: CallId, t: Token, device: Option<Device>) returns (next: State)
    requires p !in s.calls && t in s.returned && t.id in s.minted
    ensures Leads(s, next)
    ensures next == if MayRotate(s, t, device) then Apply(s, Drop(t.id)).To(p, Successor(s, t, device))
                    else s.To(p, Done(Refused(t)))
  {
    next := RotationChecksRun(s, p, t, device);
    if Passes(s, t, Refresh, true) && (device.Some? ==> t.device == device) {
      var checked := next;
      next := GetDelRun(s, p, t, device);
      LeadsTransitive(s, checked, next);
    }
  }

  // ---- Revocation of one token ----

  function RevokeEvents(p: CallId, t: Token): seq<Event> {
    [Start(p, Revoke(t)), Go(p, Proceed), Go(p, Proceed), Go(p, Proceed)]
  }

  /** The store after a revocation: nothing is written when no whole second is left. */
  function AfterRevoke(s: State, p: CallId, t: Token): State {
    var ttl := SecondsLeft(t.exp, s.clock);
    if ttl == 0 then s.To(p, Done(Revoked(t, false)))
    else
      var s1 := Apply(s, Blacklist(t, ttl));
      (if t.kind == Refresh then Apply(s1, Drop(t.id)) else s1).To(p, Done(Revoked(t, true)))
  }

  lemma RevokeGo(s: State, p: CallId, c: Call)
    requires c.ReadingExpiry? || c.Blacklisting? || c.DeletingRecord?
    ensures Step(s.To(p, c), Go(p, Proceed)) == Apply(s, RevokeStep(s, c).1).To(p, RevokeStep(s, c).0)
  {
    var (c', e) := RevokeStep(s, c);
    assert RevokeStep(s.To(p, c), c) == (c', e);
    assert s.calls[p := c][p := c'] == s.calls[p := c'];
  }

  lemma DoneGo(s: State, p: CallId, c: Call)
    requires c.Done?
    ensures Step(s.To(p, c), Go(p, Proceed)) == s.To(p, c)
  {
    ReadSteps(s, p, c);
  }

  lemma RevokeIsARun(s: State, p: CallId, t: Token)
    requires p !in s.calls && t in s.returned
    ensures Exec(s, RevokeEvents(p, t)) == AfterRevoke(s, p, t)
  {
    FourEvents(s, Start(p, Revoke(t)), Go(p, Proceed), Go(p, Proceed), Go(p, Proceed));
    var ttl := SecondsLeft(t.exp, s.clock);
    assert Step(s, Start(p, Revoke(t))) == s.To(p, ReadingExpiry(t));
    RevokeGo(s, p, ReadingExpiry(t));
    RevokeGo(s, p, Blacklisting(t, ttl));
    if ttl == 0 {
      DoneGo(s, p, Done(Revoked(t, false)));
    } else {
      var s1 := Apply(s, Blacklist(t, ttl));
      if t.kind == Refresh { RevokeGo(s1, p, DeletingRecord(t)); } else { DoneGo(s1, p, Done(Revoked(t, true))); }
    }
  }

  lemma RevokeRun(s: State, p: CallId, t: Token) returns (next: State)
    requires p !in s.calls && t in s.returned
    ensures Leads(s, next) && next == AfterRevoke(s, p, t)
  {
    next := AfterRevoke(s, p, t);
    RevokeIsARun(s, p, t);
    ExecLeads(s, RevokeEvents(p, t));
  }

  // ---- Revocation of all tokens of a user ----

  lemma MarkRun(s: State, p: CallId, u: User) returns (next: State)
    requires p !in s.calls
    ensures Leads(s, next)
    ensures next == Apply(s, Mark(u, s.clock)).To(p, Scanning(Scan(u, s.clock, s.LiveIds(), {}, [], {}, 0)))
  {
    var s1 := Step(s, Start(p, RevokeAll(u)));
    StepLeads(s, Start(p, RevokeAll(u)));
    assert s1 == s.To(p, ReadingBoundary(u));
    var s2 := Step(s1, Go(p, Proceed));
    StepLeads(s1, Go(p, Proceed));
    ToTwice(s, p, ReadingBoundary(u), MarkingUser(u, s.clock));
    assert s2 == s.To(p, MarkingUser(u, s.clock));
    next := Step(s2, Go(p, Proceed));
    StepLeads(s2, Go(p, Proceed));
    LeadsTransitive(s, s1, s2);
    LeadsTransitive(s, s2, next);
    assert s2.LiveIds() == s.LiveIds();
    ToTwice(Apply(s, Mark(u, s.clock)), p, MarkingUser(u, s.clock), next.calls[p]);
  }

  lemma BatchRun(s: State, p: CallId, scan: Scan, keys: seq<PairId>) returns (next: State)
    requires p in s.calls && s.calls[p] == Scanning(scan) && scan.queue == []
    ensures Leads(s, next)
    ensures next == s.To(p, Scanning(scan.(queue := keys, covered := scan.covered + set k | k in keys)))
  {
    next := Step(s, Go(p, Batch(keys)));
    StepLeads(s, Go(p, Batch(keys)));
  }

  lemma SkipRun(s: State, p: CallId, scan: Scan) returns (next: State)
    requires p in s.calls && s.calls[p] == Scanning(scan) && scan.queue != []
    requires !(s.Live(scan.queue[0]) && s.refresh[scan.queue[0]].user == scan.user)
    ensures Leads(s, next) && next == s.To(p, Scanning(scan.(queue := scan.queue[1..])))
  {
    next := Step(s, Go(p, Proceed));
    StepLeads(s, Go(p, Proceed));
  }

  lemma DeleteRun(s: State, p: CallId, scan: Scan) returns (next: State)
    requires p in s.calls && s.calls[p] == Scanning(scan) && scan.queue != []
    requires s.Live(scan.queue[0]) && s.refresh[scan.queue[0]].user == scan.user
    ensures Leads(s, next)
    ensures next == Apply(s, Drop(scan.queue[0])).To(p, Scanning(scan.(queue := scan.queue[1..],
                      deleted := scan.deleted + {scan.queue[0]}, count := scan.count + 1)))
  {
    var s1 := Step(s, Go(p, Proceed));
    StepLeads(s, Go(p, Proceed));
    assert s1 == s.To(p, DeletingScanned(scan));
    next := Step(s1, Go(p, Proceed));
    StepLeads(s1, Go(p, Proceed));
    LeadsTransitive(s, s1, next);
    ToTwice(Apply(s, Drop(scan.queue[0])), p, DeletingScanned(scan), next.calls[p]);
  }

  lemma EndRun(s: State, p: CallId, scan: Scan) returns (next: State)
    requires p in s.calls && s.calls[p] == Scanning(scan) && scan.queue == []
    requires forall id :: id in scan.atStart && s.Live(id) ==> id in scan.covered
    ensures Leads(s, next) && next == s.To(p, Done(RevokedAll(scan)))
  {
    next := Step(s, Go(p, ScanEnds));
    StepLeads(s, Go(p, ScanEnds));
  }
}
