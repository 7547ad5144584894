/** The SCAN loop of a user-wide revocation ends every session that was live when its marker was
    stored, even while other calls write and delete records. */
module TokenScan {
  import opened TokenProtocol
  import opened TokenInvariants

  predicate LiveSession(s: State, id: PairId, u: User) {
    s.Live(id) && s.refresh[id].user == u
  }

  /** What a scan owes: sessions from its start that it was given are gone or still queued. It counts
      the keys it issued a DEL for, each once, and their records stay gone. */
  ghost predicate ScanOk(s: State, scan: Scan) {
    && scan.atStart <= s.stored
    && (forall id :: id in scan.atStart && id in scan.covered && LiveSession(s, id, scan.user) ==> id in scan.queue)
    && (forall id :: id in scan.deleted ==> id in s.stored && id !in s.refresh)
    && scan.count == |scan.deleted|
  }

  ghost predicate ScanFinished(s: State, scan: Scan) {
    ScanOk(s, scan) && forall id :: id in scan.atStart ==> !LiveSession(s, id, scan.user)
  }

  ghost predicate CallScanOk(s: State, c: Call) {
    && (c.Scanning? ==> ScanOk(s, c.scan))
    && (c.DeletingScanned? ==> ScanOk(s, c.scan) && c.scan.queue != [])
    && (c.DeletingScanned? ==> c.scan.queue[0] !in c.scan.deleted && c.scan.queue[0] in s.stored)
    && (c.Done? && c.outcome.RevokedAll? ==> ScanFinished(s, c.outcome.scan))
  }

  ghost predicate ScansOk(s: State) {
    forall p :: p in s.calls ==> CallScanOk(s, s.calls[p])
  }

  /** A session that is live later was live before: expired and deleted records never come back. */
  lemma LiveBefore(s: State, s': State, id: PairId, u: User)
    requires Later(s, s') && id in s.stored && LiveSession(s', id, u)
    ensures LiveSession(s, id, u)
  {
  }

  lemma LaterKeepsScanOk(s: State, s': State, scan: Scan)
    requires WellFormed(s) && Later(s, s') && ScanOk(s, scan)
    ensures ScanOk(s', scan)
  {
    forall id | id in scan.atStart && LiveSession(s', id, scan.user)
      ensures LiveSession(s, id, scan.user)
    {
      LiveBefore(s, s', id, scan.user);
    }
  }

  lemma LaterKeepsCallScanOk(s: State, s': State, c: Call)
    requires WellFormed(s) && Later(s, s') && CallScanOk(s, c)
    ensures CallScanOk(s', c)
  {
    if c.Scanning? || c.DeletingScanned? { LaterKeepsScanOk(s, s', c.scan); }
    if c.Done? && c.outcome.RevokedAll? {
      var scan := c.outcome.scan;
      LaterKeepsScanOk(s, s', scan);
      forall id | id in scan.atStart ensures !LiveSession(s', id, scan.user) {
        if LiveSession(s', id, scan.user) { LiveBefore(s, s', id, scan.user); }
      }
    }
  }

  lemma DroppingHeadKeepsScanOk(s: State, scan: Scan)
    requires ScanOk(s, scan) && scan.queue != [] && !LiveSession(s, scan.queue[0], scan.user)
    ensures ScanOk(s, scan.(queue := scan.queue[1..]))
  {
    forall id | id in scan.queue && id != scan.queue[0] ensures id in scan.queue[1..] {
      var i :| 0 <= i < |scan.queue| && scan.queue[i] == id;
      assert scan.queue[1..][i - 1] == id;
    }
  }

  lemma ScanStepKeepsOk(s: State, c: Call, choice: Choice)
    requires WellFormed(s) && c.Scanning? && ScanOk(s, c.scan)
    ensures CallScanOk(s, ScanStep(s, c, choice).0)
  {
    var scan := c.scan;
    if scan.queue == [] {
      if choice.Batch? {
        assert ScanOk(s, scan.(queue := choice.keys, covered := scan.covered + set k | k in choice.keys));
      }
    } else if !LiveSession(s, scan.queue[0], scan.user) {
      DroppingHeadKeepsScanOk(s, scan);
    }
  }

  lemma DeletingKeepsOk(s: State, scan: Scan)
    requires WellFormed(s) && CallScanOk(s, DeletingScanned(scan))
    ensures var s' := Apply(s, Drop(scan.queue[0]));
            ScanOk(s', scan.(queue := scan.queue[1..],
                             deleted := scan.deleted + {scan.queue[0]}, count := scan.count + 1))
  {
    var s' := Apply(s, Drop(scan.queue[0]));
    assert ScanOk(s', scan);
    DroppingHeadKeepsScanOk(s', scan);
  }

  lemma AdvanceKeepsCallScanOk(s: State, c: Call, choice: Choice)
    requires WellFormed(s) && CallOk(s, c) && CallScanOk(s, c)
    ensures var (c', e) := Advance(s, c, choice); CallScanOk(Apply(s, e), c')
  {
    var (c', e) := Advance(s, c, choice);
    if !choice.Fails? {
      if c.Scanning? {
        ScanStepKeepsOk(s, c, choice);
      } else if c.DeletingScanned? {
        DeletingKeepsOk(s, c.scan);
      } else if c.MarkingUser? {
        assert ScanOk(Apply(s, e), c'.scan);
      } else {
        OnlyScansScan(s, c, choice);
      }
    }
  }

  lemma OnlyScansScan(s: State, c: Call, choice: Choice)
    requires !choice.Fails? && !c.Scanning? && !c.DeletingScanned? && !c.MarkingUser?
    ensures var c' := Advance(s, c, choice).0;
            c' == c || (!c'.Scanning? && !c'.DeletingScanned? && !(c'.Done? && c'.outcome.RevokedAll?))
    ensures c.Done? ==> Advance(s, c, choice).1 == Nothing
  {
  }

  lemma OthersKeepScansOk(s: State, s': State, p: CallId)
    requires WellFormed(s) && ScansOk(s) && Later(s, s')
    requires p in s'.calls && s'.calls == s.calls[p := s'.calls[p]] && CallScanOk(s', s'.calls[p])
    ensures ScansOk(s')
  {
    forall q | q in s'.calls ensures CallScanOk(s', s'.calls[q]) {
      if q != p { LaterKeepsCallScanOk(s, s', s.calls[q]); }
    }
  }

  lemma SameStoreSameScan(s: State, s': State, c: Call)
    requires CallScanOk(s, c) && s'.refresh == s.refresh && s'.stored == s.stored && s'.clock == s.clock
    ensures CallScanOk(s', c)
  {
  }

  lemma AccessKeepsScansOk(s: State, p: CallId, c': Call, e: Effect)
    requires WellFormed(s) && ScansOk(s) && p in s.calls
    requires Later(s, Apply(s, e).To(p, c')) && CallScanOk(Apply(s, e), c')
    ensures ScansOk(Apply(s, e).To(p, c'))
  {
    SameStoreSameScan(Apply(s, e), Apply(s, e).To(p, c'), c');
    OthersKeepScansOk(s, Apply(s, e).To(p, c'), p);
  }

  lemma GoKeepsScansOk(s: State, p: CallId, choice: Choice)
    requires WellFormed(s) && ScansOk(s) && p in s.calls && Later(s, Step(s, Go(p, choice)))
    ensures ScansOk(Step(s, Go(p, choice)))
  {
    CallOfScansOk(s, p);
    AdvanceKeepsCallScanOk(s, s.calls[p], choice);
    AccessKeepsScansOk(s, p, Advance(s, s.calls[p], choice).0, Advance(s, s.calls[p], choice).1);
  }

  lemma CallOfScansOk(s: State, p: CallId)
    requires WellFormed(s) && ScansOk(s) && p in s.calls
    ensures CallOk(s, s.calls[p]) && CallScanOk(s, s.calls[p])
  {
  }

  lemma TickKeepsScansOk(s: State, ns: nat)
    requires WellFormed(s) && ScansOk(s)
    ensures ScansOk(Step(s, Tick(ns)))
  {
    var s' := Step(s, Tick(ns));
    forall q | q in s'.calls ensures CallScanOk(s', s'.calls[q]) {
      LaterKeepsCallScanOk(s, s', s.calls[q]);
    }
  }

  lemma StepKeepsScansOk(s: State, e: Event)
    requires WellFormed(s) && ScansOk(s)
    ensures ScansOk(Step(s, e))
  {
    StepKeepsWellFormed(s, e);
    match e
    case Tick(ns) => TickKeepsScansOk(s, ns);
    case Start(p, r) =>
      if p !in s.calls && Begin(s, p, r).Some? { OthersKeepScansOk(s, Step(s, e), p); }
    case Go(p, choice) => if p in s.calls { GoKeepsScansOk(s, p, choice); }
  }

  lemma {:induction false} ExecKeepsScansOk(s: State, es: seq<Event>)
    requires WellFormed(s) && ScansOk(s)
    ensures ScansOk(Exec(s, es))
  {
    if es == [] {
    } else {
      ExecKeepsScansOk(s, es[..|es| - 1]);
      ExecKeepsWellFormed(s, es[..|es| - 1]);
      StepKeepsScansOk(Exec(s, es[..|es| - 1]), es[|es| - 1]);
    }
  }

  lemma ReachableScansOk(s: State)
    requires Reachable(s)
    ensures WellFormed(s) && ScansOk(s)
  {
    var config, es :| s == Exec(Initial(config), es);
    ExecKeepsWellFormed(Initial(config), es);
    ExecKeepsScansOk(Initial(config), es);
  }

  /** Call `c` is a revocation of `u` whose scan started from the live records `atStart`, or one that
      raised. */
  predicate ScansFrom(c: Call, u: User, atStart: set<PairId>) {
    match c
    case Scanning(scan) => scan.user == u && scan.atStart == atStart
    case DeletingScanned(scan) => scan.user == u && scan.atStart == atStart
    case Done(RevokedAll(scan)) => scan.user == u && scan.atStart == atStart
    case Done(Unavailable) => true
    case _ => false
  }

  lemma AdvanceScansFrom(s: State, c: Call, choice: Choice, u: User, atStart: set<PairId>)
    requires ScansFrom(c, u, atStart)
    ensures ScansFrom(Advance(s, c, choice).0, u, atStart)
  {
  }

  lemma {:induction false} ExecScansFrom(s: State, es: seq<Event>, p: CallId, u: User, atStart: set<PairId>)
    requires p in s.calls && ScansFrom(s.calls[p], u, atStart)
    ensures p in Exec(s, es).calls && ScansFrom(Exec(s, es).calls[p], u, atStart)
  {
    if es == [] {
    } else {
      ExecScansFrom(s, es[..|es| - 1], p, u, atStart);
      StepScansFrom(Exec(s, es[..|es| - 1]), es[|es| - 1], p, u, atStart);
    }
  }

  lemma StepScansFrom(s: State, e: Event, p: CallId, u: User, atStart: set<PairId>)
    requires p in s.calls && ScansFrom(s.calls[p], u, atStart)
    ensures p in Step(s, e).calls && ScansFrom(Step(s, e).calls[p], u, atStart)
  {
    if e.Go? && e.call == p {
      GoMovesCall(s, p, e.choice);
      AdvanceScansFrom(s, s.calls[p], e.choice, u, atStart);
    } else {
      OtherCallsStay(s, e, p);
    }
  }

  /** When a revocation of `u` returns, no session of `u` that was live when it stored its marker is
      live, and none ever is again; its result counts the keys it issued a DEL for. */
  lemma RevokeAllEndsSessions(s: State, p: CallId, u: User, marker: nat, es: seq<Event>, id: PairId)
    requires Reachable(s) && p in s.calls && s.calls[p] == MarkingUser(u, marker)
    requires var s' := Exec(Step(s, Go(p, Proceed)), es);
             p in s'.calls && s'.calls[p].Done? && s'.calls[p].outcome.RevokedAll?
    requires LiveSession(s, id, u)
    ensures var s' := Exec(Step(s, Go(p, Proceed)), es);
            !LiveSession(s', id, u) && s'.calls[p].outcome.scan.count == |s'.calls[p].outcome.scan.deleted|
  {
    ReachableStep(s, Go(p, Proceed));
    var s1 := Step(s, Go(p, Proceed));
    ReachableScansOk(s1);
    assert ScansFrom(s1.calls[p], u, s.LiveIds());
    ExecScansFrom(s1, es, p, u, s.LiveIds());
    ExecKeepsScansOk(s1, es);
    assert CallScanOk(Exec(s1, es), Exec(s1, es).calls[p]);
  }

  /** A DEL is counted in any case, but takes a record away exactly when no other call has taken it since
      the GET. */
  lemma CountedDeletionRemovesIff(s: State, p: CallId, scan: Scan)
    requires p in s.calls && s.calls[p] == DeletingScanned(scan) && scan.queue != []
    ensures var s' := Step(s, Go(p, Proceed));
            && s'.refresh == s.refresh - {scan.queue[0]}
            && (s'.refresh != s.refresh <==> scan.queue[0] in s.refresh)
            && s'.calls[p].Scanning? && s'.calls[p].scan.count == scan.count + 1
  {
    if scan.queue[0] !in s.refresh { assert s.refresh - {scan.queue[0]} == s.refresh; }
  }
}
