/** A user-wide revocation that counts a record which a refresh took between its GET and its DEL. */
module TokenScanRace {
  import opened Wrappers
  import opened TokenProtocol
  import opened TokenInvariants
  import opened TokenRuns
  import opened TokenScan

  /** Pair 0 of user 7 is live, and call 2 is about to redeem its refresh token. */
  predicate RefreshAtGetDel(s: State, t: Token) {
    && t.id == 0 && 0 in s.minted && s.Live(0) && s.refresh[0].user == 7
    && 2 in s.calls && s.calls[2] == Consuming(t, None) && 3 !in s.calls
  }

  lemma LoggedIn() returns (s: State, t: Token)
    ensures Leads(Initial(Config(100, 1000)), s)
    ensures t in s.returned && t == Token(Refresh, 0, 7, None, 0, 1000) && 0 in s.minted
    ensures s.clock == 0 && s.calls.Keys == {1} && s.blacklist == map[] && s.markers == map[]
    ensures s.refresh == map[0 := Record(7, 1000 * SECOND)]
  {
    var s0 := Initial(Config(100, 1000));
    var s1 := LoginStarts(s0, 1, 7, None);
    s := MintRun(s1, 1, Minting(7, None, 1, 0, None), 0, 0);
    LeadsTransitive(s0, s1, s);
    t := s.minted[0].Signed(Refresh, 0);
  }

  lemma RefreshIsAtGetDel() returns (s: State, t: Token)
    ensures Leads(Initial(Config(100, 1000)), s) && RefreshAtGetDel(s, t)
  {
    var s1: State;
    s1, t := LoggedIn();
    s := RotationChecksRun(s1, 2, t, None);
    LeadsTransitive(Initial(Config(100, 1000)), s1, s);
  }

  /** Call 3 has found the record of pair 0 and is about to delete it, while call 2 still waits. */
  lemma RevocationFoundRecord() returns (s: State, t: Token, scan: Scan)
    ensures Leads(Initial(Config(100, 1000)), s)
    ensures 3 in s.calls && s.calls[3] == DeletingScanned(scan) && scan.queue == [0]
    ensures 2 in s.calls && s.calls[2] == Consuming(t, None) && t.id == 0 && 0 in s.minted && s.Live(0)
  {
    var s1: State;
    s1, t := RefreshIsAtGetDel();
    var s2 := MarkRun(s1, 3, 7);
    scan := Scan(7, s1.clock, s1.LiveIds(), {}, [], {}, 0);
    var s3 := BatchRun(s2, 3, scan, [0]);
    scan := scan.(queue := [0], covered := scan.covered + set k | k in [0]);
    assert s3.Live(0) && s3.refresh[0].user == 7;
    s := Step(s3, Go(3, Proceed));
    StepLeads(s3, Go(3, Proceed));
    LeadsTransitive(Initial(Config(100, 1000)), s1, s2);
    LeadsTransitive(Initial(Config(100, 1000)), s2, s3);
    LeadsTransitive(Initial(Config(100, 1000)), s3, s);
  }

  /** Some interleaving reaches a state in which a revocation issues a DEL for a record that is gone: the
      DEL is counted and removes nothing. */
  lemma DeletionCanBeCountedInVain()
    ensures exists s, p :: Reachable(s) && p in s.calls && CountsInVain(s, p)
  {
    var s1, t, scan := RevocationFoundRecord();
    var s := Step(s1, Go(2, Proceed));
    StepLeads(s1, Go(2, Proceed));
    LeadsTransitive(Initial(Config(100, 1000)), s1, s);
    LeadsIsReachable(Config(100, 1000), s);
    OtherCallsStay(s1, Go(2, Proceed), 3);
    RefreshTakesRecord(s1, t);
    CountedDeletionRemovesIff(s, 3, scan);
    assert CountsInVain(s, 3);
  }

  lemma RefreshTakesRecord(s: State, t: Token)
    requires 2 in s.calls && s.calls[2] == Consuming(t, None) && t.id in s.minted && s.Live(t.id)
    ensures t.id !in Step(s, Go(2, Proceed)).refresh
  {
  }

  /** The next access of call `p` is a DEL of a record that is not there; its count grows all the same. */
  predicate CountsInVain(s: State, p: CallId)
    requires p in s.calls
  {
    && s.calls[p].DeletingScanned? && s.calls[p].scan.queue != [] && s.calls[p].scan.queue[0] !in s.refresh
    && var next := Step(s, Go(p, Proceed));
       && next.refresh == s.refresh - {s.calls[p].scan.queue[0]}
       && next.calls[p].Scanning? && next.calls[p].scan.count == s.calls[p].scan.count + 1
  }
}
