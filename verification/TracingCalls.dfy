/** What the calls for the tracing client do while tracing is off, and what becomes of each that finds it on. */
module TracingCalls {
  import opened Wrappers
  import opened TracingSingleton

  type Schedule = seq<(Thread, Choice)>

  // ---- Tracing is off ----

  predicate AlwaysDisabled(schedule: Schedule) {
    forall e :: e in schedule ==> e.1 != Enabled(true)
  }

  /** A call that has found tracing on: it is anywhere between that check and its return. */
  predicate Granted(pc: Pc) {
    pc.CheckFlag? || pc.ReadFast? || pc.AcquireForGet? || pc.Recheck? || pc.Initialize? || pc.StoreClient?
    || pc.StoreFlag? || pc.ReleaseAfterGet? || pc.ReadSlow?
  }

  ghost predicate Untouched(s: State) {
    && s.client == None && !s.initialized && s.made == [] && s.raised == 0 && s.answers == []
    && forall t: Thread :: !Granted(s.PcOf(t))
  }

  lemma StepGrants(s: State, t: Thread, c: Choice)
    ensures Granted(Step(s, t, c).PcOf(t)) ==>
              Granted(s.PcOf(t)) || (s.PcOf(t) == CheckEnabled && c == Enabled(true))
  {
  }

  lemma StepKeepsUntouched(s: State, t: Thread, c: Choice)
    requires Untouched(s) && c != Enabled(true)
    ensures Untouched(Step(s, t, c))
  {
    assert !Granted(s.PcOf(t));
    forall u: Thread ensures !Granted(Step(s, t, c).PcOf(u)) {
      assert !Granted(s.PcOf(u));
      if u == t { StepGrants(s, t, c); } else { OthersStay(s, t, c, u); }
    }
  }

  /** While tracing is off no initialisation runs, nothing is returned, and the globals stay unset, in every
      interleaving of calls and resets. */
  lemma {:induction false} DisabledTouchesNothing(schedule: Schedule)
    requires AlwaysDisabled(schedule)
    ensures var s := Run(schedule);
            && s.made == [] && s.raised == 0 && s.answers == [] && !s.initialized && s.client == None
            && forall t: Thread :: !Granted(s.PcOf(t))
  {
    if schedule == [] {
    } else {
      var n := |schedule| - 1;
      assert schedule[n] in schedule && forall e :: e in schedule[..n] ==> e in schedule;
      DisabledTouchesNothing(schedule[..n]);
      StepKeepsUntouched(Run(schedule[..n]), schedule[n].0, schedule[n].1);
    }
  }

  // ---- Tracing is on ----

  /** Step number `i` of the schedule is the check of thread `t`, and it finds tracing on. */
  predicate GrantedAt(schedule: Schedule, i: nat, t: Thread) {
    i < |schedule| && schedule[i] == (t, Enabled(true)) && Run(schedule[..i]).PcOf(t) == CheckEnabled
  }

  /** Since step `i` thread `t` has not returned from its call. */
  ghost predicate InCallSince(schedule: Schedule, i: nat, t: Thread) {
    forall j: nat :: i < j <= |schedule| ==> Granted(Run(schedule[..j]).PcOf(t))
  }

  /** One more step during which the thread stays in its call. */
  lemma StaysInCall(schedule: Schedule, n: nat, i: nat, t: Thread)
    requires n + 1 == |schedule| && Granted(Run(schedule).PcOf(t))
    requires GrantedAt(schedule[..n], i, t) && InCallSince(schedule[..n], i, t)
    ensures GrantedAt(schedule, i, t) && InCallSince(schedule, i, t)
  {
    var before := schedule[..n];
    assert before[..i] == schedule[..i];
    forall j: nat | i < j <= |schedule| ensures Granted(Run(schedule[..j]).PcOf(t)) {
      if j <= n { assert schedule[..j] == before[..j]; } else { assert schedule[..j] == schedule; }
    }
  }

  /** The step in which its check finds tracing on. */
  lemma EntersCall(schedule: Schedule, n: nat, t: Thread)
    requires GrantedAt(schedule, n, t) && n + 1 == |schedule| && Granted(Run(schedule).PcOf(t))
    ensures InCallSince(schedule, n, t)
  {
    assert schedule[..|schedule|] == schedule;
  }

  /** A thread looks at the flag, waits for the lock of the client or holds it only after its current call
      has found tracing on. */
  lemma {:induction false} OnlyGrantedCallsInitialise(schedule: Schedule, t: Thread)
    requires Granted(Run(schedule).PcOf(t))
    ensures exists i: nat :: GrantedAt(schedule, i, t) && InCallSince(schedule, i, t)
  {
    if schedule == [] {
    } else {
      var n := |schedule| - 1;
      var before := schedule[..n];
      if schedule[n].0 == t {
        StepGrants(Run(before), t, schedule[n].1);
      } else {
        OthersStay(Run(before), schedule[n].0, schedule[n].1, t);
      }
      if Granted(Run(before).PcOf(t)) {
        OnlyGrantedCallsInitialise(before, t);
        var i: nat :| GrantedAt(before, i, t) && InCallSince(before, i, t);
        StaysInCall(schedule, n, i, t);
      } else {
        EntersCall(schedule, n, t);
      }
    }
  }

  // ---- What becomes of the calls ----

  /** The number of calls that found tracing on. */
  function Grants(schedule: Schedule): nat {
    if schedule == [] then 0
    else
      var n := |schedule| - 1;
      Grants(schedule[..n]) + (if GrantedAt(schedule, n, schedule[n].0) then 1 else 0)
  }

  /** Such a call that has neither returned nor seen its initialisation raise. */
  predicate Pending(pc: Pc) {
    Granted(pc) && pc != ReleaseAfterGet(true)
  }

  function PendingCalls(s: State): set<Thread> {
    set t | t in s.threads && Pending(s.threads[t])
  }

  lemma PendingAndOthers(s: State, t: Thread)
    ensures |PendingCalls(s)| == |PendingCalls(s) - {t}| + (if Pending(s.PcOf(t)) then 1 else 0)
  {
    var others := PendingCalls(s) - {t};
    assert t in PendingCalls(s) <==> Pending(s.PcOf(t));
    assert PendingCalls(s) == if Pending(s.PcOf(t)) then others + {t} else others;
  }

  lemma PendingMoves(s: State, s': State, t: Thread)
    requires s'.threads == s.threads || s'.threads == s.threads[t := s'.PcOf(t)]
    ensures |PendingCalls(s')| + (if Pending(s.PcOf(t)) then 1 else 0) ==
            |PendingCalls(s)| + (if Pending(s'.PcOf(t)) then 1 else 0)
  {
    PendingAndOthers(s, t);
    PendingAndOthers(s', t);
    assert PendingCalls(s') - {t} == PendingCalls(s) - {t};
  }

  /** What the calls have come to so far, with thread `t` counted if it is pending. */
  function Settled(s: State, t: Thread): nat {
    |s.answers| + s.raised + (if Pending(s.PcOf(t)) then 1 else 0)
  }

  lemma LockedStepSettles(s: State, t: Thread, c: Choice)
    requires HoldsLock(s.PcOf(t))
    ensures Settled(Step(s, t, c), t) == Settled(s, t)
  {
  }

  lemma StepSettles(s: State, t: Thread, c: Choice)
    ensures Settled(Step(s, t, c), t) ==
            Settled(s, t) + (if c == Enabled(true) && s.PcOf(t) == CheckEnabled then 1 else 0)
  {
    if HoldsLock(s.PcOf(t)) { LockedStepSettles(s, t, c); }
  }

  /** Every call that finds tracing on returns an answer, sees its initialisation raise, or is still under
      way, and no other call does any of these. */
  lemma {:induction false} EveryGrantedCallIsSettled(schedule: Schedule)
    ensures var s := Run(schedule);
            Grants(schedule) == |s.answers| + s.raised + |PendingCalls(s)|
  {
    if schedule == [] {
    } else {
      var n := |schedule| - 1;
      var (t, c) := schedule[n];
      EveryGrantedCallIsSettled(schedule[..n]);
      StepSettles(Run(schedule[..n]), t, c);
      PendingMoves(Run(schedule[..n]), Run(schedule), t);
    }
  }

  /** The number of times that tracing was on when someone looked. */
  function TimesEnabled(schedule: Schedule): nat {
    if schedule == [] then 0
    else
      var n := |schedule| - 1;
      TimesEnabled(schedule[..n]) + (if schedule[n].1 == Enabled(true) then 1 else 0)
  }

  lemma {:induction false} GrantsAreChecks(schedule: Schedule)
    ensures Grants(schedule) <= TimesEnabled(schedule)
  {
    if schedule == [] {
    } else {
      GrantsAreChecks(schedule[..|schedule| - 1]);
    }
  }

  /** There are never more answers and raised initialisations than checks that found tracing on. */
  lemma AnswersNeedEnabledTracing(schedule: Schedule)
    ensures |Run(schedule).answers| + Run(schedule).raised <= TimesEnabled(schedule)
  {
    EveryGrantedCallIsSettled(schedule);
    GrantsAreChecks(schedule);
  }
}
