/** The lazily created tracing client, as any number of threads interleaved statement by statement
    over one lock and two module globals. */
module TracingSingleton {
  import opened Wrappers

  type Thread = nat

  /** A client handle, or `None` when tracing is off or the client could not be made. */
  type Client = Option<nat>

  /** The next statement of a thread. The second group holds the lock. */
  datatype Pc =
    | Idle
    | CheckEnabled | CheckFlag | ReadFast | AcquireForGet | ReadSlow | AcquireForReset
    | Recheck | Initialize | StoreClient(made: Client) | StoreFlag | ReleaseAfterGet(raising: bool)
    | ClearClient | ClearFlag | ReleaseAfterReset

  predicate HoldsLock(pc: Pc) {
    pc.Recheck? || pc.Initialize? || pc.StoreClient? || pc.StoreFlag? || pc.ReleaseAfterGet?
    || pc.ClearClient? || pc.ClearFlag? || pc.ReleaseAfterReset?
  }

  /** The globals, the lock, the threads, and the history the properties are about: the results of
      finished initialisations, the number of raising ones, the number of resets of the flag, and
      what the calls that found tracing enabled have returned. */
  datatype State = State(
    client: Client, initialized: bool, holder: Option<Thread>, threads: map<Thread, Pc>,
    made: seq<Client>, raised: nat, resets: nat, answers: seq<Client>)
  {
    function PcOf(t: Thread): Pc {
      if t in threads then threads[t] else Idle
    }

    function At(t: Thread, pc: Pc): State {
      this.(threads := threads[t := pc])
    }
  }

  const INITIAL := State(None, false, None, map[], [], 0, 0, [])

  /** What the scheduler and the outside world decide for one step. */
  datatype Choice = CallGet | CallReset | Enabled(on: bool) | Made(client: Client) | MakeRaises | Go

  /** One statement of thread `t`; a step that is not possible now leaves the state as it is. */
  function Step(s: State, t: Thread, c: Choice): (next: State)
    ensures next.threads == s.threads || next.threads == s.threads[t := next.PcOf(t)]
  {
    match (s.PcOf(t), c)
    case (Idle, CallGet) => s.At(t, CheckEnabled)
    case (Idle, CallReset) => s.At(t, AcquireForReset)
    case (CheckEnabled, Enabled(on)) => s.At(t, if on then CheckFlag else Idle)
    case (CheckFlag, Go) => s.At(t, if s.initialized then ReadFast else AcquireForGet)
    case (ReadFast, Go) => s.At(t, Idle).(answers := s.answers + [s.client])
    case (AcquireForGet, Go) => if s.holder.Some? then s else s.At(t, Recheck).(holder := Some(t))
    case (Recheck, Go) => s.At(t, if s.initialized then ReleaseAfterGet(false) else Initialize)
    case (Initialize, Made(v)) => s.At(t, StoreClient(v)).(made := s.made + [v])
    case (Initialize, MakeRaises) => s.At(t, ReleaseAfterGet(true)).(raised := s.raised + 1)
    case (StoreClient(v), Go) => s.At(t, StoreFlag).(client := v)
    case (StoreFlag, Go) => s.At(t, ReleaseAfterGet(false)).(initialized := true)
    case (ReleaseAfterGet(raising), Go) => s.At(t, if raising then Idle else ReadSlow).(holder := None)
    case (ReadSlow, Go) => s.At(t, Idle).(answers := s.answers + [s.client])
    case (AcquireForReset, Go) => if s.holder.Some? then s else s.At(t, ClearClient).(holder := Some(t))
    case (ClearClient, Go) => s.At(t, ClearFlag).(client := None)
    case (ClearFlag, Go) => s.At(t, ReleaseAfterReset).(initialized := false, resets := s.resets + 1)
    case (ReleaseAfterReset, Go) => s.At(t, Idle).(holder := None)
    case _ => s
  }

  /** The state after any interleaving of steps. */
  function Run(schedule: seq<(Thread, Choice)>): State {
    if schedule == [] then INITIAL
    else
      var n := |schedule| - 1;
      Step(Run(schedule[..n]), schedule[n].0, schedule[n].1)
  }

  /** The lock holder has an initialisation result that the flag does not show yet. */
  predicate Publishing(s: State) {
    s.holder.Some? && var pc := s.PcOf(s.holder.value); pc.StoreClient? || pc.StoreFlag?
  }

  ghost predicate Mutex(s: State) {
    forall t: Thread :: HoldsLock(s.PcOf(t)) <==> s.holder == Some(t)
  }

  /** What the lock holder knows about the globals at each statement. */
  ghost predicate HolderKnows(s: State) {
    s.holder.Some? ==>
      var pc := s.PcOf(s.holder.value);
      && (pc.Initialize? || pc.StoreClient? || pc.StoreFlag? ==> !s.initialized)
      && (pc.StoreClient? ==> s.made != [] && s.made[|s.made| - 1] == pc.made)
      && (pc.StoreFlag? ==> s.made != [] && s.made[|s.made| - 1] == s.client)
  }

  predicate ResetPending(s: State) {
    s.holder.Some? && s.PcOf(s.holder.value).ClearFlag?
  }

  /** The globals agree with the history of initialisations and resets. */
  ghost predicate GlobalsMatchHistory(s: State) {
    && |s.made| <= s.resets + (if s.initialized || Publishing(s) then 1 else 0)
    && (s.initialized && !ResetPending(s) ==> s.made != [] && s.client == s.made[|s.made| - 1])
  }

  /** Every client that was ever visible was made by an initialisation. */
  ghost predicate NothingInvented(s: State) {
    && (s.client.Some? ==> s.client in s.made)
    && forall a :: a in s.answers && a.Some? ==> a in s.made
  }

  ghost predicate Inv(s: State) {
    Mutex(s) && HolderKnows(s) && GlobalsMatchHistory(s) && NothingInvented(s)
  }

  /** A step changes the statement of no other thread. */
  lemma OthersStay(s: State, t: Thread, c: Choice, u: Thread)
    requires u != t
    ensures Step(s, t, c).PcOf(u) == s.PcOf(u)
  {
  }

  lemma StepMovesLock(s: State, t: Thread, c: Choice)
    requires HoldsLock(s.PcOf(t)) <==> s.holder == Some(t)
    ensures HoldsLock(Step(s, t, c).PcOf(t)) <==> Step(s, t, c).holder == Some(t)
    ensures s.holder.Some? && s.holder != Some(t) ==> Step(s, t, c).holder == s.holder
    ensures s.holder.None? || s.holder == Some(t) ==> Step(s, t, c).holder.None? || Step(s, t, c).holder == Some(t)
  {
  }

  lemma StepKeepsMutex(s: State, t: Thread, c: Choice)
    requires Mutex(s)
    ensures Mutex(Step(s, t, c))
  {
    StepMovesLock(s, t, c);
    forall u: Thread ensures HoldsLock(Step(s, t, c).PcOf(u)) <==> Step(s, t, c).holder == Some(u) {
      assert HoldsLock(s.PcOf(u)) <==> s.holder == Some(u);
      if u != t { OthersStay(s, t, c, u); }
    }
  }

  lemma HolderKeepsGlobals(s: State, t: Thread, c: Choice)
    requires s.holder == Some(t) && HoldsLock(s.PcOf(t)) && HolderKnows(s) && GlobalsMatchHistory(s)
    ensures HolderKnows(Step(s, t, c)) && GlobalsMatchHistory(Step(s, t, c))
  {
  }

  lemma OtherKeepsGlobals(s: State, t: Thread, c: Choice)
    requires s.holder != Some(t) && !HoldsLock(s.PcOf(t)) && HolderKnows(s) && GlobalsMatchHistory(s)
    ensures HolderKnows(Step(s, t, c)) && GlobalsMatchHistory(Step(s, t, c))
  {
    if s.holder.Some? {
      assert Step(s, t, c).PcOf(s.holder.value) == s.PcOf(s.holder.value);
    }
  }

  lemma StepKeepsGlobals(s: State, t: Thread, c: Choice)
    requires Mutex(s) && HolderKnows(s) && GlobalsMatchHistory(s)
    ensures HolderKnows(Step(s, t, c)) && GlobalsMatchHistory(Step(s, t, c))
  {
    if s.holder == Some(t) { HolderKeepsGlobals(s, t, c); } else { OtherKeepsGlobals(s, t, c); }
  }

  lemma StepKeepsInv(s: State, t: Thread, c: Choice)
    requires Inv(s)
    ensures Inv(Step(s, t, c))
  {
    StepKeepsMutex(s, t, c);
    StepKeepsGlobals(s, t, c);
    StepInventsNothing(s, t, c);
  }

  lemma StepShowsMade(s: State, t: Thread, c: Choice)
    requires Mutex(s) && HolderKnows(s)
    ensures Step(s, t, c).client == s.client || Step(s, t, c).client == None || Step(s, t, c).client in s.made
    ensures Step(s, t, c).answers == s.answers || Step(s, t, c).answers == s.answers + [s.client]
    ensures s.made <= Step(s, t, c).made
  {
    assert HoldsLock(s.PcOf(t)) <==> s.holder == Some(t);
  }

  lemma NothingInventedAfter(s: State, s': State)
    requires NothingInvented(s)
    requires s'.client == s.client || s'.client == None || s'.client in s.made
    requires s'.answers == s.answers || s'.answers == s.answers + [s.client]
    requires s.made <= s'.made
    ensures NothingInvented(s')
  {
    assert forall v :: v in s.made ==> v in s'.made;
  }

  lemma StepInventsNothing(s: State, t: Thread, c: Choice)
    requires Mutex(s) && HolderKnows(s) && NothingInvented(s)
    ensures NothingInvented(Step(s, t, c))
  {
    StepShowsMade(s, t, c);
    NothingInventedAfter(s, Step(s, t, c));
  }

  lemma {:induction false} RunKeepsInv(schedule: seq<(Thread, Choice)>)
    ensures Inv(Run(schedule))
  {
    if schedule == [] {
    } else {
      var n := |schedule| - 1;
      RunKeepsInv(schedule[..n]);
      StepKeepsInv(Run(schedule[..n]), schedule[n].0, schedule[n].1);
    }
  }

  /** However the threads interleave, initialisation finishes at most once more than the state was
      reset, and no call returns a client that no initialisation made. */
  lemma InitialisedOncePerReset(schedule: seq<(Thread, Choice)>)
    ensures var s := Run(schedule);
            |s.made| <= s.resets + 1 && forall a :: a in s.answers && a.Some? ==> a in s.made
  {
    RunKeepsInv(schedule);
  }

  predicate NoReset(schedule: seq<(Thread, Choice)>) {
    forall e :: e in schedule ==> e.1 != CallReset
  }

  predicate Resetting(pc: Pc) {
    pc.AcquireForReset? || pc.ClearClient? || pc.ClearFlag? || pc.ReleaseAfterReset?
  }

  predicate PastInitialisation(pc: Pc) {
    pc.ReadFast? || pc.ReadSlow? || (pc.ReleaseAfterGet? && !pc.raising)
  }

  ghost predicate NeverResets(s: State) {
    s.resets == 0 && forall t: Thread :: !Resetting(s.PcOf(t))
  }

  /** Without resets the flag never falls, and reading the client means that it has been set. */
  ghost predicate NoResetInv(s: State) {
    && NeverResets(s)
    && (forall t: Thread :: PastInitialisation(s.PcOf(t)) ==> s.initialized)
    && (forall a :: a in s.answers ==> s.initialized && s.made == [a])
  }

  lemma StepNeverResets(s: State, t: Thread, c: Choice)
    requires NeverResets(s) && c != CallReset
    ensures NeverResets(Step(s, t, c))
    ensures s.initialized ==> Step(s, t, c).initialized
  {
    var s' := Step(s, t, c);
    assert !Resetting(s.PcOf(t));
    assert forall u: Thread :: u != t ==> s'.PcOf(u) == s.PcOf(u);
  }

  /** Once the flag is set, nothing more is made and the client stays. */
  lemma StepKeepsClient(s: State, t: Thread, c: Choice)
    requires Inv(s) && NeverResets(s) && s.initialized
    ensures Step(s, t, c).made == s.made && s.made == [s.client]
    ensures Step(s, t, c).answers == s.answers || Step(s, t, c).answers == s.answers + [s.client]
  {
    assert !Resetting(s.PcOf(t)) && !ResetPending(s);
    if HoldsLock(s.PcOf(t)) { assert s.holder == Some(t); }
  }

  lemma AnsweredAfterInitialisation(s: State)
    requires NoResetInv(s) && s.answers != []
    ensures s.initialized
  {
    assert s.answers[0] in s.answers;
  }

  lemma StepKeepsNoResetInv(s: State, t: Thread, c: Choice)
    requires Inv(s) && NoResetInv(s) && c != CallReset
    ensures NoResetInv(Step(s, t, c))
  {
    var s' := Step(s, t, c);
    StepNeverResets(s, t, c);
    assert forall u: Thread :: u != t ==> s'.PcOf(u) == s.PcOf(u);
    if s.answers != [] { AnsweredAfterInitialisation(s); }
    if s.initialized { StepKeepsClient(s, t, c); }
  }

  lemma {:induction false} RunKeepsNoResetInv(schedule: seq<(Thread, Choice)>)
    requires NoReset(schedule)
    ensures NoResetInv(Run(schedule))
  {
    if schedule == [] {
    } else {
      var n := |schedule| - 1;
      assert schedule[n] in schedule && forall e :: e in schedule[..n] ==> e in schedule;
      RunKeepsNoResetInv(schedule[..n]);
      RunKeepsInv(schedule[..n]);
      StepKeepsNoResetInv(Run(schedule[..n]), schedule[n].0, schedule[n].1);
    }
  }

  /** Without resets initialisation finishes at most once, and every call that found tracing
      enabled returns the result of that one initialisation. */
  lemma AllCallsShareOneClient(schedule: seq<(Thread, Choice)>)
    requires NoReset(schedule)
    ensures var s := Run(schedule);
            |s.made| <= 1 && forall a :: a in s.answers ==> s.made == [a]
  {
    RunKeepsInv(schedule);
    RunKeepsNoResetInv(schedule);
    var s := Run(schedule);
    forall a | a in s.answers ensures s.made == [a] {
      assert |s.made| == 1 && s.made[0] == a;
    }
  }

  /** Some step of `t` changes the state. */
  ghost predicate CanMove(s: State, t: Thread) {
    exists c :: Step(s, t, c) != s
  }

  lemma UnlessBlockedCanMove(s: State, t: Thread)
    requires s.PcOf(t) != Idle
    requires s.PcOf(t).AcquireForGet? || s.PcOf(t).AcquireForReset? ==> s.holder.None?
    ensures CanMove(s, t)
  {
    var c := match s.PcOf(t) case CheckEnabled => Enabled(true) case Initialize => MakeRaises case _ => Go;
    assert Step(s, t, c).PcOf(t) != s.PcOf(t);
  }

  /** No interleaving deadlocks: while some call is unfinished, some unfinished call can move. */
  lemma NeverDeadlocks(schedule: seq<(Thread, Choice)>, t: Thread)
    requires Run(schedule).PcOf(t) != Idle
    ensures exists u: Thread :: Run(schedule).PcOf(u) != Idle && CanMove(Run(schedule), u)
  {
    RunKeepsInv(schedule);
    var s := Run(schedule);
    var u := if s.holder.Some? then s.holder.value else t;
    assert s.holder.Some? ==> HoldsLock(s.PcOf(u));
    UnlessBlockedCanMove(s, u);
  }

  // ---- How often initialisation runs ----

  /** The runs of the initialisation: those that finished and those that raised. */
  function Runs(s: State): nat {
    |s.made| + s.raised
  }

  /** An initialisation raises only if it may. */
  ghost predicate Possible(schedule: seq<(Thread, Choice)>, mayRaise: bool) {
    forall e :: e in schedule && e.1 == MakeRaises ==> mayRaise
  }

  lemma {:induction false} NothingRaised(schedule: seq<(Thread, Choice)>)
    requires Possible(schedule, false)
    ensures Run(schedule).raised == 0
  {
    if schedule == [] {
    } else {
      var n := |schedule| - 1;
      assert schedule[n] in schedule && forall e :: e in schedule[..n] ==> e in schedule;
      NothingRaised(schedule[..n]);
      StepRaisesNothing(Run(schedule[..n]), schedule[n].0, schedule[n].1);
    }
  }

  lemma StepRaisesNothing(s: State, t: Thread, c: Choice)
    requires c != MakeRaises
    ensures Step(s, t, c).raised == s.raised
  {
  }

  /** When no initialisation raises, it runs at most once more than the state was reset. */
  lemma RunsOncePerReset(schedule: seq<(Thread, Choice)>)
    requires Possible(schedule, false)
    ensures Runs(Run(schedule)) <= Run(schedule).resets + 1
  {
    InitialisedOncePerReset(schedule);
    NothingRaised(schedule);
  }

  /** Thread `t` takes one more step. */
  lemma Then(schedule: seq<(Thread, Choice)>, t: Thread, c: Choice) returns (next: seq<(Thread, Choice)>)
    ensures next == schedule + [(t, c)] && Run(next) == Step(Run(schedule), t, c)
    ensures NoReset(schedule) && c != CallReset ==> NoReset(next)
  {
    next := schedule + [(t, c)];
    assert next[..|schedule|] == schedule;
  }

  /** The lock is free, `t` is between calls, and the flag and the history are as given. */
  predicate Quiet(s: State, t: Thread, initialized: bool, made: nat, raised: nat, resets: nat) {
    && s.PcOf(t) == Idle && s.holder.None? && s.initialized == initialized
    && |s.made| == made && s.raised == raised && s.resets == resets
  }

  /** A call of `t` gets as far as the lock. */
  lemma Knock(schedule: seq<(Thread, Choice)>, t: Thread) returns (next: seq<(Thread, Choice)>)
    requires Run(schedule).PcOf(t) == Idle && !Run(schedule).initialized
    ensures Run(next).PcOf(t) == AcquireForGet && Run(next) == Run(schedule).At(t, AcquireForGet)
    ensures NoReset(schedule) ==> NoReset(next)
  {
    next := Then(schedule, t, CallGet);
    next := Then(next, t, Enabled(true));
    next := Then(next, t, Go);
  }

  /** And past it. */
  lemma EnterGet(schedule: seq<(Thread, Choice)>, t: Thread) returns (next: seq<(Thread, Choice)>)
    requires Run(schedule).PcOf(t) == Idle && Run(schedule).holder.None? && !Run(schedule).initialized
    ensures Run(next).PcOf(t) == Recheck && Run(next) == Run(schedule).At(t, Run(next).PcOf(t)).(holder := Some(t))
    ensures NoReset(schedule) ==> NoReset(next)
  {
    next := Knock(schedule, t);
    next := Then(next, t, Go);
    assert Run(schedule).threads[t := AcquireForGet][t := Recheck] == Run(schedule).threads[t := Recheck];
  }

  /** And on to the initialisation. */
  lemma Arrive(schedule: seq<(Thread, Choice)>, t: Thread) returns (next: seq<(Thread, Choice)>)
    requires Run(schedule).PcOf(t) == Idle && Run(schedule).holder.None? && !Run(schedule).initialized
    ensures var s, s' := Run(schedule), Run(next);
            && s'.PcOf(t) == Initialize && s'.holder == Some(t) && !s'.initialized
            && s'.made == s.made && s'.raised == s.raised && s'.resets == s.resets
    ensures NoReset(schedule) ==> NoReset(next)
  {
    next := EnterGet(schedule, t);
    next := Then(next, t, Go);
  }

  lemma Publish(schedule: seq<(Thread, Choice)>, t: Thread) returns (next: seq<(Thread, Choice)>)
    requires Run(schedule).PcOf(t) == Initialize && Run(schedule).holder == Some(t)
    ensures var s, s' := Run(schedule), Run(next);
            && s'.PcOf(t) == StoreFlag && s'.holder == Some(t)
            && |s'.made| == |s.made| + 1 && s'.raised == s.raised && s'.resets == s.resets
    ensures NoReset(schedule) ==> NoReset(next)
  {
    next := Then(schedule, t, Made(None));
    next := Then(next, t, Go);
  }

  lemma Release(schedule: seq<(Thread, Choice)>, t: Thread) returns (next: seq<(Thread, Choice)>)
    requires Run(schedule).PcOf(t) == StoreFlag && Run(schedule).holder == Some(t)
    ensures var s, s' := Run(schedule), Run(next);
            && s'.PcOf(t) == ReadSlow && s'.holder.None? && s'.initialized
            && s'.made == s.made && s'.raised == s.raised && s'.resets == s.resets
    ensures NoReset(schedule) ==> NoReset(next)
  {
    next := Then(schedule, t, Go);
    next := Then(next, t, Go);
  }

  lemma Finish(schedule: seq<(Thread, Choice)>, t: Thread) returns (next: seq<(Thread, Choice)>)
    requires Run(schedule).PcOf(t) == StoreFlag && Run(schedule).holder == Some(t)
    ensures Quiet(Run(next), t, true, |Run(schedule).made|, Run(schedule).raised, Run(schedule).resets)
    ensures NoReset(schedule) ==> NoReset(next)
  {
    next := Release(schedule, t);
    next := Then(next, t, Go);
  }

  lemma Fail(schedule: seq<(Thread, Choice)>, t: Thread) returns (next: seq<(Thread, Choice)>)
    requires Run(schedule).PcOf(t) == Initialize && Run(schedule).holder == Some(t) && !Run(schedule).initialized
    ensures Quiet(Run(next), t, false, |Run(schedule).made|, Run(schedule).raised + 1, Run(schedule).resets)
    ensures NoReset(schedule) ==> NoReset(next)
  {
    next := Then(schedule, t, MakeRaises);
    next := Then(next, t, Go);
  }

  lemma EnterReset(schedule: seq<(Thread, Choice)>, t: Thread) returns (next: seq<(Thread, Choice)>)
    requires Run(schedule).PcOf(t) == Idle && Run(schedule).holder.None?
    ensures var s, s' := Run(schedule), Run(next);
            && s'.PcOf(t) == ClearClient && s'.holder == Some(t)
            && s'.made == s.made && s'.raised == s.raised && s'.resets == s.resets
  {
    next := Then(schedule, t, CallReset);
    next := Then(next, t, Go);
  }

  lemma Clear(schedule: seq<(Thread, Choice)>, t: Thread) returns (next: seq<(Thread, Choice)>)
    requires Run(schedule).PcOf(t) == ClearClient && Run(schedule).holder == Some(t)
    ensures var s, s' := Run(schedule), Run(next);
            && s'.PcOf(t) == ReleaseAfterReset && s'.holder == Some(t) && !s'.initialized
            && s'.made == s.made && s'.raised == s.raised && s'.resets == s.resets + 1
  {
    next := Then(schedule, t, Go);
    next := Then(next, t, Go);
  }

  lemma ResetOnce(schedule: seq<(Thread, Choice)>, t: Thread) returns (next: seq<(Thread, Choice)>)
    requires Run(schedule).PcOf(t) == Idle && Run(schedule).holder.None?
    ensures Quiet(Run(next), t, false, |Run(schedule).made|, Run(schedule).raised, Run(schedule).resets + 1)
  {
    next := EnterReset(schedule, t);
    next := Clear(next, t);
    next := Then(next, t, Go);
  }

  /** Each reset allows one more initialisation: with `n` of them `n + 1` can finish. */
  lemma {:induction false} EachResetAllowsOneMore(n: nat) returns (schedule: seq<(Thread, Choice)>)
    ensures Quiet(Run(schedule), 0, true, n + 1, 0, n)
  {
    schedule := [];
    if n > 0 {
      schedule := EachResetAllowsOneMore(n - 1);
      schedule := ResetOnce(schedule, 0);
    }
    schedule := Arrive(schedule, 0);
    schedule := Publish(schedule, 0);
    schedule := Finish(schedule, 0);
  }

  /** Without any reset a raising initialisation is followed by another one. */
  lemma RaisingRunsAgain() returns (schedule: seq<(Thread, Choice)>)
    ensures NoReset(schedule) && Quiet(Run(schedule), 0, true, 1, 1, 0)
  {
    schedule := Arrive([], 0);
    schedule := Fail(schedule, 0);
    schedule := Arrive(schedule, 0);
    schedule := Publish(schedule, 0);
    schedule := Finish(schedule, 0);
  }

  /** Initialisation is attempted at most once per reset and once besides, in every interleaving, if
      and only if it cannot raise. */
  lemma AttemptedOncePerResetIff(mayRaise: bool)
    ensures (forall schedule :: Possible(schedule, mayRaise) ==> Runs(Run(schedule)) <= Run(schedule).resets + 1)
       <==> !mayRaise
  {
    if mayRaise {
      var schedule := RaisingRunsAgain();
      assert Possible(schedule, mayRaise) && Runs(Run(schedule)) == 2;
    } else {
      forall schedule | Possible(schedule, mayRaise) ensures Runs(Run(schedule)) <= Run(schedule).resets + 1 {
        RunsOncePerReset(schedule);
      }
    }
  }
}
