/** The retry shell of an agent: state, metrics and at most three attempts around one task. */
module AgentRetry {
  import opened Wrappers
  import opened AgentMetrics

  /** Exceptions that leave an attempt's `execute` or `validate_result`. A cancellation is no
      `Exception` and passes every handler but `finally`. */
  datatype Exn = ConnectionFailure | TimeoutFailure | OtherFailure | Cancellation

  /** What one attempt does, with the time it took. */
  datatype Attempt = Finishes(result: TaskResult, valid: bool, elapsed: real) | Throws(e: Exn)

  datatype Activity = Idle | Processing

  datatype AgentState = AgentState(status: Activity, currentTask: Option<string>)

  /** How the whole call ends: a value, an exception that is not retried, or the retry library's own
      error after the last attempt. */
  datatype Ending = Returned(result: TaskResult) | Raised(e: Exn) | RetriesExhausted

  const MAX_ATTEMPTS := 3

  const IDLE := AgentState(Idle, None)

  /** The attempt that is retried. */
  const DROPPED := Throws(ConnectionFailure)

  /** The result an attempt puts on record. */
  function RecordOf(a: Attempt, timeout: real): Option<TaskResult> {
    match a
    case Finishes(result, valid, elapsed) => Some(if valid then result else TaskResult(Failed, 0.0, elapsed))
    case Throws(TimeoutFailure) => Some(TaskResult(TimedOut, 0.0, timeout))
    case Throws(Cancellation) => None
    case Throws(_) => Some(TaskResult(Failed, 0.0, 0.0))
  }

  function Extended(rs: seq<TaskResult>, record: Option<TaskResult>): seq<TaskResult> {
    if record.Some? then rs + [record.value] else rs
  }

  /** The records of `n` attempts from number `from` on. */
  function Records(script: nat -> Attempt, timeout: real, from: nat, n: nat): seq<TaskResult>
    decreases n
  {
    if n == 0 then []
    else
      Extended(Records(script, timeout, from, n - 1), RecordOf(script(from + n - 1), timeout))
  }

  function Noted(m: Metrics, record: Option<TaskResult>): Metrics {
    if record.Some? then m.WithNewTask(record.value) else m
  }

  /** The metrics after attempts `from` to `from + n`. */
  function MetricsAfter(m: Metrics, script: nat -> Attempt, timeout: real, from: nat, n: nat): Metrics
    decreases n
  {
    if n == 0 then m
    else Noted(MetricsAfter(m, script, timeout, from, n - 1), RecordOf(script(from + n - 1), timeout))
  }

  lemma NextAttempt(m: Metrics, script: nat -> Attempt, timeout: real, from: nat, n: nat)
    ensures MetricsAfter(m, script, timeout, from, n + 1) ==
            Noted(MetricsAfter(m, script, timeout, from, n), RecordOf(script(from + n), timeout))
  {
  }

  lemma FirstAttempt(m: Metrics, script: nat -> Attempt, timeout: real, from: nat)
    ensures MetricsAfter(m, script, timeout, from, 1) == Noted(m, RecordOf(script(from), timeout))
  {
    NextAttempt(m, script, timeout, from, 0);
  }

  /** What an attempt hands to the retry library: an `Err` is an exception raised again. */
  function ReplyOf(a: Attempt, timeout: real): Result<TaskResult, Exn> {
    if a.Throws? && a.e != TimeoutFailure then Err(a.e) else Ok(RecordOf(a, timeout).value)
  }

  /** How a call whose last attempt was `a` ends. */
  function EndingOf(a: Attempt, timeout: real): Ending {
    match ReplyOf(a, timeout)
    case Ok(result) => Returned(result)
    case Err(e) => if e == ConnectionFailure then RetriesExhausted else Raised(e)
  }

  ghost predicate AllDropped(script: nat -> Attempt, from: nat, to: nat) {
    forall i: nat :: from <= i < to ==> script(i) == DROPPED
  }

  class Agent {
    /** What the attempts do, by their number. */
    const script: nat -> Attempt
    var attempts: nat
    var state: AgentState
    var metrics: Metrics

    constructor (script: nat -> Attempt)
      ensures this.script == script && attempts == 0 && state == IDLE && metrics == EMPTY
    {
      this.script := script;
      attempts, state, metrics := 0, IDLE, EMPTY;
    }

    /** One attempt. */
    method ExecuteOnce(taskId: string, timeout: real) returns (r: Result<TaskResult, Exn>)
      modifies this
      ensures attempts == old(attempts) + 1 && state == IDLE
      ensures metrics == Noted(old(metrics), RecordOf(script(old(attempts)), timeout))
      ensures r == ReplyOf(script(old(attempts)), timeout)
    {
      state := AgentState(Processing, Some(taskId));
      var a := script(attempts);
      attempts := attempts + 1;
      match a {
        case Finishes(result, valid, elapsed) =>
          var final := result;
          if !valid { final := TaskResult(Failed, 0.0, elapsed); }
          metrics := metrics.WithNewTask(final);
          r := Ok(final);
        case Throws(TimeoutFailure) =>
          var final := TaskResult(TimedOut, 0.0, timeout);
          metrics := metrics.WithNewTask(final);
          r := Ok(final);
        case Throws(Cancellation) =>
          r := Err(Cancellation);
        case Throws(e) =>
          metrics := metrics.WithNewTask(TaskResult(Failed, 0.0, 0.0));
          r := Err(e);
      }
      state := IDLE;
    }

    /** The attempts of one call, with the reply of the last. */
    method Attempts(taskId: string, timeout: real) returns (reply: Result<TaskResult, Exn>)
      modifies this
      ensures old(attempts) < attempts <= old(attempts) + MAX_ATTEMPTS && state == IDLE
      ensures AllDropped(script, old(attempts), attempts - 1)
      ensures script(attempts - 1) == DROPPED ==> attempts == old(attempts) + MAX_ATTEMPTS
      ensures reply == ReplyOf(script(attempts - 1), timeout)
      ensures metrics == MetricsAfter(old(metrics), script, timeout, old(attempts), attempts - old(attempts))
    {
      ghost var start := attempts;
      FirstAttempt(metrics, script, timeout, start);
      reply := ExecuteOnce(taskId, timeout);
      var n := 1;
      while n < MAX_ATTEMPTS && reply == Err(ConnectionFailure)
        invariant 1 <= n <= MAX_ATTEMPTS && attempts == start + n && state == IDLE
        invariant AllDropped(script, start, attempts - 1)
        invariant reply == ReplyOf(script(attempts - 1), timeout)
        invariant metrics == MetricsAfter(old(metrics), script, timeout, start, n)
      {
        NextAttempt(old(metrics), script, timeout, start, n);
        reply := ExecuteOnce(taskId, timeout);
        n := n + 1;
      }
    }

    /** One to three attempts. Every attempt but the last ended in a connection failure; each attempt
        that was not cancelled is recorded once; the agent is idle again. */
    method ExecuteWithRetry(taskId: string, timeout: real) returns (r: Ending)
      modifies this
      ensures old(attempts) < attempts <= old(attempts) + MAX_ATTEMPTS
      ensures AllDropped(script, old(attempts), attempts - 1)
      ensures script(attempts - 1) == DROPPED ==> attempts == old(attempts) + MAX_ATTEMPTS
      ensures r == EndingOf(script(attempts - 1), timeout)
      ensures metrics == MetricsAfter(old(metrics), script, timeout, old(attempts), attempts - old(attempts))
      ensures state == IDLE
    {
      var reply := Attempts(taskId, timeout);
      match reply {
        case Ok(result) => r := Returned(result);
        case Err(ConnectionFailure) => r := RetriesExhausted;
        case Err(e) => r := Raised(e);
      }
    }
  }

  ghost predicate NoneCancelled(script: nat -> Attempt, from: nat, n: nat) {
    forall i: nat :: from <= i < from + n ==> script(i) != Throws(Cancellation)
  }

  /** Each attempt is recorded once unless it was cancelled: the total grows by the number of attempts
      exactly when none was. */
  lemma {:induction false} OneRecordPerAttempt(script: nat -> Attempt, timeout: real, from: nat, n: nat)
    ensures |Records(script, timeout, from, n)| <= n
    ensures |Records(script, timeout, from, n)| == n <==> NoneCancelled(script, from, n)
    decreases n
  {
    if n == 0 {
    } else {
      OneRecordPerAttempt(script, timeout, from, n - 1);
      assert NoneCancelled(script, from, n) <==>
             NoneCancelled(script, from, n - 1) && script(from + n - 1) != Throws(Cancellation);
    }
  }

  /** Consecutive calls record the consecutive attempts: two series of attempts in a row leave the
      metrics that their concatenation leaves. */
  lemma {:induction false} CallsAccumulate(m: Metrics, script: nat -> Attempt, timeout: real, from: nat, n: nat, k: nat)
    ensures MetricsAfter(MetricsAfter(m, script, timeout, from, n), script, timeout, from + n, k) ==
            MetricsAfter(m, script, timeout, from, n + k)
    decreases k
  {
    if k == 0 {
    } else {
      CallsAccumulate(m, script, timeout, from, n, k - 1);
    }
  }

  lemma RecordingNoted(m: Metrics, rs: seq<TaskResult>, record: Option<TaskResult>)
    ensures Noted(Recording(m, rs), record) == Recording(m, Extended(rs, record))
  {
    if record.Some? { RecordingNext(m, rs, record.value); }
  }

  /** The metrics are those of the recorded results, one update for each. */
  lemma {:induction false} MetricsAreOfTheRecords(m: Metrics, script: nat -> Attempt, timeout: real, from: nat, n: nat)
    ensures MetricsAfter(m, script, timeout, from, n) == Recording(m, Records(script, timeout, from, n))
    decreases n
  {
    if n == 0 {
    } else {
      MetricsAreOfTheRecords(m, script, timeout, from, n - 1);
      RecordingNoted(m, Records(script, timeout, from, n - 1), RecordOf(script(from + n - 1), timeout));
    }
  }

  /** Whether an attempt counts as successful, as failed and as timed out, the time and the confidence it
      adds: a valid result counts as it is, an invalid one as a failure without confidence. */
  predicate Counts(a: Attempt, status: Status) {
    match a
    case Finishes(result, valid, _) => if valid then result.status == status else status == Failed
    case Throws(ConnectionFailure) => status == Failed
    case Throws(OtherFailure) => status == Failed
    case Throws(TimeoutFailure) => status == TimedOut
    case Throws(Cancellation) => false
  }

  function TimeSpent(a: Attempt, timeout: real): real {
    match a
    case Finishes(result, valid, elapsed) => if valid then result.time else elapsed
    case Throws(e) => if e == TimeoutFailure then timeout else 0.0
  }

  function Trust(a: Attempt): real {
    if a.Finishes? && a.valid then a.result.confidence else 0.0
  }

  /** The number of attempts from `from` on that count as `status`. */
  function Counted(script: nat -> Attempt, from: nat, n: nat, status: Status): nat
    decreases n
  {
    if n == 0 then 0
    else Counted(script, from, n - 1, status) + (if Counts(script(from + n - 1), status) then 1 else 0)
  }

  /** Each series of attempts moves the counters by the attempts that succeeded, failed and timed out. */
  lemma {:induction false} AttemptsAreCounted(m: Metrics, script: nat -> Attempt, timeout: real, from: nat, n: nat)
    ensures var m' := MetricsAfter(m, script, timeout, from, n);
            && m'.successful == m.successful + Counted(script, from, n, Success)
            && m'.failed == m.failed + Counted(script, from, n, Failed)
            && m'.timedOut == m.timedOut + Counted(script, from, n, TimedOut)
    decreases n
  {
    if n == 0 {
    } else {
      AttemptsAreCounted(m, script, timeout, from, n - 1);
    }
  }

  /** The time and confidence that `n` attempts add. */
  function TimeOfAll(script: nat -> Attempt, timeout: real, from: nat, n: nat): real
    decreases n
  {
    if n == 0 then 0.0 else TimeOfAll(script, timeout, from, n - 1) + TimeSpent(script(from + n - 1), timeout)
  }

  function TrustOfAll(script: nat -> Attempt, from: nat, n: nat): real
    decreases n
  {
    if n == 0 then 0.0 else TrustOfAll(script, from, n - 1) + Trust(script(from + n - 1))
  }

  /** The time and the confidence that the averages stand for. */
  function TotalTimeOf(m: Metrics): real {
    m.averageTime * m.total as real
  }

  function TotalTrustOf(m: Metrics): real {
    m.averageConfidence * m.total as real
  }

  lemma NotedTotals(m: Metrics, a: Attempt, timeout: real)
    ensures TotalTimeOf(Noted(m, RecordOf(a, timeout))) == TotalTimeOf(m) + TimeSpent(a, timeout)
    ensures TotalTrustOf(Noted(m, RecordOf(a, timeout))) == TotalTrustOf(m) + Trust(a)
  {
    if RecordOf(a, timeout).Some? {
      NextMean(m.averageTime, m.total, TotalTimeOf(m), RecordOf(a, timeout).value.time);
      NextMean(m.averageConfidence, m.total, TotalTrustOf(m), RecordOf(a, timeout).value.confidence);
    }
  }

  /** The averages account for the time and the confidence of every attempt. */
  lemma {:induction false} AttemptsAreAveraged(m: Metrics, script: nat -> Attempt, timeout: real, from: nat, n: nat)
    ensures var m' := MetricsAfter(m, script, timeout, from, n);
            && TotalTimeOf(m') == TotalTimeOf(m) + TimeOfAll(script, timeout, from, n)
            && TotalTrustOf(m') == TotalTrustOf(m) + TrustOfAll(script, from, n)
    decreases n
  {
    if n == 0 {
    } else {
      AttemptsAreAveraged(m, script, timeout, from, n - 1);
      NotedTotals(MetricsAfter(m, script, timeout, from, n - 1), script(from + n - 1), timeout);
    }
  }

  /** How a call ends, by what its last attempt does: a connection failure after three attempts, the
      exceptions that are not retried, or a result; and an invalid result or a timeout is a result too. */
  lemma EndingIsOfLastAttempt(a: Attempt, timeout: real, result: TaskResult, e: Exn)
    ensures EndingOf(a, timeout) == RetriesExhausted <==> a == Throws(ConnectionFailure)
    ensures EndingOf(a, timeout) == Raised(e) <==> a == Throws(e) && (e == OtherFailure || e == Cancellation)
    ensures EndingOf(a, timeout) == Returned(result) <==>
            || (a.Finishes? && a.valid && a.result == result)
            || (a.Finishes? && !a.valid && result == TaskResult(Failed, 0.0, a.elapsed))
            || (a == Throws(TimeoutFailure) && result == TaskResult(TimedOut, 0.0, timeout))
  {
  }
}
