/** The frozen metrics record of an agent, over reals. */
module AgentMetrics {
  /** The status strings the counters look for, and any other. */
  datatype Status = Success | Failed | TimedOut | Other(name: string)

  datatype TaskResult = TaskResult(status: Status, confidence: real, time: real)

  datatype Metrics = Metrics(
    total: nat, successful: nat, failed: nat, timedOut: nat, averageTime: real, averageConfidence: real)
  {
    function SuccessRate(): real {
      if total == 0 then 0.0 else successful as real / total as real
    }

    function WithNewTask(r: TaskResult): Metrics {
      var n := total + 1;
      Metrics(n,
              successful + (if r.status == Success then 1 else 0),
              failed + (if r.status == Failed then 1 else 0),
              timedOut + (if r.status == TimedOut then 1 else 0),
              (averageTime * total as real + r.time) / n as real,
              (averageConfidence * total as real + r.confidence) / n as real)
    }
  }

  const EMPTY := Metrics(0, 0, 0, 0, 0.0, 0.0)

  /** The metrics after recording `rs` one after the other. */
  function Recording(m: Metrics, rs: seq<TaskResult>): Metrics {
    if rs == [] then m else Recording(m, rs[..|rs| - 1]).WithNewTask(rs[|rs| - 1])
  }

  lemma RecordingNext(m: Metrics, rs: seq<TaskResult>, r: TaskResult)
    ensures Recording(m, rs + [r]) == Recording(m, rs).WithNewTask(r)
  {
    assert (rs + [r])[..|rs|] == rs;
  }

  function TotalTime(rs: seq<TaskResult>): real {
    if rs == [] then 0.0 else TotalTime(rs[..|rs| - 1]) + rs[|rs| - 1].time
  }

  function TotalConfidence(rs: seq<TaskResult>): real {
    if rs == [] then 0.0 else TotalConfidence(rs[..|rs| - 1]) + rs[|rs| - 1].confidence
  }

  function WithStatus(rs: seq<TaskResult>, status: Status): nat {
    if rs == [] then 0 else WithStatus(rs[..|rs| - 1], status) + (if rs[|rs| - 1].status == status then 1 else 0)
  }

  lemma NextMean(mean: real, n: nat, sum: real, x: real)
    requires mean * n as real == sum
    ensures ((mean * n as real + x) / (n + 1) as real) * (n + 1) as real == sum + x
  {
  }

  lemma {:induction false} CountersCount(rs: seq<TaskResult>)
    ensures var m := Recording(EMPTY, rs);
            && m.total == |rs|
            && m.successful == WithStatus(rs, Success)
            && m.failed == WithStatus(rs, Failed)
            && m.timedOut == WithStatus(rs, TimedOut)
  {
    if rs == [] {
    } else {
      CountersCount(rs[..|rs| - 1]);
    }
  }

  lemma {:induction false} AverageTimeIsMean(rs: seq<TaskResult>)
    ensures Recording(EMPTY, rs).averageTime * |rs| as real == TotalTime(rs)
  {
    if rs == [] {
    } else {
      var before, n := rs[..|rs| - 1], |rs| - 1;
      AverageTimeIsMean(before);
      CountersCount(before);
      NextMean(Recording(EMPTY, before).averageTime, n, TotalTime(before), rs[n].time);
    }
  }

  lemma {:induction false} AverageConfidenceIsMean(rs: seq<TaskResult>)
    ensures Recording(EMPTY, rs).averageConfidence * |rs| as real == TotalConfidence(rs)
  {
    if rs == [] {
    } else {
      var before, n := rs[..|rs| - 1], |rs| - 1;
      AverageConfidenceIsMean(before);
      CountersCount(before);
      NextMean(Recording(EMPTY, before).averageConfidence, n, TotalConfidence(before), rs[n].confidence);
    }
  }

  /** The stored averages are the true means of the whole history, and the counters count it. */
  lemma AveragesAreTrueMeans(rs: seq<TaskResult>)
    ensures var m := Recording(EMPTY, rs);
            && m.total == |rs|
            && m.averageTime * |rs| as real == TotalTime(rs)
            && m.averageConfidence * |rs| as real == TotalConfidence(rs)
            && m.successful == WithStatus(rs, Success)
            && m.failed == WithStatus(rs, Failed)
            && m.timedOut == WithStatus(rs, TimedOut)
  {
    CountersCount(rs);
    AverageTimeIsMean(rs);
    AverageConfidenceIsMean(rs);
  }

  /** The outcome counts never exceed the total, and reach it exactly when every result was a
      success, a failure or a timeout. */
  lemma {:induction false} OutcomesNeverExceedTotal(rs: seq<TaskResult>)
    ensures var m := Recording(EMPTY, rs);
            && m.successful + m.failed + m.timedOut <= m.total == |rs|
            && (m.successful + m.failed + m.timedOut == m.total <==>
                  forall r :: r in rs ==> r.status == Success || r.status == Failed || r.status == TimedOut)
  {
    if rs == [] {
    } else {
      var last := |rs| - 1;
      OutcomesNeverExceedTotal(rs[..last]);
      assert rs == rs[..last] + [rs[last]];
    }
  }

  /** The success rate lies in [0, 1], and is 1 exactly for a nonempty history of successes. */
  lemma {:induction false} SuccessRateIsAFraction(rs: seq<TaskResult>)
    ensures var rate := Recording(EMPTY, rs).SuccessRate();
            && 0.0 <= rate <= 1.0
            && (rate == 1.0 <==> rs != [] && forall r :: r in rs ==> r.status == Success)
  {
    AllSucceeded(rs);
    AveragesAreTrueMeans(rs);
    var m := Recording(EMPTY, rs);
    if m.total > 0 { RatioOfParts(m.successful as real, m.total as real); }
  }

  lemma Cancel(x: real, y: real, d: real)
    requires d > 0.0
    ensures x <= y <==> x / d <= y / d
  {
    assert x / d * d == x && y / d * d == y;
  }

  lemma RatioOfParts(part: real, whole: real)
    requires 0.0 <= part <= whole && whole > 0.0
    ensures 0.0 <= part / whole <= 1.0 && (part / whole == 1.0 <==> part == whole)
  {
    Cancel(0.0, part, whole);
    Cancel(part, whole, whole);
    Cancel(whole, part, whole);
    assert whole / whole == 1.0 && 0.0 / whole == 0.0;
  }

  lemma {:induction false} AllSucceeded(rs: seq<TaskResult>)
    ensures WithStatus(rs, Success) <= |rs|
    ensures WithStatus(rs, Success) == |rs| <==> forall r :: r in rs ==> r.status == Success
  {
    if rs == [] {
    } else {
      var last := |rs| - 1;
      AllSucceeded(rs[..last]);
      assert rs == rs[..last] + [rs[last]];
    }
  }
}
