/** What a generation returns and when it fails, told from the answers of the providers alone. */
module GenerationOutcomes {
  import opened Wrappers
  import opened Generation
  import opened GenerationGuarantees

  // ---- Which answer a structured value comes from ----

  /** What the router's answer number `call` parses to. */
  function ParsedAnswer(w: World, call: nat): Option<Parsed> {
    var reply := w.router(call);
    if reply.Answers? then Some(w.parse(reply.content)) else None
  }

  /** A returned value is what the last call answered, parsed if it went to the router; only a value returned
      with the truncation flag is what the first call answered. */
  predicate FromAnswer(w: World, v: View, v': View, value: Value) {
    && |v.trace| < |v'.trace|
    && var last := |v'.trace| - 1;
       if v'.truncated then ParsedAnswer(w, |v.trace|) == Some(Valid(value)) && v'.trace[|v.trace|].ToRouter?
       else if v'.trace[last].ToRouter? then ParsedAnswer(w, last) == Some(Valid(value))
       else w.geminiStructured(last) == Some(value)
  }

  lemma RoutedValueIsAnswered(w: World, v: View, r: Route, maxTokens: int, tier: string)
    requires !v.truncated
    ensures var (v', result) := RoutedRun(w, v, r, maxTokens, tier);
            result.Ok? ==> FromAnswer(w, v, v', result.value)
  {
    var (v', result) := RoutedRun(w, v, r, maxTokens, tier);
    RoutedTrace(w, v, r, maxTokens, tier);
    var routed := if Retries(FirstVerdict(w, v), maxTokens) then 2 else 1;
    var ending := Decide(FirstVerdict(w, v), SecondVerdict(w, v), maxTokens);
    if ending.Return? {
      assert v'.trace[|v.trace|].ToRouter?;
      assert |v'.trace| == |v.trace| + routed;
    }
  }

  /** For every task and budget, a structured generation returns the validated content of the router's last
      answer, or Gemini's answer when the last call went there; and with the truncation flag, the validated
      content of the router's first answer. */
  lemma ValueIsAnswered(w: World, v: View, task: Option<Task>, maxTokens: int, tier: Option<string>)
    ensures var (v', result) := StructuredRun(w, v, task, maxTokens, tier);
            result.Ok? ==> FromAnswer(w, v, v', result.value)
  {
    var (v1, route) := SelectedRoute(w, v.(truncated := false), task);
    if route.Ok? && route.value.Some? {
      RoutedValueIsAnswered(w, v1, route.value.value, maxTokens, ChosenTier(task, tier));
    }
  }

  // ---- When the router decides, and when Gemini does ----

  /** The answer stopped at the token limit. */
  predicate CutOff(w: World, call: nat) {
    w.router(call).Answers? && w.router(call).finishReason == "length"
  }

  /** A second question is asked: the first answer does not parse, or was cut off. */
  predicate Asked(w: World, n: nat, maxTokens: int) {
    && maxTokens < 8000
    && match ParsedAnswer(w, n)
       case Some(Valid(_)) => CutOff(w, n)
       case Some(Invalid) => true
       case _ => false
  }

  /** The answers from number `n` on that a budget leads to contain a value to return: one that is not cut
      off, else one to the second question, else one cut off that no second question was asked about or
      whose second answer reports failure or does not parse. */
  predicate Usable(w: World, n: nat, maxTokens: int) {
    match ParsedAnswer(w, n)
    case Some(Valid(_)) =>
      || !CutOff(w, n) || !Asked(w, n, maxTokens)
      || w.router(n + 1).Fails? || (ParsedAnswer(w, n + 1).Some? && ParsedAnswer(w, n + 1) != Some(Broken))
    case Some(Invalid) =>
      Asked(w, n, maxTokens) && ParsedAnswer(w, n + 1).Some? && ParsedAnswer(w, n + 1).value.Valid?
    case _ => false
  }

  predicate PlanErrorRaised(w: World, n: nat, maxTokens: int) {
    w.router(n) == Raises(true) || (Asked(w, n, maxTokens) && w.router(n + 1) == Raises(true))
  }

  lemma DecisionIsUsable(w: World, n: nat, maxTokens: int)
    ensures var ending := Decide(Judge(w, w.router(n)), Judge(w, w.router(n + 1)), maxTokens);
            && (ending.Return? <==> Usable(w, n, maxTokens))
            && (ending.PlanError? <==> PlanErrorRaised(w, n, maxTokens))
    ensures Retries(Judge(w, w.router(n)), maxTokens) <==> Asked(w, n, maxTokens)
  {
  }

  lemma RoutedOutcome(w: World, v: View, r: Route, maxTokens: int, tier: string)
    ensures var (v', result) := RoutedRun(w, v, r, maxTokens, tier);
            && v.trace <= v'.trace
            && (result.Ok? && ToGemini !in NewCalls(v, v') <==> Usable(w, |v.trace|, maxTokens))
            && (result == Err(PlanProviderUnavailable) <==>
                  PlanErrorRaised(w, |v.trace|, maxTokens) || (r.failClosed && !Usable(w, |v.trace|, maxTokens)))
  {
    var (v', result) := RoutedRun(w, v, r, maxTokens, tier);
    DecisionIsUsable(w, |v.trace|, maxTokens);
    RoutedTrace(w, v, r, maxTokens, tier);
    var calls := RouterCalls(w, v, r, maxTokens, tier);
    if !Usable(w, |v.trace|, maxTokens) && result.Ok? { assert NewCalls(v, v')[|calls|] == ToGemini; }
    if Usable(w, |v.trace|, maxTokens) { assert |NewCalls(v, v')| == |calls|; }
  }

  /** A routed generation returns a router value exactly when the answers contain one to use. It ends in
      `PlanProviderUnavailableError` exactly when that was raised, or when under a plan they contain none. */
  lemma RouterValueIffUsable(w: World, v: View, task: Option<Task>, provider: string, maxTokens: int,
                             tier: Option<string>)
    requires LegacyRoute(w, v, task) || PlanRoute(w, v, task, provider)
    ensures var (v', result) := StructuredRun(w, v, task, maxTokens, tier);
            && v.trace <= v'.trace
            && (result.Ok? && ToGemini !in NewCalls(v, v') <==> Usable(w, |v.trace|, maxTokens))
            && (result == Err(PlanProviderUnavailable) <==>
                  PlanErrorRaised(w, |v.trace|, maxTokens) || (PlanBacked(task) && !Usable(w, |v.trace|, maxTokens)))
  {
    var (v1, route) := SelectedRoute(w, v.(truncated := false), task);
    RoutedOutcome(w, v1, route.value.value, maxTokens, ChosenTier(task, tier));
  }

  /** A call to Gemini is the last one, and what it answers is the outcome. No other call raises its error,
      and the lack of a model is reported only when none is there and none can be built. */
  predicate GeminiDecides(w: World, v: View, v': View, result: Result<Value, Exn>) {
    && v.trace <= v'.trace
    && (ToGemini in NewCalls(v, v') ==>
          && v'.trace[|v'.trace| - 1] == ToGemini
          && result == match w.geminiStructured(|v'.trace| - 1)
                       case Some(value) => Ok(value)
                       case None => Err(GeminiRaised))
    && (result == Err(NoModelConfigured) ==>
          !v.hasGemini && !w.geminiBuilds(|v'.trace|) && ToGemini !in NewCalls(v, v'))
    && (result == Err(GeminiRaised) ==> ToGemini in NewCalls(v, v'))
  }

  lemma GeminiRunDecides(w: World, start: View, v: View)
    requires start.trace <= v.trace && ToGemini !in NewCalls(start, v) && start.hasGemini == v.hasGemini
    ensures var (v', result) := GeminiRun(w, v); GeminiDecides(w, start, v', result)
  {
    var (v', result) := GeminiRun(w, v);
    if v'.trace != v.trace { assert NewCalls(start, v')[|NewCalls(start, v')| - 1] == ToGemini; }
  }

  /** The router calls are made first; after giving up without a plan comes Gemini, else nothing. */
  lemma RoutedThenGemini(w: World, v: View, r: Route, maxTokens: int, tier: string)
    ensures var (v', result) := RoutedRun(w, v, r, maxTokens, tier);
            var ending := Decide(FirstVerdict(w, v), SecondVerdict(w, v), maxTokens);
            var routed := v.(trace := v.trace + RouterCalls(w, v, r, maxTokens, tier));
            if ending.GiveUp? && !r.failClosed then (v', result) == GeminiRun(w, routed)
            else v'.trace == routed.trace && (result.Err? ==> result.error == PlanProviderUnavailable)
  {
    var calls := RouterCalls(w, v, r, maxTokens, tier);
    if |calls| == 2 { assert v.trace + [calls[0]] + [calls[1]] == v.trace + calls; }
  }

  lemma RoutedToGemini(w: World, v: View, r: Route, maxTokens: int, tier: string)
    ensures var (v', result) := RoutedRun(w, v, r, maxTokens, tier); GeminiDecides(w, v, v', result)
  {
    var calls := RouterCalls(w, v, r, maxTokens, tier);
    RoutedThenGemini(w, v, r, maxTokens, tier);
    assert NewCalls(v, v.(trace := v.trace + calls)) == calls;
    GeminiRunDecides(w, v, v.(trace := v.trace + calls));
  }

  /** Gemini's part in any structured generation. */
  lemma GeminiOutcome(w: World, v: View, task: Option<Task>, maxTokens: int, tier: Option<string>)
    ensures var (v', result) := StructuredRun(w, v, task, maxTokens, tier); GeminiDecides(w, v, v', result)
  {
    var (v1, route) := SelectedRoute(w, v.(truncated := false), task);
    var (v', result) := StructuredRun(w, v, task, maxTokens, tier);
    if route.Ok? && route.value.Some? {
      RoutedToGemini(w, v1, route.value.value, maxTokens, ChosenTier(task, tier));
      assert GeminiDecides(w, v1, v', result);
    } else if route.Ok? {
      GeminiRunDecides(w, v1, v1);
      assert GeminiDecides(w, v1, v', result);
    }
    assert v1.trace == v.trace && v1.hasGemini == v.hasGemini;
  }

  // ---- Text ----

  /** Without a plan, text is the router's whenever it answers; only a plan error ends the generation, and
      anything else goes to Gemini, if there is one or one can be built. */
  lemma RoutedTextOutcome(w: World, v: View, task: Task, unconfigured: string)
    requires LegacyRoute(w, v, Some(task))
    ensures var (v', result) := TextRun(w, v, task, unconfigured);
            && v.trace < v'.trace
            && (if w.router(|v.trace|).Answers?
                then |NewCalls(v, v')| == 1
                     && result == Ok((Some(w.router(|v.trace|).content), w.router(|v.trace|).confidence))
                else (w.router(|v.trace|) == Raises(true) <==> result == Err(PlanProviderUnavailable))
                     && (result.Ok? || w.router(|v.trace|) == Raises(true))
                     && (ToGemini in NewCalls(v, v') <==>
                           result.Ok? && (v.hasGemini || w.geminiBuilds(|v.trace| + 1))))
  {
    var (v', result) := TextRun(w, v, task, unconfigured);
    var reply := w.router(|v.trace|);
    if !reply.Answers? && result.Ok? && (v.hasGemini || w.geminiBuilds(|v.trace| + 1)) {
      assert NewCalls(v, v')[1] == ToGemini;
    }
  }

  // ---- The first call ----

  /** The tier a task or its absence asks for. */
  predicate AsksForTier(task: Option<Task>, tier: string) {
    match task
    case None => tier == "balanced"
    case Some(Task(_, None)) => tier == "balanced"
    case Some(Task(_, Some(complexity))) =>
      || (complexity < 0.3 && tier == "simple")
      || (0.3 <= complexity < 0.7 && tier == "balanced")
      || (0.7 <= complexity && tier == "complex")
  }

  lemma TierIsAskedFor(task: Option<Task>)
    ensures AsksForTier(task, ChosenTier(task, None))
  {
  }

  predicate OnSomePlan(w: World, v: View, task: Option<Task>) {
    PlanBacked(task) && task.value.policy.value.primary.Some? && w.planRouterBuilds(|v.trace|)
  }

  /** The model of a call: the plan's primary, or the flag-driven default. */
  predicate AsksForModel(task: Option<Task>, provider: string, model: Option<string>) {
    if PlanBacked(task) then model.Some? && task.value.policy.value.primary == Some((provider, model.value))
    else provider == "openrouter" && model == None
  }

  lemma RouteIsAsSet(w: World, v: View, task: Option<Task>)
    ensures var (v', route) := SelectedRoute(w, v, task);
            && v'.trace == v.trace
            && ((route.Ok? && route.value.Some?) <==> LegacyRoute(w, v, task) || OnSomePlan(w, v, task))
            && (route.Ok? && route.value.Some? ==>
                  AsksForModel(task, route.value.value.provider, route.value.value.model))
  {
  }

  lemma RoutedFirstCall(w: World, v: View, r: Route, maxTokens: int, tier: string)
    ensures var v' := RoutedRun(w, v, r, maxTokens, tier).0;
            v.trace < v'.trace && v'.trace[|v.trace|] == ToRouter(r.provider, r.model, maxTokens, tier)
  {
    RoutedTrace(w, v, r, maxTokens, tier);
    var v' := RoutedRun(w, v, r, maxTokens, tier).0;
    assert NewCalls(v, v')[0] == ToRouter(r.provider, r.model, maxTokens, tier);
  }

  /** The router is called first exactly on a plan whose policy names a model and whose router can be built,
      or without a plan when the flag and the key are set and the router is there or can be built. That call
      goes to the plan's primary model or the flag-driven default, with the caller's budget and tier, or else
      with the task's tier. */
  lemma FirstCall(w: World, v: View, task: Option<Task>, maxTokens: int, tier: Option<string>)
    ensures var v' := StructuredRun(w, v, task, maxTokens, tier).0;
            && v.trace <= v'.trace
            && ((v.trace < v'.trace && v'.trace[|v.trace|].ToRouter?) <==>
                  LegacyRoute(w, v, task) || OnSomePlan(w, v, task))
            && (v.trace < v'.trace && v'.trace[|v.trace|].ToRouter? ==>
                  var first := v'.trace[|v.trace|];
                  && first.maxTokens == maxTokens && AsksForModel(task, first.provider, first.model)
                  && (if tier.Some? then first.tier == tier.value else AsksForTier(task, first.tier)))
  {
    var (v1, route) := SelectedRoute(w, v.(truncated := false), task);
    TierIsAskedFor(task);
    RouteIsAsSet(w, v.(truncated := false), task);
    if route.Ok? && route.value.Some? {
      RoutedFirstCall(w, v1, route.value.value, maxTokens, ChosenTier(task, tier));
    } else if route.Ok? {
      GeminiIsLast(w, v1);
    }
  }
}
