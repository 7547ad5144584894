/** What holds of a generation whatever the providers do. */
module GenerationGuarantees {
  import opened Wrappers
  import opened Generation

  /** The calls a run has added. */
  function NewCalls(v: View, v': View): seq<Call>
    requires |v.trace| <= |v'.trace|
  {
    v'.trace[|v.trace|..]
  }

  /** The verdict on the first reply, and on the reply after it. */
  function FirstVerdict(w: World, v: View): Verdict {
    Judge(w, w.router(|v.trace|))
  }

  function SecondVerdict(w: World, v: View): Verdict {
    Judge(w, w.router(|v.trace| + 1))
  }

  /** A plan-backed task with a well-formed policy, whose router can be built. */
  predicate PlanRoute(w: World, v: View, task: Option<Task>, provider: string) {
    && PlanBacked(task) && w.planRouterBuilds(|v.trace|)
    && task.value.policy.value.primary.Some? && task.value.policy.value.primary.value.0 == provider
  }

  predicate LegacyRoute(w: World, v: View, task: Option<Task>) {
    !PlanBacked(task) && w.multiProvider && w.hasRouterKey && (v.hasRouter || w.legacyRouterBuilds(|v.trace|))
  }

  /** One of the first `n` replies of the run validated to `value`. */
  ghost predicate ValidatedReply(w: World, v: View, n: nat, value: Value) {
    exists call: nat :: |v.trace| <= call < |v.trace| + n && Validates(w, call, value)
  }

  predicate Validates(w: World, call: nat, value: Value) {
    w.router(call).Answers? && w.parse(w.router(call).content) == Valid(value)
  }

  /** The router calls of a run on a resolved route. */
  function RouterCalls(w: World, v: View, r: Route, maxTokens: int, tier: string): seq<Call> {
    var reply := w.router(|v.trace|);
    var first := ToRouter(r.provider, r.model, maxTokens, tier);
    if !Retries(Judge(w, reply), maxTokens) then [first]
    else [first, ToRouter(r.provider, if reply.Answers? then reply.model else None, RetryBudget(maxTokens), tier)]
  }

  lemma RoutedCalls(w: World, v: View, r: Route, maxTokens: int, tier: string)
    ensures var calls, trace := RouterCalls(w, v, r, maxTokens, tier), RoutedRun(w, v, r, maxTokens, tier).0.trace;
            trace == v.trace + calls || (!r.failClosed && trace == v.trace + (calls + [ToGemini]))
  {
    var calls := RouterCalls(w, v, r, maxTokens, tier);
    if |calls| == 2 { assert v.trace + [calls[0]] + [calls[1]] == v.trace + calls; }
    assert (v.trace + calls) + [ToGemini] == v.trace + (calls + [ToGemini]);
    GeminiAddsOneCall(w, v.(trace := v.trace + calls));
  }

  lemma GeminiAddsOneCall(w: World, v: View)
    ensures var trace := GeminiRun(w, v).0.trace; trace == v.trace || trace == v.trace + [ToGemini]
  {
  }

  lemma RoutedTrace(w: World, v: View, r: Route, maxTokens: int, tier: string)
    ensures var calls, v' := RouterCalls(w, v, r, maxTokens, tier), RoutedRun(w, v, r, maxTokens, tier).0;
            && v.trace <= v'.trace
            && (NewCalls(v, v') == calls || (!r.failClosed && NewCalls(v, v') == calls + [ToGemini]))
  {
    RoutedCalls(w, v, r, maxTokens, tier);
  }

  lemma RoutedValue(w: World, v: View, r: Route, maxTokens: int, tier: string)
    requires r.failClosed
    ensures var (v', result) := RoutedRun(w, v, r, maxTokens, tier);
            && |v'.trace| >= |v.trace|
            && match result
               case Ok(value) => ValidatedReply(w, v, |v'.trace| - |v.trace|, value)
               case Err(e) => e == PlanProviderUnavailable
  {
    var (v', result) := RoutedRun(w, v, r, maxTokens, tier);
    if result.Ok? {
      var second := SecondVerdict(w, v);
      var i := if Retries(FirstVerdict(w, v), maxTokens) && (second.Complete? || second.Truncated?) then 1 else 0;
      assert Validates(w, |v.trace| + i, result.value);
    }
  }

  /** Plan-backed structured generation calls nothing but the plan's provider, at most twice, and
      ends in a value that a reply validated to, or in `PlanProviderUnavailableError`. */
  lemma PlanIsNeverSubstituted(w: World, v: View, task: Option<Task>, provider: string, maxTokens: int,
                               tier: Option<string>)
    requires PlanRoute(w, v, task, provider)
    ensures var (v', result) := StructuredRun(w, v, task, maxTokens, tier);
            && v.trace <= v'.trace && 1 <= |NewCalls(v, v')| <= 2
            && (forall c :: c in NewCalls(v, v') ==> c.ToRouter? && c.provider == provider)
            && v'.hasGemini == v.hasGemini
            && match result
               case Ok(value) => ValidatedReply(w, v, |NewCalls(v, v')|, value)
               case Err(e) => e == PlanProviderUnavailable
  {
    var v0 := v.(truncated := false);
    var route := Route(provider, Some(task.value.policy.value.primary.value.1), true);
    RoutedTrace(w, v0, route, maxTokens, ChosenTier(task, tier));
    RoutedValue(w, v0, route, maxTokens, ChosenTier(task, tier));
  }

  // ---- Selection and Gemini, one call at a time ----

  /** A plan-backed task never gets a route that may fall back: its route names the policy's provider and
      model and fails closed, and otherwise selection raises. The cached flag-driven router is untouched. */
  lemma PlanRouteFailsClosed(w: World, v: View, task: Option<Task>)
    requires PlanBacked(task)
    ensures var (v', route) := SelectedRoute(w, v, task);
            && v' == v
            && match route
               case Err(e) => e == MalformedPolicy || e == RouterNotBuilt
               case Ok(r) => r.Some? && r.value.failClosed && r.value.model.Some?
                             && task.value.policy.value.primary == Some((r.value.provider, r.value.model.value))
  {
  }

  /** Without a plan a route may fall back, always to the same provider, and its router is built once:
      after a selection that yields a route, every later one yields it again, whatever can be built then. */
  lemma FlagDrivenRouteIsCached(w: World, v: View, later: View, task: Option<Task>, other: Option<Task>)
    requires !PlanBacked(task) && !PlanBacked(other)
    ensures var (v', route) := SelectedRoute(w, v, task);
            route.Ok? && route.value.Some? ==>
              && !route.value.value.failClosed && v' == v.(hasRouter := true)
              && (later.hasRouter == v'.hasRouter ==> SelectedRoute(w, later, other) == (later, route))
  {
  }

  /** Whatever its policy says and whatever can be built, no task with a plan reaches Gemini: no call, and
      no model is built. */
  lemma PlanNeverReachesGemini(w: World, v: View, task: Task, maxTokens: int, tier: Option<string>,
                               unconfigured: string)
    requires PlanBacked(Some(task))
    ensures var s, t := StructuredRun(w, v, Some(task), maxTokens, tier).0, TextRun(w, v, task, unconfigured).0;
            && v.trace <= s.trace && ToGemini !in NewCalls(v, s) && s.hasGemini == v.hasGemini
            && v.trace <= t.trace && ToGemini !in NewCalls(v, t) && t.hasGemini == v.hasGemini
  {
    var v0 := v.(truncated := false);
    PlanRouteFailsClosed(w, v0, Some(task));
    var route := SelectedRoute(w, v0, Some(task)).1;
    if route.Ok? { RoutedTrace(w, v0, route.value.value, maxTokens, ChosenTier(Some(task), tier)); }
  }

  /** Gemini text is trusted exactly when it is there: full confidence is a nonblank answer to a call that
      was made, no confidence a call that raised, and without a model nothing is called. */
  lemma GeminiTextConfidence(w: World, v: View, unconfigured: string)
    ensures var (v', (content, confidence)) := GeminiTextRun(w, v, unconfigured);
            && (v'.trace == v.trace <==> !v'.hasGemini)
            && (v'.trace != v.trace ==> v'.trace == v.trace + [ToGemini])
            && (confidence == 0.85 <==> v'.hasGemini && content.Some? && !Blank(content.value))
            && (confidence == 0.0 <==> v'.hasGemini && w.geminiText(|v.trace|).None?)
            && (!v'.hasGemini ==> content == Some(unconfigured) && confidence == 0.3)
  {
    var v' := GeminiTextRun(w, v, unconfigured).0;
    if v'.hasGemini { assert |v'.trace| == |v.trace| + 1; }
  }

  /** Likewise for text: one call to the plan's provider and model, and its content or the error. */
  lemma PlanTextIsNeverSubstituted(w: World, v: View, task: Task, provider: string, unconfigured: string)
    requires PlanRoute(w, v, Some(task), provider)
    ensures var (v', result) := TextRun(w, v, task, unconfigured);
            && v'.trace == v.trace + [ToRouter(provider, Some(task.policy.value.primary.value.1), 2000, TaskTier(task))]
            && v'.hasGemini == v.hasGemini
            && result == var reply := w.router(|v.trace|);
                         if reply.Answers? then Ok((Some(reply.content), reply.confidence))
                         else Err(PlanProviderUnavailable)
  {
  }

  // ---- Runs ----

  /** The state after text generations for a series of tasks. */
  function Series(w: World, v: View, tasks: seq<Task>, unconfigured: string): View {
    if tasks == [] then v
    else
      var n := |tasks| - 1;
      TextRun(w, Series(w, v, tasks[..n], unconfigured), tasks[n], unconfigured).0
  }

  lemma {:induction false} SeriesKeepsRouter(w: World, v: View, tasks: seq<Task>, unconfigured: string)
    requires v.hasRouter
    ensures Series(w, v, tasks, unconfigured).hasRouter && v.trace <= Series(w, v, tasks, unconfigured).trace
  {
    if tasks == [] {
    } else {
      SeriesKeepsRouter(w, v, tasks[..|tasks| - 1], unconfigured);
    }
  }

  /** Once one task without a plan was routed, every later one is, whatever runs in between and whatever
      can be built by then: its generation begins with a call to that provider. */
  lemma OnceRoutedAlwaysRouted(w: World, v: View, task: Task, between: seq<Task>, later: Task, unconfigured: string)
    requires !PlanBacked(Some(task)) && !PlanBacked(Some(later))
    requires var route := SelectedRoute(w, v, Some(task)).1; route.Ok? && route.value.Some?
    ensures var s := Series(w, TextRun(w, v, task, unconfigured).0, between, unconfigured);
            var s' := TextRun(w, s, later, unconfigured).0;
            s.trace < s'.trace && s'.trace[|s.trace|] == ToRouter("openrouter", None, 2000, TaskTier(later))
  {
    var first := TextRun(w, v, task, unconfigured).0;
    SeriesKeepsRouter(w, first, between, unconfigured);
    var s := Series(w, first, between, unconfigured);
    FlagDrivenRouteIsCached(w, v, s, Some(task), Some(later));
  }

  /** Plans never reach Gemini in a whole series of them. */
  lemma {:induction false} PlanSeriesNeverReachesGemini(w: World, v: View, tasks: seq<Task>, unconfigured: string)
    requires forall t :: t in tasks ==> PlanBacked(Some(t))
    ensures var s := Series(w, v, tasks, unconfigured);
            v.trace <= s.trace && ToGemini !in NewCalls(v, s) && s.hasGemini == v.hasGemini
  {
    if tasks == [] {
    } else {
      var n := |tasks| - 1;
      var s := Series(w, v, tasks[..n], unconfigured);
      assert tasks == tasks[..n] + [tasks[n]];
      PlanSeriesNeverReachesGemini(w, v, tasks[..n], unconfigured);
      PlanNeverReachesGemini(w, s, tasks[n], 0, None, unconfigured);
      var s' := TextRun(w, s, tasks[n], unconfigured).0;
      assert NewCalls(v, s') == NewCalls(v, s) + NewCalls(s, s');
    }
  }

  /** The last call went to the router, and this was its answer. */
  predicate AnsweredByRouter(w: World, v: View, content: Option<string>, confidence: real) {
    && v.trace != [] && v.trace[|v.trace| - 1].ToRouter?
    && var reply := w.router(|v.trace| - 1);
       reply.Answers? && content == Some(reply.content) && confidence == reply.confidence
  }

  /** The last call went to Gemini, and this is what its answer is worth. */
  predicate AnsweredByGemini(w: World, v: View, content: Option<string>, confidence: real) {
    && v.trace != [] && v.trace[|v.trace| - 1] == ToGemini
    && match w.geminiText(|v.trace| - 1)
       case None => content == None && confidence == 0.0
       case Some(text) => content == text && confidence == if text.Some? && !Blank(text.value) then 0.85 else 0.3
  }

  /** Where text and confidence come from: the router's or Gemini's answer to the last call, or the canned
      text without a call to Gemini. */
  predicate Earned(w: World, v: View, v': View, content: Option<string>, confidence: real, unconfigured: string) {
    && v.trace <= v'.trace
    && (AnsweredByRouter(w, v', content, confidence)
        || AnsweredByGemini(w, v', content, confidence)
        || (ToGemini !in NewCalls(v, v') && content == Some(unconfigured) && confidence == 0.3))
  }

  lemma GeminiTextIsEarned(w: World, start: View, v: View, unconfigured: string)
    requires start.trace <= v.trace && ToGemini !in NewCalls(start, v)
    ensures var (v', (content, confidence)) := GeminiTextRun(w, v, unconfigured);
            Earned(w, start, v', content, confidence, unconfigured)
  {
    GeminiTextConfidence(w, v, unconfigured);
  }

  /** The text and confidence of every generation are earned. */
  lemma TextIsEarned(w: World, v: View, task: Task, unconfigured: string)
    ensures var (v', result) := TextRun(w, v, task, unconfigured);
            result.Ok? ==> Earned(w, v, v', result.value.0, result.value.1, unconfigured)
  {
    var (v1, route) := SelectedRoute(w, v, Some(task));
    if route.Ok? {
      GeminiTextIsEarned(w, v, v1, unconfigured);
      if route.value.Some? {
        var r := route.value.value;
        GeminiTextIsEarned(w, v, v1.Made(ToRouter(r.provider, r.model, 2000, TaskTier(task))), unconfigured);
      }
    }
  }

  /** The returned value is the first attempt's parse of truncated output: no later source gave one. */
  predicate FromTruncatedFirst(w: World, v: View, v': View)
    requires |v.trace| <= |v'.trace|
  {
    var calls := NewCalls(v, v');
    && calls != [] && calls[0].ToRouter? && FirstVerdict(w, v).Truncated? && ToGemini !in calls
    && (|calls| == 2 ==> !SecondVerdict(w, v).Complete? && !SecondVerdict(w, v).Truncated?)
  }

  /** After a normal return, `last_structured_truncated` says exactly whether the value is the first
      attempt's schema-valid parse of output that hit the token limit. */
  lemma TruncationFlagIsExact(w: World, v: View, task: Option<Task>, maxTokens: int, tier: Option<string>)
    ensures var (v', result) := StructuredRun(w, v, task, maxTokens, tier);
            && v.trace <= v'.trace
            && (result.Ok? ==> (v'.truncated <==> FromTruncatedFirst(w, v, v')))
            && (result.Ok? && v'.truncated ==> FirstVerdict(w, v) == Truncated(result.value))
  {
    var (v1, route) := SelectedRoute(w, v.(truncated := false), task);
    if route.Ok? && route.value.Some? {
      RoutedFlag(w, v1, route.value.value, maxTokens, ChosenTier(task, tier));
    } else if route.Ok? {
      GeminiIsLast(w, v1);
    }
  }

  lemma GeminiIsLast(w: World, v: View)
    ensures var (v', result) := GeminiRun(w, v);
            && v.trace <= v'.trace && v'.truncated == v.truncated
            && (result.Ok? ==> NewCalls(v, v') == [ToGemini])
  {
  }

  lemma RoutedFlag(w: World, v: View, r: Route, maxTokens: int, tier: string)
    requires !v.truncated
    ensures var (v', result) := RoutedRun(w, v, r, maxTokens, tier);
            && v.trace <= v'.trace
            && (result.Ok? ==> (v'.truncated <==> FromTruncatedFirst(w, v, v')))
            && (result.Ok? && v'.truncated ==> FirstVerdict(w, v) == Truncated(result.value))
  {
    RoutedTrace(w, v, r, maxTokens, tier);
    var (v', result) := RoutedRun(w, v, r, maxTokens, tier);
    var routed := if Retries(FirstVerdict(w, v), maxTokens) then 2 else 1;
    var ending := Decide(FirstVerdict(w, v), SecondVerdict(w, v), maxTokens);
    if ending.Return? {
      assert |NewCalls(v, v')| == routed && ToGemini !in NewCalls(v, v');
    } else if result.Ok? {
      assert NewCalls(v, v')[routed] == ToGemini;
    }
  }

  /** On the flag-driven route a truncated but valid first attempt is dropped for Gemini exactly when
      the retry was made and raised, or its content raised something other than a parse error; and for the
      plan error exactly when the retry raised that. */
  lemma TruncatedIsReplacedIffRetryRaised(w: World, v: View, task: Option<Task>, maxTokens: int, tier: Option<string>)
    requires LegacyRoute(w, v, task) && FirstVerdict(w, v).Truncated?
    ensures var (v', result) := StructuredRun(w, v, task, maxTokens, tier);
            && v.trace <= v'.trace
            && (ToGemini in NewCalls(v, v') || result == Err(NoModelConfigured)
                <==> maxTokens < TOKEN_CAP && SecondVerdict(w, v).Crashed?)
            && (result == Err(PlanProviderUnavailable) <==> maxTokens < TOKEN_CAP && SecondVerdict(w, v).PlanRaised?)
  {
    var v1 := SelectedRoute(w, v.(truncated := false), task).0;
    var r := Route("openrouter", None, false);
    RoutedTrace(w, v1, r, maxTokens, ChosenTier(task, tier));
    var (v', result) := RoutedRun(w, v1, r, maxTokens, ChosenTier(task, tier));
    var ending := Decide(FirstVerdict(w, v), SecondVerdict(w, v), maxTokens);
    var routed := if Retries(FirstVerdict(w, v), maxTokens) then 2 else 1;
    if !ending.GiveUp? {
      assert |NewCalls(v, v')| == routed && ToGemini !in NewCalls(v, v');
    } else if result != Err(NoModelConfigured) {
      assert NewCalls(v, v')[routed] == ToGemini;
    }
  }

  /** On a plan route it is given up, for the plan error, exactly when the retry was made and raised. */
  lemma TruncatedPlanFailsIffRetryRaised(w: World, v: View, task: Option<Task>, provider: string, maxTokens: int,
                                         tier: Option<string>)
    requires PlanRoute(w, v, task, provider) && FirstVerdict(w, v).Truncated?
    ensures var (v', result) := StructuredRun(w, v, task, maxTokens, tier);
            && (result.Err? <==>
                  maxTokens < TOKEN_CAP && (SecondVerdict(w, v).Crashed? || SecondVerdict(w, v).PlanRaised?))
            && (result.Err? ==> result.error == PlanProviderUnavailable)
  {
    var v0 := v.(truncated := false);
    PlanRouteFailsClosed(w, v0, task);
    assert Decide(FirstVerdict(w, v), SecondVerdict(w, v), maxTokens).Return? <==>
           !(maxTokens < TOKEN_CAP && (SecondVerdict(w, v).Crashed? || SecondVerdict(w, v).PlanRaised?));
  }

  /** There is a second router call exactly after unusable or truncated first output below the cap. It
      stays on the provider and tier, is pinned to the model that answered, and never exceeds the
      cap; for a positive budget it has strictly more tokens. */
  lemma RetryIsAContinuation(w: World, v: View, task: Option<Task>, maxTokens: int, tier: Option<string>)
    ensures var v' := StructuredRun(w, v, task, maxTokens, tier).0;
            && v.trace <= v'.trace
            && var calls := NewCalls(v, v');
            && (calls != [] && calls[0].ToRouter? ==>
                  (|calls| > 1 && calls[1].ToRouter? <==>
                     (FirstVerdict(w, v).Unparsable? || FirstVerdict(w, v).Truncated?) && maxTokens < 8000))
            && (|calls| > 1 && calls[1].ToRouter? ==>
                  && calls[0].ToRouter? && calls[1].provider == calls[0].provider && calls[1].tier == calls[0].tier
                  && w.router(|v.trace|).Answers? && calls[1].model == w.router(|v.trace|).model
                  && calls[0].maxTokens == maxTokens && calls[1].maxTokens <= 8000
                  && (maxTokens > 0 ==> maxTokens < calls[1].maxTokens))
  {
    var (v1, route) := SelectedRoute(w, v.(truncated := false), task);
    if route.Ok? && route.value.Some? {
      RoutedTrace(w, v1, route.value.value, maxTokens, ChosenTier(task, tier));
    } else if route.Ok? {
      assert GeminiRun(w, v1).0.trace in {v1.trace, v1.trace + [ToGemini]};
    }
  }
}
