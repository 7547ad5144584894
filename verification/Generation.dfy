/** Model generation of a worker: the plan route, the flag-driven router, the truncation retry and
    the Gemini fallback, for every behaviour of the providers.

    A `World` fixes what each foreign call answers, by the number of calls made before it, so a
    statement about all worlds covers every adaptive behaviour. */
module Generation {
  import opened Wrappers

  type Value = nat

  datatype Exn = PlanProviderUnavailable | MalformedPolicy | RouterNotBuilt | NoModelConfigured | GeminiRaised

  /** What the router's coroutine does: raise, report failure, or answer. */
  datatype RouterReply =
    | Raises(planError: bool)
    | Fails
    | Answers(content: string, finishReason: string, model: Option<string>, confidence: real)

  /** Extracting and validating JSON: a value, a `ValueError` or `TypeError`, or another exception. */
  datatype Parsed = Valid(value: Value) | Invalid | Broken

  datatype World = World(
    multiProvider: bool, hasRouterKey: bool,
    planRouterBuilds: nat -> bool, legacyRouterBuilds: nat -> bool, geminiBuilds: nat -> bool,
    router: nat -> RouterReply, parse: string -> Parsed,
    geminiStructured: nat -> Option<Value>, geminiText: nat -> Option<Option<string>>)

  /** `provider_model_policy` of a task, when present: not a dict, or a dict whose primary entry
      names provider and model (or does not). */
  datatype Policy = NotADict | Policy(primary: Option<(string, string)>)

  datatype Task = Task(policy: Option<Policy>, complexity: Option<real>)

  datatype Route = Route(provider: string, model: Option<string>, failClosed: bool)

  /** The calls that leave the worker. */
  datatype Call =
    | ToRouter(provider: string, model: Option<string>, maxTokens: int, tier: string)
    | ToGemini

  /** The worker's fields. */
  datatype View = View(hasRouter: bool, hasGemini: bool, truncated: bool, trace: seq<Call>) {
    function Made(c: Call): View {
      this.(trace := trace + [c])
    }
  }

  const TOKEN_CAP := 8000

  function TaskTier(task: Task): string {
    var score := if task.complexity.Some? then task.complexity.value else 0.5;
    if score < 0.3 then "simple" else if score < 0.7 then "balanced" else "complex"
  }

  function RetryBudget(maxTokens: int): int {
    if maxTokens * 2 < TOKEN_CAP then maxTokens * 2 else TOKEN_CAP
  }

  /** The policy a task carries, if it is a dict. */
  predicate PlanBacked(task: Option<Task>) {
    task.Some? && task.value.policy.Some? && task.value.policy.value.Policy?
  }

  /** The route of a call, and the cached router of the flag-driven path. */
  function SelectedRoute(w: World, v: View, task: Option<Task>): (View, Result<Option<Route>, Exn>) {
    if PlanBacked(task) then
      var primary := task.value.policy.value.primary;
      (v, if primary.None? then Err(MalformedPolicy)
          else if !w.planRouterBuilds(|v.trace|) then Err(RouterNotBuilt)
          else Ok(Some(Route(primary.value.0, Some(primary.value.1), true))))
    else if !w.multiProvider || !w.hasRouterKey then (v, Ok(None))
    else if !v.hasRouter && !w.legacyRouterBuilds(|v.trace|) then (v, Err(RouterNotBuilt))
    else (v.(hasRouter := true), Ok(Some(Route("openrouter", None, false))))
  }

  /** One router reply of structured generation, judged by its content. */
  datatype Verdict = PlanRaised | Crashed | Declined | Unparsable | Complete(value: Value) | Truncated(value: Value)

  function Judge(w: World, reply: RouterReply): Verdict {
    match reply
    case Raises(planError) => if planError then PlanRaised else Crashed
    case Fails => Declined
    case Answers(content, finish, _, _) =>
      match w.parse(content)
      case Broken => Crashed
      case Invalid => Unparsable
      case Valid(v) => if finish == "length" then Truncated(v) else Complete(v)
  }

  predicate Retries(first: Verdict, maxTokens: int) {
    (first.Unparsable? || first.Truncated?) && maxTokens < TOKEN_CAP
  }

  /** Where the returned value comes from. */
  datatype Source = First | Retry | Gemini

  datatype Ending = Return(value: Value, source: Source) | PlanError | GiveUp

  /** How the two attempts decide the call. The second counts only when there is a retry. */
  function Decide(first: Verdict, second: Verdict, maxTokens: int): Ending {
    if first.Complete? then Return(first.value, First)
    else if first.PlanRaised? then PlanError
    else if !Retries(first, maxTokens) then
      if first.Truncated? then Return(first.value, First) else GiveUp
    else match second
      case Complete(v) => Return(v, Retry)
      case Truncated(v) => Return(v, Retry)
      case PlanRaised => PlanError
      case Crashed => GiveUp
      case _ => if first.Truncated? then Return(first.value, First) else GiveUp
  }

  /** Gemini, built on first use. */
  function GeminiRun(w: World, v: View): (View, Result<Value, Exn>) {
    if !v.hasGemini && !w.geminiBuilds(|v.trace|) then (v, Err(NoModelConfigured))
    else
      var reply := w.geminiStructured(|v.trace|);
      (v.(hasGemini := true).Made(ToGemini), if reply.Some? then Ok(reply.value) else Err(GeminiRaised))
  }

  /** A structured generation on a resolved route. */
  function RoutedRun(w: World, v: View, r: Route, maxTokens: int, tier: string): (View, Result<Value, Exn>) {
    var reply := w.router(|v.trace|);
    var first := Judge(w, reply);
    var v1 := v.Made(ToRouter(r.provider, r.model, maxTokens, tier));
    var model := if reply.Answers? then reply.model else None;
    var v2 :=
      if Retries(first, maxTokens) then v1.Made(ToRouter(r.provider, model, RetryBudget(maxTokens), tier)) else v1;
    match Decide(first, Judge(w, w.router(|v1.trace|)), maxTokens)
    case Return(value, source) => (v2.(truncated := source == First && first.Truncated?), Ok(value))
    case PlanError => (v2, Err(PlanProviderUnavailable))
    case GiveUp => if r.failClosed then (v2, Err(PlanProviderUnavailable)) else GeminiRun(w, v2)
  }

  function ChosenTier(task: Option<Task>, tier: Option<string>): string {
    if tier.Some? then tier.value else if task.Some? then TaskTier(task.value) else "balanced"
  }

  function StructuredRun(w: World, v: View, task: Option<Task>, maxTokens: int, tier: Option<string>)
    : (View, Result<Value, Exn>)
  {
    var (v1, route) := SelectedRoute(w, v.(truncated := false), task);
    match route
    case Err(e) => (v1, Err(e))
    case Ok(None) => GeminiRun(w, v1)
    case Ok(Some(r)) => RoutedRun(w, v1, r, maxTokens, ChosenTier(task, tier))
  }

  function GeminiTextRun(w: World, v: View, unconfigured: string): (View, (Option<string>, real)) {
    if !v.hasGemini && !w.geminiBuilds(|v.trace|) then (v, (Some(unconfigured), 0.3))
    else
      var reply := w.geminiText(|v.trace|);
      (v.(hasGemini := true).Made(ToGemini),
       if reply.None? then (None, 0.0)
       else (reply.value, if reply.value.Some? && !Blank(reply.value.value) then 0.85 else 0.3))
  }

  /** Characters that `str.strip` removes. */
  predicate IsSpace(c: char) {
    var n := c as int;
    0x09 <= n <= 0x0D || 0x1C <= n <= 0x20 || n == 0x85 || n == 0xA0 || n == 0x1680 || 0x2000 <= n <= 0x200A
    || n == 0x2028 || n == 0x2029 || n == 0x202F || n == 0x205F || n == 0x3000
  }

  predicate Blank(s: string) {
    forall c :: c in s ==> IsSpace(c)
  }

  /** Plain text generation for a task. */
  function TextRun(w: World, v: View, task: Task, unconfigured: string): (View, Result<(Option<string>, real), Exn>) {
    var (v1, route) := SelectedRoute(w, v, Some(task));
    match route
    case Err(e) => (v1, Err(e))
    case Ok(None) => var (v2, text) := GeminiTextRun(w, v1, unconfigured); (v2, Ok(text))
    case Ok(Some(r)) =>
      var reply := w.router(|v1.trace|);
      var v2 := v1.Made(ToRouter(r.provider, r.model, 2000, TaskTier(task)));
      if reply.Answers? then (v2, Ok((Some(reply.content), reply.confidence)))
      else if r.failClosed || (reply.Raises? && reply.planError) then (v2, Err(PlanProviderUnavailable))
      else var (v3, text) := GeminiTextRun(w, v2, unconfigured); (v3, Ok(text))
  }

  class Worker {
    const world: World
    /** The text handed out when no model can be used. */
    const unconfigured: string
    var hasRouter: bool
    var hasGemini: bool
    var lastStructuredTruncated: bool
    var trace: seq<Call>

    constructor (w: World, unconfigured: string, gemini: bool)
      ensures world == w && this.unconfigured == unconfigured && Fields() == View(false, gemini, false, [])
    {
      world := w;
      this.unconfigured := unconfigured;
      hasRouter, hasGemini, lastStructuredTruncated, trace := false, gemini, false, [];
    }

    function Fields(): View
      reads this
    {
      View(hasRouter, hasGemini, lastStructuredTruncated, trace)
    }

    method RouteAndGenerate(provider: string, model: Option<string>, maxTokens: int, tier: string)
      returns (reply: RouterReply)
      modifies this
      ensures reply == world.router(|old(trace)|)
      ensures Fields() == old(Fields()).Made(ToRouter(provider, model, maxTokens, tier))
    {
      reply := world.router(|trace|);
      trace := trace + [ToRouter(provider, model, maxTokens, tier)];
    }

    method SelectGenerationRoute(task: Option<Task>) returns (r: Result<Option<Route>, Exn>)
      modifies this
      ensures (Fields(), r) == SelectedRoute(world, old(Fields()), task)
    {
      if task.Some? {
        match task.value.policy {
          case Some(Policy(primary)) =>
            if primary.None? { return Err(MalformedPolicy); }
            if !world.planRouterBuilds(|trace|) { return Err(RouterNotBuilt); }
            return Ok(Some(Route(primary.value.0, Some(primary.value.1), true)));
          case _ =>
        }
      }
      if !world.multiProvider || !world.hasRouterKey { return Ok(None); }
      if !hasRouter {
        if !world.legacyRouterBuilds(|trace|) { return Err(RouterNotBuilt); }
        hasRouter := true;
      }
      r := Ok(Some(Route("openrouter", None, false)));
    }

    method EnsureGemini() returns (ok: bool)
      modifies this
      ensures ok == (old(hasGemini) || world.geminiBuilds(|trace|))
      ensures Fields() == old(Fields()).(hasGemini := ok)
    {
      if !hasGemini { hasGemini := world.geminiBuilds(|trace|); }
      ok := hasGemini;
    }

    method GenerateStructuredWithGemini() returns (r: Result<Value, Exn>)
      modifies this
      ensures (Fields(), r) == GeminiRun(world, old(Fields()))
    {
      var ok := EnsureGemini();
      if !ok { return Err(NoModelConfigured); }
      var reply := world.geminiStructured(|trace|);
      trace := trace + [ToGemini];
      r := if reply.Some? then Ok(reply.value) else Err(GeminiRaised);
    }

    method GenerateStructured(task: Option<Task>, maxTokens: int, tier: Option<string>) returns (r: Result<Value, Exn>)
      modifies this
      ensures (Fields(), r) == StructuredRun(world, old(Fields()), task, maxTokens, tier)
    {
      lastStructuredTruncated := false;
      var route := SelectGenerationRoute(task);
      match route {
        case Err(e) => r := Err(e);
        case Ok(None) => r := GenerateStructuredWithGemini();
        case Ok(Some(plan)) => r := GenerateOnRoute(plan, maxTokens, ChosenTier(task, tier));
      }
    }

    /** The `try` block and what follows it. An exception ends the block with `failed` still set. */
    method GenerateOnRoute(route: Route, maxTokens: int, tier: string) returns (r: Result<Value, Exn>)
      requires !lastStructuredTruncated
      modifies this
      ensures (Fields(), r) == RoutedRun(world, old(Fields()), route, maxTokens, tier)
    {
      var response := RouteAndGenerate(route.provider, route.model, maxTokens, tier);
      if response.Raises? && response.planError { return Err(PlanProviderUnavailable); }
      if response.Answers? {
        var needsRetry := false;
        var truncatedButValid: Option<Value> := None;
        match world.parse(response.content) {
          case Valid(v) =>
            if response.finishReason == "length" {
              needsRetry := true;
              truncatedButValid := Some(v);
            } else {
              return Ok(v);
            }
          case Invalid => needsRetry := true;
          case Broken =>
        }
        if needsRetry && maxTokens < TOKEN_CAP {
          var retryMaxTokens := if maxTokens * 2 < TOKEN_CAP then maxTokens * 2 else TOKEN_CAP;
          var retry := RouteAndGenerate(route.provider, response.model, retryMaxTokens, tier);
          match retry {
            case Raises(planError) =>
              if planError { return Err(PlanProviderUnavailable); }
            case Fails =>
              if truncatedButValid.Some? {
                lastStructuredTruncated := true;
                return Ok(truncatedButValid.value);
              }
            case Answers(content, _, _, _) =>
              match world.parse(content) {
                case Valid(v) => return Ok(v);
                case Invalid =>
                  if truncatedButValid.Some? {
                    lastStructuredTruncated := true;
                    return Ok(truncatedButValid.value);
                  }
                case Broken =>
              }
          }
        } else if needsRetry {
          if truncatedButValid.Some? {
            lastStructuredTruncated := true;
            return Ok(truncatedButValid.value);
          }
        }
      }
      if route.failClosed { return Err(PlanProviderUnavailable); }
      r := GenerateStructuredWithGemini();
    }

    method GenerateWithGemini() returns (content: Option<string>, confidence: real)
      modifies this
      ensures (Fields(), (content, confidence)) == GeminiTextRun(world, old(Fields()), unconfigured)
    {
      var ok := EnsureGemini();
      if !ok { return Some(unconfigured), 0.3; }
      var reply := world.geminiText(|trace|);
      trace := trace + [ToGemini];
      match reply {
        case None => content, confidence := None, 0.0;
        case Some(text) =>
          content := text;
          confidence := if text.Some? && !Blank(text.value) then 0.85 else 0.3;
      }
    }

    method GenerateWithRouting(task: Task) returns (r: Result<(Option<string>, real), Exn>)
      modifies this
      ensures (Fields(), r) == TextRun(world, old(Fields()), task, unconfigured)
    {
      var route := SelectGenerationRoute(Some(task));
      match route {
        case Err(e) => return Err(e);
        case Ok(None) =>
        case Ok(Some(plan)) =>
          var response := RouteAndGenerate(plan.provider, plan.model, 2000, TaskTier(task));
          if response.Answers? { return Ok((Some(response.content), response.confidence)); }
          if response.Raises? && response.planError { return Err(PlanProviderUnavailable); }
          if plan.failClosed { return Err(PlanProviderUnavailable); }
      }
      var content, confidence := GenerateWithGemini();
      r := Ok((content, confidence));
    }
  }
}
