/** The tool loop of a worker: a strict envelope, at most one tool call, at most two model turns. */
module ToolLoop {
  import opened Wrappers
  import opened Generation
  import opened GenerationGuarantees

  /** Decoded JSON. */
  datatype Json =
    | Null | Bool(b: bool) | Number(n: real) | Str(s: string) | Arr(items: seq<Json>) | Obj(fields: map<string, Json>)

  datatype ToolCall = ToolCall(name: string, arguments: map<string, Json>)

  /** Ordinary text, a valid call, or a response that claims the envelope and does not match it. */
  datatype Reading = Ordinary | Request(toolCall: ToolCall) | Malformed

  predicate Normalised(name: string) {
    name != "" && !IsSpace(name[0]) && !IsSpace(name[|name| - 1])
  }

  function ParseToolCall(decoded: Option<Json>): Reading {
    if decoded.None? || !decoded.value.Obj? || "tool_call" !in decoded.value.fields then Ordinary
    else if decoded.value.fields.Keys != {"tool_call"} then Malformed
    else
      var call := decoded.value.fields["tool_call"];
      if !call.Obj? || call.fields.Keys != {"name", "arguments"} then Malformed
      else if !call.fields["name"].Str? || !Normalised(call.fields["name"].s) then Malformed
      else if !call.fields["arguments"].Obj? then Malformed
      else Request(ToolCall(call.fields["name"].s, call.fields["arguments"].fields))
  }

  /** The envelope the prompt asks for. */
  function Envelope(c: ToolCall): Json {
    Obj(map["tool_call" := Obj(map["name" := Str(c.name), "arguments" := Obj(c.arguments)])])
  }

  /** The parser accepts exactly the envelopes of calls with a normalised name, and reads the call
      back; what is no object with the key `tool_call` is ordinary text. */
  lemma ParserInvertsEnvelope(decoded: Option<Json>, c: ToolCall)
    ensures ParseToolCall(decoded) == Request(c) <==> decoded == Some(Envelope(c)) && Normalised(c.name)
    ensures ParseToolCall(decoded) == Ordinary <==>
            !(decoded.Some? && decoded.value.Obj? && "tool_call" in decoded.value.fields)
  {
    var inner := map["name" := Str(c.name), "arguments" := Obj(c.arguments)];
    assert inner.Keys == {"name", "arguments"};
    assert map["tool_call" := Obj(inner)].Keys == {"tool_call"};
    if ParseToolCall(decoded) == Request(c) {
      var call := decoded.value.fields["tool_call"];
      assert call.fields == inner;
      assert decoded.value.fields == map["tool_call" := Obj(inner)];
    }
  }

  /** What the registry's coroutine does. */
  datatype ToolReply = ToolRaises(message: string) | ToolReturns(success: bool, value: Json, error: Option<string>)

  datatype Payload = ToolValue(value: Json) | ToolError(message: string)

  /** `result.error or "Tool execution failed"`. */
  function ResultPayload(success: bool, value: Json, error: Option<string>): Payload {
    if success then ToolValue(value)
    else ToolError(if error.Some? && error.value != "" then error.value else "Tool execution failed")
  }

  datatype ErrorCode = EmptyQuery | GenerationFailed | MalformedToolCall | ToolExecutionError | ToolCallFailed
                     | FinalGenerationFailed | ToolLoopLimit

  datatype AgentResult =
    | Success(content: string, confidence: real, call: Option<(ToolCall, Payload)>)
    | Failed(code: ErrorCode, attempted: Option<(ToolCall, Payload)>)

  /** The steps of one execution: a model turn, or a registry call. */
  datatype Step = Turn | ToolStep(toolCall: ToolCall)

  /** What a model turn ends in: content, if any, and confidence. */
  type TurnResult = Result<(Option<string>, real), Exn>

  /** The foreign calls of the loop: JSON decoding and the registry. */
  datatype Tools = Tools(decode: string -> Option<Json>, registry: nat -> ToolReply)

  function Read(t: Tools, content: string): Reading {
    ParseToolCall(t.decode(content))
  }

  /** How one execution ends, from what its turns and its tool answer. The second turn and the tool
      count only when they are reached. */
  function Concluded(t: Tools, first: TurnResult, tool: ToolReply, second: TurnResult): Result<AgentResult, Exn> {
    match first
    case Err(e) => Err(e)
    case Ok((None, _)) => Ok(Failed(GenerationFailed, None))
    case Ok((Some(content), confidence)) =>
      match Read(t, content)
      case Ordinary => Ok(Success(content, confidence, None))
      case Malformed => Ok(Failed(MalformedToolCall, None))
      case Request(call) => Ok(AfterTool(t, call, tool, second))
  }

  function AfterTool(t: Tools, call: ToolCall, tool: ToolReply, second: TurnResult): AgentResult {
    match tool
    case ToolRaises(message) => Failed(ToolExecutionError, Some((call, ToolError(message))))
    case ToolReturns(success, value, error) =>
      var payload := ResultPayload(success, value, error);
      if !success then Failed(ToolCallFailed, Some((call, payload)))
      else match second
        case Err(_) => Failed(FinalGenerationFailed, Some((call, payload)))
        case Ok((None, _)) => Failed(FinalGenerationFailed, Some((call, payload)))
        case Ok((Some(final), confidence)) =>
          match Read(t, final)
          case Ordinary => Success(final, confidence, Some((call, payload)))
          case Malformed => Failed(MalformedToolCall, Some((call, payload)))
          case Request(_) => Failed(ToolLoopLimit, Some((call, payload)))
  }

  /** The steps such an execution takes. */
  function StepsTaken(t: Tools, first: TurnResult, tool: ToolReply): seq<Step> {
    match first
    case Ok((Some(content), _)) =>
      (match Read(t, content)
       case Request(call) =>
         if tool.ToolReturns? && tool.success then [Turn, ToolStep(call), Turn] else [Turn, ToolStep(call)]
       case _ => [Turn])
    case _ => [Turn]
  }

  /** One execution with a nonempty query. */
  function ExecuteRun(w: World, t: Tools, v: View, toolsUsed: nat, task: Task, unconfigured: string)
    : (View, Result<AgentResult, Exn>, seq<Step>)
  {
    var (v1, first) := TextRun(w, v, task, unconfigured);
    var tool := t.registry(toolsUsed);
    var (v2, second) := TextRun(w, v1, task, unconfigured);
    var steps := StepsTaken(t, first, tool);
    (if |steps| == 3 then v2 else v1, Concluded(t, first, tool, second), steps)
  }

  class ToolWorker {
    const tools: Tools
    const model: Worker
    var toolsUsed: nat
    var steps: seq<Step>

    constructor (tools: Tools, model: Worker)
      ensures this.tools == tools && this.model == model && toolsUsed == 0 && steps == []
    {
      this.tools, this.model, toolsUsed, steps := tools, model, 0, [];
    }

    method RunTool(call: ToolCall) returns (reply: ToolReply)
      modifies this
      ensures reply == tools.registry(old(toolsUsed)) && toolsUsed == old(toolsUsed) + 1
      ensures steps == old(steps) + [ToolStep(call)]
    {
      reply := tools.registry(toolsUsed);
      toolsUsed := toolsUsed + 1;
      steps := steps + [ToolStep(call)];
    }

    method Generate(task: Task) returns (r: Result<(Option<string>, real), Exn>)
      modifies this, model
      ensures (model.Fields(), r) == TextRun(model.world, old(model.Fields()), task, model.unconfigured)
      ensures steps == old(steps) + [Turn] && toolsUsed == old(toolsUsed)
    {
      steps := steps + [Turn];
      r := model.GenerateWithRouting(task);
    }

    method Execute(query: string, task: Task) returns (r: Result<AgentResult, Exn>)
      modifies this, model
      ensures Blank(query) ==>
                r == Ok(Failed(EmptyQuery, None)) && steps == old(steps) && model.Fields() == old(model.Fields())
      ensures !Blank(query) ==>
                var (v, result, taken) :=
                  ExecuteRun(model.world, tools, old(model.Fields()), old(toolsUsed), task, model.unconfigured);
                r == result && steps == old(steps) + taken && model.Fields() == v
    {
      if forall c :: c in query ==> IsSpace(c) { return Ok(Failed(EmptyQuery, None)); }
      var first := Generate(task);
      if first.Err? { return Err(first.error); }
      var (content, confidence) := first.value;
      if content.None? { return Ok(Failed(GenerationFailed, None)); }
      match Read(tools, content.value) {
        case Malformed => r := Ok(Failed(MalformedToolCall, None));
        case Request(call) =>
          var result := ExecuteModelToolCall(task, call);
          r := Ok(result);
        case Ordinary => r := Ok(Success(content.value, confidence, None));
      }
    }

    method ExecuteModelToolCall(task: Task, call: ToolCall) returns (r: AgentResult)
      modifies this, model
      ensures var tool := tools.registry(old(toolsUsed));
              var (v, second) := TextRun(model.world, old(model.Fields()), task, model.unconfigured);
              && r == AfterTool(tools, call, tool, second)
              && if tool.ToolReturns? && tool.success
                 then steps == old(steps) + [ToolStep(call), Turn] && model.Fields() == v
                 else steps == old(steps) + [ToolStep(call)] && model.Fields() == old(model.Fields())
    {
      var reply := RunTool(call);
      if reply.ToolRaises? { return Failed(ToolExecutionError, Some((call, ToolError(reply.message)))); }
      var payload := ResultPayload(reply.success, reply.value, reply.error);
      if !reply.success { return Failed(ToolCallFailed, Some((call, payload))); }
      var second := Generate(task);
      if second.Err? { return Failed(FinalGenerationFailed, Some((call, payload))); }
      var (final, confidence) := second.value;
      if final.None? { return Failed(FinalGenerationFailed, Some((call, payload))); }
      match Read(tools, final.value) {
        case Malformed => r := Failed(MalformedToolCall, Some((call, payload)));
        case Request(_) => r := Failed(ToolLoopLimit, Some((call, payload)));
        case Ordinary => r := Success(final.value, confidence, Some((call, payload)));
      }
    }
  }

  function CountTurns(steps: seq<Step>): nat {
    if steps == [] then 0 else (if steps[0].Turn? then 1 else 0) + CountTurns(steps[1..])
  }

  /** Every run takes at most two model turns and at most one registry call, between the turns; and
      the model turns call out at most twice each. */
  lemma LoopIsBounded(w: World, t: Tools, v: View, toolsUsed: nat, task: Task, unconfigured: string)
    ensures var (v', r, steps) := ExecuteRun(w, t, v, toolsUsed, task, unconfigured);
            && 1 <= CountTurns(steps) <= 2 && |steps| - CountTurns(steps) <= 1
            && steps[0] == Turn && (|steps| == 3 ==> steps[2] == Turn)
            && v.trace <= v'.trace && |v'.trace| <= |v.trace| + 2 * CountTurns(steps)
  {
    TurnIsBounded(w, v, task, unconfigured);
    TurnIsBounded(w, TextRun(w, v, task, unconfigured).0, task, unconfigured);
    var steps := ExecuteRun(w, t, v, toolsUsed, task, unconfigured).2;
    TurnsCounted(if |steps| > 1 then steps[1].toolCall else ToolCall("", map[]));
  }

  lemma TurnsCounted(call: ToolCall)
    ensures CountTurns([Turn]) == 1 && CountTurns([Turn, ToolStep(call)]) == 1
    ensures CountTurns([Turn, ToolStep(call), Turn]) == 2
  {
    assert [Turn][1..] == [] && [ToolStep(call)][1..] == [];
    assert [Turn, ToolStep(call)][1..] == [ToolStep(call)];
    assert [Turn, ToolStep(call), Turn][1..] == [ToolStep(call), Turn] && [ToolStep(call), Turn][1..] == [Turn];
  }

  lemma TurnIsBounded(w: World, v: View, task: Task, unconfigured: string)
    ensures var v' := TextRun(w, v, task, unconfigured).0;
            v.trace <= v'.trace && |v'.trace| <= |v.trace| + 2
  {
  }

  /** A successful result never hands out a tool-call envelope as its answer, and the tool result it
      reports was a success of a call that the model asked for in the envelope. */
  lemma SuccessIsAnAnswer(w: World, t: Tools, v: View, toolsUsed: nat, task: Task, unconfigured: string)
    ensures var (v', r, steps) := ExecuteRun(w, t, v, toolsUsed, task, unconfigured);
            r.Ok? && r.value.Success? ==>
              && Read(t, r.value.content) == Ordinary
              && (r.value.call.None? <==> steps == [Turn])
              && (r.value.call.Some? ==>
                    var (call, payload) := r.value.call.value;
                    && steps == [Turn, ToolStep(call), Turn] && Normalised(call.name)
                    && t.registry(toolsUsed).ToolReturns? && t.registry(toolsUsed).success
                    && payload == ToolValue(t.registry(toolsUsed).value))
  {
    var first := TextRun(w, v, task, unconfigured).1;
    if first.Ok? && first.value.0.Some? && Read(t, first.value.0.value).Request? {
      ParserInvertsEnvelope(t.decode(first.value.0.value), Read(t, first.value.0.value).toolCall);
    }
  }

  /** A failure never reports a tool call that was not made, and reports every one that was. */
  lemma FailureReportsItsCall(w: World, t: Tools, v: View, toolsUsed: nat, task: Task, unconfigured: string)
    ensures var (v', r, steps) := ExecuteRun(w, t, v, toolsUsed, task, unconfigured);
            r.Ok? && r.value.Failed? ==>
              if |steps| == 1 then r.value.attempted == None
              else r.value.attempted.Some? && steps[1] == ToolStep(r.value.attempted.value.0)
                   && (|steps| == 3 <==> r.value.attempted.value.1.ToolValue?)
  {
  }

  /** A whole execution under a plan calls nothing but the plan's provider and model, once or twice; and
      without the plan's router it calls nothing at all. */
  lemma PlanExecutionStaysOnPlan(w: World, t: Tools, v: View, toolsUsed: nat, task: Task, unconfigured: string)
    requires PlanBacked(Some(task))
    ensures var v' := ExecuteRun(w, t, v, toolsUsed, task, unconfigured).0;
            && v.trace <= v'.trace && |NewCalls(v, v')| <= 2 && v'.hasGemini == v.hasGemini
            && (NewCalls(v, v') != [] ==> task.policy.value.primary.Some?)
            && forall c :: c in NewCalls(v, v') ==> OnPlan(task, c)
  {
    var v1 := TextRun(w, v, task, unconfigured).0;
    PlanTurn(w, v, task, unconfigured);
    PlanTurn(w, v1, task, unconfigured);
    var v2 := TextRun(w, v1, task, unconfigured).0;
    assert NewCalls(v, v2) == NewCalls(v, v1) + NewCalls(v1, v2);
  }

  /** A call of a text generation to what the task's plan names. */
  predicate OnPlan(task: Task, c: Call) {
    && PlanBacked(Some(task)) && task.policy.value.primary.Some?
    && var (provider, model) := task.policy.value.primary.value;
       c == ToRouter(provider, Some(model), 2000, TaskTier(task))
  }

  lemma PlanTurn(w: World, v: View, task: Task, unconfigured: string)
    requires PlanBacked(Some(task))
    ensures var v' := TextRun(w, v, task, unconfigured).0;
            && v.trace <= v'.trace && |NewCalls(v, v')| <= 1 && v'.hasGemini == v.hasGemini
            && forall c :: c in NewCalls(v, v') ==> OnPlan(task, c)
  {
    PlanRouteFailsClosed(w, v, Some(task));
    if SelectedRoute(w, v, Some(task)).1.Ok? {
      PlanTextIsNeverSubstituted(w, v, task, task.policy.value.primary.value.0, unconfigured);
    }
  }
}
