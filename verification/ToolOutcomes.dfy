/** How an execution of the tool loop ends, told from what its turns and its tool answer. */
module ToolOutcomes {
  import opened Wrappers
  import opened Generation
  import opened ToolLoop

  function FirstTurn(w: World, v: View, task: Task, unconfigured: string): TurnResult {
    TextRun(w, v, task, unconfigured).1
  }

  function SecondTurn(w: World, v: View, task: Task, unconfigured: string): TurnResult {
    TextRun(w, TextRun(w, v, task, unconfigured).0, task, unconfigured).1
  }

  predicate Silent(turn: TurnResult) {
    turn.Err? || turn.value.0.None?
  }

  predicate Reads(t: Tools, turn: TurnResult, reading: Reading) {
    turn.Ok? && turn.value.0.Some? && Read(t, turn.value.0.value) == reading
  }

  /** The turn asks for a tool call. */
  predicate AsksForTool(t: Tools, turn: TurnResult) {
    turn.Ok? && turn.value.0.Some? && Read(t, turn.value.0.value).Request?
  }

  predicate Succeeds(tool: ToolReply) {
    tool.ToolReturns? && tool.success
  }

  /** The first turn asks for a tool call, and it succeeds. */
  predicate Continues(t: Tools, first: TurnResult, tool: ToolReply) {
    AsksForTool(t, first) && Succeeds(tool)
  }

  predicate FailsWith(r: Result<AgentResult, Exn>, code: ErrorCode) {
    r.Ok? && r.value.Failed? && r.value.code == code
  }

  /** A run succeeds with a content and a confidence if and only if that is what its last turn answers and it
      reads as ordinary text: the first turn, or the second after a tool call that succeeded. */
  lemma SucceedsIff(w: World, t: Tools, v: View, toolsUsed: nat, task: Task, unconfigured: string,
                    content: string, confidence: real)
    ensures var r := ExecuteRun(w, t, v, toolsUsed, task, unconfigured).1;
            var first, second := FirstTurn(w, v, task, unconfigured), SecondTurn(w, v, task, unconfigured);
            (r.Ok? && r.value.Success? && r.value.content == content && r.value.confidence == confidence)
            <==> && Read(t, content) == Ordinary
                 && (|| first == Ok((Some(content), confidence))
                     || (&& Continues(t, first, t.registry(toolsUsed))
                         && second == Ok((Some(content), confidence))))
  {
  }

  /** Each way to fail occurs if and only if its cause does. */
  lemma FailsIff(w: World, t: Tools, v: View, toolsUsed: nat, task: Task, unconfigured: string)
    ensures var r := ExecuteRun(w, t, v, toolsUsed, task, unconfigured).1;
            var first, second := FirstTurn(w, v, task, unconfigured), SecondTurn(w, v, task, unconfigured);
            var tool := t.registry(toolsUsed);
            && (r.Err? <==> first.Err?) && (r.Err? ==> r.error == first.error)
            && (FailsWith(r, GenerationFailed) <==> first.Ok? && first.value.0.None?)
            && (FailsWith(r, MalformedToolCall) <==>
                  Reads(t, first, Malformed) || (Continues(t, first, tool) && Reads(t, second, Malformed)))
            && (FailsWith(r, ToolExecutionError) <==> AsksForTool(t, first) && tool.ToolRaises?)
            && (FailsWith(r, ToolCallFailed) <==> AsksForTool(t, first) && tool.ToolReturns? && !tool.success)
            && (FailsWith(r, FinalGenerationFailed) <==> Continues(t, first, tool) && Silent(second))
            && (FailsWith(r, ToolLoopLimit) <==> Continues(t, first, tool) && AsksForTool(t, second))
            && !FailsWith(r, EmptyQuery)
  {
  }

  /** What the result reports of the tool: the call that the first turn asked for, and what came of it. */
  predicate Reports(call: Option<(ToolCall, Payload)>, t: Tools, first: TurnResult, tool: ToolReply) {
    && (call.None? <==> !AsksForTool(t, first))
    && (call.Some? ==>
          && Reads(t, first, Request(call.value.0))
          && match tool
             case ToolRaises(message) => call.value.1 == ToolError(message)
             case ToolReturns(success, value, error) =>
               if success then call.value.1 == ToolValue(value)
               else if error.Some? && error.value != "" then call.value.1 == ToolError(error.value)
               else call.value.1 == ToolError("Tool execution failed"))
  }

  /** Every result reports exactly the tool call that was made and what it answered, and the steps are the
      first turn, that call, and a second turn after its success. */
  lemma ResultReportsItsTool(w: World, t: Tools, v: View, toolsUsed: nat, task: Task, unconfigured: string)
    ensures var (v', r, steps) := ExecuteRun(w, t, v, toolsUsed, task, unconfigured);
            var first, tool := FirstTurn(w, v, task, unconfigured), t.registry(toolsUsed);
            && (r.Ok? ==> Reports(if r.value.Success? then r.value.call else r.value.attempted, t, first, tool))
            && (if AsksForTool(t, first)
                then var call := ToolStep(Read(t, first.value.0.value).toolCall);
                     steps == if Succeeds(tool) then [Turn, call, Turn] else [Turn, call]
                else steps == [Turn])
  {
  }
}
