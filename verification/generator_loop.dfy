/** `generate_response` written the way the source writes it: a mutable
    message log, a bounded `for` loop over the rounds with an early
    break, and an inner loop over the response's blocks. It computes
    exactly the run that `Generator.Generate` defines. */
module GeneratorLoop {

  import opened Wrappers
  import opened Content
  import opened Conversation
  import opened Generator

  /** The inner loop of a round: dispatch every tool_use block in content
      order and collect its result; other blocks are skipped. */
  method DispatchTools(content: seq<Block>, dispatch: Dispatcher) returns (results: seq<ToolResult>, used: seq<Block>)
    ensures results == ToolResultsFor(content, dispatch)
    ensures used == ToolUses(content)
  {
    results, used := [], [];
    var i := 0;
    while i < |content|
      invariant 0 <= i <= |content|
      invariant results == ToolResultsFor(content[..i], dispatch)
      invariant used == ToolUses(content[..i])
    {
      var block := content[i];
      assert content[..i + 1] == content[..i] + [block];
      ToolResultsAppend(content[..i], [block], dispatch);
      ToolUsesAppend(content[..i], [block]);
      if block.ToolUse? {
        results := results + [ToolResult(block.id, dispatch(block.name, block.input))];
        used := used + [block];
      }
      i := i + 1;
    }
    assert content[..i] == content;
  }

  /** The body of one round: log the assistant's tool-use turn, dispatch
      its tool_use blocks, then log their results as one user turn. */
  method TakeRound(response: Response, dispatch: Dispatcher, log: seq<Message>)
    returns (log': seq<Message>, used: seq<Block>)
    ensures log' == log + RoundMessages(response, dispatch)
    ensures used == ToolUses(response.content)
  {
    log' := log + [Message(Assistant, Blocks(response.content))];
    var results;
    results, used := DispatchTools(response.content, dispatch);
    log' := log' + [Message(User, Results(results))];
  }

  /** The round loop. Every call is recorded with the log as it stood. */
  method GenerateResponse(prompt: string, req: Request, provider: Provider) returns (r: Run)
    ensures r == Generate(prompt, req, provider)
  {
    var system := SystemContent(prompt, req.history);
    var messages := [Message(User, Query(req.query))];
    var calls := [Call(system, messages, Offer(req.tools))];
    var response := provider(calls[0]);
    var dispatched: seq<Block> := [];
    var round: nat := 0;
    while round < MaxToolRounds
      invariant round <= MaxToolRounds
      invariant |calls| == round + 1 && response == provider(calls[round])
      invariant Trace(prompt, req, provider, round, messages, calls, dispatched)
      invariant Rounds(prompt, req, provider, round, messages, calls, dispatched) == Generate(prompt, req, provider)
    {
      if !RequestsTool(response) || req.manager.None? {
        break;
      }
      StepKeepsTrace(prompt, req, provider, round, messages, calls, dispatched);
      var used;
      messages, used := TakeRound(response, req.manager.value, messages);
      var next := Call(system, messages, if round < MaxToolRounds - 1 then Offer(req.tools) else None);
      calls := calls + [next];
      dispatched := dispatched + used;
      response := provider(next);
      round := round + 1;
    }
    r := Run(ExtractText(response.content), calls, messages, dispatched, round);
  }
}
