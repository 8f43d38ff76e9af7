/** `AIGenerator.generate_response`: one initial provider call, then at
    most `MaxToolRounds` tool rounds, each of which logs the assistant's
    tool-use turn, dispatches every tool_use block, logs the results as
    one user turn and calls the provider again. A run is recorded as the
    calls made (each with a snapshot of the log), the final log, the
    tool_use blocks dispatched in order, and the rounds completed. */
module Generator {

  import opened Wrappers
  import opened Content
  import opened Conversation

  /** `AIGenerator.MAX_TOOL_ROUNDS`. */
  const MaxToolRounds: nat := 2

  /** The arguments of `generate_response`; `manager` is the tool manager. */
  datatype Request = Request(
    query: string,
    history: Option<string>,
    tools: Option<seq<ToolSchema>>,
    manager: Option<Dispatcher>)

  datatype Run = Run(
    answer: Extraction,
    calls: seq<Call>,
    log: seq<Message>,
    dispatched: seq<Block>,
    rounds: nat)

  /** The loop goes on after a response only if the response asks for a
      tool and a tool manager was given. */
  predicate Continues(response: Response, req: Request) {
    RequestsTool(response) && req.manager.Some?
  }

  /** The initial call: the query as the sole user message, tools offered
      if the tool list is non-empty. */
  function FirstCall(prompt: string, req: Request): Call {
    Call(SystemContent(prompt, req.history), [Message(User, Query(req.query))], Offer(req.tools))
  }

  /** The tool offer of the follow-up call made in round `round`: the
      tools again only if another round remains after this one. */
  function FollowUpOffer(round: nat, tools: Option<seq<ToolSchema>>): Option<ToolOffer> {
    if round < MaxToolRounds - 1 then Offer(tools) else None
  }

  /** The two messages a tool round appends for `response`. */
  function RoundMessages(response: Response, dispatch: Dispatcher): seq<Message> {
    [ Message(Assistant, Blocks(response.content)),
      Message(User, Results(ToolResultsFor(response.content, dispatch))) ]
  }

  /** All tool_use blocks of the responses to `calls`, call after call. */
  function DispatchedBy(provider: Provider, calls: seq<Call>): seq<Block> {
    if |calls| == 0 then []
    else DispatchedBy(provider, calls[..|calls| - 1]) + ToolUses(provider(calls[|calls| - 1]).content)
  }

  /** Round `j` was taken: the response to `call` asked for a tool with a
      manager present, `upTo` (the log through that round) ends with the
      round's two messages, and `next` is the follow-up call over `upTo`. */
  ghost predicate RoundTaken(prompt: string, req: Request, provider: Provider,
                             j: nat, call: Call, upTo: seq<Message>, next: Call)
  {
    var response := provider(call);
    && Continues(response, req)
    && |upTo| == 2 * j + 3
    && upTo[2 * j + 1..] == RoundMessages(response, req.manager.value)
    && next == Call(SystemContent(prompt, req.history), upTo, FollowUpOffer(j, req.tools))
  }

  /** Round `j` of the run recorded by `log` and `calls` was taken. */
  ghost predicate RoundAt(prompt: string, req: Request, provider: Provider,
                          j: nat, log: seq<Message>, calls: seq<Call>)
    requires j + 1 < |calls| && 2 * j + 3 <= |log|
  {
    RoundTaken(prompt, req, provider, j, calls[j], log[..2 * j + 3], calls[j + 1])
  }

  /** The state of a run after `k` completed rounds. */
  ghost predicate Trace(prompt: string, req: Request, provider: Provider,
                        k: nat, log: seq<Message>, calls: seq<Call>, dispatched: seq<Block>)
  {
    && |calls| == k + 1
    && |log| == 2 * k + 1
    && calls[0] == FirstCall(prompt, req)
    && log[..1] == calls[0].messages
    && (forall j: nat :: j < k ==> RoundAt(prompt, req, provider, j, log, calls))
    && dispatched == DispatchedBy(provider, calls[..k])
  }

  /** Taking one more round extends a trace. */
  lemma StepKeepsTrace(prompt: string, req: Request, provider: Provider,
                       k: nat, log: seq<Message>, calls: seq<Call>, dispatched: seq<Block>)
    requires Trace(prompt, req, provider, k, log, calls, dispatched)
    requires Continues(provider(calls[k]), req)
    ensures
      var response := provider(calls[k]);
      var log' := log + RoundMessages(response, req.manager.value);
      var next := Call(SystemContent(prompt, req.history), log', FollowUpOffer(k, req.tools));
      Trace(prompt, req, provider, k + 1, log', calls + [next], dispatched + ToolUses(response.content))
  {
    var response := provider(calls[k]);
    var log' := log + RoundMessages(response, req.manager.value);
    var next := Call(SystemContent(prompt, req.history), log', FollowUpOffer(k, req.tools));
    var calls' := calls + [next];
    forall j: nat | j < k + 1
      ensures RoundAt(prompt, req, provider, j, log', calls')
    {
      if j < k {
        assert RoundAt(prompt, req, provider, j, log, calls);
        assert log'[..2 * j + 3] == log[..2 * j + 3];
      } else {
        assert log'[..2 * j + 3] == log';
      }
    }
    assert calls'[..k + 1] == calls;
    assert calls[..k + 1][..k] == calls[..k];
    assert log'[..1] == log[..1];
  }

  /** The loop from round `round` on, the last call's response in hand. */
  function Rounds(prompt: string, req: Request, provider: Provider,
                  round: nat, log: seq<Message>, calls: seq<Call>, dispatched: seq<Block>): (r: Run)
    requires round <= MaxToolRounds
    requires Trace(prompt, req, provider, round, log, calls, dispatched)
    decreases MaxToolRounds - round
    ensures Trace(prompt, req, provider, r.rounds, r.log, r.calls, r.dispatched)
    ensures round <= r.rounds <= MaxToolRounds
    ensures r.rounds < MaxToolRounds ==> !Continues(provider(r.calls[r.rounds]), req)
    ensures r.answer == ExtractText(provider(r.calls[r.rounds]).content)
  {
    var response := provider(calls[round]);
    if round == MaxToolRounds || !Continues(response, req) then
      Run(ExtractText(response.content), calls, log, dispatched, round)
    else
      var log' := log + RoundMessages(response, req.manager.value);
      var next := Call(SystemContent(prompt, req.history), log', FollowUpOffer(round, req.tools));
      StepKeepsTrace(prompt, req, provider, round, log, calls, dispatched);
      Rounds(prompt, req, provider, round + 1, log', calls + [next], dispatched + ToolUses(response.content))
  }

  /** `generate_response`: the first call, then the tool loop. The answer
      is extracted from the response to the last call made, whatever its
      stop reason, and the loop stopped early only at a response that did
      not continue it. */
  function Generate(prompt: string, req: Request, provider: Provider): (r: Run)
    ensures Trace(prompt, req, provider, r.rounds, r.log, r.calls, r.dispatched)
    ensures |r.calls| == r.rounds + 1 <= MaxToolRounds + 1
    ensures r.rounds < MaxToolRounds ==> !Continues(provider(r.calls[r.rounds]), req)
    ensures r.answer == ExtractText(provider(r.calls[r.rounds]).content)
  {
    var first := FirstCall(prompt, req);
    Rounds(prompt, req, provider, 0, first.messages, [first], [])
  }
}
