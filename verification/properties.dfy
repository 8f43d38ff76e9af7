/** What a run of `generate_response` guarantees, for every provider,
    tool manager, history and tool list: the call bound, the shape of
    the message log, the pairing of tool results with tool_use blocks,
    the tools-withheld rule, and where the answer comes from. */
module GeneratorProperties {

  import opened Content
  import opened Conversation
  import opened Generator

  /** Every call, first and follow-up, carries the same system context,
      which is the bare prompt when the history is absent or empty; the
      first call sends the query alone and offers tools exactly when the
      tool list is non-empty. */
  lemma CallContext(prompt: string, req: Request, provider: Provider)
    ensures var r := Generate(prompt, req, provider);
      && (forall i :: 0 <= i < |r.calls| ==> r.calls[i].system == SystemContent(prompt, req.history))
      && (!HasHistory(req.history) ==> forall i :: 0 <= i < |r.calls| ==> r.calls[i].system == prompt)
      && r.calls[0].messages == [Message(User, Query(req.query))]
      && (r.calls[0].offer.Some? <==> req.tools.Some? && |req.tools.value| > 0)
      && (r.calls[0].offer.Some? ==> r.calls[0].offer.value == ToolOffer(req.tools.value, Auto))
  {
  }

  /** Exactly one call and no tool dispatch happen if and only if the
      first response does not ask for a tool or there is no tool manager;
      the answer is then taken from that first response. */
  lemma DirectAnswer(prompt: string, req: Request, provider: Provider)
    ensures var r := Generate(prompt, req, provider);
      var first := provider(FirstCall(prompt, req));
      && (|r.calls| == 1 <==> !Continues(first, req))
      && (!Continues(first, req) ==>
            && r.dispatched == []
            && r.log == [Message(User, Query(req.query))]
            && r.answer == ExtractText(first.content))
  {
  }

  /** After k rounds the log has 1 + 2k messages: the query, then for
      every round the assistant's tool-use turn followed by the user's
      tool results, so roles alternate starting with the user. */
  lemma LogAlternates(prompt: string, req: Request, provider: Provider)
    ensures var r := Generate(prompt, req, provider);
      && |r.log| == 1 + 2 * r.rounds
      && r.log[0] == Message(User, Query(req.query))
      && forall i :: 0 <= i < |r.log| ==> r.log[i].role == (if i % 2 == 0 then User else Assistant)
  {
  }

  /** Round j's two log entries: the response to call j, which asked for
      a tool, copied unchanged as an assistant turn, then one user turn
      with a result per tool_use block of that response, in content
      order, each with the block's id and the dispatcher's string. */
  lemma RoundEntries(prompt: string, req: Request, provider: Provider, j: nat)
    requires j < Generate(prompt, req, provider).rounds
    ensures var r := Generate(prompt, req, provider);
      var response := provider(r.calls[j]);
      var uses := ToolUses(response.content);
      && RequestsTool(response)
      && req.manager.Some?
      && r.log[2 * j + 1] == Message(Assistant, Blocks(response.content))
      && r.log[2 * j + 2].role == User
      && r.log[2 * j + 2].content.Results?
      && |r.log[2 * j + 2].content.results| == |uses|
      && forall k :: 0 <= k < |uses| ==>
           && r.log[2 * j + 2].content.results[k].toolUseId == uses[k].id
           && r.log[2 * j + 2].content.results[k].content == req.manager.value(uses[k].name, uses[k].input)
  {
  }

  /** Each call is given the log as it stood then: call j sees the first
      1 + 2j messages, so every call's log extends the previous one's. */
  lemma CallSnapshots(prompt: string, req: Request, provider: Provider)
    ensures var r := Generate(prompt, req, provider);
      forall j :: 0 <= j < |r.calls| ==> r.calls[j].messages == r.log[..2 * j + 1]
  {
  }

  /** A follow-up call offers tools if and only if another round would
      remain after it and the tool list is non-empty; so the follow-up
      of the last permitted round never offers them. */
  lemma ToolsWithheldOnLastRound(prompt: string, req: Request, provider: Provider)
    ensures var r := Generate(prompt, req, provider);
      && (forall j :: 0 < j < |r.calls| ==>
            (r.calls[j].offer.Some? <==> j < MaxToolRounds && req.tools.Some? && |req.tools.value| > 0))
      && (forall j :: 0 < j < |r.calls| && r.calls[j].offer.Some? ==>
            r.calls[j].offer.value == ToolOffer(req.tools.value, Auto))
      && (r.rounds == MaxToolRounds ==> r.calls[MaxToolRounds].offer.None?)
  {
  }

  /** The loop stops at the first response that does not continue it, or
      after MaxToolRounds rounds, and the answer is the extraction of the
      response to call rounds + 1, the last one received. */
  lemma StopsAtFirstFinalResponse(prompt: string, req: Request, provider: Provider)
    ensures var r := Generate(prompt, req, provider);
      && (forall j :: 0 <= j < r.rounds ==> Continues(provider(r.calls[j]), req))
      && (r.rounds < MaxToolRounds ==> !Continues(provider(r.calls[r.rounds]), req))
      && r.answer == ExtractText(provider(r.calls[|r.calls| - 1]).content)
  {
  }

  /** The tool results logged in the first k rounds, round after round. */
  function LoggedResults(log: seq<Message>, k: nat): seq<ToolResult>
    requires 2 * k + 1 <= |log|
  {
    if k == 0 then []
    else
      var entry := log[2 * k].content;
      LoggedResults(log, k - 1) + (if entry.Results? then entry.results else [])
  }

  /** `results` answer `uses` one to one, in order. */
  ghost predicate Answers(results: seq<ToolResult>, uses: seq<Block>, dispatch: Dispatcher) {
    && |results| == |uses|
    && forall n :: 0 <= n < |uses| ==> uses[n].ToolUse? && results[n] == ResultFor(uses[n], dispatch)
  }

  /** Answering one to one is kept by concatenation. */
  lemma AnswersConcat(r1: seq<ToolResult>, u1: seq<Block>, r2: seq<ToolResult>, u2: seq<Block>, dispatch: Dispatcher)
    requires Answers(r1, u1, dispatch) && Answers(r2, u2, dispatch)
    ensures Answers(r1 + r2, u1 + u2, dispatch)
  {
  }

  /** The first k rounds of a run: their logged results answer the blocks
      dispatched in them. */
  lemma {:induction false} RoundsAnswered(prompt: string, req: Request, provider: Provider, k: nat)
    requires req.manager.Some?
    requires k <= Generate(prompt, req, provider).rounds
    ensures var r := Generate(prompt, req, provider);
      Answers(LoggedResults(r.log, k), DispatchedBy(provider, r.calls[..k]), req.manager.value)
  {
    var r := Generate(prompt, req, provider);
    if k > 0 {
      RoundsAnswered(prompt, req, provider, k - 1);
      RoundEntries(prompt, req, provider, k - 1);
      var response := provider(r.calls[k - 1]);
      assert r.calls[..k][..k - 1] == r.calls[..k - 1];
      AnswersConcat(LoggedResults(r.log, k - 1), DispatchedBy(provider, r.calls[..k - 1]),
                    ToolResultsFor(response.content, req.manager.value), ToolUses(response.content),
                    req.manager.value);
    }
  }

  /** Over a whole run, every dispatched tool_use block has exactly one
      logged tool result, in dispatch order, carrying the block's id and
      the dispatcher's string; with no tool manager nothing is dispatched. */
  lemma DispatchesAnswered(prompt: string, req: Request, provider: Provider)
    ensures var r := Generate(prompt, req, provider);
      && (req.manager.None? ==> r.dispatched == [] && LoggedResults(r.log, r.rounds) == [])
      && (req.manager.Some? ==> Answers(LoggedResults(r.log, r.rounds), r.dispatched, req.manager.value))
  {
    var r := Generate(prompt, req, provider);
    if req.manager.Some? {
      RoundsAnswered(prompt, req, provider, r.rounds);
    } else {
      DirectAnswer(prompt, req, provider);
    }
  }

  /** A provider that answers the i-th call (recognised by its log of
      1 + 2i messages) with `script[i]`, and with `otherwise` beyond it. */
  function Scripted(script: seq<Response>, otherwise: Response): Provider {
    (c: Call) => if |c.messages| / 2 < |script| then script[|c.messages| / 2] else otherwise
  }

  /** One tool round, then a final response: two calls, one dispatch per
      tool_use block of the first response, the second call's log ending
      in those results, and the answer taken from the second response.
      With two permitted rounds the follow-up still offers the tools. */
  lemma OneToolRound(prompt: string, req: Request, a: Response, b: Response, otherwise: Response)
    requires req.manager.Some?
    requires RequestsTool(a) && !RequestsTool(b)
    ensures var r := Generate(prompt, req, Scripted([a, b], otherwise));
      && r.rounds == 1
      && |r.calls| == 2
      && r.dispatched == ToolUses(a.content)
      && r.calls[1].messages == [ Message(User, Query(req.query)),
                                  Message(Assistant, Blocks(a.content)),
                                  Message(User, Results(ToolResultsFor(a.content, req.manager.value))) ]
      && r.calls[1].offer == Offer(req.tools)
      && r.answer == ExtractText(b.content)
  {
  }

  /** Two tool-requesting responses in a row exhaust the budget: exactly
      three calls, the first two offering the tools (when there are any)
      and the third never, the tool_use blocks of both responses
      dispatched in order, and the answer taken from the third response
      even if it asks for a tool again. */
  lemma TwoToolRounds(prompt: string, req: Request, a: Response, b: Response, c: Response, otherwise: Response)
    requires req.manager.Some?
    requires RequestsTool(a) && RequestsTool(b)
    ensures var r := Generate(prompt, req, Scripted([a, b, c], otherwise));
      && r.rounds == MaxToolRounds
      && |r.calls| == 3
      && r.calls[0].offer == Offer(req.tools)
      && r.calls[1].offer == Offer(req.tools)
      && r.calls[2].offer.None?
      && r.dispatched == ToolUses(a.content) + ToolUses(b.content)
      && r.answer == ExtractText(c.content)
  {
  }
}
