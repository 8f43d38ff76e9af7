/** The message log and call records of one `generate_response` run, and
    the two pieces of call configuration fixed for the whole run: the
    system context and the tool offer. */
module Conversation {

  import opened Wrappers
  import opened Content

  datatype Role = User | Assistant

  /** A message's content: the user's query, an assistant turn's blocks
      (kept exactly as the provider returned them), or a user turn made
      of tool results. */
  datatype MessageContent =
    | Query(text: string)
    | Blocks(blocks: seq<Block>)
    | Results(results: seq<ToolResult>)

  datatype Message = Message(role: Role, content: MessageContent)

  /** A tool definition, passed to the provider unchanged; nothing here
      inspects it. */
  datatype ToolSchema = ToolSchema(name: string, definition: string)

  /** The source sets `tool_choice` to `{"type": "auto"}` whenever it
      offers tools, and never to anything else. */
  datatype ToolChoice = Auto

  datatype ToolOffer = ToolOffer(tools: seq<ToolSchema>, choice: ToolChoice)

  /** What one `messages.create` call is given, with the log recorded as
      the value it had at the time of the call. */
  datatype Call = Call(system: string, messages: seq<Message>, offer: Option<ToolOffer>)

  /** The provider seen as an oracle from a call to its response. */
  type Provider = Call -> Response

  /** The delimiter placed between the policy prompt and the history. */
  const HistoryHeader: string := "\n\nPrevious conversation:\n"

  /** Python truthiness of `conversation_history`: present and non-empty. */
  predicate HasHistory(history: Option<string>) {
    history.Some? && |history.value| > 0
  }

  /** The history the context actually carries: empty history counts as none. */
  function UsedHistory(history: Option<string>): Option<string> {
    if HasHistory(history) then history else None
  }

  /** The system context of every call: the prompt alone, or the prompt,
      the delimiter and the history. */
  function SystemContent(prompt: string, history: Option<string>): (r: string)
    ensures prompt <= r
    ensures HasHistory(history) <==> |r| > |prompt|
    ensures HasHistory(history) ==>
      && |r| == |prompt| + |HistoryHeader| + |history.value|
      && r[|prompt|..|prompt| + |HistoryHeader|] == HistoryHeader
      && r[|prompt| + |HistoryHeader|..] == history.value
  {
    if HasHistory(history) then prompt + HistoryHeader + history.value else prompt
  }

  /** Reads the history back out of a system context built over `prompt`. */
  function RecoverHistory(prompt: string, context: string): Option<string> {
    var n := |prompt| + |HistoryHeader|;
    if n < |context| && context[..n] == prompt + HistoryHeader then Some(context[n..]) else None
  }

  /** The context determines the history it was built from: building and
      then reading back gives the history used, and nothing when there
      was none or it was empty. */
  lemma SystemContentRoundTrip(prompt: string, history: Option<string>)
    ensures RecoverHistory(prompt, SystemContent(prompt, history)) == UsedHistory(history)
  {
  }

  /** Two runs over the same prompt share a system context exactly when
      they use the same history. */
  lemma SystemContentInjective(prompt: string, h1: Option<string>, h2: Option<string>)
    ensures SystemContent(prompt, h1) == SystemContent(prompt, h2) <==> UsedHistory(h1) == UsedHistory(h2)
  {
  }

  /** Python truthiness of `tools`: tools are offered, with automatic
      choice, exactly when the list is present and non-empty. */
  function Offer(tools: Option<seq<ToolSchema>>): Option<ToolOffer> {
    if tools.Some? && |tools.value| > 0 then Some(ToolOffer(tools.value, Auto)) else None
  }
}
