/** Content blocks of a model response and the two per-response steps of
    the tool loop in backend/ai_generator.py: choosing the answer text
    (`_extract_text`) and turning every tool_use block into one tool
    result through the tool manager. */
module Content {

  import opened Wrappers

  /** A value inside a tool_use block's input object (the keyword
      arguments handed to the tool manager). */
  datatype ArgValue = StrArg(s: string) | IntArg(i: int)

  type ToolInput = map<string, ArgValue>

  /** The two block types the generator distinguishes: `text` and `tool_use`. */
  datatype Block =
    | Text(text: string)
    | ToolUse(id: string, name: string, input: ToolInput)

  /** The stop reason with which the provider asks for tools to be run. */
  const ToolUseReason: string := "tool_use"

  /** One provider response: its stop reason and its ordered content. */
  datatype Response = Response(stopReason: string, content: seq<Block>)

  predicate RequestsTool(r: Response) {
    r.stopReason == ToolUseReason
  }

  /** A `tool_result` entry of the user message that answers a tool round. */
  datatype ToolResult = ToolResult(toolUseId: string, content: string)

  /** The tool manager's `execute_tool(name, **input)`: whatever string it
      returns, an error message included, is the tool's result. */
  type Dispatcher = (string, ToolInput) -> string

  /** What `_extract_text` finds in a response: the text of the first text
      block; failing that, the first block (the source then reads that
      block's `text`); failing that, nothing, where the source raises. */
  datatype Extraction = Found(text: string) | FirstBlock(block: Block) | NoContent

  /** Block `i` is the first text block of `content`. */
  ghost predicate FirstTextAt(content: seq<Block>, i: int) {
    && 0 <= i < |content|
    && content[i].Text?
    && forall j :: 0 <= j < i ==> !content[j].Text?
  }

  /** The in-order scan of `_extract_text` for a text block. */
  function FirstText(content: seq<Block>): (r: Option<string>)
    ensures r.Some? ==> exists i :: FirstTextAt(content, i) && content[i].text == r.value
    ensures r.None? ==> forall i :: 0 <= i < |content| ==> !content[i].Text?
  {
    if |content| == 0 then None
    else if content[0].Text? then Some(content[0].text)
    else
      FirstText(content[1..])
  }

  /** `_extract_text`: the first text block's text, else the first block,
      else nothing. */
  function ExtractText(content: seq<Block>): (r: Extraction)
    ensures r.Found? <==> exists i :: 0 <= i < |content| && content[i].Text?
    ensures r.Found? ==> exists i :: FirstTextAt(content, i) && content[i].text == r.text
    ensures r.FirstBlock? ==> 0 < |content| && r.block == content[0] && r.block.ToolUse?
    ensures r.NoContent? <==> |content| == 0
  {
    match FirstText(content)
    case Some(t) => Found(t)
    case None => if |content| > 0 then FirstBlock(content[0]) else NoContent
  }

  /** The tool_use blocks of `content`, in content order. */
  function ToolUses(content: seq<Block>): (r: seq<Block>)
    ensures forall i :: 0 <= i < |r| ==> r[i].ToolUse?
    ensures |r| <= |content|
  {
    if |content| == 0 then []
    else if content[0].ToolUse? then [content[0]] + ToolUses(content[1..])
    else ToolUses(content[1..])
  }

  /** The selected blocks are exactly the tool_use blocks of the content. */
  lemma {:induction false} ToolUsesMembers(content: seq<Block>)
    ensures forall b :: b in ToolUses(content) <==> b in content && b.ToolUse?
  {
    if |content| > 0 {
      ToolUsesMembers(content[1..]);
      assert content == [content[0]] + content[1..];
    }
  }

  /** The result entry for one tool_use block: its id, and the dispatcher's
      string verbatim. */
  function ResultFor(b: Block, dispatch: Dispatcher): ToolResult
    requires b.ToolUse?
  {
    ToolResult(b.id, dispatch(b.name, b.input))
  }

  /** The inner loop of a tool round: walk the content in order and
      collect a result for every tool_use block, skipping the others. */
  function ToolResultsFor(content: seq<Block>, dispatch: Dispatcher): (r: seq<ToolResult>)
    ensures var uses := ToolUses(content);
      && |r| == |uses|
      && forall k :: 0 <= k < |r| ==> r[k] == ResultFor(uses[k], dispatch)
  {
    if |content| == 0 then []
    else
      var rest := ToolResultsFor(content[1..], dispatch);
      if content[0].ToolUse? then
        assert ToolUses(content) == [content[0]] + ToolUses(content[1..]);
        [ResultFor(content[0], dispatch)] + rest
      else
        rest
  }

  /** Filtering tool_use blocks commutes with concatenation: the order of
      the blocks is kept and nothing from one part leaks into the other. */
  lemma {:induction false} ToolUsesAppend(a: seq<Block>, b: seq<Block>)
    ensures ToolUses(a + b) == ToolUses(a) + ToolUses(b)
  {
    if |a| == 0 {
      assert a + b == b;
    } else {
      assert (a + b)[1..] == a[1..] + b;
      ToolUsesAppend(a[1..], b);
    }
  }

  /** Collecting results block by block yields the results of the parts,
      one after the other. */
  lemma {:induction false} ToolResultsAppend(a: seq<Block>, b: seq<Block>, dispatch: Dispatcher)
    ensures ToolResultsFor(a + b, dispatch) == ToolResultsFor(a, dispatch) + ToolResultsFor(b, dispatch)
  {
    if |a| == 0 {
      assert a + b == b;
    } else {
      assert (a + b)[1..] == a[1..] + b;
      ToolResultsAppend(a[1..], b, dispatch);
    }
  }

  /** A response without tool_use blocks produces no result entries, and
      one made only of tool_use blocks produces one entry per block. */
  lemma ToolResultsCount(content: seq<Block>, dispatch: Dispatcher)
    ensures (forall i :: 0 <= i < |content| ==> content[i].Text?) ==> ToolResultsFor(content, dispatch) == []
    ensures (forall i :: 0 <= i < |content| ==> content[i].ToolUse?) ==> |ToolResultsFor(content, dispatch)| == |content|
  {
  }

  /** Content made only of tool_use blocks is selected whole, in order. */
  lemma {:induction false} AllToolUses(content: seq<Block>)
    requires forall i :: 0 <= i < |content| ==> content[i].ToolUse?
    ensures ToolUses(content) == content
  {
    if |content| > 0 {
      AllToolUses(content[1..]);
    }
  }
}
