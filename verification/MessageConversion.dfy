/**
 Chat messages and Responses items: core/schemas/mux.go, ToResponsesMessages and ToChatMessages.

 One chat message expands to a reasoning item and then either one item per tool call or one plain
 item; going back, reasoning and tool calls are buffered and put together again.  Random item IDs,
 annotations, cache control and the index of a reasoning detail (its position) are not modelled;
 the image, file or audio part of a block is one abstract value.
 */
module MessageConversion {
  import opened Wrappers

  // ----- Chat messages -----

  datatype Role = Assistant | User | System | Developer | Tool | OtherRole

  /** Hollow is content that is present but holds neither a string nor blocks. */
  datatype Content<B> = Absent | Hollow | Str(s: string) | Blocks(blocks: seq<B>)

  datatype Block = Block(kind: string, text: Option<string>, media: Option<nat>)

  datatype Detail =
    | TextDetail(text: Option<string>, signature: Option<string>)
    | SummaryDetail(summary: Option<string>)
    | EncryptedDetail(data: Option<string>)
    | OtherDetail

  datatype ToolCall = ToolCall(id: Option<string>, name: Option<string>, args: string)

  datatype AssistantPart = AssistantPart(calls: seq<ToolCall>, refusal: Option<string>, reasoning: Option<string>, details: seq<Detail>)

  /** toolCallID is Some(None) for a tool part without an ID. */
  datatype Msg = Msg(role: Role, content: Content<Block>, assistant: Option<AssistantPart>, toolCallID: Option<Option<string>>)

  const NO_PART := AssistantPart([], None, None, [])

  // ----- Responses items -----

  datatype RBlock = RBlock(kind: string, text: Option<string>, media: Option<nat>, refusal: Option<string>, signature: Option<string>)

  datatype Type = MessageType | RefusalType | CallType | OutputType | ReasoningType | OtherType(name: string)

  datatype Output = OutStr(s: string) | OutBlocks(blocks: seq<RBlock>) | OutOther

  datatype ToolPart = ToolPart(callID: Option<string>, name: Option<string>, args: Option<string>, output: Option<Output>)

  datatype Thoughts = Thoughts(summaries: seq<string>, encrypted: Option<string>)

  datatype Item = Item(typ: Option<Type>, role: Option<Role>, content: Content<RBlock>, tool: Option<ToolPart>, thoughts: Option<Thoughts>)

  function NonEmpty(s: Option<string>): Option<string> {
    if s.Some? && s.value != "" then s else None
  }

  // ----- ToResponsesMessages -----

  const REASONING := "reasoning_text"

  function TextBlocks(ds: seq<Detail>): seq<RBlock> {
    if ds == [] then []
    else
      var d := ds[|ds| - 1];
      TextBlocks(ds[..|ds| - 1])
      + if d.TextDetail? && NonEmpty(d.text).Some? then [RBlock(REASONING, d.text, None, None, d.signature)] else []
  }

  function Summaries(ds: seq<Detail>): seq<string> {
    if ds == [] then []
    else
      var d := ds[|ds| - 1];
      Summaries(ds[..|ds| - 1]) + if d.SummaryDetail? && d.summary.Some? then [d.summary.value] else []
  }

  /** Only the last encrypted detail is kept. */
  function Encrypted(ds: seq<Detail>): Option<string> {
    if ds == [] then None
    else
      var d := ds[|ds| - 1];
      if d.EncryptedDetail? && d.data.Some? then d.data else Encrypted(ds[..|ds| - 1])
  }

  function ReasoningItem(texts: seq<RBlock>, summaries: seq<string>, encrypted: Option<string>): Item {
    Item(Some(ReasoningType), Some(Assistant), if texts != [] then Blocks(texts) else Absent, None,
         if summaries != [] || encrypted.Some? then Some(Thoughts(summaries, encrypted)) else None)
  }

  function ReasoningItems(m: Msg): seq<Item> {
    if m.role != Assistant || m.assistant.None? then []
    else
      var a := m.assistant.value;
      if a.details != [] then
        if TextBlocks(a.details) == [] && Summaries(a.details) == [] && Encrypted(a.details).None? then []
        else [ReasoningItem(TextBlocks(a.details), Summaries(a.details), Encrypted(a.details))]
      else if NonEmpty(a.reasoning).Some? then [ReasoningItem([RBlock(REASONING, a.reasoning, None, None, None)], [], None)]
      else []
  }

  predicate HasCalls(m: Msg) {
    m.assistant.Some? && m.assistant.value.calls != []
  }

  function CallItem(c: ToolCall): Item {
    Item(Some(CallType), Some(Assistant), Absent,
         Some(ToolPart(NonEmpty(c.id), NonEmpty(c.name), if c.args != "" then Some(c.args) else None, None)), None)
  }

  function CallItems(calls: seq<ToolCall>): (items: seq<Item>)
    ensures |items| == |calls|
  {
    seq(|calls|, i requires 0 <= i < |calls| => CallItem(calls[i]))
  }

  function KindOut(role: Role, kind: string): string {
    if kind == "text" then if role == Assistant then "output_text" else "input_text"
    else if kind == "image_url" then "input_image"
    else if kind == "file" then "input_file"
    else kind
  }

  predicate IsRefusal(m: Msg) {
    m.role == Assistant && m.assistant.Some? && m.assistant.value.refusal.Some?
  }

  function PlainContent(m: Msg): Content<RBlock> {
    if IsRefusal(m) then Blocks([RBlock("refusal", None, None, m.assistant.value.refusal, None)])
    else if m.role == Tool then Absent
    else
      match m.content
      case Str(s) => if m.role == Assistant then Blocks([RBlock("output_text", Some(s), None, None, None)]) else Str(s)
      case Blocks(bs) =>
        Blocks(seq(|bs|, i requires 0 <= i < |bs| => RBlock(KindOut(m.role, bs[i].kind), bs[i].text, bs[i].media, None, None)))
      case _ => Absent
  }

  function ToolOutput(c: Content<Block>): Option<Output> {
    match c
    case Str(s) => if s != "" then Some(OutStr(s)) else None
    case Blocks(bs) =>
      if bs == [] then None
      else Some(OutBlocks(seq(|bs|, i requires 0 <= i < |bs| => RBlock(bs[i].kind, bs[i].text, bs[i].media, None, None))))
    case _ => None
  }

  function PlainItem(m: Msg): Item {
    var typ := if IsRefusal(m) then RefusalType else if m.role == Tool then OutputType else MessageType;
    var role := if m.role == Tool then None else if m.role == OtherRole then Some(User) else Some(m.role);
    var tool :=
      if m.toolCallID.None? then None
      else Some(ToolPart(m.toolCallID.value, None, None, if m.role == Tool then ToolOutput(m.content) else None));
    Item(Some(typ), role, PlainContent(m), tool, None)
  }

  function ToResponses(m: Msg): seq<Item> {
    ReasoningItems(m) + if HasCalls(m) then CallItems(m.assistant.value.calls) else [PlainItem(m)]
  }

  function AllToResponses(ms: seq<Msg>): seq<Item> {
    if ms == [] then [] else AllToResponses(ms[..|ms| - 1]) + ToResponses(ms[|ms| - 1])
  }

  // ----- ToChatMessages -----

  /** The chat messages made so far, and what waits for the next assistant message. */
  datatype Buffers = Buffers(out: seq<Msg>, calls: seq<ToolCall>, text: string, details: seq<Detail>)

  const START := Buffers([], [], "", [])

  predicate IsType(i: Item, t: Type) {
    i.typ == Some(t)
  }

  function JoinText(before: string, more: string): string {
    if before == "" then more else before + "\n" + more
  }

  function BufferTexts(b: Buffers, blocks: seq<RBlock>): Buffers
    decreases |blocks|
  {
    if blocks == [] then b
    else
      var r := blocks[0];
      if r.kind == REASONING && r.text.Some?
      then BufferTexts(b.(text := JoinText(b.text, r.text.value), details := b.details + [TextDetail(r.text, r.signature)]), blocks[1..])
      else BufferTexts(b, blocks[1..])
  }

  function ThoughtDetails(t: Thoughts): seq<Detail> {
    seq(|t.summaries|, i requires 0 <= i < |t.summaries| => SummaryDetail(Some(t.summaries[i])))
    + if t.encrypted.Some? then [EncryptedDetail(t.encrypted)] else []
  }

  function BufferReasoning(b: Buffers, i: Item): Buffers {
    var b1 := if i.content.Blocks? then BufferTexts(b, i.content.blocks) else b;
    if i.thoughts.Some? then b1.(details := b1.details + ThoughtDetails(i.thoughts.value)) else b1
  }

  function BufferCall(b: Buffers, i: Item): Buffers {
    if i.tool.None? then b
    else
      b.(calls := b.calls + [ToolCall(i.tool.value.callID, i.tool.value.name, if i.tool.value.args.Some? then i.tool.value.args.value else "")])
  }

  /** attachPendingReasoning */
  function Attach(a: AssistantPart, b: Buffers): AssistantPart {
    a.(reasoning := if a.reasoning.None? && b.text != "" then Some(b.text) else a.reasoning, details := a.details + b.details)
  }

  function Flush(b: Buffers): Buffers {
    if b.calls == [] then b
    else Buffers(b.out + [Msg(Assistant, Absent, Some(Attach(NO_PART.(calls := b.calls), b)), None)], [], "", [])
  }

  function KindIn(kind: string): string {
    if kind == "input_text" then "text"
    else if kind == "input_image" then "image_url"
    else if kind == "input_file" then "file"
    else kind
  }

  function FirstRefusal(blocks: seq<RBlock>): Option<string>
    decreases |blocks|
  {
    if blocks == [] then None
    else if blocks[0].kind == "refusal" && blocks[0].refusal.Some? then blocks[0].refusal
    else FirstRefusal(blocks[1..])
  }

  /** The content of an item, a tool output put in its place when there is none. */
  function ItemContent(i: Item): Content<RBlock> {
    if IsType(i, OutputType) && i.tool.Some? && i.tool.value.callID.Some? && i.tool.value.output.Some?
       && (i.content.Absent? || i.content.Hollow?) then
      match i.tool.value.output.value
      case OutStr(s) => Str(s)
      case OutBlocks(bs) => Blocks(bs)
      case OutOther => Hollow
    else i.content
  }

  predicate SoleText(bs: seq<RBlock>) {
    |bs| == 1 && (bs[0].kind == "input_text" || bs[0].kind == "output_text")
  }

  function ContentIn(c: Content<RBlock>): Content<Block> {
    match c
    case Str(s) => Str(s)
    case Blocks(bs) =>
      if SoleText(bs) then if bs[0].text.Some? then Str(bs[0].text.value) else Hollow
      else Blocks(seq(|bs|, i requires 0 <= i < |bs| => Block(KindIn(bs[i].kind), bs[i].text, bs[i].media)))
    case _ => Absent
  }

  /** One message for an item that is neither reasoning nor a tool call. */
  function Convert(i: Item): Msg {
    var role :=
      if IsType(i, OutputType) then Tool
      else if i.role.Some? && i.role.value != Tool then i.role.value
      else OtherRole;
    var toolCallID := if IsType(i, OutputType) && i.tool.Some? && i.tool.value.callID.Some? then Some(i.tool.value.callID) else None;
    var assistant :=
      if !IsType(i, RefusalType) then None
      else
        Some(NO_PART.(refusal := match i.content
                                 case Blocks(bs) => FirstRefusal(bs)
                                 case Str(s) => Some(s)
                                 case _ => None));
    Msg(role, if IsType(i, RefusalType) then Absent else ContentIn(ItemContent(i)), assistant, toolCallID)
  }

  function AttachTo(m: Msg, b: Buffers): Msg {
    if m.role != Assistant || (b.text == "" && b.details == []) then m
    else m.(assistant := Some(Attach(if m.assistant.Some? then m.assistant.value else NO_PART, b)))
  }

  /** An assistant message takes the buffered reasoning; others leave it. */
  function Append(b: Buffers, m: Msg): Buffers {
    if m.role != Assistant then b.(out := b.out + [m]) else Buffers(b.out + [AttachTo(m, b)], b.calls, "", [])
  }

  function Step(b: Buffers, i: Item): Buffers {
    if IsType(i, ReasoningType) then BufferReasoning(b, i)
    else if IsType(i, CallType) then BufferCall(b, i)
    else Append(Flush(b), Convert(i))
  }

  function Run(b: Buffers, items: seq<Item>): Buffers {
    if items == [] then b else Step(Run(b, items[..|items| - 1]), items[|items| - 1])
  }

  function ToChat(items: seq<Item>): seq<Msg> {
    Flush(Run(START, items)).out
  }

  method ToChatMessages(items: seq<Item>) returns (chatMessages: seq<Msg>)
    ensures chatMessages == ToChat(items)
  {
    chatMessages := [];
    if |items| == 0 {
      return;
    }
    var currentToolCalls: seq<ToolCall> := [];
    var pendingReasoning := "";
    var pendingDetails: seq<Detail> := [];
    for k := 0 to |items|
      invariant Buffers(chatMessages, currentToolCalls, pendingReasoning, pendingDetails) == Run(START, items[..k])
    {
      assert items[..k + 1][..k] == items[..k];
      hide Convert, BufferTexts, Run;
      var i := items[k];
      ghost var b := Buffers(chatMessages, currentToolCalls, pendingReasoning, pendingDetails);
      RunOne(items, k);
      if IsType(i, ReasoningType) {
        var b' := BufferReasoning(Buffers(chatMessages, currentToolCalls, pendingReasoning, pendingDetails), i);
        ReasoningKeepsRest(b, i);
        pendingReasoning, pendingDetails := b'.text, b'.details;
        continue;
      }
      if IsType(i, CallType) {
        if i.tool.Some? {
          var part := i.tool.value;
          currentToolCalls := currentToolCalls + [ToolCall(part.callID, part.name, if part.args.Some? then part.args.value else "")];
        }
        continue;
      }
      if |currentToolCalls| > 0 {
        var part := Attach(NO_PART.(calls := currentToolCalls), Buffers(chatMessages, currentToolCalls, pendingReasoning, pendingDetails));
        chatMessages := chatMessages + [Msg(Assistant, Absent, Some(part), None)];
        currentToolCalls, pendingReasoning, pendingDetails := [], "", [];
      }
      var m := Convert(i);
      if m.role == Assistant && (pendingReasoning != "" || pendingDetails != []) {
        var part := if m.assistant.Some? then m.assistant.value else NO_PART;
        m := m.(assistant := Some(Attach(part, Buffers(chatMessages, currentToolCalls, pendingReasoning, pendingDetails))));
        pendingReasoning, pendingDetails := "", [];
      }
      chatMessages := chatMessages + [m];
    }
    assert items[..|items|] == items;
    if |currentToolCalls| > 0 {
      var part := Attach(NO_PART.(calls := currentToolCalls), Buffers(chatMessages, currentToolCalls, pendingReasoning, pendingDetails));
      chatMessages := chatMessages + [Msg(Assistant, Absent, Some(part), None)];
    }
  }

  lemma RunOne(items: seq<Item>, k: nat)
    requires k < |items|
    ensures Run(START, items[..k + 1]) == Step(Run(START, items[..k]), items[k])
  {
    assert items[..k + 1][..k] == items[..k];
  }

  lemma {:induction false} TextsKeepRest(b: Buffers, blocks: seq<RBlock>)
    ensures BufferTexts(b, blocks).out == b.out && BufferTexts(b, blocks).calls == b.calls
    decreases |blocks|
  {
    if blocks != [] {
      var r := blocks[0];
      if r.kind == REASONING && r.text.Some? {
        TextsKeepRest(b.(text := JoinText(b.text, r.text.value), details := b.details + [TextDetail(r.text, r.signature)]), blocks[1..]);
      } else {
        TextsKeepRest(b, blocks[1..]);
      }
    }
  }

  lemma ReasoningKeepsRest(b: Buffers, i: Item)
    ensures BufferReasoning(b, i).out == b.out && BufferReasoning(b, i).calls == b.calls
  {
    if i.content.Blocks? { TextsKeepRest(b, i.content.blocks); }
  }

  // ----- What every conversion back keeps -----

  function CallsOf(m: Msg): seq<ToolCall> {
    if m.assistant.Some? then m.assistant.value.calls else []
  }

  /** All tool calls of the messages, in order. */
  function FlatCalls(ms: seq<Msg>): seq<ToolCall> {
    if ms == [] then [] else FlatCalls(ms[..|ms| - 1]) + CallsOf(ms[|ms| - 1])
  }

  /** The tool calls of the items that carry a tool part, in order. */
  function ItemCalls(items: seq<Item>): seq<ToolCall> {
    if items == [] then []
    else
      var i := items[|items| - 1];
      ItemCalls(items[..|items| - 1])
      + if IsType(i, CallType) && i.tool.Some?
        then [ToolCall(i.tool.value.callID, i.tool.value.name, if i.tool.value.args.Some? then i.tool.value.args.value else "")]
        else []
  }

  lemma FlatAppend(ms: seq<Msg>, m: Msg)
    ensures FlatCalls(ms + [m]) == FlatCalls(ms) + CallsOf(m)
  {
    assert (ms + [m])[..|ms|] == ms;
  }

  lemma FlushCalls(b: Buffers)
    ensures FlatCalls(Flush(b).out) + Flush(b).calls == FlatCalls(b.out) + b.calls && Flush(b).calls == []
  {
    if b.calls != [] { FlatAppend(b.out, Msg(Assistant, Absent, Some(Attach(NO_PART.(calls := b.calls), b)), None)); }
  }

  lemma StepCalls(b: Buffers, i: Item)
    ensures FlatCalls(Step(b, i).out) + Step(b, i).calls == FlatCalls(b.out) + b.calls + ItemCalls([i])
  {
    assert [i][..0] == [];
    if IsType(i, ReasoningType) {
      ReasoningKeepsRest(b, i);
    } else if IsPlain(i) {
      FlushCalls(b);
      FlatAppend(Flush(b).out, AttachTo(Convert(i), Flush(b)));
      FlatAppend(Flush(b).out, Convert(i));
    }
  }

  lemma {:induction false} RunCalls(items: seq<Item>)
    ensures FlatCalls(Run(START, items).out) + Run(START, items).calls == ItemCalls(items)
  {
    if items != [] {
      var n := |items| - 1;
      RunCalls(items[..n]);
      StepCalls(Run(START, items[..n]), items[n]);
      assert [items[n]][..0] == [];
      assert ItemCalls(items) == ItemCalls(items[..n]) + ItemCalls([items[n]]);
      hide Step, FlatCalls, ItemCalls;
    }
  }

  /** Converting back keeps every function call that carries a tool part, in order. */
  lemma CallsKept(items: seq<Item>)
    ensures FlatCalls(ToChat(items)) == ItemCalls(items)
  {
    RunCalls(items);
    FlushCalls(Run(START, items));
  }

  predicate IsPlain(i: Item) {
    !IsType(i, ReasoningType) && !IsType(i, CallType)
  }

  /** A message but for reasoning: nothing but a refusal is left of the assistant part. */
  function Core(m: Msg): Msg {
    m.(assistant := if m.assistant.Some? && m.assistant.value.refusal.Some?
                    then Some(NO_PART.(refusal := m.assistant.value.refusal)) else None)
  }

  /** The messages that are not put together from tool calls. */
  function Plain(ms: seq<Msg>): seq<Msg> {
    if ms == [] then []
    else Plain(ms[..|ms| - 1]) + if HasCalls(ms[|ms| - 1]) then [] else [Core(ms[|ms| - 1])]
  }

  function PlainItems(items: seq<Item>): seq<Msg> {
    if items == [] then []
    else PlainItems(items[..|items| - 1]) + if IsPlain(items[|items| - 1]) then [Core(Convert(items[|items| - 1]))] else []
  }

  lemma PlainAppend(ms: seq<Msg>, m: Msg)
    ensures Plain(ms + [m]) == Plain(ms) + if HasCalls(m) then [] else [Core(m)]
  {
    assert (ms + [m])[..|ms|] == ms;
  }

  lemma FlushPlain(b: Buffers)
    ensures Plain(Flush(b).out) == Plain(b.out)
  {
    if b.calls != [] { PlainAppend(b.out, Msg(Assistant, Absent, Some(Attach(NO_PART.(calls := b.calls), b)), None)); }
  }

  lemma {:induction false} RunPlain(items: seq<Item>)
    ensures Plain(Run(START, items).out) == PlainItems(items)
  {
    if items != [] {
      var n := |items| - 1;
      RunPlain(items[..n]);
      var b, i := Run(START, items[..n]), items[n];
      if IsType(i, ReasoningType) {
        ReasoningKeepsRest(b, i);
      } else if !IsType(i, CallType) {
        FlushPlain(b);
        var m := AttachTo(Convert(i), Flush(b));
        PlainAppend(Flush(b).out, m);
        assert Core(m) == Core(Convert(i)) && !HasCalls(m);
      }
    }
  }

  /** Converting back makes exactly one message of each item that is neither reasoning nor a
      function call, in order, and every other message is put together from function calls. */
  lemma OneMessageEach(items: seq<Item>)
    ensures Plain(ToChat(items)) == PlainItems(items)
  {
    RunPlain(items);
    FlushPlain(Run(START, items));
  }
}
