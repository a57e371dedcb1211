/**
 Chat messages taken to Responses items and back: message by message, what comes back, and exactly
 when coming back a second time changes nothing.
 */
module ConversionRoundTrip {
  import opened Wrappers
  import opened MessageConversion

  lemma {:induction false} RunConcat(b: Buffers, xs: seq<Item>, ys: seq<Item>)
    ensures Run(b, xs + ys) == Run(Run(b, xs), ys)
  {
    if ys == [] {
      assert xs + ys == xs;
    } else {
      assert (xs + ys)[..|xs + ys| - 1] == xs + ys[..|ys| - 1];
      RunConcat(b, xs, ys[..|ys| - 1]);
    }
  }

  lemma RunSingle(b: Buffers, i: Item)
    ensures Run(b, [i]) == Step(b, i)
  {
    assert [i][..0] == [];
  }

  // ----- Reasoning is never lost but at the end -----

  function AllDetails(ms: seq<Msg>): seq<Detail> {
    if ms == [] then []
    else
      var m := ms[|ms| - 1];
      AllDetails(ms[..|ms| - 1]) + if m.assistant.Some? then m.assistant.value.details else []
  }

  function ItemDetails(items: seq<Item>): seq<Detail> {
    if items == [] then []
    else
      var i := items[|items| - 1];
      ItemDetails(items[..|items| - 1]) + if IsType(i, ReasoningType) then BufferReasoning(START, i).details else []
  }

  /** What is buffered does not depend on what was there before. */
  lemma {:induction false} TextsDetails(b: Buffers, blocks: seq<RBlock>)
    ensures BufferTexts(b, blocks).details == b.details + BufferTexts(START, blocks).details
    ensures b.text == "" ==> BufferTexts(b, blocks).text == BufferTexts(START, blocks).text
    decreases |blocks|
  {
    if blocks != [] {
      var r := blocks[0];
      if r.kind == REASONING && r.text.Some? {
        var d := TextDetail(r.text, r.signature);
        var b1 := b.(text := JoinText(b.text, r.text.value), details := b.details + [d]);
        var s1 := START.(text := JoinText("", r.text.value), details := [] + [d]);
        TextsDetails(b1, blocks[1..]);
        TextsDetails(s1, blocks[1..]);
        TextsText(b1, s1, blocks[1..]);
      } else {
        TextsDetails(b, blocks[1..]);
      }
    }
  }

  lemma {:induction false} TextsText(b: Buffers, c: Buffers, blocks: seq<RBlock>)
    ensures b.text == c.text ==> BufferTexts(b, blocks).text == BufferTexts(c, blocks).text
    decreases |blocks|
  {
    if blocks != [] {
      var r := blocks[0];
      if r.kind == REASONING && r.text.Some? {
        TextsText(b.(text := JoinText(b.text, r.text.value), details := b.details + [TextDetail(r.text, r.signature)]),
                  c.(text := JoinText(c.text, r.text.value), details := c.details + [TextDetail(r.text, r.signature)]), blocks[1..]);
      } else {
        TextsText(b, c, blocks[1..]);
      }
    }
  }

  lemma ReasoningDetails(b: Buffers, i: Item)
    ensures BufferReasoning(b, i).details == b.details + BufferReasoning(START, i).details
    ensures b.text == "" ==> BufferReasoning(b, i).text == BufferReasoning(START, i).text
  {
    if i.content.Blocks? { TextsDetails(b, i.content.blocks); }
  }

  lemma DetailsAppend(ms: seq<Msg>, m: Msg)
    ensures AllDetails(ms + [m]) == AllDetails(ms) + if m.assistant.Some? then m.assistant.value.details else []
  {
    assert (ms + [m])[..|ms|] == ms;
  }

  lemma FlushDetails(b: Buffers)
    ensures AllDetails(Flush(b).out) + Flush(b).details == AllDetails(b.out) + b.details
  {
    if b.calls != [] { DetailsAppend(b.out, Msg(Assistant, Absent, Some(Attach(NO_PART.(calls := b.calls), b)), None)); }
  }

  lemma AppendDetails(b: Buffers, i: Item)
    ensures AllDetails(Append(b, Convert(i)).out) + Append(b, Convert(i)).details == AllDetails(b.out) + b.details
  {
    var m := Convert(i);
    if m.role != Assistant { DetailsAppend(b.out, m); } else { DetailsAppend(b.out, AttachTo(m, b)); }
  }

  lemma {:induction false} RunDetails(items: seq<Item>)
    ensures AllDetails(Run(START, items).out) + Run(START, items).details == ItemDetails(items)
  {
    if items != [] {
      var n := |items| - 1;
      RunDetails(items[..n]);
      var b, i := Run(START, items[..n]), items[n];
      if IsType(i, ReasoningType) {
        ReasoningKeepsRest(b, i);
        ReasoningDetails(b, i);
      } else if !IsType(i, CallType) {
        FlushDetails(b);
        AppendDetails(Flush(b), i);
      }
    }
  }

  /** Converting back attaches the reasoning of all items, in order, to assistant messages; only
      reasoning that no assistant message follows is dropped. */
  lemma ReasoningKept(items: seq<Item>)
    ensures AllDetails(ToChat(items)) + Flush(Run(START, items)).details == ItemDetails(items)
  {
    RunDetails(items);
    FlushDetails(Run(START, items));
  }

  // ----- One message there and back -----

  /** The reasoning of a message, as buffered on the way back. */
  function Thought(m: Msg): Buffers {
    Run(START, ReasoningItems(m))
  }

  function NormCall(c: ToolCall): ToolCall {
    ToolCall(NonEmpty(c.id), NonEmpty(c.name), c.args)
  }

  function NormCalls(calls: seq<ToolCall>): (ns: seq<ToolCall>)
    ensures |ns| == |calls|
  {
    seq(|calls|, i requires 0 <= i < |calls| => NormCall(calls[i]))
  }

  /** What a message is after going there and back. */
  function Norm(m: Msg): Msg {
    if HasCalls(m) then Msg(Assistant, Absent, Some(Attach(NO_PART.(calls := NormCalls(m.assistant.value.calls)), Thought(m))), None)
    else AttachTo(Convert(PlainItem(m)), Thought(m))
  }

  function NormAll(ms: seq<Msg>): (ns: seq<Msg>)
    ensures |ns| == |ms|
    ensures forall i :: 0 <= i < |ms| ==> ns[i] == Norm(ms[i])
  {
    if ms == [] then [] else NormAll(ms[..|ms| - 1]) + [Norm(ms[|ms| - 1])]
  }

  lemma {:induction false} RunCallItems(b: Buffers, calls: seq<ToolCall>)
    ensures Run(b, CallItems(calls)) == b.(calls := b.calls + NormCalls(calls))
  {
    if calls != [] {
      var n := |calls| - 1;
      RunCallItems(b, calls[..n]);
      assert CallItems(calls)[..n] == CallItems(calls[..n]);
      assert NormCalls(calls) == NormCalls(calls[..n]) + [NormCall(calls[n])];
    } else {
      assert NormCalls(calls) == [];
    }
  }

  lemma ThoughtShape(m: Msg)
    ensures |ReasoningItems(m)| <= 1
    ensures ReasoningItems(m) == [] ==> Thought(m) == START
    ensures ReasoningItems(m) != [] ==> IsType(ReasoningItems(m)[0], ReasoningType) && Thought(m) == BufferReasoning(START, ReasoningItems(m)[0])
  {
    if ReasoningItems(m) != [] {
      assert ReasoningItems(m) == [ReasoningItems(m)[0]];
      RunSingle(START, ReasoningItems(m)[0]);
    }
  }

  lemma ThoughtFrom(m: Msg, out: seq<Msg>)
    ensures Run(START.(out := out), ReasoningItems(m)) == Thought(m).(out := out) && Thought(m).calls == [] && Thought(m).out == []
  {
    ThoughtShape(m);
    if ReasoningItems(m) != [] {
      var i := ReasoningItems(m)[0];
      assert ReasoningItems(m) == [i];
      RunSingle(START.(out := out), i);
      ReasoningDetails(START.(out := out), i);
      ReasoningKeepsRest(START.(out := out), i);
      ReasoningKeepsRest(START, i);
    }
  }

  /** Whom reasoning is for, and who follows whom. */
  predicate IsAssistant(m: Msg) {
    m.role == Assistant || HasCalls(m)
  }

  /** Every turn with tool calls is followed by a turn that is not the assistant's. */
  predicate Separate(ms: seq<Msg>) {
    forall i :: 0 <= i < |ms| - 1 && HasCalls(ms[i]) ==> !IsAssistant(ms[i + 1])
  }

  lemma ConvertRole(m: Msg)
    requires !HasCalls(m)
    ensures Convert(PlainItem(m)).role == if m.role == OtherRole then User else m.role
    ensures IsPlain(PlainItem(m))
  {
  }

  /** Back from the items of one message, behind messages already made. */
  lemma RunMessage(m: Msg, out: seq<Msg>)
    ensures
      var b := Run(START.(out := out), ToResponses(m));
      if HasCalls(m) then b.calls != [] && Flush(b) == START.(out := out + [Norm(m)]) else b == START.(out := out + [Norm(m)])
  {
    var b0 := START.(out := out);
    ThoughtFrom(m, out);
    var b1 := Run(b0, ReasoningItems(m));
    if HasCalls(m) {
      RunConcat(b0, ReasoningItems(m), CallItems(m.assistant.value.calls));
      RunCallItems(b1, m.assistant.value.calls);
      assert [] + NormCalls(m.assistant.value.calls) == NormCalls(m.assistant.value.calls);
    } else {
      RunConcat(b0, ReasoningItems(m), [PlainItem(m)]);
      RunSingle(b1, PlainItem(m));
      ConvertRole(m);
      ThoughtShape(m);
    }
  }

  /** A message that is not the assistant's, behind tool calls still buffered. */
  lemma RunBehindCalls(b: Buffers, m: Msg, out: seq<Msg>)
    requires Flush(b) == START.(out := out) && !IsAssistant(m)
    ensures Run(b, ToResponses(m)) == START.(out := out + [Norm(m)])
  {
    assert ToResponses(m) == [PlainItem(m)];
    RunSingle(b, PlainItem(m));
    ConvertRole(m);
    ThoughtShape(m);
  }

  lemma RunNext(b: Buffers, m: Msg, out: seq<Msg>, behindCalls: bool)
    requires Flush(b) == START.(out := out)
    requires if behindCalls then !IsAssistant(m) else b == START.(out := out)
    ensures
      var b' := Run(b, ToResponses(m));
      Flush(b') == START.(out := out + [Norm(m)]) && (!HasCalls(m) ==> b' == START.(out := out + [Norm(m)]))
  {
    if behindCalls { RunBehindCalls(b, m, out); } else { RunMessage(m, out); }
    hide ToResponses, Norm, Run;
  }

  lemma AllAppend(ms: seq<Msg>, n: nat)
    requires |ms| == n + 1
    ensures Run(START, AllToResponses(ms)) == Run(Run(START, AllToResponses(ms[..n])), ToResponses(ms[n]))
    ensures NormAll(ms) == NormAll(ms[..n]) + [Norm(ms[n])]
  {
    hide ToResponses, Norm, Run;
    RunConcat(START, AllToResponses(ms[..n]), ToResponses(ms[n]));
  }

  lemma {:induction false} RunAll(ms: seq<Msg>)
    requires Separate(ms)
    ensures
      var b := Run(START, AllToResponses(ms));
      && Flush(b) == START.(out := NormAll(ms))
      && (ms == [] || !HasCalls(ms[|ms| - 1]) ==> b == START.(out := NormAll(ms)))
  {
    if ms == [] {
      assert NormAll(ms) == [];
    } else {
      var n := |ms| - 1;
      var behindCalls := n > 0 && HasCalls(ms[n - 1]);
      assert behindCalls ==> !IsAssistant(ms[n - 1 + 1]);
      assert Separate(ms[..n]);
      RunAll(ms[..n]);
      AllAppend(ms, n);
      hide AllToResponses, ToResponses, Norm, NormAll, Flush, Separate, Run, HasCalls, IsAssistant;
      RunNext(Run(START, AllToResponses(ms[..n])), ms[n], NormAll(ms[..n]), behindCalls);
    }
  }

  /** There and back works message by message when turns with tool calls stand apart. */
  lemma MessageByMessage(ms: seq<Msg>)
    requires Separate(ms)
    ensures ToChat(AllToResponses(ms)) == NormAll(ms)
  {
    RunAll(ms);
  }

  // ----- There and back again -----

  lemma {:induction false} TextBlocksForm(ds: seq<Detail>)
    ensures forall i :: 0 <= i < |TextBlocks(ds)| ==> IsTextBlock(TextBlocks(ds)[i])
  {
    if ds != [] { TextBlocksForm(ds[..|ds| - 1]); }
  }

  predicate IsTextBlock(r: RBlock) {
    r.kind == REASONING && NonEmpty(r.text).Some? && r.media.None? && r.refusal.None?
  }

  function BlockDetails(texts: seq<RBlock>): (ds: seq<Detail>)
    ensures |ds| == |texts|
  {
    seq(|texts|, i requires 0 <= i < |texts| => TextDetail(texts[i].text, texts[i].signature))
  }

  lemma {:induction false} BufferedTexts(texts: seq<RBlock>)
    requires forall i :: 0 <= i < |texts| ==> IsTextBlock(texts[i])
    ensures BufferTexts(START, texts).details == BlockDetails(texts)
    decreases |texts|
  {
    if texts != [] {
      var d := TextDetail(texts[0].text, texts[0].signature);
      var s1 := START.(text := JoinText("", texts[0].text.value), details := [] + [d]);
      TextsDetails(s1, texts[1..]);
      BufferedTexts(texts[1..]);
      assert BlockDetails(texts) == [d] + BlockDetails(texts[1..]);
    }
  }

  lemma {:induction false} TextBlocksConcat(xs: seq<Detail>, ys: seq<Detail>)
    ensures TextBlocks(xs + ys) == TextBlocks(xs) + TextBlocks(ys)
    ensures Summaries(xs + ys) == Summaries(xs) + Summaries(ys)
    ensures Encrypted(xs + ys) == if Encrypted(ys).Some? then Encrypted(ys) else Encrypted(xs)
  {
    if ys == [] {
      assert xs + ys == xs;
    } else {
      assert (xs + ys)[..|xs + ys| - 1] == xs + ys[..|ys| - 1];
      TextBlocksConcat(xs, ys[..|ys| - 1]);
    }
  }

  lemma {:induction false} OfBlockDetails(texts: seq<RBlock>)
    requires forall i :: 0 <= i < |texts| ==> IsTextBlock(texts[i])
    ensures TextBlocks(BlockDetails(texts)) == texts && Summaries(BlockDetails(texts)) == [] && Encrypted(BlockDetails(texts)) == None
  {
    if texts != [] {
      var n := |texts| - 1;
      OfBlockDetails(texts[..n]);
      assert BlockDetails(texts)[..n] == BlockDetails(texts[..n]);
      assert texts == texts[..n] + [texts[n]];
    }
  }

  function SummaryDetails(ss: seq<string>): (ds: seq<Detail>)
    ensures |ds| == |ss|
  {
    seq(|ss|, i requires 0 <= i < |ss| => SummaryDetail(Some(ss[i])))
  }

  lemma {:induction false} OfSummaryDetails(ss: seq<string>)
    ensures TextBlocks(SummaryDetails(ss)) == [] && Summaries(SummaryDetails(ss)) == ss && Encrypted(SummaryDetails(ss)) == None
  {
    if ss != [] {
      var n := |ss| - 1;
      OfSummaryDetails(ss[..n]);
      assert SummaryDetails(ss)[..n] == SummaryDetails(ss[..n]);
      assert ss == ss[..n] + [ss[n]];
    }
  }

  function CodeDetails(e: Option<string>): seq<Detail> {
    if e.Some? then [EncryptedDetail(e)] else []
  }

  lemma OfCodeDetails(e: Option<string>)
    ensures TextBlocks(CodeDetails(e)) == [] && Summaries(CodeDetails(e)) == [] && Encrypted(CodeDetails(e)) == e
  {
    if e.Some? { assert CodeDetails(e)[..0] == []; }
  }

  lemma OfParts(texts: seq<RBlock>, summaries: seq<string>, encrypted: Option<string>)
    requires forall i :: 0 <= i < |texts| ==> IsTextBlock(texts[i])
    ensures
      var ds := BlockDetails(texts) + SummaryDetails(summaries) + CodeDetails(encrypted);
      TextBlocks(ds) == texts && Summaries(ds) == summaries && Encrypted(ds) == encrypted
  {
    OfBlockDetails(texts);
    OfSummaryDetails(summaries);
    OfCodeDetails(encrypted);
    var t, s, e := BlockDetails(texts), SummaryDetails(summaries), CodeDetails(encrypted);
    hide TextBlocks, Summaries, Encrypted, BlockDetails, SummaryDetails, CodeDetails;
    TextBlocksConcat(t, s);
    TextBlocksConcat(t + s, e);
  }

  /** What is buffered from a reasoning item gives the same item again. */
  lemma BufferedItem(texts: seq<RBlock>, summaries: seq<string>, encrypted: Option<string>)
    requires forall i :: 0 <= i < |texts| ==> IsTextBlock(texts[i])
    ensures
      var ds := BufferReasoning(START, ReasoningItem(texts, summaries, encrypted)).details;
      && ds == BlockDetails(texts) + SummaryDetails(summaries) + CodeDetails(encrypted)
      && TextBlocks(ds) == texts && Summaries(ds) == summaries && Encrypted(ds) == encrypted
  {
    BufferedTexts(texts);
    OfParts(texts, summaries, encrypted);
    var t, s, e := BlockDetails(texts), SummaryDetails(summaries), CodeDetails(encrypted);
    assert ThoughtDetails(Thoughts(summaries, encrypted)) == s + e;
    hide TextBlocks, Summaries, Encrypted, BufferTexts;
    assert t + (s + e) == t + s + e;
  }

  /** The parts of a message's reasoning item. */
  function TextsOf(m: Msg): seq<RBlock> {
    if m.role != Assistant || m.assistant.None? then []
    else
      var a := m.assistant.value;
      if a.details != [] then TextBlocks(a.details)
      else if NonEmpty(a.reasoning).Some? then [RBlock(REASONING, a.reasoning, None, None, None)] else []
  }

  function DetailsOf(m: Msg): seq<Detail> {
    if m.role != Assistant || m.assistant.None? then [] else m.assistant.value.details
  }

  lemma ItemsByParts(m: Msg)
    ensures
      var t, s, e := TextsOf(m), Summaries(DetailsOf(m)), Encrypted(DetailsOf(m));
      && (forall i :: 0 <= i < |t| ==> IsTextBlock(t[i]))
      && ReasoningItems(m) == if t == [] && s == [] && e.None? then [] else [ReasoningItem(t, s, e)]
  {
    TextBlocksForm(DetailsOf(m));
  }

  /** An assistant message that carries the thought of m thinks the same. */
  lemma ThinksSame(m: Msg, part: AssistantPart)
    requires m.role == Assistant && part.reasoning.None? && part.details == []
    ensures ReasoningItems(m.(assistant := Some(Attach(part, Thought(m))))) == ReasoningItems(m)
  {
    ItemsByParts(m);
    ThoughtShape(m);
    var t, s, e := TextsOf(m), Summaries(DetailsOf(m)), Encrypted(DetailsOf(m));
    if ReasoningItems(m) != [] {
      BufferedItem(t, s, e);
      var ds := Thought(m).details;
      assert part.details + ds == ds;
    }
  }

  lemma NoThought(m: Msg)
    requires m.role != Assistant || m.assistant.None? || (m.assistant.value.details == [] && m.assistant.value.reasoning.None?)
    ensures ReasoningItems(m) == [] && Thought(m) == START
  {
    ThoughtShape(m);
  }

  lemma NormCallsTwice(calls: seq<ToolCall>)
    ensures NormCalls(NormCalls(calls)) == NormCalls(calls)
  {
  }

  lemma NormCallsMessage(m: Msg)
    requires HasCalls(m)
    ensures Norm(Norm(m)) == Norm(m) && HasCalls(Norm(m))
  {
    NormCallsTwice(m.assistant.value.calls);
    var part := NO_PART.(calls := NormCalls(m.assistant.value.calls));
    if m.role == Assistant {
      ThinksSame(m, part);
      SameItems(m.(assistant := Some(Attach(part, Thought(m)))), Norm(m));
    } else {
      NoThought(m);
      NoThought(Norm(m));
    }
  }

  lemma SameItems(m: Msg, n: Msg)
    requires m.role == n.role && m.assistant == n.assistant
    ensures ReasoningItems(m) == ReasoningItems(n) && Thought(m) == Thought(n)
  {
  }

  // ----- Plain messages -----

  predicate IsTextKind(role: Role, kind: string) {
    kind == "input_text" || kind == "output_text" || (kind == "text" && role != Tool)
  }

  /** The content survives a second trip: a sole text block carries text (in a tool message, some
      text), and no other block of an assistant calls itself input text. */
  predicate Carries(m: Msg) {
    || HasCalls(m) || IsRefusal(m) || !m.content.Blocks?
    || (m.role == Tool && !(m.toolCallID.Some? && m.toolCallID.value.Some?))
    || (var bs := m.content.blocks;
        if |bs| == 1 && IsTextKind(m.role, bs[0].kind) then bs[0].text.Some? && (m.role == Tool ==> bs[0].text.value != "")
        else m.role == Assistant ==> forall i :: 0 <= i < |bs| ==> bs[i].kind != "input_text")
  }

  function Kind(role: Role, kind: string): string {
    KindIn(if role == Tool then kind else KindOut(role, kind))
  }

  /** The blocks of a message after going there and back, when they stay blocks. */
  function NormBlocks(role: Role, bs: seq<Block>): (ns: seq<Block>)
    ensures |ns| == |bs|
  {
    seq(|bs|, i requires 0 <= i < |bs| => Block(Kind(role, bs[i].kind), bs[i].text, bs[i].media))
  }

  /** The content that comes back. */
  function NormContent(role: Role, c: Content<Block>): Content<Block> {
    match c
    case Str(s) => if role == Tool && s == "" then Absent else c
    case Blocks(bs) =>
      if |bs| == 1 && IsTextKind(role, bs[0].kind) then if bs[0].text.Some? then Str(bs[0].text.value) else Hollow
      else if role == Tool && bs == [] then Absent
      else Blocks(NormBlocks(role, bs))
    case _ => Absent
  }

  /** A plain message that comes back, its reasoning aside. */
  lemma PlainBack(m: Msg)
    requires !HasCalls(m)
    ensures
      var x := Convert(PlainItem(m));
      && x.role == (if m.role == OtherRole then User else m.role)
      && x.assistant == (if IsRefusal(m) then Some(NO_PART.(refusal := m.assistant.value.refusal)) else None)
      && x.toolCallID == (if m.role == Tool && m.toolCallID.Some? && m.toolCallID.value.Some? then m.toolCallID else None)
      && x.content == if IsRefusal(m) || (m.role == Tool && x.toolCallID.None?) then Absent else NormContent(m.role, m.content)
  {
    if m.content.Blocks? && !IsRefusal(m) { BlocksBack(m); }
  }

  lemma BlocksBack(m: Msg)
    requires m.content.Blocks? && !IsRefusal(m)
    ensures m.role != Tool ==> ContentIn(PlainContent(m)) == NormContent(m.role, m.content)
    ensures m.role == Tool ==>
              var out := ToolOutput(m.content);
              NormContent(Tool, m.content) == if out.None? then Absent else ContentIn(Blocks(out.value.blocks))
  {
    var bs := m.content.blocks;
    if m.role != Tool {
      var rs := PlainContent(m).blocks;
      assert |rs| == |bs|;
      if !SoleText(rs) { assert ContentIn(PlainContent(m)).blocks == NormBlocks(m.role, bs); }
    } else if bs != [] {
      var rs := ToolOutput(m.content).value.blocks;
      if !SoleText(rs) { assert ContentIn(Blocks(rs)).blocks == NormBlocks(m.role, bs); }
    }
  }

  lemma KindTwice(role: Role, kind: string)
    ensures Kind(role, Kind(role, kind)) == Kind(role, kind) <==> !(role == Assistant && kind == "input_text")
  {
  }

  lemma ContentTwice(role: Role, c: Content<Block>)
    requires role != OtherRole
    ensures NormContent(role, NormContent(role, c)) == NormContent(role, c) <==>
              (c.Blocks? ==>
                 var bs := c.blocks;
                 if |bs| == 1 && IsTextKind(role, bs[0].kind) then bs[0].text.Some? && (role == Tool ==> bs[0].text.value != "")
                 else role == Assistant ==> forall i :: 0 <= i < |bs| ==> bs[i].kind != "input_text")
  {
    if c.Blocks? && !(|c.blocks| == 1 && IsTextKind(role, c.blocks[0].kind)) && !(role == Tool && c.blocks == []) {
      var ns := NormBlocks(role, c.blocks);
      var nns := NormBlocks(role, ns);
      forall i | 0 <= i < |ns| ensures nns[i] == ns[i] <==> !(role == Assistant && c.blocks[i].kind == "input_text") {
        KindTwice(role, c.blocks[i].kind);
      }
      assert nns == ns <==> forall i :: 0 <= i < |ns| ==> nns[i] == ns[i];
    }
  }

  lemma UserLikeOther(c: Content<Block>)
    ensures NormContent(OtherRole, c) == NormContent(User, c)
  {
    if c.Blocks? { assert NormBlocks(OtherRole, c.blocks) == NormBlocks(User, c.blocks); }
  }

  lemma PlainTwice(m: Msg)
    requires !HasCalls(m)
    ensures
      var x := Convert(PlainItem(m));
      !HasCalls(x) && (Convert(PlainItem(x)) == x <==> Carries(m)) && Convert(PlainItem(x)).role == x.role
      && Convert(PlainItem(x)).assistant == x.assistant && Convert(PlainItem(x)).toolCallID == x.toolCallID
  {
    var x := Convert(PlainItem(m));
    PlainBack(m);
    PlainBack(x);
    UserLikeOther(m.content);
    ContentTwice(x.role, m.content);
  }

  /** Reasoning does not change what a plain message is converted to. */
  lemma AttachPlain(x: Msg, b: Buffers)
    requires !HasCalls(x)
    ensures PlainItem(AttachTo(x, b)) == PlainItem(x) && !HasCalls(AttachTo(x, b))
  {
  }

  lemma NormPlainMessage(m: Msg)
    requires !HasCalls(m)
    ensures (Norm(Norm(m)) == Norm(m) <==> Carries(m)) && !HasCalls(Norm(m))
  {
    var x := Convert(PlainItem(m));
    PlainTwice(m);
    PlainBack(m);
    AttachPlain(x, Thought(m));
    ThoughtOfNorm(m);
    var y := Convert(PlainItem(x));
    assert Norm(Norm(m)) == AttachTo(y, Thought(m)) && Norm(m) == AttachTo(x, Thought(m));
    assert y == x <==> y.content == x.content;
  }

  lemma ThoughtOfNorm(m: Msg)
    requires !HasCalls(m)
    ensures Thought(Norm(m)) == Thought(m)
  {
    PlainBack(m);
    ThoughtShape(m);
    var x := Convert(PlainItem(m));
    if m.role == Assistant && !(Thought(m).text == "" && Thought(m).details == []) {
      var part := if x.assistant.Some? then x.assistant.value else NO_PART;
      ThinksSame(m, part);
      SameItems(m.(assistant := Some(Attach(part, Thought(m)))), Norm(m));
    } else {
      NoThought(Norm(m));
      if m.role != Assistant { NoThought(m); } else { QuietThought(m); }
    }
  }

  /** A thought without text and details is none. */
  lemma QuietThought(m: Msg)
    requires Thought(m).text == "" && Thought(m).details == []
    ensures Thought(m) == START
  {
    ThoughtFrom(m, []);
  }

  /** Going there and back a second time changes nothing about a message exactly when it carries its
      content. */
  lemma NormTwice(m: Msg)
    ensures Norm(Norm(m)) == Norm(m) <==> Carries(m)
    ensures HasCalls(Norm(m)) <==> HasCalls(m)
    ensures IsAssistant(Norm(m)) <==> IsAssistant(m)
  {
    if HasCalls(m) {
      NormCallsMessage(m);
    } else {
      NormPlainMessage(m);
      PlainBack(m);
    }
  }

  lemma NormSeparate(ms: seq<Msg>)
    requires Separate(ms)
    ensures Separate(NormAll(ms))
  {
    var once := NormAll(ms);
    forall i | 0 <= i < |once| - 1 && HasCalls(once[i]) ensures !IsAssistant(once[i + 1]) {
      NormTwice(ms[i]);
      NormTwice(ms[i + 1]);
    }
  }

  lemma NormAllTwice(ms: seq<Msg>)
    ensures NormAll(NormAll(ms)) == NormAll(ms) <==> forall i :: 0 <= i < |ms| ==> Carries(ms[i])
  {
    var once := NormAll(ms);
    var twice := NormAll(once);
    forall i | 0 <= i < |ms| ensures twice[i] == once[i] <==> Carries(ms[i]) { NormTwice(ms[i]); }
    hide Norm, NormAll, Carries;
    assert twice == once <==> forall i :: 0 <= i < |once| ==> twice[i] == once[i];
  }

  /** When every turn with tool calls is followed by a turn that is not the assistant's, going there
      and back again gives the same conversation exactly when every message carries its content. */
  lemma Idempotent(ms: seq<Msg>)
    requires Separate(ms)
    ensures
      var once := ToChat(AllToResponses(ms));
      ToChat(AllToResponses(once)) == once <==> forall i :: 0 <= i < |ms| ==> Carries(ms[i])
  {
    NormSeparate(ms);
    NormAllTwice(ms);
    hide Separate, NormAll, Carries, ToChat, AllToResponses;
    MessageByMessage(ms);
    MessageByMessage(NormAll(ms));
  }
}
