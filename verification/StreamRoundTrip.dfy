/**
 Whole streams: what the terminal event tells, and that translating a chat stream to events and
 decoding the events gives the same message.
 */
module StreamRoundTrip {
  import opened Wrappers
  import opened StreamTranslation
  import opened StreamTheorems
  import opened StreamState

  /** All events of a stream of chunks; orders are the iteration orders of the argument buffers,
      one for each chunk. */
  ghost function Run(chunks: seq<Chunk>, orders: seq<seq<string>>): Phase
    requires |orders| == |chunks|
  {
    if chunks == [] then Phase(FRESH, [])
    else
      var n := |chunks| - 1;
      var before := Run(chunks[..n], orders[..n]);
      var step := Step(before.st, chunks[n], orders[n]);
      Phase(step.st, before.out + step.out)
  }

  function Assemble(chunks: seq<Chunk>): Message {
    Feed(NOTHING, chunks)
  }

  // ----- One step, received -----

  /** The state when the tool call of a chunk is looked at. */
  function AtTool(s: St, c: Chunk): St
    requires c.Chunk?
  {
    TextPhase(BeginPhase(s, c).st, c).st
  }

  lemma AtToolSame(s: St, c: Chunk)
    requires c.Chunk?
    ensures AtTool(s, c).calls == s.calls && AtTool(s, c).item.text == s.item.text + Text(c.content)
  {
    BeginReceived(s, c, NOTHING);
    TextReceived(BeginPhase(s, c).st, c, NOTHING);
  }

  lemma CountAfter(s: St, c: Chunk, order: seq<string>)
    requires c.Chunk?
    ensures Step(s, c, order).st.calls == ToolPhase(AtTool(s, c), c).st.calls
    ensures !GivesUp(AtTool(s, c), c) ==>
              Step(s, c, order).st.head == FinishPhase(ToolPhase(AtTool(s, c), c).st, c, order).st.head
  {
    FinishReceived(ToolPhase(AtTool(s, c), c).st, c, order, NOTHING);
  }

  /** What a client has before the finish of a chunk. */
  function Opened(s: St, c: Chunk, m: Message): Message
    requires c.Chunk?
  {
    var k := AtTool(s, c);
    var m1 := m.(text := m.text + Text(c.content));
    if GivesUp(k, c) then m1
    else
      var m2 := if c.toolCalls == [] then m1 else m1.(calls := CallsAfter(k, m1.calls, c.toolCalls[0]));
      m2.(reasoning := m2.reasoning + Text(c.reasoning), refusal := m2.refusal + Text(c.refusal))
  }

  lemma StepReceived(s: St, c: Chunk, order: seq<string>, m: Message)
    requires c.Chunk? && Tracks(s.calls, m.calls) == true && Count(Step(s, c, order).st.calls) <= UINT16
    ensures
      var tool := ToolPhase(AtTool(s, c), c).st;
      Receive(m, Step(s, c, order).out) ==
      if GivesUp(AtTool(s, c), c) || c.finish.None? then Opened(s, c, m)
      else
        Opened(s, c, m).(finish := Decode(TerminalOf(ClosingPhase(tool, Status(c.finish.value)).st, c.finish.value)).finish)
    ensures Tracks(Step(s, c, order).st.calls, Receive(m, Step(s, c, order).out).calls) == true
    ensures Step(s, c, order).st.item.text == s.item.text + Text(c.content)
  {
    var begin := BeginPhase(s, c);
    BeginReceived(s, c, m);
    var text := TextPhase(begin.st, c);
    TextReceived(begin.st, c, m);
    var m1 := m.(text := m.text + Text(c.content));
    var tool := ToolPhase(text.st, c);
    CountAfter(s, c, order);
    ToolReceived(text.st, c, m1);
    var m2 := Receive(m1, tool.out);
    ReceiveThoughts(m2, c);
    var m3 := Receive(m2, ThoughtPhase(c));
    var finish := FinishPhase(tool.st, c, order);
    FinishReceived(tool.st, c, order, m3);
    hide Tracks, BeginPhase, TextPhase, ToolPhase, ThoughtPhase, FinishPhase, Receive, CallsAfter;
    ReceiveConcat(m, begin.out, text.out);
    ReceiveConcat(m, begin.out + text.out, tool.out);
    ReceiveConcat(m, begin.out + text.out + tool.out, ThoughtPhase(c));
    ReceiveConcat(m, begin.out + text.out + tool.out + ThoughtPhase(c), finish.out);
  }

  lemma CountGrows(s: St, c: Chunk, order: seq<string>)
    ensures Count(s.calls) <= Count(Step(s, c, order).st.calls)
  {
    if c.Chunk? {
      CountAfter(s, c, order);
      AtToolSame(s, c);
      hide Step, AtTool;
      ToolCount(AtTool(s, c), c);
    }
  }

  lemma ToolCount(s: St, c: Chunk)
    requires c.Chunk?
    ensures Count(s.calls) <= Count(ToolPhase(s, c).st.calls)
  {
  }

  // ----- What is true of every stream -----

  /** After any stream of at most 65536 calls, what a client has received agrees with the state:
      its text is the text buffer, and its calls, with indices 0, 1, 2, ..., are the calls of the
      state in order of first appearance, each with the arguments buffered for it. */
  lemma {:induction false} ReceivedMatchesState(chunks: seq<Chunk>, orders: seq<seq<string>>)
    requires |orders| == |chunks| && Count(Run(chunks, orders).st.calls) <= UINT16
    ensures Tracks(Run(chunks, orders).st.calls, Receive(NOTHING, Run(chunks, orders).out).calls) == true
    ensures Receive(NOTHING, Run(chunks, orders).out).text == Run(chunks, orders).st.item.text
  {
    if chunks == [] {
      ReceiveNone(NOTHING);
      assert CallsOk(FRESH.calls);
    } else {
      var n := |chunks| - 1;
      var before := Run(chunks[..n], orders[..n]);
      CountGrows(before.st, chunks[n], orders[n]);
      ReceivedMatchesState(chunks[..n], orders[..n]);
      var m := Receive(NOTHING, before.out);
      hide Tracks, Receive;
      if chunks[n].Chunk? { StepReceived(before.st, chunks[n], orders[n], m); } else { ReceiveNone(m); }
      ReceiveConcat(NOTHING, before.out, Step(before.st, chunks[n], orders[n]).out);
    }
  }

  /** The calls of the terminal event are those the client has, in the same order. */
  ghost predicate Lists(output: seq<Output>, calls: seq<Call>, status: string) {
    && |output| == |calls|
    && forall i {:trigger output[i]} :: 0 <= i < |output| ==> ListsCall(output[i], calls[i], status)
  }

  /** An empty name is left out. */
  predicate ListsCall(o: Output, c: Call, status: string) {
    o.OutCall? && Some(o.callID) == c.id && o.args == c.args && o.status == status && o.name == if Present(c.name) then c.name else None
  }

  lemma {:induction false} OrderedCalls(k: Calls, calls: seq<Call>, n: nat)
    requires Tracks(k, calls) == true && n <= |calls|
    ensures |CallsInOrder(k.outputIndices, n)| == n
    ensures forall i :: 0 <= i < n ==> Some(CallsInOrder(k.outputIndices, n)[i]) == calls[i].id
  {
    if n > 0 {
      OrderedCalls(k, calls, n - 1);
      assert CallTracked(k, calls[n - 1], n - 1);
      assert forall id :: id in k.outputIndices && k.outputIndices[id] == n ==> Some(id) == calls[n - 1].id by {
        forall id | id in k.outputIndices && k.outputIndices[id] == n ensures Some(id) == calls[n - 1].id { assert IdTracked(k, calls, id); }
      }
    }
  }

  lemma LastIndexUnused(k: Calls, calls: seq<Call>)
    requires Tracks(k, calls) == true
    ensures CallsInOrder(k.outputIndices, k.currentIndex) == CallsInOrder(k.outputIndices, |calls|)
  {
  }

  lemma {:induction false} OutputsList(s: St, calls: seq<Call>, ids: seq<string>, status: string)
    requires Tracks(s.calls, calls) == true && |ids| <= |calls| && forall i :: 0 <= i < |ids| ==> Some(ids[i]) == calls[i].id
    ensures Lists(CallOutputs(s, ids, status), calls[..|ids|], status)
  {
    if ids != [] {
      var n := |ids| - 1;
      OutputsList(s, calls, ids[..n], status);
      assert CallTracked(s.calls, calls[n], n);
    }
  }

  lemma HasCallExactly(message: seq<Output>, outputs: seq<Output>, calls: seq<Call>, status: string)
    requires Lists(outputs, calls, status) && |message| <= 1 && (|message| == 1 ==> message[0].OutMessage?)
    ensures HasCall(message + outputs) <==> calls != []
  {
    if calls != [] { assert ListsCall(outputs[0], calls[0], status) && (message + outputs)[|message|] == outputs[0]; }
  }

  /** The output of a terminal event: the text, if there is a text item, and the calls received. */
  ghost predicate Tells(output: seq<Output>, text: string, calls: seq<Call>, status: string) {
    exists message: seq<Output>, outputs ::
      && output == message + outputs && Lists(outputs, calls, status)
      && |message| <= 1 && (text != "" ==> |message| == 1)
      && (|message| == 1 ==> message[0].OutMessage? && message[0].text == text && message[0].status == status)
  }

  /** Without a text item there has been no text. */
  predicate ItemOk(item: TextItem) {
    item.text != "" ==> item.added
  }

  lemma TerminalTells(s: St, finish: string, calls: seq<Call>)
    requires Tracks(s.calls, calls) == true && ItemOk(s.item)
    ensures Tells(TerminalOf(s, finish).output, s.item.text, calls, Status(finish))
    ensures HasCall(TerminalOf(s, finish).output) <==> calls != []
  {
    OrderedCalls(s.calls, calls, |calls|);
    LastIndexUnused(s.calls, calls);
    var ids := CallsInOrder(s.calls.outputIndices, s.calls.currentIndex);
    OutputsList(s, calls, ids, Status(finish));
    hide Tracks, CallsInOrder, CallOutputs, Lists;
    assert calls[..|ids|] == calls;
    HasCallExactly(MessageOutput(s, Status(finish)), CallOutputs(s, ids, Status(finish)), calls, Status(finish));
  }

  lemma LastBody(s: St, c: Chunk, order: seq<string>, finish: string)
    requires c.Chunk? && c.finish == Some(finish) && !GivesUp(AtTool(s, c), c)
    ensures
      var out := Step(s, c, order).out;
      out != [] && out[|out| - 1] == TerminalOf(ClosingPhase(ToolPhase(AtTool(s, c), c).st, Status(finish)).st, finish)
  {
    hide BeginPhase, TextPhase, ToolPhase, ThoughtPhase, ClosingPhase, CloseCalls, TerminalOf;
  }

  lemma AtToolItem(s: St, c: Chunk)
    requires c.Chunk? && ItemOk(s.item)
    ensures ItemOk(AtTool(s, c).item)
  {
    hide Present, Get, TextItemID;
  }

  lemma ToolItem(s: St, c: Chunk)
    requires c.Chunk?
    ensures ToolPhase(s, c).st.item.text == s.item.text && ToolPhase(s, c).st.item.added == s.item.added
  {
    hide Register, Get, CallOf;
  }

  lemma ClosingItem(s: St, status: string)
    ensures ClosingPhase(s, status).st.item.text == s.item.text && ClosingPhase(s, status).st.item.added == s.item.added
    ensures ClosingPhase(s, status).st.calls == s.calls
  {
  }

  lemma StepItem(s: St, c: Chunk, order: seq<string>)
    requires ItemOk(s.item)
    ensures ItemOk(Step(s, c, order).st.item)
    ensures c.Chunk? ==> ItemOk(ToolPhase(AtTool(s, c), c).st.item)
  {
    if c.Chunk? {
      AtToolItem(s, c);
      ToolItem(AtTool(s, c), c);
      var tool := ToolPhase(AtTool(s, c), c).st;
      if c.finish.Some? { ClosingItem(tool, Status(c.finish.value)); }
      hide BeginPhase, TextPhase, ToolPhase, ThoughtPhase, ClosingPhase, CloseCalls, TerminalOf;
    }
  }

  lemma {:induction false} RunItem(chunks: seq<Chunk>, orders: seq<seq<string>>)
    requires |orders| == |chunks|
    ensures ItemOk(Run(chunks, orders).st.item)
  {
    hide Step;
    if chunks != [] {
      var n := |chunks| - 1;
      RunItem(chunks[..n], orders[..n]);
      StepItem(Run(chunks[..n], orders[..n]).st, chunks[n], orders[n]);
    }
  }

  /** The finish a client sees: an incomplete response is a length stop, any other one with calls
      asks for tools, and the rest just stops. */
  function SeenFinish(finish: string, calls: seq<Call>): string {
    if finish == "length" then "length" else if calls != [] then "tool_calls" else "stop"
  }

  /** The last chunk of the stream finishes it and is not given up. */
  ghost predicate Finishes(chunks: seq<Chunk>, orders: seq<seq<string>>, finish: string)
    requires |orders| == |chunks|
  {
    && chunks != []
    && var n := |chunks| - 1;
    && chunks[n].Chunk? && chunks[n].finish == Some(finish)
    && !GivesUp(AtTool(Run(chunks[..n], orders[..n]).st, chunks[n]), chunks[n])
  }

  lemma TerminalFinish(s: St, finish: string)
    ensures
      var terminal := TerminalOf(s, finish);
      && terminal.Terminal? && terminal.completed == (finish != "length")
      && Decode(terminal).finish
         == Some(if finish == "length" then "length" else if HasCall(terminal.output) then "tool_calls" else "stop")
  {
  }

  lemma FinishStep(s: St, c: Chunk, order: seq<string>, finish: string, m: Message)
    requires c.Chunk? && c.finish == Some(finish) && !GivesUp(AtTool(s, c), c) && ItemOk(s.item)
    requires Tracks(s.calls, m.calls) == true && Count(Step(s, c, order).st.calls) <= UINT16 && m.text == s.item.text
    ensures
      var out := Step(s, c, order).out;
      var m' := Receive(m, out);
      && out != [] && out[|out| - 1].Terminal? && out[|out| - 1].completed == (finish != "length")
      && Tells(out[|out| - 1].output, m'.text, m'.calls, Status(finish))
      && m'.finish == Some(SeenFinish(finish, m'.calls))
  {
    StepReceived(s, c, order, m);
    LastBody(s, c, order, finish);
    StepItem(s, c, order);
    CountAfter(s, c, order);
    var tool := ToolPhase(AtTool(s, c), c).st;
    AtToolSame(s, c);
    ToolItem(AtTool(s, c), c);
    ClosingItem(tool, Status(finish));
    OpenedFields(s, c, m);
    hide Tracks, Step, AtTool, ToolPhase, ClosingPhase, Tells, Receive, CallsAfter, Opened, TerminalOf, Decode, GivesUp, HasCall;
    var last := ClosingPhase(tool, Status(finish)).st;
    TerminalTells(last, finish, Receive(m, Step(s, c, order).out).calls);
    TerminalFinish(last, finish);
  }

  /** The terminal event of a finished stream tells the whole text and, in order of first
      appearance, each call with all the arguments received for it, for every order in which the
      argument buffers were iterated. */
  lemma TerminalTellsAll(chunks: seq<Chunk>, orders: seq<seq<string>>, finish: string)
    requires |orders| == |chunks| && Finishes(chunks, orders, finish) && Count(Run(chunks, orders).st.calls) <= UINT16
    ensures
      var out := Run(chunks, orders).out;
      var m := Receive(NOTHING, out);
      && out != [] && out[|out| - 1].Terminal? && out[|out| - 1].completed == (finish != "length")
      && Tells(out[|out| - 1].output, m.text, m.calls, Status(finish))
      && m.finish == Some(SeenFinish(finish, m.calls))
  {
    var n := |chunks| - 1;
    var before := Run(chunks[..n], orders[..n]);
    CountGrows(before.st, chunks[n], orders[n]);
    ReceivedMatchesState(chunks[..n], orders[..n]);
    RunItem(chunks[..n], orders[..n]);
    hide Tracks, Step, AtTool, GivesUp, Tells, Receive, ItemOk;
    FinishStep(before.st, chunks[n], orders[n], finish, Receive(NOTHING, before.out));
    ReceiveConcat(NOTHING, before.out, Step(before.st, chunks[n], orders[n]).out);
  }

  // ----- Round trip -----

  /** The fragment continues a call without a new ID, or begins one with an ID not yet in use. */
  predicate FragmentFits(calls: seq<Call>, t: ToolDelta) {
    && t.index < UINT16
    && var p := Find(calls, t.index);
    if p == |calls| then Present(t.id) && forall i :: 0 <= i < |calls| ==> calls[i].id != t.id
    else !Present(t.id) || t.id == calls[p].id
  }

  /** It has at most one tool call, and that fits. */
  predicate Fits(m: Message, c: Chunk) {
    c.Chunk? ==> |c.toolCalls| <= 1 && (c.toolCalls != [] ==> FragmentFits(m.calls, c.toolCalls[0]))
  }

  predicate WellFormed(chunks: seq<Chunk>) {
    chunks == [] || (WellFormed(chunks[..|chunks| - 1]) && Fits(Assemble(chunks[..|chunks| - 1]), chunks[|chunks| - 1]))
  }

  /** A fragment that continues a call brings no name. */
  predicate NoLateName(calls: seq<Call>, t: ToolDelta) {
    Find(calls, t.index) < |calls| ==> t.name.None?
  }

  /** A well-formed stream in which names come with the first fragments only. */
  predicate IsTrim(chunks: seq<Chunk>) {
    chunks == [] ||
    var n := |chunks| - 1;
    var m := Assemble(chunks[..n]);
    IsTrim(chunks[..n]) && Fits(m, chunks[n]) && (chunks[n].Chunk? && chunks[n].toolCalls != [] ==> NoLateName(m.calls, chunks[n].toolCalls[0]))
  }

  /** Call a of the original stream and call d received are the same but for the index. */
  ghost predicate Mirrored(k: Calls, a: Call, d: Call) {
    && a.id == d.id && a.name == d.name && a.args == d.args
    && a.index < UINT16 && a.index in k.indexToID && Some(k.indexToID[a.index]) == a.id
  }

  ghost predicate Mirrors(k: Calls, original: seq<Call>, received: seq<Call>) {
    && |original| == |received|
    && (forall i {:trigger original[i]} :: 0 <= i < |original| ==> Mirrored(k, original[i], received[i]))
    && (forall i, j :: 0 <= i < j < |original| ==> original[i].index != original[j].index)
  }

  lemma {:induction false} IndicesBound(calls: seq<Call>)
    requires forall i :: 0 <= i < |calls| ==> calls[i].index < UINT16
    requires forall i, j :: 0 <= i < j < |calls| ==> calls[i].index != calls[j].index
    ensures |calls| <= UINT16
  {
    var used := set i | 0 <= i < |calls| :: calls[i].index;
    DistinctIndices(calls, used);
    var all := FirstIndices(UINT16);
    assert used <= all;
    assert all == used + (all - used);
  }

  lemma {:induction false} DistinctIndices(calls: seq<Call>, used: set<nat>)
    requires forall i, j :: 0 <= i < j < |calls| ==> calls[i].index != calls[j].index
    requires used == set i | 0 <= i < |calls| :: calls[i].index
    ensures |used| == |calls|
  {
    if calls != [] {
      var n := |calls| - 1;
      var rest := set i | 0 <= i < n :: calls[..n][i].index;
      DistinctIndices(calls[..n], rest);
      assert used == rest + {calls[n].index};
    }
  }

  lemma {:induction false} FirstIndices(n: nat) returns (all: set<nat>)
    ensures |all| == n && forall i: nat :: i in all <==> i < n
  {
    if n == 0 {
      all := {};
    } else {
      all := FirstIndices(n - 1);
      all := all + {n - 1};
    }
  }

  lemma UnusedId(k: Calls, a: seq<Call>, d: seq<Call>, id: string)
    requires Tracks(k, d) == true && Mirrors(k, a, d) == true && forall i :: 0 <= i < |a| ==> a[i].id != Some(id)
    ensures id !in k.outputIndices
  {
    forall i | 0 <= i < |d| ensures d[i].id != Some(id) { assert Mirrored(k, a[i], d[i]); }
    assert IdTracked(k, d, id);
  }

  lemma NewMirrors(s: St, a: seq<Call>, d: seq<Call>, t: ToolDelta)
    requires Tracks(s.calls, d) == true && Mirrors(s.calls, a, d) == true && FragmentFits(a, t) && Find(a, t.index) == |a|
    ensures IsNew(s, t) && CallOf(s.calls, t) == t.id
    ensures Mirrors(Register(s.calls, t, t.id.value), AddFragment(a, t), CallsAfter(s, d, t)) == true
  {
    UnusedId(s.calls, a, d, t.id.value);
    hide Tracks;
    var k', a', d' := Register(s.calls, t, t.id.value), AddFragment(a, t), CallsAfter(s, d, t);
    assert "" + t.args == t.args;
    assert |d'| == |d| + 1 == |a'|;
    forall i | 0 <= i < |a'| ensures Mirrored(k', a'[i], d'[i]) {
      if i < |a| { assert Mirrored(s.calls, a[i], d[i]); }
    }
  }

  lemma KnownMirrors(s: St, a: seq<Call>, d: seq<Call>, t: ToolDelta)
    requires Tracks(s.calls, d) == true && Mirrors(s.calls, a, d) == true && FragmentFits(a, t) && NoLateName(a, t) && Find(a, t.index) < |a|
    ensures CallOf(s.calls, t).Some? && !IsNew(s, t)
    ensures Mirrors(s.calls, AddFragment(a, t), CallsAfter(s, d, t)) == true
  {
    var p := Find(a, t.index);
    assert Mirrored(s.calls, a[p], d[p]) && CallTracked(s.calls, d[p], p);
    hide Tracks;
    var a', d' := AddFragment(a, t), CallsAfter(s, d, t);
    forall i | 0 <= i < |a'| ensures Mirrored(s.calls, a'[i], d'[i]) { assert Mirrored(s.calls, a[i], d[i]); }
  }

  /** A chunk that fits is not given up, and the tool tables mirror the original calls after it. */
  lemma ToolMirrors(s: St, c: Chunk, a: seq<Call>, d: seq<Call>)
    requires c.Chunk? && Tracks(s.calls, d) == true && Mirrors(s.calls, a, d) == true
    requires |c.toolCalls| == 1 && FragmentFits(a, c.toolCalls[0]) && NoLateName(a, c.toolCalls[0])
    ensures !GivesUp(s, c) && Count(ToolPhase(s, c).st.calls) <= UINT16
    ensures Mirrors(ToolPhase(s, c).st.calls, AddFragment(a, c.toolCalls[0]), CallsAfter(s, d, c.toolCalls[0])) == true
  {
    var t := c.toolCalls[0];
    if Find(a, t.index) == |a| {
      NewMirrors(s, a, d, t);
      MirrorBound(Register(s.calls, t, t.id.value), AddFragment(a, t), CallsAfter(s, d, t));
      TrackCount(s.calls, d);
      hide Tracks, Mirrors;
      assert |AddFragment(a, t)| == |a| + 1;
      ToolCalls(s, c);
      MirrorKeeps(Register(s.calls, t, t.id.value), ToolPhase(s, c).st.calls, AddFragment(a, t), CallsAfter(s, d, t));
    } else {
      KnownMirrors(s, a, d, t);
      TrackCount(s.calls, d);
      hide Tracks, Mirrors;
      ToolCalls(s, c);
      MirrorKeeps(s.calls, ToolPhase(s, c).st.calls, AddFragment(a, t), CallsAfter(s, d, t));
    }
  }

  lemma TrackCount(k: Calls, calls: seq<Call>)
    requires Tracks(k, calls) == true
    ensures |calls| == Count(k) <= UINT16 && CallsOk(k)
  {
  }

  lemma MirrorBound(k: Calls, a: seq<Call>, d: seq<Call>)
    requires Mirrors(k, a, d) == true
    ensures |a| == |d| <= UINT16
  {
    forall i | 0 <= i < |a| ensures a[i].index < UINT16 { assert Mirrored(k, a[i], d[i]); }
    IndicesBound(a);
  }

  lemma MirrorKeeps(k: Calls, k': Calls, a: seq<Call>, d: seq<Call>)
    requires Mirrors(k, a, d) == true && k'.indexToID == k.indexToID
    ensures Mirrors(k', a, d) == true
  {
    forall i | 0 <= i < |a| ensures Mirrored(k', a[i], d[i]) { assert Mirrored(k, a[i], d[i]); }
  }

  lemma ToolCalls(s: St, c: Chunk)
    requires c.Chunk? && |c.toolCalls| == 1 && CallsOk(s.calls)
    ensures
      var k := ToolPhase(s, c).st.calls;
      if IsNew(s, c.toolCalls[0])
      then k.indexToID == Register(s.calls, c.toolCalls[0], c.toolCalls[0].id.value).indexToID && Count(k) == Count(s.calls) + 1
      else k.indexToID == s.calls.indexToID && Count(k) == Count(s.calls)
  {
    hide Get, IndexOf;
  }

  /** The original stream so far and what a client has of its translation say the same. */
  ghost predicate Linked(s: St, a: Message, d: Message) {
    && Tracks(s.calls, d.calls) && Mirrors(s.calls, a.calls, d.calls)
    && a.text == d.text && d.text == s.item.text && a.reasoning == d.reasoning && a.refusal == d.refusal
  }

  lemma AddOne(m: Message, c: Chunk)
    requires c.Chunk? && |c.toolCalls| <= 1
    ensures Add(m, c).calls == if c.toolCalls == [] then m.calls else AddFragment(m.calls, c.toolCalls[0])
  {
    if c.toolCalls != [] {
      assert c.toolCalls == [c.toolCalls[0]];
      OneFragment(m.calls, c.toolCalls[0]);
    }
  }

  /** Neither the calls nor the tables change with a chunk that has no tool call. */
  lemma NoToolCall(s: St, c: Chunk)
    requires c.Chunk? && c.toolCalls == []
    ensures ToolPhase(s, c).st.calls == s.calls && !GivesUp(s, c)
  {
  }

  lemma OpenedFields(s: St, c: Chunk, m: Message)
    requires c.Chunk? && !GivesUp(AtTool(s, c), c)
    ensures
      var o := Opened(s, c, m);
      && o.text == m.text + Text(c.content) && o.reasoning == m.reasoning + Text(c.reasoning)
      && o.refusal == m.refusal + Text(c.refusal)
      && o.calls == if c.toolCalls == [] then m.calls else CallsAfter(AtTool(s, c), m.calls, c.toolCalls[0])
  {
    hide AtTool, CallsAfter;
  }

  lemma StepLinked(s: St, c: Chunk, order: seq<string>, a: Message, d: Message)
    requires c.Chunk? && Linked(s, a, d) == true && Fits(a, c) && (c.toolCalls != [] ==> NoLateName(a.calls, c.toolCalls[0]))
    ensures Linked(Step(s, c, order).st, Add(a, c), Receive(d, Step(s, c, order).out)) == true
    ensures !GivesUp(AtTool(s, c), c)
  {
    var k := AtTool(s, c);
    AtToolSame(s, c);
    AddOne(a, c);
    CountAfter(s, c, order);
    TrackCount(s.calls, d.calls);
    if c.toolCalls == [] {
      NoToolCall(k, c);
    } else {
      ToolMirrors(k, c, a.calls, d.calls);
    }
    StepReceived(s, c, order, d);
    OpenedFields(s, c, d);
    hide Tracks, Mirrors, Step, AtTool, ToolPhase, Receive, CallsAfter, Opened, GivesUp;
  }

  lemma {:induction false} RunLinked(chunks: seq<Chunk>, orders: seq<seq<string>>)
    requires |orders| == |chunks| && IsTrim(chunks)
    ensures Linked(Run(chunks, orders).st, Assemble(chunks), Receive(NOTHING, Run(chunks, orders).out)) == true
    ensures chunks != [] ==>
              var n := |chunks| - 1;
              chunks[n].Chunk? ==> !GivesUp(AtTool(Run(chunks[..n], orders[..n]).st, chunks[n]), chunks[n])
  {
    if chunks == [] {
      ReceiveNone(NOTHING);
      assert CallsOk(FRESH.calls);
    } else {
      var n := |chunks| - 1;
      var before := Run(chunks[..n], orders[..n]);
      RunLinked(chunks[..n], orders[..n]);
      var a, d := Assemble(chunks[..n]), Receive(NOTHING, before.out);
      hide Linked, Receive, GivesUp, AtTool, Fits, NoLateName, Step, Assemble, Add;
      if chunks[n].Chunk? {
        StepLinked(before.st, chunks[n], orders[n], a, d);
      } else {
        ReceiveNone(d);
      }
      ReceiveConcat(NOTHING, before.out, Step(before.st, chunks[n], orders[n]).out);
      AssembleLast(chunks);
    }
  }

  lemma AssembleLast(chunks: seq<Chunk>)
    requires chunks != []
    ensures Assemble(chunks) == Add(Assemble(chunks[..|chunks| - 1]), chunks[|chunks| - 1])
  {
    var n := |chunks| - 1;
    assert chunks == chunks[..n] + [chunks[n]];
    FeedConcat(NOTHING, chunks[..n], [chunks[n]]);
    assert Feed(Assemble(chunks[..n]), [chunks[n]]) == Add(Assemble(chunks[..n]), chunks[n]) by { assert [chunks[n]][1..] == []; }
  }

  /** The calls of one message, renumbered by first appearance, are those of the other. */
  predicate Renumbered(original: seq<Call>, received: seq<Call>) {
    && |received| == |original|
    && forall i :: 0 <= i < |original| ==> received[i] == original[i].(index := i)
  }

  lemma TrimRoundTrip(chunks: seq<Chunk>, orders: seq<seq<string>>)
    requires |orders| == |chunks| && IsTrim(chunks)
    ensures
      var original := Assemble(chunks);
      var received := Assemble(DecodeAll(Run(chunks, orders).out));
      && received.text == original.text && received.reasoning == original.reasoning && received.refusal == original.refusal
      && Renumbered(original.calls, received.calls)
  {
    RunLinked(chunks, orders);
    var k, a, d := Run(chunks, orders).st.calls, Assemble(chunks).calls, Receive(NOTHING, Run(chunks, orders).out).calls;
    forall i | 0 <= i < |a| ensures d[i] == a[i].(index := i) { assert Mirrored(k, a[i], d[i]) && CallTracked(k, d[i], i); }
  }

  lemma TrimFinish(chunks: seq<Chunk>, orders: seq<seq<string>>, finish: string)
    requires |orders| == |chunks| > 0 && IsTrim(chunks)
    requires chunks[|chunks| - 1].Chunk? && chunks[|chunks| - 1].finish == Some(finish)
    ensures Assemble(DecodeAll(Run(chunks, orders).out)).finish == Some(SeenFinish(finish, Assemble(chunks).calls))
  {
    RunLinked(chunks, orders);
    var out := Run(chunks, orders);
    LinkedSizes(out.st, Assemble(chunks), Receive(NOTHING, out.out));
    assert Finishes(chunks, orders, finish);
    TerminalTellsAll(chunks, orders, finish);
  }

  lemma LinkedSizes(s: St, a: Message, d: Message)
    requires Linked(s, a, d) == true
    ensures Count(s.calls) <= UINT16 && |a.calls| == |d.calls|
  {
  }

  lemma FinishOf(chunks: seq<Chunk>, finish: string)
    requires chunks != [] && chunks[|chunks| - 1].Chunk? && chunks[|chunks| - 1].finish == Some(finish)
    ensures Assemble(chunks).finish == Some(finish)
  {
    AssembleLast(chunks);
  }

  // ----- What the translator does not look at -----

  lemma SameOpening(s: St, c: Chunk, ts: seq<ToolDelta>)
    requires c.Chunk?
    ensures BeginPhase(s, c.(toolCalls := ts)) == BeginPhase(s, c)
    ensures TextPhase(BeginPhase(s, c).st, c.(toolCalls := ts)) == TextPhase(BeginPhase(s, c).st, c)
    ensures ThoughtPhase(c.(toolCalls := ts)) == ThoughtPhase(c)
  {
  }

  /** A chunk's tool calls matter to its tool phase only. */
  lemma SameStep(s: St, c: Chunk, order: seq<string>, ts: seq<ToolDelta>)
    requires c.Chunk?
    requires ToolPhase(AtTool(s, c), c.(toolCalls := ts)) == ToolPhase(AtTool(s, c), c)
    requires GivesUp(AtTool(s, c), c.(toolCalls := ts)) == GivesUp(AtTool(s, c), c)
    ensures Step(s, c.(toolCalls := ts), order) == Step(s, c, order)
  {
    SameOpening(s, c, ts);
    var tool := ToolPhase(AtTool(s, c), c).st;
    assert FinishPhase(tool, c.(toolCalls := ts), order) == FinishPhase(tool, c, order);
    hide BeginPhase, TextPhase, ToolPhase, GivesUp, ThoughtPhase, FinishPhase;
  }

  /** Only the first tool call of a chunk counts. */
  lemma OtherToolCallsIgnored(s: St, c: Chunk, order: seq<string>, more: seq<ToolDelta>)
    requires c.Chunk? && |c.toolCalls| == 1
    ensures Step(s, c.(toolCalls := c.toolCalls + more), order) == Step(s, c, order)
  {
    assert (c.toolCalls + more)[0] == c.toolCalls[0];
    hide AtTool, Step;
    SameStep(s, c, order, c.toolCalls + more);
  }

  /** A name that comes with a later fragment of a call is lost. */
  lemma LateNameIgnored(s: St, c: Chunk, order: seq<string>, name: Option<string>)
    requires c.Chunk? && |c.toolCalls| == 1 && !IsNew(AtTool(s, c), c.toolCalls[0])
    ensures Step(s, c.(toolCalls := [c.toolCalls[0].(name := name)]), order) == Step(s, c, order)
  {
    hide AtTool, Step;
    SameStep(s, c, order, [c.toolCalls[0].(name := name)]);
  }

  // ----- Names that come late -----

  /** The fragment without a name that comes late. */
  function Trim(calls: seq<Call>, t: ToolDelta): ToolDelta {
    if Find(calls, t.index) < |calls| then t.(name := None) else t
  }

  function TrimChunk(m: Message, c: Chunk): Chunk {
    if c.Chunk? && |c.toolCalls| == 1 then c.(toolCalls := [Trim(m.calls, c.toolCalls[0])]) else c
  }

  function Trimmed(chunks: seq<Chunk>): (ts: seq<Chunk>)
    ensures |ts| == |chunks|
  {
    if chunks == [] then []
    else Trimmed(chunks[..|chunks| - 1]) + [TrimChunk(Assemble(chunks[..|chunks| - 1]), chunks[|chunks| - 1])]
  }

  /** The fragment does not name a call that has no name. */
  predicate NameInTime(m: Message, c: Chunk) {
    c.Chunk? && |c.toolCalls| == 1 ==>
      var p := Find(m.calls, c.toolCalls[0].index);
      p < |m.calls| ==> c.toolCalls[0].name.None? || m.calls[p].name.Some?
  }

  /** No call begun without a name is given one later. */
  predicate NamesInTime(chunks: seq<Chunk>) {
    chunks == [] || (NamesInTime(chunks[..|chunks| - 1]) && NameInTime(Assemble(chunks[..|chunks| - 1]), chunks[|chunks| - 1]))
  }

  /** b is a without some names. */
  predicate SameButNames(a: seq<Call>, b: seq<Call>) {
    |a| == |b| && forall i :: 0 <= i < |a| ==> b[i] == a[i] || b[i] == a[i].(name := None)
  }

  lemma FindSame(a: seq<Call>, b: seq<Call>, index: nat)
    requires SameButNames(a, b)
    ensures Find(a, index) == Find(b, index)
  {
  }

  lemma TrimFits(a: seq<Call>, b: seq<Call>, t: ToolDelta)
    requires SameButNames(a, b) && FragmentFits(a, t)
    ensures FragmentFits(b, Trim(a, t)) && NoLateName(b, Trim(a, t))
  {
    FindSame(a, b, t.index);
  }

  lemma TrimAdds(a: seq<Call>, b: seq<Call>, t: ToolDelta)
    requires SameButNames(a, b)
    ensures
      var a', b' := AddFragment(a, t), AddFragment(b, Trim(a, t));
      var p := Find(a, t.index);
      && SameButNames(a', b')
      && (a' == b' <==> a == b && (p < |a| ==> t.name.None? || a[p].name.Some?))
  {
    FindSame(a, b, t.index);
    var a', b', p := AddFragment(a, t), AddFragment(b, Trim(a, t)), Find(a, t.index);
    if a' == b' {
      forall i | 0 <= i < |a| ensures a[i] == b[i] { assert a'[i] == b'[i]; }
    }
  }

  /** Without the late names a stream is trim and says the same but for those names. */
  lemma {:induction false} TrimmedSays(chunks: seq<Chunk>)
    requires WellFormed(chunks)
    ensures
      var a, b := Assemble(chunks), Assemble(Trimmed(chunks));
      && IsTrim(Trimmed(chunks)) && SameButNames(a.calls, b.calls) && b == a.(calls := b.calls)
      && (a.calls == b.calls <==> NamesInTime(chunks))
  {
    if chunks != [] {
      var n := |chunks| - 1;
      var c := chunks[n];
      TrimmedSays(chunks[..n]);
      assert Trimmed(chunks)[..n] == Trimmed(chunks[..n]);
      AssembleLast(chunks);
      AssembleLast(Trimmed(chunks));
      var a, b := Assemble(chunks[..n]), Assemble(Trimmed(chunks[..n]));
      if c.Chunk? {
        AddOne(a, c);
        AddOne(b, TrimChunk(a, c));
        if c.toolCalls != [] {
          TrimFits(a.calls, b.calls, c.toolCalls[0]);
          TrimAdds(a.calls, b.calls, c.toolCalls[0]);
        }
      }
      hide WellFormed, Assemble, Fits, FragmentFits, NoLateName, SameButNames, AddFragment, AddFragments;
    }
  }

  /** A late name changes nothing about the step. */
  lemma TrimStep(s: St, c: Chunk, order: seq<string>, a: Message, b: Message, d: Message)
    requires Linked(s, b, d) == true && SameButNames(a.calls, b.calls) && Fits(a, c)
    ensures Step(s, TrimChunk(a, c), order) == Step(s, c, order)
  {
    if c.Chunk? && c.toolCalls != [] {
      var t := c.toolCalls[0];
      assert c.toolCalls == [t];
      FindSame(a.calls, b.calls, t.index);
      if Find(a.calls, t.index) < |a.calls| {
        TrimFits(a.calls, b.calls, t);
        var k := AtTool(s, c);
        AtToolSame(s, c);
        KnownMirrors(k, b.calls, d.calls, Trim(a.calls, t));
        LateNameIgnored(s, c, order, None);
      } else {
        assert TrimChunk(a, c) == c;
      }
    }
  }

  lemma {:induction false} TrimmedRun(chunks: seq<Chunk>, orders: seq<seq<string>>)
    requires |orders| == |chunks| && WellFormed(chunks)
    ensures Run(Trimmed(chunks), orders) == Run(chunks, orders)
  {
    if chunks != [] {
      var n := |chunks| - 1;
      TrimmedRun(chunks[..n], orders[..n]);
      TrimmedSays(chunks[..n]);
      var trimmed := Trimmed(chunks[..n]);
      assert Trimmed(chunks)[..n] == trimmed;
      RunLinked(trimmed, orders[..n]);
      var before := Run(trimmed, orders[..n]);
      hide Linked, SameButNames, Step, Assemble, Fits;
      TrimStep(before.st, chunks[n], orders[n], Assemble(chunks[..n]), Assemble(trimmed), Receive(NOTHING, before.out));
    }
  }

  // ----- What comes back -----

  /** Translating a well-formed chat stream to events and decoding the events gives the same text,
      reasoning and refusal, and the same calls with their IDs and arguments, renumbered by first
      appearance, whatever the iteration orders; of the names exactly those that come late are lost,
      and the calls come back whole if and only if there are none. */
  lemma RoundTrip(chunks: seq<Chunk>, orders: seq<seq<string>>)
    requires |orders| == |chunks| && WellFormed(chunks)
    ensures
      var original := Assemble(chunks);
      var received := Assemble(DecodeAll(Run(chunks, orders).out));
      && received.text == original.text && received.reasoning == original.reasoning && received.refusal == original.refusal
      && Renumbered(Assemble(Trimmed(chunks)).calls, received.calls)
      && SameButNames(original.calls, Assemble(Trimmed(chunks)).calls)
      && (Renumbered(original.calls, received.calls) <==> NamesInTime(chunks))
  {
    TrimmedRun(chunks, orders);
    TrimmedSays(chunks);
    TrimRoundTrip(Trimmed(chunks), orders);
    var a, b := Assemble(chunks).calls, Assemble(Trimmed(chunks)).calls;
    var d := Assemble(DecodeAll(Run(chunks, orders).out)).calls;
    if Renumbered(a, d) {
      forall i | 0 <= i < |a| ensures a[i] == b[i] { assert d[i] == a[i].(index := i) && d[i] == b[i].(index := i); }
    }
  }

  /** Of a finished well-formed stream the finish comes back unchanged exactly when it is the one
      that follows from the calls: "length" always does, "tool_calls" when there are calls, "stop"
      when there are none. */
  lemma FinishComesBack(chunks: seq<Chunk>, orders: seq<seq<string>>, finish: string)
    requires |orders| == |chunks| > 0 && WellFormed(chunks)
    requires chunks[|chunks| - 1].Chunk? && chunks[|chunks| - 1].finish == Some(finish)
    ensures
      var original := Assemble(chunks);
      var received := Assemble(DecodeAll(Run(chunks, orders).out));
      && received.finish == Some(SeenFinish(finish, original.calls))
      && (received.finish == original.finish <==>
            finish == "length" || (finish == "tool_calls" && original.calls != []) || (finish == "stop" && original.calls == []))
  {
    TrimmedRun(chunks, orders);
    TrimmedSays(chunks);
    var trimmed := Trimmed(chunks);
    assert trimmed[|chunks| - 1].finish == Some(finish);
    TrimFinish(trimmed, orders, finish);
    FinishOf(chunks, finish);
  }

  // ----- Closing events and sequence numbers -----

  function DoneEvents(bodies: seq<Body>, index: nat): nat {
    if bodies == [] then 0
    else DoneEvents(bodies[..|bodies| - 1], index)
         + if bodies[|bodies| - 1].ArgsDone? && bodies[|bodies| - 1].outputIndex == index then 1 else 0
  }

  lemma {:induction false} DoneConcat(xs: seq<Body>, ys: seq<Body>, index: nat)
    ensures DoneEvents(xs + ys, index) == DoneEvents(xs, index) + DoneEvents(ys, index)
  {
    if ys == [] {
      assert xs + ys == xs;
    } else {
      assert (xs + ys)[..|xs + ys| - 1] == xs + ys[..|ys| - 1];
      DoneConcat(xs, ys[..|ys| - 1], index);
    }
  }

  lemma PairDone(b: Body, c: Body, index: nat)
    requires !c.ArgsDone?
    ensures DoneEvents([b, c], index) == if b.ArgsDone? && b.outputIndex == index then 1 else 0
  {
    assert [b, c][..1] == [b] && [b][..0] == [];
    assert DoneEvents([b], index) == if b.ArgsDone? && b.outputIndex == index then 1 else 0;
  }

  /** The closing events of one call. */
  function Closing(s: St, id: string, status: string): seq<Body> {
    var args := Get(s.calls.argBuffers, id);
    if args == "" then []
    else
      var index, itemID := IndexOf(s.calls.outputIndices, id), Get(s.itemIDs, id);
      [ArgsDone(index, itemID, args), CallDone(index, itemID, id, CallName(s.calls, id), args, status)]
  }

  lemma ClosingDone(s: St, id: string, status: string, other: string)
    requires CallsOk(s.calls) && id in s.calls.outputIndices && other in s.calls.outputIndices
    ensures DoneEvents(Closing(s, other, status), s.calls.outputIndices[id])
            == if other == id && Get(s.calls.argBuffers, id) != "" then 1 else 0
  {
    var out := Closing(s, other, status);
    if out != [] { PairDone(out[0], out[1], s.calls.outputIndices[id]); }
  }

  /** Every call with arguments is closed exactly once, a call without is not closed, whatever the
      order of iteration; and a closing event carries all the arguments of its call. */
  lemma {:induction false} EachCallClosedOnce(s: St, order: seq<string>, status: string, id: string)
    requires CallsOk(s.calls) && id in s.calls.outputIndices
    requires forall x :: x in order ==> x in s.calls.outputIndices
    requires forall i, j :: 0 <= i < j < |order| ==> order[i] != order[j]
    ensures DoneEvents(CloseCalls(s, order, status), s.calls.outputIndices[id])
            == if id in order && Get(s.calls.argBuffers, id) != "" then 1 else 0
  {
    if order != [] {
      var n := |order| - 1;
      var x := order[n];
      EachCallClosedOnce(s, order[..n], status, id);
      ClosingDone(s, id, status, x);
      assert id in order <==> id in order[..n] || id == x;
      assert id == x ==> id !in order[..n];
      assert CloseCalls(s, order, status) == CloseCalls(s, order[..n], status) + Closing(s, x, status);
      hide CallsOk, Closing, CloseCalls;
      DoneConcat(CloseCalls(s, order[..n], status), Closing(s, x, status), s.calls.outputIndices[id]);
    }
  }

  lemma {:induction false} ClosedWithAllArgs(s: St, order: seq<string>, status: string, i: nat)
    requires i < |CloseCalls(s, order, status)| && CloseCalls(s, order, status)[i].ArgsDone?
    ensures
      var b := CloseCalls(s, order, status)[i];
      exists id :: id in order && b.outputIndex == IndexOf(s.calls.outputIndices, id) && b.args == Get(s.calls.argBuffers, id)
  {
    var n := |order| - 1;
    var before := CloseCalls(s, order[..n], status);
    if i < |before| { ClosedWithAllArgs(s, order[..n], status, i); } else { assert order[n] in order; }
  }

  lemma NumberedConcat(e1: seq<Event>, b1: seq<Body>, e2: seq<Event>, b2: seq<Body>, first: nat)
    requires Numbered(e1, b1, first) && Numbered(e2, b2, first + |e1|)
    ensures Numbered(e1 + e2, b1 + b2, first)
  {
  }

  /** A stream fed chunk by chunk to a new state: the events are those of the run, with sequence
      numbers 0, 1, 2, ... and no gap or repeat. */
  method TranslateAll(chunks: seq<Chunk>, orders: seq<seq<string>>) returns (events: seq<Event>)
    requires |orders| == |chunks|
    ensures Numbered(events, Run(chunks, orders).out, 0)
  {
    var state := new ChatToResponsesStreamState();
    events := [];
    for k := 0 to |chunks|
      invariant fresh(state) && CallsOk(state.CallsValue()) && state.Value() == Run(chunks[..k], orders[..k]).st
      invariant Numbered(events, Run(chunks[..k], orders[..k]).out, 0) && state.sequenceNumber == |events|
    {
      assert chunks[..k + 1][..k] == chunks[..k] && orders[..k + 1][..k] == orders[..k];
      ghost var before := Run(chunks[..k], orders[..k]);
      var more, bodies := state.Translate(chunks[k], orders[k]);
      hide Numbered, Step, CallsOk;
      NumberedConcat(events, before.out, more, bodies, 0);
      events := events + more;
    }
    assert chunks[..|chunks|] == chunks && orders[..|orders|] == orders;
  }
}
