/**
 What a translated stream means.  Chunks, original or decoded from events, are put together again
 the way a chat client does it: texts are concatenated and tool-call fragments collected by index.
 */
module StreamTheorems {
  import opened Wrappers
  import opened StreamTranslation

  // ----- Putting a chat stream together -----

  datatype Call = Call(index: nat, id: Option<string>, name: Option<string>, args: string)

  datatype Message = Message(text: string, reasoning: string, refusal: string, calls: seq<Call>, finish: Option<string>)

  const NOTHING := Message("", "", "", [], None)

  function Text(s: Option<string>): string {
    if s.Some? then s.value else ""
  }

  /** Position of the call with this index, or the number of calls. */
  function Find(calls: seq<Call>, index: nat): (p: nat)
    ensures p <= |calls| && (p < |calls| ==> calls[p].index == index)
    ensures forall i :: 0 <= i < p ==> calls[i].index != index
  {
    if calls == [] then 0
    else
      var p := Find(calls[..|calls| - 1], index);
      if p < |calls| - 1 || calls[|calls| - 1].index == index then p else |calls|
  }

  /** A call keeps the first ID and name it is given; its argument fragments are joined. */
  function AddFragment(calls: seq<Call>, t: ToolDelta): seq<Call> {
    var p := Find(calls, t.index);
    if p == |calls| then calls + [Call(t.index, t.id, t.name, t.args)]
    else
      var c := calls[p];
      calls[p := c.(id := if c.id.Some? then c.id else t.id, name := if c.name.Some? then c.name else t.name, args := c.args + t.args)]
  }

  function AddFragments(calls: seq<Call>, ts: seq<ToolDelta>): seq<Call>
    decreases |ts|
  {
    if ts == [] then calls else AddFragments(AddFragment(calls, ts[0]), ts[1..])
  }

  function Add(m: Message, c: Chunk): Message {
    if c.Hollow? then m
    else
      Message(m.text + Text(c.content), m.reasoning + Text(c.reasoning), m.refusal + Text(c.refusal),
              AddFragments(m.calls, c.toolCalls), if c.finish.Some? then c.finish else m.finish)
  }

  function Feed(m: Message, chunks: seq<Chunk>): Message
    decreases |chunks|
  {
    if chunks == [] then m else Feed(Add(m, chunks[0]), chunks[1..])
  }

  lemma {:induction false} FeedConcat(m: Message, xs: seq<Chunk>, ys: seq<Chunk>)
    ensures Feed(m, xs + ys) == Feed(Feed(m, xs), ys)
    decreases |xs|
  {
    if xs == [] {
      assert xs + ys == ys;
    } else {
      assert (xs + ys)[1..] == xs[1..] + ys;
      FeedConcat(Add(m, xs[0]), xs[1..], ys);
    }
  }

  // ----- Decoding events: ToBifrostChatResponse -----

  const UINT16 := 0x1_0000

  function DecodedIndex(outputIndex: nat): nat {
    if outputIndex > 0 then (outputIndex - 1) % UINT16 else 0
  }

  const EMPTY := Chunk("", "", false, None, None, None, [], None)

  predicate HasCall(output: seq<Output>) {
    exists i :: 0 <= i < |output| && output[i].OutCall?
  }

  function Decode(b: Body): Chunk {
    match b
    case TextDelta(_, delta) => EMPTY.(content := Some(delta))
    case ReasoningDelta(delta) => EMPTY.(reasoning := Some(delta))
    case RefusalDelta(refusal) => EMPTY.(refusal := Some(refusal))
    case MessageAdded(_) => EMPTY.(role := true)
    case CallAdded(i, id, name) => EMPTY.(toolCalls := [ToolDelta(DecodedIndex(i), Some(id), name, "")])
    case ArgsDelta(i, _, delta) => EMPTY.(toolCalls := [ToolDelta(DecodedIndex(i), None, None, delta)])
    case Terminal(completed, messageID, model, _, _, output) =>
      EMPTY.(id := if messageID.Some? then messageID.value else "", model := model,
             finish := Some(if !completed then "length" else if HasCall(output) then "tool_calls" else "stop"))
    case Created(messageID) => EMPTY.(id := if messageID.Some? then messageID.value else "")
    case InProgress(messageID) => EMPTY.(id := if messageID.Some? then messageID.value else "")
    case _ => EMPTY
  }

  function DecodeAll(bodies: seq<Body>): (chunks: seq<Chunk>)
    ensures |chunks| == |bodies|
  {
    seq(|bodies|, i requires 0 <= i < |bodies| => Decode(bodies[i]))
  }

  /** What a client has after these events. */
  function Receive(m: Message, bodies: seq<Body>): Message {
    Feed(m, DecodeAll(bodies))
  }

  lemma ReceiveConcat(m: Message, xs: seq<Body>, ys: seq<Body>)
    ensures Receive(m, xs + ys) == Receive(Receive(m, xs), ys)
  {
    assert DecodeAll(xs + ys) == DecodeAll(xs) + DecodeAll(ys);
    FeedConcat(m, DecodeAll(xs), DecodeAll(ys));
  }

  lemma ReceiveOne(m: Message, b: Body)
    ensures Receive(m, [b]) == Add(m, Decode(b))
  {
    assert DecodeAll([b]) == [Decode(b)];
    assert Feed(m, [Decode(b)]) == Feed(Add(m, Decode(b)), []);
  }

  lemma ReceiveNone(m: Message)
    ensures Receive(m, []) == m
  {
  }

  /** Events that carry no content for a chat client. */
  predicate Silent(b: Body) {
    !b.TextDelta? && !b.ReasoningDelta? && !b.RefusalDelta? && !b.CallAdded? && !b.ArgsDelta? && !b.Terminal?
  }

  lemma AddsNothing(m: Message, b: Body)
    requires Silent(b)
    ensures Add(m, Decode(b)) == m
  {
    assert m.text + "" == m.text && m.reasoning + "" == m.reasoning && m.refusal + "" == m.refusal;
  }

  lemma {:induction false} ReceiveSilent(m: Message, bodies: seq<Body>)
    requires forall i :: 0 <= i < |bodies| ==> Silent(bodies[i])
    ensures Receive(m, bodies) == m
  {
    if bodies == [] {
      ReceiveNone(m);
    } else {
      var n := |bodies| - 1;
      assert bodies == bodies[..n] + [bodies[n]];
      ReceiveConcat(m, bodies[..n], [bodies[n]]);
      ReceiveSilent(m, bodies[..n]);
      ReceiveOne(m, bodies[n]);
      AddsNothing(m, bodies[n]);
    }
  }

  lemma ReceiveText(m: Message, itemID: string, delta: string)
    ensures Receive(m, [TextDelta(itemID, delta)]) == m.(text := m.text + delta)
  {
    ReceiveOne(m, TextDelta(itemID, delta));
    assert m.reasoning + "" == m.reasoning && m.refusal + "" == m.refusal;
  }

  lemma ReceiveThoughts(m: Message, c: Chunk)
    requires c.Chunk?
    ensures Receive(m, ThoughtPhase(c)) == m.(reasoning := m.reasoning + Text(c.reasoning), refusal := m.refusal + Text(c.refusal))
  {
    var r := if Present(c.reasoning) then [ReasoningDelta(c.reasoning.value)] else [];
    var f := if Present(c.refusal) then [RefusalDelta(c.refusal.value)] else [];
    ReceiveConcat(m, r, f);
    assert m.text + "" == m.text && m.reasoning + "" == m.reasoning && m.refusal + "" == m.refusal;
    if Present(c.reasoning) { ReceiveOne(m, r[0]); } else { ReceiveNone(m); }
    var m' := Receive(m, r);
    assert m' == m.(reasoning := m.reasoning + Text(c.reasoning));
    if Present(c.refusal) { ReceiveOne(m', f[0]); } else { ReceiveNone(m'); }
  }

  lemma OneFragment(calls: seq<Call>, t: ToolDelta)
    ensures AddFragments(calls, [t]) == AddFragment(calls, t)
  {
    assert [t][1..] == [];
  }

  lemma ReceiveFragment(m: Message, b: Body)
    requires b.CallAdded? || b.ArgsDelta?
    ensures Receive(m, [b]) == m.(calls := AddFragment(m.calls, Decode(b).toolCalls[0]))
  {
    ReceiveOne(m, b);
    OneFragment(m.calls, Decode(b).toolCalls[0]);
    assert m.text + "" == m.text && m.reasoning + "" == m.reasoning && m.refusal + "" == m.refusal;
  }

  // ----- The state and what a client has received -----

  /** Number of calls introduced. */
  function Count(k: Calls): nat {
    if k.currentIndex == 0 then 0 else k.currentIndex - 1
  }

  /** The i-th call received is the one with output index i + 1. */
  ghost predicate CallTracked(k: Calls, c: Call, i: nat) {
    && c.index == i && c.id.Some? && c.id.value in k.outputIndices && k.outputIndices[c.id.value] == i + 1
    && c.id.value in k.argBuffers && c.args == k.argBuffers[c.id.value]
    && (if c.name.Some? then c.id.value in k.names && k.names[c.id.value] == c.name.value else c.id.value !in k.names)
  }

  ghost predicate IdTracked(k: Calls, calls: seq<Call>, id: string) {
    id in k.outputIndices ==> 1 <= k.outputIndices[id] <= |calls| && calls[k.outputIndices[id] - 1].id == Some(id)
  }

  ghost predicate Tracks(k: Calls, calls: seq<Call>) {
    && CallsOk(k) && |calls| == Count(k) <= UINT16
    && (forall i {:trigger calls[i]} :: 0 <= i < |calls| ==> CallTracked(k, calls[i], i))
    && (forall id {:trigger IdTracked(k, calls, id)} :: IdTracked(k, calls, id))
    && k.names.Keys <= k.outputIndices.Keys
  }

  lemma FindTracked(k: Calls, calls: seq<Call>, i: nat)
    requires Tracks(k, calls) == true
    ensures Find(calls, i) == if i < |calls| then i else |calls|
  {
    var p := Find(calls, i);
    if p < |calls| { assert CallTracked(k, calls[p], p); }
    if i < |calls| { assert CallTracked(k, calls[i], i); }
  }

  /** A new call arrives at the client with the next index. */
  lemma RegisterArrives(k: Calls, calls: seq<Call>, t: ToolDelta, id: string)
    requires Tracks(k, calls) == true && Count(k) < UINT16
    ensures AddFragment(calls, ToolDelta(DecodedIndex(NewIndex(k)), Some(id), t.name, "")) == calls + [Call(|calls|, Some(id), t.name, "")]
    ensures |calls| == Count(k)
  {
    FindTracked(k, calls, |calls|);
    assert CallsOk(k) && |calls| == Count(k);
    hide Tracks, CallsOk;
    assert DecodedIndex(NewIndex(k)) == |calls|;
  }

  lemma RegisterTracked(k: Calls, calls: seq<Call>, t: ToolDelta, id: string)
    requires Tracks(k, calls) == true && id !in k.outputIndices && Count(k) < UINT16
    ensures Tracks(Register(k, t, id), calls + [Call(|calls|, Some(id), t.name, "")]) == true
  {
    RegisterOk(k, t, id);
    var k', calls' := Register(k, t, id), calls + [Call(|calls|, Some(id), t.name, "")];
    assert Count(k') == Count(k) + 1;
    hide CallsOk;
    forall i | 0 <= i < |calls'| ensures CallTracked(k', calls'[i], i) {
      if i < |calls| { assert CallTracked(k, calls[i], i); }
    }
    forall x ensures IdTracked(k', calls', x) { assert IdTracked(k, calls, x); }
  }

  /** The calls of a client after an argument fragment for the i-th. */
  function WithArgs(calls: seq<Call>, i: nat, args: string): seq<Call>
    requires i < |calls|
  {
    calls[i := calls[i].(args := calls[i].args + args)]
  }

  /** An argument fragment arrives at the call it belongs to. */
  lemma ArgsArrive(k: Calls, calls: seq<Call>, id: string, args: string)
    requires Tracks(k, calls) == true && id in k.outputIndices
    ensures
      var p := k.outputIndices[id] - 1;
      && 0 <= p < |calls|
      && AddFragment(calls, ToolDelta(DecodedIndex(k.outputIndices[id]), None, None, args)) == WithArgs(calls, p, args)
  {
    var p := k.outputIndices[id] - 1;
    assert IdTracked(k, calls, id);
    FindTracked(k, calls, p);
    assert |calls| <= UINT16;
    hide Tracks;
    assert DecodedIndex(k.outputIndices[id]) == p;
  }

  lemma ArgsTracked(k: Calls, calls: seq<Call>, id: string, args: string)
    requires Tracks(k, calls) == true && id in k.outputIndices
    requires 0 <= k.outputIndices[id] - 1 < |calls|
    ensures
      var p := k.outputIndices[id] - 1;
      Tracks(k.(argBuffers := k.argBuffers[id := Get(k.argBuffers, id) + args]), WithArgs(calls, p, args)) == true
  {
    var p := k.outputIndices[id] - 1;
    ArgsOk(k, id, Get(k.argBuffers, id) + args);
    var k' := k.(argBuffers := k.argBuffers[id := Get(k.argBuffers, id) + args]);
    var calls' := WithArgs(calls, p, args);
    forall i | 0 <= i < |calls'| ensures CallTracked(k', calls'[i], i) { ArgsCallTracked(k, calls, id, args, i); }
    hide CallsOk;
    forall x ensures IdTracked(k', calls', x) { assert IdTracked(k, calls, x); }
  }

  lemma ArgsCallTracked(k: Calls, calls: seq<Call>, id: string, args: string, i: nat)
    requires Tracks(k, calls) == true && id in k.outputIndices && i < |calls|
    requires 0 <= k.outputIndices[id] - 1 < |calls|
    ensures
      CallTracked(k.(argBuffers := k.argBuffers[id := Get(k.argBuffers, id) + args]), WithArgs(calls, k.outputIndices[id] - 1, args)[i], i)
  {
    var p := k.outputIndices[id] - 1;
    assert IdTracked(k, calls, id) && CallTracked(k, calls[i], i) && CallTracked(k, calls[p], p);
    hide Tracks;
  }

  // ----- One chunk, received -----

  lemma BeginReceived(s: St, c: Chunk, m: Message)
    requires c.Chunk?
    ensures Receive(m, BeginPhase(s, c).out) == m
    ensures BeginPhase(s, c).st.item == s.item && BeginPhase(s, c).st.calls == s.calls
  {
    ReceiveSilent(m, BeginPhase(s, c).out);
  }

  lemma TextReceived(s: St, c: Chunk, m: Message)
    requires c.Chunk?
    ensures Receive(m, TextPhase(s, c).out) == m.(text := m.text + Text(c.content))
    ensures TextPhase(s, c).st.calls == s.calls && TextPhase(s, c).st.item.text == s.item.text + Text(c.content)
  {
    assert m.text + "" == m.text && s.item.text + "" == s.item.text;
    ReceiveNone(m);
    if Present(c.content) || (Present(c.reasoning) && !s.item.added) {
      var added := AddTextItem(s);
      ReceiveSilent(m, added.out);
      if Present(c.content) || !added.st.item.hasContent {
        var delta := if Present(c.content) then c.content.value else "";
        ReceiveConcat(m, added.out, AddText(added.st, delta).out);
        ReceiveText(m, Get(added.st.itemIDs, "text"), delta);
      }
    }
  }

  lemma IntroduceReceived(s: St, t: ToolDelta, id: string, m: Message)
    requires Tracks(s.calls, m.calls) == true && Count(s.calls) < UINT16
    ensures Receive(m, Introduce(s, t, id).out) == m.(calls := m.calls + [Call(|m.calls|, Some(id), t.name, "")])
    ensures Introduce(s, t, id).st.calls == Register(s.calls, t, id) && Introduce(s, t, id).st.item.text == s.item.text
  {
    RegisterArrives(s.calls, m.calls, t, id);
    hide Tracks, Register;
    var added := CallAdded(NewIndex(s.calls), id, t.name);
    ReceiveFragment(m, added);
    var closing := CloseText(s, "completed");
    ReceiveSilent(m, closing.out);
    ReceiveConcat(m, closing.out, [added]);
  }

  lemma NoArgs(calls: seq<Call>, i: nat)
    requires i < |calls|
    ensures WithArgs(calls, i, "") == calls
  {
    assert calls[i].args + "" == calls[i].args;
  }

  lemma AddArgsTracked(s: St, id: string, args: string, calls: seq<Call>)
    requires Tracks(s.calls, calls) == true && id in s.calls.outputIndices
    ensures 0 <= s.calls.outputIndices[id] - 1 < |calls|
    ensures Tracks(AddArgs(s, id, args).st.calls, WithArgs(calls, s.calls.outputIndices[id] - 1, args)) == true
  {
    ArgsArrive(s.calls, calls, id, args);
    ArgsTracked(s.calls, calls, id, args);
    hide Tracks, WithArgs, CallTracked, IdTracked, CallsOk;
    if args == "" { NoArgs(calls, s.calls.outputIndices[id] - 1); }
  }

  lemma AddArgsReceived(s: St, id: string, args: string, m: Message)
    requires Tracks(s.calls, m.calls) == true && id in s.calls.outputIndices
    ensures 0 <= s.calls.outputIndices[id] - 1 < |m.calls|
    ensures Receive(m, AddArgs(s, id, args).out) == m.(calls := WithArgs(m.calls, s.calls.outputIndices[id] - 1, args))
    ensures AddArgs(s, id, args).st.item == s.item
  {
    ArgsArrive(s.calls, m.calls, id, args);
    hide Tracks;
    if args == "" {
      ReceiveNone(m);
      NoArgs(m.calls, s.calls.outputIndices[id] - 1);
    } else {
      ReceiveFragment(m, ArgsDelta(s.calls.outputIndices[id], Get(s.itemIDs, id), args));
    }
  }

  /** The calls a client has after the tool call of a chunk. */
  function CallsAfter(s: St, calls: seq<Call>, t: ToolDelta): seq<Call>
    requires CallOf(s.calls, t).Some?
  {
    var id := CallOf(s.calls, t).value;
    if IsNew(s, t) then WithArgs(calls + [Call(|calls|, Some(id), t.name, "")], |calls|, t.args)
    else
      var i := IndexOf(s.calls.outputIndices, id) - 1;
      if 0 <= i < |calls| then WithArgs(calls, i, t.args) else calls
  }

  lemma CallOfKnown(s: St, t: ToolDelta)
    requires CallsOk(s.calls) && CallOf(s.calls, t).Some?
    ensures IsNew(s, t) <==> CallOf(s.calls, t).value !in s.calls.outputIndices
  {
  }

  lemma NewReceived(s: St, t: ToolDelta, id: string, m: Message)
    requires Tracks(s.calls, m.calls) == true && id !in s.calls.outputIndices && Count(s.calls) < UINT16
    ensures
      var introduced := Introduce(s, t, id);
      var more := AddArgs(introduced.st, id, t.args);
      var calls := WithArgs(m.calls + [Call(|m.calls|, Some(id), t.name, "")], |m.calls|, t.args);
      && Receive(m, introduced.out + more.out) == m.(calls := calls)
      && Tracks(more.st.calls, calls) == true && more.st.item.text == s.item.text
  {
    var introduced := Introduce(s, t, id);
    var m1 := m.(calls := m.calls + [Call(|m.calls|, Some(id), t.name, "")]);
    IntroduceReceived(s, t, id, m);
    RegisterTracked(s.calls, m.calls, t, id);
    TrackedIndex(s.calls, m.calls, t, id);
    hide Tracks, Register, Introduce;
    AddArgsReceived(introduced.st, id, t.args, m1);
    AddArgsTracked(introduced.st, id, t.args, m1.calls);
    hide AddArgs;
    ReceiveConcat(m, introduced.out, AddArgs(introduced.st, id, t.args).out);
  }

  lemma TrackedIndex(k: Calls, calls: seq<Call>, t: ToolDelta, id: string)
    requires Tracks(k, calls) == true
    ensures id in Register(k, t, id).outputIndices && Register(k, t, id).outputIndices[id] == |calls| + 1
  {
  }

  lemma KnownReceived(s: St, t: ToolDelta, id: string, m: Message)
    requires Tracks(s.calls, m.calls) == true && CallOf(s.calls, t) == Some(id) && !IsNew(s, t)
    ensures Receive(m, AddArgs(s, id, t.args).out) == m.(calls := CallsAfter(s, m.calls, t))
    ensures Tracks(AddArgs(s, id, t.args).st.calls, CallsAfter(s, m.calls, t)) == true
    ensures AddArgs(s, id, t.args).st.item == s.item
  {
    assert CallsOk(s.calls);
    CallOfKnown(s, t);
    hide Tracks, CallsOk, IsNew, AddArgs, WithArgs, CallOf, CallsAfter, Receive;
    AddArgsReceived(s, id, t.args, m);
    AddArgsTracked(s, id, t.args, m.calls);
    KnownAfter(s, t, id, m.calls);
  }

  lemma KnownAfter(s: St, t: ToolDelta, id: string, calls: seq<Call>)
    requires CallOf(s.calls, t) == Some(id) && !IsNew(s, t) && id in s.calls.outputIndices
    requires 0 <= s.calls.outputIndices[id] - 1 < |calls|
    ensures CallsAfter(s, calls, t) == WithArgs(calls, s.calls.outputIndices[id] - 1, t.args)
  {
    hide IsNew, WithArgs;
  }

  lemma ToolReceived(s: St, c: Chunk, m: Message)
    requires c.Chunk? && Tracks(s.calls, m.calls) == true && Count(ToolPhase(s, c).st.calls) <= UINT16
    ensures Receive(m, ToolPhase(s, c).out) ==
            (if c.toolCalls == [] || GivesUp(s, c) then m else m.(calls := CallsAfter(s, m.calls, c.toolCalls[0])))
    ensures Tracks(ToolPhase(s, c).st.calls, Receive(m, ToolPhase(s, c).out).calls) == true
    ensures ToolPhase(s, c).st.item.text == s.item.text
  {
    if c.toolCalls == [] || GivesUp(s, c) {
      ReceiveNone(m);
    } else {
      var t := c.toolCalls[0];
      var id := CallOf(s.calls, t).value;
      if IsNew(s, t) {
        assert CallsOk(s.calls);
        NewCount(s, c);
        hide Tracks, CallsOk, Introduce, AddArgs, IsNew, WithArgs;
        NewReceived(s, t, id, m);
      } else {
        hide Tracks, AddArgs, IsNew, CallsAfter;
        KnownReceived(s, t, id, m);
        assert [] + AddArgs(s, id, t.args).out == AddArgs(s, id, t.args).out;
      }
    }
  }

  lemma NewCount(s: St, c: Chunk)
    requires c.Chunk? && c.toolCalls != [] && IsNew(s, c.toolCalls[0]) && CallsOk(s.calls)
    ensures Count(ToolPhase(s, c).st.calls) == Count(s.calls) + 1
  {
  }

  lemma {:induction false} CloseCallsSilent(s: St, order: seq<string>, status: string)
    ensures forall i :: 0 <= i < |CloseCalls(s, order, status)| ==> Silent(CloseCalls(s, order, status)[i])
  {
    if order != [] { CloseCallsSilent(s, order[..|order| - 1], status); }
  }

  lemma FinishReceived(s: St, c: Chunk, order: seq<string>, m: Message)
    requires c.Chunk?
    ensures
      var p := FinishPhase(s, c, order);
      && Receive(m, p.out) ==
         (if c.finish.None? then m else m.(finish := Decode(TerminalOf(ClosingPhase(s, Status(c.finish.value)).st, c.finish.value)).finish))
      && p.st.calls == s.calls && p.st.item.text == s.item.text
  {
    if c.finish.None? {
      ReceiveNone(m);
    } else {
      var status := Status(c.finish.value);
      var closing := ClosingPhase(s, status);
      var calls := CloseCalls(closing.st, order, status);
      var terminal := TerminalOf(closing.st, c.finish.value);
      CloseCallsSilent(closing.st, order, status);
      ReceiveSilent(m, closing.out + calls);
      ReceiveConcat(m, closing.out + calls, [terminal]);
      ReceiveOne(m, terminal);
      assert m.text + "" == m.text && m.reasoning + "" == m.reasoning && m.refusal + "" == m.refusal;
    }
  }
}
