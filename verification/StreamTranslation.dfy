/**
 The stream translator of core/schemas/mux.go: chat-completion chunks become Responses events,
 and events become chat chunks again.

 ChatToResponsesStreamState is the mutable state of one stream.  Its method is proved against the
 function Step, and what the translation promises is proved of that function.  Usage, time stamps,
 search results and the other fields copied unchanged are not modelled.
 */
module StreamTranslation {
  import opened Wrappers

  // ----- Chat chunks -----

  /** One entry of a delta's tool calls. */
  datatype ToolDelta = ToolDelta(index: nat, id: Option<string>, name: Option<string>, args: string)

  /** The first choice of a chunk; a chunk without a choice or without a delta is Hollow. */
  datatype Chunk =
    | Hollow
    | Chunk(id: string, model: string, role: bool, content: Option<string>, reasoning: Option<string>, refusal: Option<string>,
            toolCalls: seq<ToolDelta>, finish: Option<string>)

  // ----- Responses events -----

  datatype Output =
    | OutMessage(itemID: string, text: string, status: string)
    | OutCall(itemID: string, callID: string, name: Option<string>, args: string, status: string)

  datatype Body =
    | Created(messageID: Option<string>)
    | InProgress(messageID: Option<string>)
    | MessageAdded(itemID: string)
    | PartAdded(itemID: string)
    | TextDelta(itemID: string, delta: string)
    | TextDone(itemID: string, text: string)
    | PartDone(itemID: string, text: string)
    | MessageDone(itemID: string, text: string, status: string)
    | CallAdded(outputIndex: nat, callID: string, name: Option<string>)
    | ArgsDelta(outputIndex: nat, itemID: string, delta: string)
    | ArgsDone(outputIndex: nat, itemID: string, args: string)
    | CallDone(outputIndex: nat, itemID: string, callID: string, name: Option<string>, args: string, status: string)
    | ReasoningDelta(delta: string)
    | RefusalDelta(refusal: string)
    | Terminal(completed: bool, messageID: Option<string>, model: string, status: string, stopReason: Option<string>, output: seq<Output>)

  datatype Event = Event(sequenceNumber: nat, body: Body)

  // ----- The state as a value -----

  datatype Head = Head(messageID: Option<string>, model: Option<string>, created: bool, inProgress: bool)

  datatype TextItem = TextItem(added: bool, closed: bool, hasContent: bool, text: string)

  datatype Calls = Calls(
    argBuffers: map<string, string>,
    names: map<string, string>,
    indexToID: map<nat, string>,
    currentIndex: nat,
    outputIndices: map<string, nat>)

  datatype St = St(head: Head, item: TextItem, calls: Calls, itemIDs: map<string, string>)

  const FRESH := St(Head(None, None, false, false), TextItem(false, false, false, ""), Calls(map[], map[], map[], 0, map[]), map[])

  /** A state and the bodies of the events emitted on the way to it. */
  datatype Phase = Phase(st: St, out: seq<Body>)

  /** A map read, with Go's zero value for a missing key. */
  function Get(m: map<string, string>, k: string): string {
    if k in m then m[k] else ""
  }

  function IndexOf(m: map<string, nat>, k: string): nat {
    if k in m then m[k] else 0
  }

  predicate Present(s: Option<string>) {
    s.Some? && s.value != ""
  }

  // ----- Finish reasons -----

  /** Only "length" leaves a response incomplete; unknown reasons count as completed. */
  predicate Completes(finish: string) {
    finish != "length"
  }

  function Status(finish: string): string {
    if Completes(finish) then "completed" else "incomplete"
  }

  function StopReason(finish: string): Option<string> {
    if finish == "length" || finish == "stop" || finish == "tool_calls" then Some(finish) else None
  }

  // ----- One chunk -----

  function Identify(h: Head, c: Chunk): Head
    requires c.Chunk?
  {
    h.(messageID := if h.messageID.None? && c.id != "" then Some(c.id) else h.messageID,
       model := if h.model.None? && c.model != "" then Some(c.model) else h.model)
  }

  function BeginPhase(s: St, c: Chunk): Phase
    requires c.Chunk?
  {
    var h := Identify(s.head, c);
    if c.role && !h.created
    then Phase(s.(head := h.(created := true, inProgress := true)), [Created(h.messageID), InProgress(h.messageID)])
    else Phase(s.(head := h), [])
  }

  function TextItemID(h: Head): string {
    if h.messageID.None? then "item_0" else "msg_" + h.messageID.value + "_item_0"
  }

  function AddTextItem(s: St): Phase {
    if s.item.added then Phase(s, [])
    else
      var id := TextItemID(s.head);
      Phase(s.(itemIDs := s.itemIDs["text" := id], item := s.item.(added := true)), [MessageAdded(id), PartAdded(id)])
  }

  function AddText(s: St, delta: string): Phase {
    Phase(s.(item := s.item.(text := s.item.text + delta, hasContent := true)), [TextDelta(Get(s.itemIDs, "text"), delta)])
  }

  function TextPhase(s: St, c: Chunk): Phase
    requires c.Chunk?
  {
    if Present(c.content) || (Present(c.reasoning) && !s.item.added) then
      var added := AddTextItem(s);
      if Present(c.content) || !added.st.item.hasContent then
        var more := AddText(added.st, if Present(c.content) then c.content.value else "");
        Phase(more.st, added.out + more.out)
      else added
    else Phase(s, [])
  }

  function CloseText(s: St, status: string): Phase {
    var itemID := Get(s.itemIDs, "text");
    Phase(s.(item := s.item.(closed := true)),
          [TextDone(itemID, s.item.text), PartDone(itemID, s.item.text), MessageDone(itemID, s.item.text, status)])
  }

  /** The call a tool delta belongs to: by its ID, else by its index. */
  function CallOf(k: Calls, t: ToolDelta): Option<string> {
    if Present(t.id) then t.id
    else if t.index in k.indexToID then Some(k.indexToID[t.index])
    else None
  }

  function NewIndex(k: Calls): nat {
    if k.currentIndex == 0 then 1 else k.currentIndex
  }

  function Register(k: Calls, t: ToolDelta, id: string): Calls {
    Calls(k.argBuffers[id := ""], if t.name.Some? then k.names[id := t.name.value] else k.names, k.indexToID[t.index := id],
          NewIndex(k) + 1, k.outputIndices[id := NewIndex(k)])
  }

  function AddCall(s: St, t: ToolDelta, id: string): Phase {
    Phase(s.(calls := Register(s.calls, t, id), itemIDs := s.itemIDs[id := id]), [CallAdded(NewIndex(s.calls), id, t.name)])
  }

  /** A text item with content is closed before the first event of a new call. */
  function Introduce(s: St, t: ToolDelta, id: string): Phase {
    if s.item.added && !s.item.closed && s.item.hasContent then
      var closing := CloseText(s, "completed");
      var adding := AddCall(closing.st, t, id);
      Phase(adding.st, closing.out + adding.out)
    else AddCall(s, t, id)
  }

  function AddArgs(s: St, id: string, args: string): Phase {
    if args == "" then Phase(s, [])
    else
      Phase(s.(calls := s.calls.(argBuffers := s.calls.argBuffers[id := Get(s.calls.argBuffers, id) + args])),
            [ArgsDelta(IndexOf(s.calls.outputIndices, id), Get(s.itemIDs, id), args)])
  }

  /** A chunk is given up when its call is not known. */
  predicate GivesUp(s: St, c: Chunk)
    requires c.Chunk?
  {
    c.toolCalls != [] && CallOf(s.calls, c.toolCalls[0]).None?
  }

  predicate IsNew(s: St, t: ToolDelta) {
    Present(t.id) && t.id.value !in s.calls.outputIndices
  }

  /** Only the first tool call of a delta is looked at. */
  function ToolPhase(s: St, c: Chunk): Phase
    requires c.Chunk?
  {
    if c.toolCalls == [] || GivesUp(s, c) then Phase(s, [])
    else
      var t := c.toolCalls[0];
      var id := CallOf(s.calls, t).value;
      var introduced := if IsNew(s, t) then Introduce(s, t, id) else Phase(s, []);
      var more := AddArgs(introduced.st, id, t.args);
      Phase(more.st, introduced.out + more.out)
  }

  function ThoughtPhase(c: Chunk): seq<Body>
    requires c.Chunk?
  {
    (if Present(c.reasoning) then [ReasoningDelta(c.reasoning.value)] else [])
    + (if Present(c.refusal) then [RefusalDelta(c.refusal.value)] else [])
  }

  function CallName(k: Calls, id: string): Option<string> {
    if id in k.names && k.names[id] != "" then Some(k.names[id]) else None
  }

  /** The closing events of the calls with arguments, in the order the map is iterated. */
  function CloseCalls(s: St, order: seq<string>, status: string): seq<Body> {
    if order == [] then []
    else
      var id := order[|order| - 1];
      var args := Get(s.calls.argBuffers, id);
      CloseCalls(s, order[..|order| - 1], status)
      + if args == "" then []
        else
          var index, itemID := IndexOf(s.calls.outputIndices, id), Get(s.itemIDs, id);
          [ArgsDone(index, itemID, args), CallDone(index, itemID, id, CallName(s.calls, id), args, status)]
  }

  /** The IDs with the output indices 1 to n, in that order: what sorting the entries by output
      index gives, when those are the indices in use. */
  ghost function CallsInOrder(indices: map<string, nat>, n: nat): seq<string> {
    if n == 0 then []
    else if exists id :: id in indices && indices[id] == n then
      var id :| id in indices && indices[id] == n;
      CallsInOrder(indices, n - 1) + [id]
    else CallsInOrder(indices, n - 1)
  }

  function CallOutputs(s: St, ids: seq<string>, status: string): seq<Output> {
    if ids == [] then []
    else
      var id := ids[|ids| - 1];
      CallOutputs(s, ids[..|ids| - 1], status)
      + [OutCall(Get(s.itemIDs, id), id, CallName(s.calls, id), Get(s.calls.argBuffers, id), status)]
  }

  function MessageOutput(s: St, status: string): seq<Output> {
    if s.item.added then [OutMessage(Get(s.itemIDs, "text"), s.item.text, status)] else []
  }

  ghost function TerminalOf(s: St, finish: string): Body {
    Terminal(Completes(finish), s.head.messageID, if s.head.model.Some? then s.head.model.value else "", Status(finish), StopReason(finish),
             MessageOutput(s, Status(finish))
             + CallOutputs(s, CallsInOrder(s.calls.outputIndices, s.calls.currentIndex), Status(finish)))
  }

  function ClosingPhase(s: St, status: string): Phase {
    if s.item.added && !s.item.closed then CloseText(s, status) else Phase(s, [])
  }

  /** order is the order in which the argument buffers are iterated. */
  ghost function FinishPhase(s: St, c: Chunk, order: seq<string>): Phase
    requires c.Chunk?
  {
    if c.finish.None? then Phase(s, [])
    else
      var closing := ClosingPhase(s, Status(c.finish.value));
      Phase(closing.st,
            closing.out + CloseCalls(closing.st, order, Status(c.finish.value)) + [TerminalOf(closing.st, c.finish.value)])
  }

  /** What one chunk does: nothing after its tool call when that call is not known. */
  ghost function Step(s: St, c: Chunk, order: seq<string>): Phase {
    if c.Hollow? then Phase(s, [])
    else
      var begin := BeginPhase(s, c);
      var text := TextPhase(begin.st, c);
      var tool := ToolPhase(text.st, c);
      if GivesUp(text.st, c) then Phase(tool.st, begin.out + text.out + tool.out)
      else
        var finish := FinishPhase(tool.st, c, order);
        Phase(finish.st, begin.out + text.out + tool.out + ThoughtPhase(c) + finish.out)
  }

  /** The events carry these bodies and consecutive sequence numbers. */
  ghost predicate Numbered(events: seq<Event>, bodies: seq<Body>, first: nat) {
    |events| == |bodies| && forall i {:trigger events[i]} :: 0 <= i < |events| ==> events[i] == Event(first + i, bodies[i])
  }

  lemma NumberedGrows(events: seq<Event>, bodies: seq<Body>, first: nat, body: Body)
    requires Numbered(events, bodies, first)
    ensures Numbered(events + [Event(first + |events|, body)], bodies + [body], first)
  {
  }

  /** Output indices are below the counter and belong to one call each; the argument buffers are
      those of the calls. */
  ghost predicate CallsOk(k: Calls) {
    && k.currentIndex != 1
    && (k.currentIndex == 0 ==> k.outputIndices == map[])
    && k.outputIndices.Keys == k.argBuffers.Keys
    && (forall id :: id in k.outputIndices ==> 1 <= k.outputIndices[id] < k.currentIndex)
    && (forall id, id' :: id in k.outputIndices && id' in k.outputIndices && k.outputIndices[id] == k.outputIndices[id'] ==> id == id')
    && (forall x :: x in k.indexToID ==> k.indexToID[x] in k.outputIndices)
  }

  lemma NumberedEmpty(first: nat)
    ensures Numbered([], [], first)
  {
  }

  lemma RegisterOk(k: Calls, t: ToolDelta, id: string)
    requires CallsOk(k) && id !in k.outputIndices
    ensures CallsOk(Register(k, t, id))
  {
  }

  lemma ArgsOk(k: Calls, id: string, args: string)
    requires CallsOk(k) && id in k.outputIndices
    ensures CallsOk(k.(argBuffers := k.argBuffers[id := args]))
  {
  }

  lemma StepOk(s: St, c: Chunk, order: seq<string>)
    requires CallsOk(s.calls)
    ensures CallsOk(Step(s, c, order).st.calls)
  {
    if c.Chunk? {
      var s1 := TextPhase(BeginPhase(s, c).st, c).st;
      assert s1.calls == s.calls;
      ToolOk(s1, c);
    }
  }

  lemma ToolOk(s: St, c: Chunk)
    requires CallsOk(s.calls) && c.Chunk?
    ensures CallsOk(ToolPhase(s, c).st.calls)
  {
    if c.toolCalls != [] && !GivesUp(s, c) {
      var t, id := c.toolCalls[0], CallOf(s.calls, c.toolCalls[0]).value;
      var k := s.calls;
      if IsNew(s, t) {
        RegisterOk(k, t, id);
        k := Register(k, t, id);
      }
      ArgsOk(k, id, Get(k.argBuffers, id) + t.args);
    }
  }
}
