/**
 The mutable state of one stream, as core/schemas/mux.go keeps it: each method does to the fields,
 and emits, exactly what the translator's functions say.
 */
module StreamState {
  import opened Wrappers
  import opened StreamTranslation

  class ChatToResponsesStreamState {
    var argBuffers: map<string, string>
    var itemIDs: map<string, string>
    var names: map<string, string>
    var indexToID: map<nat, string>
    var messageID: Option<string>
    var model: Option<string>
    var created: bool
    var inProgress: bool
    var textAdded: bool
    var textClosed: bool
    var textHasContent: bool
    var text: string
    var currentIndex: nat
    var outputIndices: map<string, nat>
    var sequenceNumber: nat

    constructor ()
      ensures Value() == FRESH && sequenceNumber == 0
    {
      argBuffers, itemIDs, names, indexToID := map[], map[], map[], map[];
      messageID, model := None, None;
      created, inProgress, textAdded, textClosed, textHasContent := false, false, false, false, false;
      text, currentIndex, outputIndices, sequenceNumber := "", 0, map[], 0;
    }

    function HeadValue(): Head
      reads this
    {
      Head(messageID, model, created, inProgress)
    }

    function ItemValue(): TextItem
      reads this
    {
      TextItem(textAdded, textClosed, textHasContent, text)
    }

    function CallsValue(): Calls
      reads this
    {
      Calls(argBuffers, names, indexToID, currentIndex, outputIndices)
    }

    function Value(): St
      reads this
    {
      St(HeadValue(), ItemValue(), CallsValue(), itemIDs)
    }

    /** Append one event with the next sequence number. */
    method Emit(events: seq<Event>, body: Body, ghost bodies: seq<Body>, ghost first: nat)
        returns (events': seq<Event>, ghost bodies': seq<Body>)
      requires Numbered(events, bodies, first) && sequenceNumber == first + |events|
      modifies this`sequenceNumber
      ensures bodies' == bodies + [body]
      ensures Numbered(events', bodies', first) && sequenceNumber == first + |events'|
    {
      NumberedGrows(events, bodies, first, body);
      events', bodies' := events + [Event(sequenceNumber, body)], bodies + [body];
      sequenceNumber := sequenceNumber + 1;
    }

    method EmitTextDone(events: seq<Event>, status: string, ghost bodies: seq<Body>, ghost first: nat)
        returns (events': seq<Event>, ghost bodies': seq<Body>)
      requires Numbered(events, bodies, first) && sequenceNumber == first + |events|
      modifies this`sequenceNumber, this`textClosed
      ensures Value() == CloseText(old(Value()), status).st
      ensures bodies' == bodies + CloseText(old(Value()), status).out
      ensures Numbered(events', bodies', first) && sequenceNumber == first + |events'|
    {
      hide Numbered;
      var itemID := Get(itemIDs, "text");
      events', bodies' := Emit(events, TextDone(itemID, text), bodies, first);
      events', bodies' := Emit(events', PartDone(itemID, text), bodies', first);
      events', bodies' := Emit(events', MessageDone(itemID, text, status), bodies', first);
      textClosed := true;
    }

    method Begin(c: Chunk, events: seq<Event>, ghost bodies: seq<Body>, ghost first: nat)
        returns (events': seq<Event>, ghost bodies': seq<Body>)
      requires c.Chunk? && Numbered(events, bodies, first) && sequenceNumber == first + |events|
      modifies this`sequenceNumber, this`messageID, this`model, this`created, this`inProgress
      ensures HeadValue() == BeginPhase(old(Value()), c).st.head
      ensures bodies' == bodies + BeginPhase(old(Value()), c).out
      ensures Numbered(events', bodies', first) && sequenceNumber == first + |events'|
    {
      hide Numbered;
      events', bodies' := events, bodies;
      if messageID.None? && c.id != "" {
        messageID := Some(c.id);
      }
      if model.None? && c.model != "" {
        model := Some(c.model);
      }
      if c.role && !created {
        events', bodies' := Emit(events', Created(messageID), bodies', first);
        created := true;
        events', bodies' := Emit(events', InProgress(messageID), bodies', first);
        inProgress := true;
      }
    }

    method AddMessageItem(events: seq<Event>, ghost bodies: seq<Body>, ghost first: nat)
        returns (events': seq<Event>, ghost bodies': seq<Body>)
      requires !textAdded && Numbered(events, bodies, first) && sequenceNumber == first + |events|
      modifies this`sequenceNumber, this`itemIDs, this`textAdded
      ensures Value() == AddTextItem(old(Value())).st
      ensures bodies' == bodies + AddTextItem(old(Value())).out
      ensures Numbered(events', bodies', first) && sequenceNumber == first + |events'|
    {
      hide Numbered;
      var itemID := TextItemID(HeadValue());
      itemIDs := itemIDs["text" := itemID];
      events', bodies' := Emit(events, MessageAdded(itemID), bodies, first);
      textAdded := true;
      events', bodies' := Emit(events', PartAdded(itemID), bodies', first);
    }

    method EmitTextDelta(delta: string, events: seq<Event>, ghost bodies: seq<Body>, ghost first: nat)
        returns (events': seq<Event>, ghost bodies': seq<Body>)
      requires Numbered(events, bodies, first) && sequenceNumber == first + |events|
      modifies this`sequenceNumber, this`text, this`textHasContent
      ensures Value() == AddText(old(Value()), delta).st
      ensures bodies' == bodies + AddText(old(Value()), delta).out
      ensures Numbered(events', bodies', first) && sequenceNumber == first + |events'|
    {
      hide Numbered;
      text := text + delta;
      events', bodies' := Emit(events, TextDelta(Get(itemIDs, "text"), delta), bodies, first);
      textHasContent := true;
    }

    method Text(c: Chunk, events: seq<Event>, ghost bodies: seq<Body>, ghost first: nat)
        returns (events': seq<Event>, ghost bodies': seq<Body>)
      requires c.Chunk? && Numbered(events, bodies, first) && sequenceNumber == first + |events|
      modifies this`sequenceNumber, this`itemIDs, this`textAdded, this`textHasContent, this`text
      ensures Value() == TextPhase(old(Value()), c).st
      ensures bodies' == bodies + TextPhase(old(Value()), c).out
      ensures Numbered(events', bodies', first) && sequenceNumber == first + |events'|
    {
      hide Numbered, Get, TextItemID, Present;
      events', bodies' := events, bodies;
      var hasContent, hasReasoning := Present(c.content), Present(c.reasoning);
      if hasContent || (hasReasoning && !textAdded) {
        if !textAdded {
          events', bodies' := AddMessageItem(events', bodies', first);
        }
        if hasContent || (!textHasContent && (hasReasoning || hasContent)) {
          var delta := if hasContent then ContentOf(c) else "";
          events', bodies' := EmitTextDelta(delta, events', bodies', first);
        }
      }
      TextPhaseBy(old(Value()), c);
    }

    method AddToolItem(t: ToolDelta, id: string, events: seq<Event>, ghost bodies: seq<Body>, ghost first: nat)
        returns (events': seq<Event>, ghost bodies': seq<Body>)
      requires Numbered(events, bodies, first) && sequenceNumber == first + |events|
      modifies this`sequenceNumber, this`currentIndex, this`outputIndices, this`itemIDs, this`indexToID, this`names, this`argBuffers
      ensures CallsValue() == Register(old(CallsValue()), t, id) && itemIDs == old(itemIDs)[id := id]
      ensures bodies' == bodies + [CallAdded(NewIndex(old(CallsValue())), id, t.name)]
      ensures Numbered(events', bodies', first) && sequenceNumber == first + |events'|
    {
      var outputIndex := currentIndex;
      if outputIndex == 0 {
        outputIndex := 1;
      }
      currentIndex := outputIndex + 1;
      outputIndices := outputIndices[id := outputIndex];
      itemIDs := itemIDs[id := id];
      indexToID := indexToID[t.index := id];
      if t.name.Some? {
        names := names[id := t.name.value];
      }
      argBuffers := argBuffers[id := ""];
      events', bodies' := Emit(events, CallAdded(outputIndex, id, t.name), bodies, first);
    }

    method Introducing(t: ToolDelta, id: string, events: seq<Event>, ghost bodies: seq<Body>, ghost first: nat)
        returns (events': seq<Event>, ghost bodies': seq<Body>)
      requires Numbered(events, bodies, first) && sequenceNumber == first + |events|
      modifies this
      ensures Value() == Introduce(old(Value()), t, id).st
      ensures bodies' == bodies + Introduce(old(Value()), t, id).out
      ensures Numbered(events', bodies', first) && sequenceNumber == first + |events'|
    {
      hide Numbered, Register, NewIndex;
      events', bodies' := events, bodies;
      if textAdded && !textClosed && textHasContent {
        events', bodies' := EmitTextDone(events', "completed", bodies', first);
      }
      events', bodies' := AddToolItem(t, id, events', bodies', first);
    }

    method EmitArgs(id: string, args: string, events: seq<Event>, ghost bodies: seq<Body>, ghost first: nat)
        returns (events': seq<Event>, ghost bodies': seq<Body>)
      requires Numbered(events, bodies, first) && sequenceNumber == first + |events|
      modifies this`sequenceNumber, this`argBuffers
      ensures Value() == AddArgs(old(Value()), id, args).st
      ensures bodies' == bodies + AddArgs(old(Value()), id, args).out
      ensures Numbered(events', bodies', first) && sequenceNumber == first + |events'|
    {
      hide Numbered;
      events', bodies' := events, bodies;
      if args != "" {
        argBuffers := argBuffers[id := Get(argBuffers, id) + args];
        events', bodies' := Emit(events', ArgsDelta(IndexOf(outputIndices, id), Get(itemIDs, id), args), bodies', first);
      }
    }

    method Tool(c: Chunk, events: seq<Event>, ghost bodies: seq<Body>, ghost first: nat)
        returns (events': seq<Event>, ghost bodies': seq<Body>, stop: bool)
      requires c.Chunk? && Numbered(events, bodies, first) && sequenceNumber == first + |events|
      modifies this
      ensures Value() == ToolPhase(old(Value()), c).st && stop == GivesUp(old(Value()), c)
      ensures bodies' == bodies + ToolPhase(old(Value()), c).out
      ensures Numbered(events', bodies', first) && sequenceNumber == first + |events'|
    {
      hide Numbered, Introduce, AddArgs;
      events', bodies', stop := events, bodies, false;
      if |c.toolCalls| > 0 {
        var t := c.toolCalls[0];
        var id;
        if Present(t.id) {
          id := t.id.value;
        } else if t.index in indexToID {
          id := indexToID[t.index];
        } else {
          stop := true;
          return;
        }
        if Present(t.id) && id !in outputIndices {
          events', bodies' := Introducing(t, id, events', bodies', first);
        }
        events', bodies' := EmitArgs(id, t.args, events', bodies', first);
      }
    }

    method Thoughts(c: Chunk, events: seq<Event>, ghost bodies: seq<Body>, ghost first: nat)
        returns (events': seq<Event>, ghost bodies': seq<Body>)
      requires c.Chunk? && Numbered(events, bodies, first) && sequenceNumber == first + |events|
      modifies this`sequenceNumber
      ensures bodies' == bodies + ThoughtPhase(c)
      ensures Numbered(events', bodies', first) && sequenceNumber == first + |events'|
    {
      hide Numbered;
      events', bodies' := events, bodies;
      if Present(c.reasoning) {
        events', bodies' := Emit(events', ReasoningDelta(c.reasoning.value), bodies', first);
      }
      if Present(c.refusal) {
        events', bodies' := Emit(events', RefusalDelta(c.refusal.value), bodies', first);
      }
    }

    /** The entries of the output-index map sorted by output index. */
    method SortedCalls() returns (ids: seq<string>)
      requires CallsOk(CallsValue()) == true
      ensures ids == CallsInOrder(outputIndices, currentIndex)
    {
      ids := [];
      for n := 0 to currentIndex
        invariant ids == CallsInOrder(outputIndices, n)
      {
        if exists id :: id in outputIndices && outputIndices[id] == n + 1 {
          var id :| id in outputIndices && outputIndices[id] == n + 1;
          ids := ids + [id];
        }
      }
    }

    method CloseToolItems(order: seq<string>, status: string, events: seq<Event>, ghost bodies: seq<Body>, ghost first: nat)
        returns (events': seq<Event>, ghost bodies': seq<Body>)
      requires Numbered(events, bodies, first) && sequenceNumber == first + |events|
      modifies this`sequenceNumber
      ensures bodies' == bodies + CloseCalls(Value(), order, status)
      ensures Numbered(events', bodies', first) && sequenceNumber == first + |events'|
    {
      hide Numbered;
      events', bodies' := events, bodies;
      for k := 0 to |order|
        invariant bodies' == bodies + CloseCalls(Value(), order[..k], status)
        invariant Numbered(events', bodies', first) && sequenceNumber == first + |events'|
      {
        assert order[..k + 1][..k] == order[..k];
        var id := order[k];
        var args := Get(argBuffers, id);
        if args != "" {
          var index, itemID, name := IndexOf(outputIndices, id), Get(itemIDs, id), CallName(CallsValue(), id);
          events', bodies' := Emit(events', ArgsDone(index, itemID, args), bodies', first);
          events', bodies' := Emit(events', CallDone(index, itemID, id, name, args, status), bodies', first);
        }
      }
      assert order[..|order|] == order;
    }

    method CollectOutput(status: string) returns (output: seq<Output>)
      requires CallsOk(CallsValue()) == true
      ensures output == MessageOutput(Value(), status) + CallOutputs(Value(), CallsInOrder(outputIndices, currentIndex), status)
    {
      hide CallsOk, CallsInOrder;
      output := [];
      if textAdded {
        output := [OutMessage(Get(itemIDs, "text"), text, status)];
      }
      ghost var message := MessageOutput(Value(), status);
      assert output == message;
      hide MessageOutput;
      var ids := SortedCalls();
      for k := 0 to |ids|
        invariant output == message + CallOutputs(Value(), ids[..k], status)
      {
        assert ids[..k + 1][..k] == ids[..k];
        var id := ids[k];
        output := output + [OutCall(Get(itemIDs, id), id, CallName(CallsValue(), id), Get(argBuffers, id), status)];
      }
      assert ids[..|ids|] == ids;
    }

    method Finish(c: Chunk, order: seq<string>, events: seq<Event>, ghost bodies: seq<Body>, ghost first: nat)
        returns (events': seq<Event>, ghost bodies': seq<Body>)
      requires c.Chunk? && Numbered(events, bodies, first) && sequenceNumber == first + |events|
      requires CallsOk(CallsValue()) == true
      modifies this`sequenceNumber, this`textClosed
      ensures Value() == FinishPhase(old(Value()), c, order).st
      ensures bodies' == bodies + FinishPhase(old(Value()), c, order).out
      ensures Numbered(events', bodies', first) && sequenceNumber == first + |events'|
    {
      hide Numbered, CloseCalls, CallOutputs, CallsInOrder, MessageOutput;
      events', bodies' := events, bodies;
      if c.finish.Some? {
        var status := Status(c.finish.value);
        if textAdded && !textClosed {
          events', bodies' := EmitTextDone(events', status, bodies', first);
        }
        events', bodies' := CloseToolItems(order, status, events', bodies', first);
        var output := CollectOutput(status);
        var terminal := Terminal(Completes(c.finish.value), messageID, if model.Some? then model.value else "", status,
                                 StopReason(c.finish.value), output);
        events', bodies' := Emit(events', terminal, bodies', first);
      }
    }

    method Complete(c: Chunk, order: seq<string>, events: seq<Event>, ghost bodies: seq<Body>, ghost first: nat)
        returns (events': seq<Event>, ghost bodies': seq<Body>)
      requires c.Chunk? && Numbered(events, bodies, first) && sequenceNumber == first + |events|
      requires CallsOk(CallsValue()) == true
      modifies this`sequenceNumber, this`textClosed
      ensures Value() == FinishPhase(old(Value()), c, order).st
      ensures bodies' == bodies + ThoughtPhase(c) + FinishPhase(old(Value()), c, order).out
      ensures Numbered(events', bodies', first) && sequenceNumber == first + |events'|
    {
      hide Numbered, ThoughtPhase, FinishPhase, CallsOk;
      events', bodies' := Thoughts(c, events, bodies, first);
      events', bodies' := Finish(c, order, events', bodies', first);
    }

    /** ToBifrostResponsesStreamResponse: the events of one chunk, numbered on from the last. */
    method Translate(c: Chunk, order: seq<string>) returns (events: seq<Event>, ghost bodies: seq<Body>)
      requires CallsOk(CallsValue()) == true
      modifies this
      ensures Value() == Step(old(Value()), c, order).st && CallsOk(CallsValue()) == true
      ensures bodies == Step(old(Value()), c, order).out
      ensures Numbered(events, bodies, old(sequenceNumber)) && sequenceNumber == old(sequenceNumber) + |events|
    {
      hide Numbered, BeginPhase, TextPhase, ToolPhase, GivesUp, ThoughtPhase, FinishPhase, CallsOk, Present;
      events, bodies := [], [];
      ghost var first, s := sequenceNumber, Value();
      NumberedEmpty(first);
      StepOk(s, c, order);
      if c.Hollow? {
        return;
      }
      BeginFrame(s, c);
      events, bodies := Begin(c, events, bodies, first);
      TextFrame(Value(), c);
      events, bodies := Text(c, events, bodies, first);
      var stop;
      ToolOk(Value(), c);
      events, bodies, stop := Tool(c, events, bodies, first);
      if !stop {
        events, bodies := Complete(c, order, events, bodies, first);
      }
    }
  }

  function ContentOf(c: Chunk): string
    requires c.Chunk? && Present(c.content)
  {
    c.content.value
  }

  lemma TextPhaseBy(s: St, c: Chunk)
    requires c.Chunk?
    ensures TextPhase(s, c) ==
            if Present(c.content) || (Present(c.reasoning) && !s.item.added) then
              var added := AddTextItem(s);
              if Present(c.content) || !added.st.item.hasContent then
                var more := AddText(added.st, if Present(c.content) then ContentOf(c) else "");
                Phase(more.st, added.out + more.out)
              else added
            else Phase(s, [])
  {
  }

  lemma BeginFrame(s: St, c: Chunk)
    requires c.Chunk?
    ensures BeginPhase(s, c).st == s.(head := BeginPhase(s, c).st.head)
  {
  }

  lemma TextFrame(s: St, c: Chunk)
    requires c.Chunk?
    ensures TextPhase(s, c).st.calls == s.calls
  {
  }
}
