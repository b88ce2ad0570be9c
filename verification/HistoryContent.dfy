/** The conversion of a log to a prompt adds messages but never drops, alters or reorders stored ones. */
module HistoryContent {
  import opened Events
  import opened MessageHistory
  import HistoryBalance

  /** Every message stored in the log, in order. */
  function Stored(events: seq<EventData>): seq<Message> {
    if events == [] then []
    else
      var earlier := Stored(events[..|events| - 1]);
      match events[|events| - 1] case Messages(messages) => earlier + messages case _ => earlier
  }

  /** `a` can be had from `b` by leaving messages out. */
  ghost predicate Within(a: seq<Message>, b: seq<Message>)
    decreases |b|
  {
    if b == [] then a == []
    else
      || Within(a, b[..|b| - 1])
      || (a != [] && a[|a| - 1] == b[|b| - 1] && Within(a[..|a| - 1], b[..|b| - 1]))
  }

  lemma {:induction false} WithinMore(a: seq<Message>, b: seq<Message>, more: seq<Message>)
    requires Within(a, b)
    ensures Within(a, b + more)
  {
    if more == [] {
      assert b + more == b;
    } else {
      WithinMore(a, b, more[..|more| - 1]);
      assert (b + more)[..|b + more| - 1] == b + more[..|more| - 1];
    }
  }

  lemma {:induction false} WithinSnoc(a: seq<Message>, b: seq<Message>, m: Message)
    requires Within(a, b)
    ensures Within(a + [m], b + [m])
  {
    assert (a + [m])[..|a|] == a && (b + [m])[..|b|] == b;
  }

  lemma {:induction false} MessageKept(b: Build, kept: seq<Message>, m: Message)
    requires Within(kept, b.history)
    ensures Within(kept + [m], StepMessage(b, m).history)
  {
    if m.Tool? {
      WithinSnoc(kept, b.history, m);
    } else {
      var flushed := Flush(b);
      WithinMore(kept, b.history, Cancelled(b.names, b.pending));
      WithinSnoc(kept, flushed.history, m);
      if m.Assistant? {
        HistoryBalance.AddCallsKeepsHistory(flushed, m.parts);
      }
    }
  }

  lemma {:induction false} MessagesKept(b: Build, kept: seq<Message>, messages: seq<Message>)
    requires Within(kept, b.history)
    ensures Within(kept + messages, StepMessages(b, messages).history)
  {
    if messages == [] {
      assert kept + messages == kept;
    } else {
      var init, m := messages[..|messages| - 1], messages[|messages| - 1];
      MessagesKept(b, kept, init);
      MessageKept(StepMessages(b, init), kept + init, m);
      assert kept + init + [m] == kept + messages;
    }
  }

  lemma {:induction false} EventsKept(events: seq<EventData>)
    ensures Within(Stored(events), Fold(EMPTY, events).history)
  {
    if events != [] {
      var init, e := events[..|events| - 1], events[|events| - 1];
      EventsKept(init);
      var b := Fold(EMPTY, init);
      match e {
        case Messages(messages) => MessagesKept(b, Stored(init), messages);
        case ToolRequested(call) => WithinMore(Stored(init), b.history, [CallMessage(call)]);
        case ToolResult(id, result) =>
          if id in b.names {
            WithinMore(Stored(init), b.history, [Tool([ResultPart(id, b.names[id], result)])]);
          }
        case _ =>
      }
    }
  }

  /** For every log, the prompt holds every stored message, unaltered and in order. */
  lemma {:induction false} StoredMessagesKept(events: seq<EventData>)
    ensures Within(Stored(events), Recompute(events))
  {
    EventsKept(events);
    var b := Fold(EMPTY, events);
    WithinMore(Stored(events), b.history, Cancelled(b.names, b.pending));
  }

  // ----- Complete rounds -----

  /** Only plain messages, only while nothing is pending; requests with new ids; results of pending calls. */
  ghost predicate Complete(b: Build, events: seq<EventData>) {
    events != [] ==>
      var init, e := events[..|events| - 1], events[|events| - 1];
      var before := Fold(b, init);
      && Complete(b, init)
      && match e
         case Messages(messages) => before.pending == [] && forall i :: 0 <= i < |messages| ==> messages[i].Plain?
         case ToolRequested(call) => call.id !in before.names
         case ToolResult(id, _) => id in before.pending && id in before.names
         case _ => true
  }

  /** The name an id was requested under. */
  function Requested(events: seq<EventData>): map<CallId, Name> {
    if events == [] then map[]
    else
      var earlier := Requested(events[..|events| - 1]);
      match events[|events| - 1]
      case ToolRequested(call) => earlier[call.id := call.request.functionName]
      case _ => earlier
  }

  /** Event by event: messages as they are, a call for a request, a result for a result. */
  function Rendered(events: seq<EventData>): seq<Message> {
    if events == [] then []
    else
      var init := events[..|events| - 1];
      match events[|events| - 1]
      case Messages(messages) => Rendered(init) + messages
      case ToolRequested(Call(id, ToolRequest(name, arguments))) =>
        Rendered(init) + [Assistant([CallPart(id, name, arguments)])]
      case ToolResult(id, result) =>
        Rendered(init) + if id in Requested(init) then [Tool([ResultPart(id, Requested(init)[id], result)])] else []
      case _ => Rendered(init)
  }

  lemma {:induction false} PlainMessages(b: Build, messages: seq<Message>)
    requires b.pending == [] && forall i :: 0 <= i < |messages| ==> messages[i].Plain?
    ensures StepMessages(b, messages) == Build(b.history + messages, b.names, [])
  {
    if messages == [] {
      assert b.history + messages == b.history;
    } else {
      var init, m := messages[..|messages| - 1], messages[|messages| - 1];
      PlainMessages(b, init);
      var mid := StepMessages(b, init);
      assert mid.history + [] == mid.history;
      assert b.history + init + [m] == b.history + messages;
    }
  }

  lemma {:induction false} CompleteFold(events: seq<EventData>)
    requires Complete(EMPTY, events)
    ensures Fold(EMPTY, events).history == Rendered(events) && Fold(EMPTY, events).names == Requested(events)
  {
    if events != [] {
      var init, e := events[..|events| - 1], events[|events| - 1];
      CompleteFold(init);
      if e.Messages? {
        PlainMessages(Fold(EMPTY, init), e.messages);
      }
    }
  }

  /** A log of complete rounds is rendered event by event: real results under the requested names, nothing cancelled. */
  lemma {:induction false} CompleteRoundsRendered(events: seq<EventData>)
    requires Complete(EMPTY, events) && Fold(EMPTY, events).pending == []
    ensures Recompute(events) == Rendered(events)
  {
    CompleteFold(events);
    assert Rendered(events) + [] == Rendered(events);
  }

  // ----- Calls -----

  /** A call as the model sees it. */
  datatype CallShown = CallShown(id: CallId, name: Name, arguments: Value)

  function ShownIn(parts: seq<AssistantPart>): seq<CallShown> {
    if parts == [] then []
    else
      var earlier := ShownIn(parts[..|parts| - 1]);
      match parts[|parts| - 1]
      case CallPart(id, name, arguments) => earlier + [CallShown(id, name, arguments)]
      case OtherPart(_) => earlier
  }

  /** Every call shown in a list of messages, in order. */
  function Shown(messages: seq<Message>): seq<CallShown> {
    if messages == [] then []
    else
      var earlier := Shown(messages[..|messages| - 1]);
      match messages[|messages| - 1] case Assistant(parts) => earlier + ShownIn(parts) case _ => earlier
  }

  /** Read off the log: the calls of stored messages, and every request whose id was not shown before. */
  function ToShow(events: seq<EventData>): seq<CallShown> {
    if events == [] then []
    else
      var earlier := ToShow(events[..|events| - 1]);
      match events[|events| - 1]
      case Messages(messages) => earlier + Shown(messages)
      case ToolRequested(Call(id, ToolRequest(name, arguments))) =>
        if id in ShownIds(earlier) then earlier else earlier + [CallShown(id, name, arguments)]
      case _ => earlier
  }

  function ShownIds(calls: seq<CallShown>): set<CallId> { set c | c in calls :: c.id }

  lemma {:induction false} ShownSnoc(messages: seq<Message>, m: Message)
    ensures Shown(messages + [m]) == if m.Assistant? then Shown(messages) + ShownIn(m.parts) else Shown(messages)
  {
    assert (messages + [m])[..|messages|] == messages;
  }

  lemma {:induction false} CancelledShowNothing(history: seq<Message>, names: map<CallId, Name>, pending: seq<CallId>)
    ensures Shown(history + Cancelled(names, pending)) == Shown(history)
  {
    if pending == [] {
      assert history + Cancelled(names, pending) == history;
    } else {
      var init, id := pending[..|pending| - 1], pending[|pending| - 1];
      CancelledShowNothing(history, names, init);
      if id in names {
        var m := Tool([ResultPart(id, names[id], CANCELLED)]);
        assert history + Cancelled(names, pending) == history + Cancelled(names, init) + [m];
        ShownSnoc(history + Cancelled(names, init), m);
      } else {
        assert Cancelled(names, pending) == Cancelled(names, init);
      }
    }
  }

  lemma {:induction false} IdsConcat(x: seq<CallShown>, y: seq<CallShown>)
    ensures ShownIds(x + y) == ShownIds(x) + ShownIds(y)
  {
    assert forall c :: c in x + y <==> c in x || c in y;
  }

  lemma {:induction false} AddCallsNames(b: Build, parts: seq<AssistantPart>)
    ensures AddCalls(b, parts).names.Keys == b.names.Keys + ShownIds(ShownIn(parts))
  {
    if parts != [] {
      AddCallsNames(b, parts[..|parts| - 1]);
      if parts[|parts| - 1].CallPart? {
        var p := parts[|parts| - 1];
        IdsConcat(ShownIn(parts[..|parts| - 1]), [CallShown(p.id, p.name, p.arguments)]);
      }
    }
  }

  /** What is shown, and that the name table holds exactly the shown ids. */
  ghost predicate ShowsAll(b: Build, calls: seq<CallShown>) {
    Shown(b.history) == calls && b.names.Keys == ShownIds(calls)
  }

  lemma {:induction false} MessageShown(b: Build, calls: seq<CallShown>, m: Message)
    requires ShowsAll(b, calls)
    ensures ShowsAll(StepMessage(b, m), if m.Assistant? then calls + ShownIn(m.parts) else calls)
  {
    if !m.Tool? {
      CancelledShowNothing(b.history, b.names, b.pending);
    }
    ShownSnoc(b.history, m);
    ShownSnoc(Flush(b).history, m);
    if m.Assistant? {
      HistoryBalance.AddCallsKeepsHistory(Flush(b), m.parts);
      AddCallsNames(Flush(b), m.parts);
      IdsConcat(calls, ShownIn(m.parts));
    }
  }

  lemma {:induction false} MessagesShown(b: Build, calls: seq<CallShown>, messages: seq<Message>)
    requires ShowsAll(b, calls)
    ensures ShowsAll(StepMessages(b, messages), calls + Shown(messages))
  {
    if messages == [] {
      assert calls + Shown(messages) == calls;
    } else {
      var init, m := messages[..|messages| - 1], messages[|messages| - 1];
      MessagesShown(b, calls, init);
      MessageShown(StepMessages(b, init), calls + Shown(init), m);
      assert m.Assistant? ==> calls + Shown(init) + ShownIn(m.parts) == calls + Shown(messages);
    }
  }

  lemma {:induction false} RequestShown(b: Build, calls: seq<CallShown>, call: Call)
    requires ShowsAll(b, calls) && call.id !in b.names
    ensures ShowsAll(StepEvent(b, ToolRequested(call)),
                     calls + [CallShown(call.id, call.request.functionName, call.request.arguments)])
  {
    var shown := CallShown(call.id, call.request.functionName, call.request.arguments);
    var parts := CallMessage(call).parts;
    assert parts[..0] == [];
    assert ShownIn(parts) == [shown];
    ShownSnoc(b.history, CallMessage(call));
    IdsConcat(calls, [shown]);
  }

  lemma {:induction false} EventsShown(events: seq<EventData>)
    ensures ShowsAll(Fold(EMPTY, events), ToShow(events))
  {
    if events != [] {
      var init, e := events[..|events| - 1], events[|events| - 1];
      EventsShown(init);
      var b := Fold(EMPTY, init);
      match e {
        case Messages(messages) => MessagesShown(b, ToShow(init), messages);
        case ToolRequested(call) => if call.id !in b.names { RequestShown(b, ToShow(init), call); }
        case ToolResult(id, result) =>
          if id in b.names { ShownSnoc(b.history, Tool([ResultPart(id, b.names[id], result)])); }
        case _ =>
      }
    }
  }

  /**
   For every log, the calls in the prompt are, in order and with their names and arguments, exactly the
   calls of the stored messages and the requests whose ids were not shown before.
   */
  lemma {:induction false} CallsShownExactly(events: seq<EventData>)
    ensures Shown(Recompute(events)) == ToShow(events)
  {
    EventsShown(events);
    var b := Fold(EMPTY, events);
    CancelledShowNothing(b.history, b.names, b.pending);
  }

  // ----- Results -----

  /** A tool message is stored in the log, gives the value of a result event, or cancels one call. */
  ghost predicate Explained(events: seq<EventData>, m: Message) {
    || (exists i :: 0 <= i < |events| && events[i].Messages? && m in events[i].messages)
    || (m.Tool? && |m.results| == 1 && m.results[0].output == CANCELLED)
    || (m.Tool? && |m.results| == 1
        && exists i :: 0 <= i < |events| && events[i] == ToolResult(m.results[0].id, m.results[0].output))
  }

  ghost predicate AllExplained(events: seq<EventData>, history: seq<Message>) {
    forall k :: 0 <= k < |history| && history[k].Tool? ==> Explained(events, history[k])
  }

  lemma {:induction false} ExplainedLater(events: seq<EventData>, e: EventData, history: seq<Message>)
    requires AllExplained(events, history)
    ensures AllExplained(events + [e], history)
  {
    var all := events + [e];
    assert forall i :: 0 <= i < |events| ==> all[i] == events[i];
    forall k | 0 <= k < |history| && history[k].Tool? ensures Explained(all, history[k]) {
      assert Explained(events, history[k]);
    }
  }

  lemma {:induction false} CancelledExplained(events: seq<EventData>, history: seq<Message>, names: map<CallId, Name>,
      pending: seq<CallId>)
    requires AllExplained(events, history)
    ensures AllExplained(events, history + Cancelled(names, pending))
  {
    if pending == [] {
      assert history + Cancelled(names, pending) == history;
    } else {
      var init, id := pending[..|pending| - 1], pending[|pending| - 1];
      CancelledExplained(events, history, names, init);
      var before := history + Cancelled(names, init);
      if id in names {
        var m := Tool([ResultPart(id, names[id], CANCELLED)]);
        assert history + Cancelled(names, pending) == before + [m];
        assert Explained(events, m);
      } else {
        assert Cancelled(names, pending) == Cancelled(names, init);
      }
    }
  }

  lemma {:induction false} MessagesExplained(events: seq<EventData>, b: Build, messages: seq<Message>, n: nat)
    requires AllExplained(events, b.history) && n <= |messages|
    requires exists i :: 0 <= i < |events| && events[i] == Messages(messages)
    ensures AllExplained(events, StepMessages(b, messages[..n]).history)
  {
    if n > 0 {
      MessagesExplained(events, b, messages, n - 1);
      assert messages[..n][..n - 1] == messages[..n - 1];
      var mid, m := StepMessages(b, messages[..n - 1]), messages[n - 1];
      assert m in messages;
      CancelledExplained(events, mid.history, mid.names, mid.pending);
      if m.Assistant? {
        HistoryBalance.AddCallsKeepsHistory(Flush(mid), m.parts);
      }
    }
  }

  lemma {:induction false} EventsExplained(events: seq<EventData>)
    ensures AllExplained(events, Fold(EMPTY, events).history)
  {
    if events != [] {
      var init, e := events[..|events| - 1], events[|events| - 1];
      EventsExplained(init);
      var b := Fold(EMPTY, init);
      assert events == init + [e] && events[|init|] == e;
      ExplainedLater(init, e, b.history);
      if e.Messages? {
        MessagesExplained(events, b, e.messages, |e.messages|);
        assert e.messages[..|e.messages|] == e.messages;
      }
    }
  }

  /**
   For every log, no tool result in the prompt is made up: it was stored, journaled with that value, or
   marks a cancelled call.
   */
  lemma {:induction false} ResultsExplained(events: seq<EventData>)
    ensures AllExplained(events, Recompute(events))
  {
    EventsExplained(events);
    var b := Fold(EMPTY, events);
    CancelledExplained(events, b.history, b.names, b.pending);
  }
}
