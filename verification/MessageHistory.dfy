/**
 Turning an event log into the message list of a model prompt
 (crates/executor/src/message_history.rs).
 */
module MessageHistory {
  import opened Events

  /** Output of a result written for a call that never got one. */
  const CANCELLED: Value := 0

  /** The three variables of the conversion loop. */
  datatype Build = Build(history: seq<Message>, names: map<CallId, Name>, pending: seq<CallId>)

  const EMPTY := Build([], map[], [])

  function RemoveFirst(pending: seq<CallId>, id: CallId): seq<CallId> {
    if pending == [] then []
    else if pending[0] == id then pending[1..]
    else [pending[0]] + RemoveFirst(pending[1..], id)
  }

  function RemoveResults(pending: seq<CallId>, results: seq<ResultPart>): seq<CallId> {
    if results == [] then pending
    else RemoveFirst(RemoveResults(pending, results[..|results| - 1]), results[|results| - 1].id)
  }

  function Cancelled(names: map<CallId, Name>, pending: seq<CallId>): seq<Message> {
    if pending == [] then []
    else
      var id := pending[|pending| - 1];
      Cancelled(names, pending[..|pending| - 1])
      + if id in names then [Tool([ResultPart(id, names[id], CANCELLED)])] else []
  }

  function Flush(b: Build): Build {
    b.(history := b.history + Cancelled(b.names, b.pending), pending := [])
  }

  function AddCalls(b: Build, parts: seq<AssistantPart>): Build {
    if parts == [] then b
    else
      var b' := AddCalls(b, parts[..|parts| - 1]);
      match parts[|parts| - 1]
      case OtherPart(_) => b'
      case CallPart(id, name, _) => b'.(names := b'.names[id := name], pending := b'.pending + [id])
  }

  function StepMessage(b: Build, m: Message): Build {
    var b1 := if m.Tool? then b.(pending := RemoveResults(b.pending, m.results)) else Flush(b);
    var b2 := if m.Assistant? then AddCalls(b1, m.parts) else b1;
    b2.(history := b2.history + [m])
  }

  function StepMessages(b: Build, messages: seq<Message>): Build {
    if messages == [] then b
    else StepMessage(StepMessages(b, messages[..|messages| - 1]), messages[|messages| - 1])
  }

  function CallMessage(call: Call): Message {
    Assistant([CallPart(call.id, call.request.functionName, call.request.arguments)])
  }

  function StepEvent(b: Build, e: EventData): Build {
    match e
    case Messages(messages) => StepMessages(b, messages)
    case ToolRequested(call) =>
      if call.id in b.names then b
      else Build(b.history + [CallMessage(call)], b.names[call.id := call.request.functionName], b.pending + [call.id])
    case ToolResult(id, result) =>
      if id in b.pending && id in b.names
      then
        var answer := Tool([ResultPart(id, b.names[id], result)]);
        b.(history := b.history + [answer], pending := RemoveFirst(b.pending, id))
      else b
    case _ => b
  }

  function Fold(b: Build, events: seq<EventData>): Build {
    if events == [] then b
    else StepEvent(Fold(b, events[..|events| - 1]), events[|events| - 1])
  }

  /** One call of `extend_message_history`: no call is pending at its start, none at its end. */
  function Extend(history: seq<Message>, names: map<CallId, Name>, events: seq<EventData>): Build {
    Flush(Fold(Build(history, names, []), events))
  }

  /** The whole log converted in one pass (`materialize_conversation_messages`). */
  function Recompute(events: seq<EventData>): seq<Message> {
    Extend([], map[], events).history
  }

  // ----- The loops of the source, proved against the functions above -----

  method RemovePendingToolCall(pending: seq<CallId>, id: CallId) returns (r: seq<CallId>)
    ensures r == RemoveFirst(pending, id)
  {
    var i := 0;
    while i < |pending| && pending[i] != id
      invariant i <= |pending|
      invariant RemoveFirst(pending, id) == pending[..i] + RemoveFirst(pending[i..], id)
    {
      assert pending[i..][1..] == pending[i + 1..];
      i := i + 1;
    }
    if i < |pending| {
      assert pending[i..][1..] == pending[i + 1..];
      r := pending[..i] + pending[i + 1..];
    } else {
      r := pending;
    }
  }

  method FlushDanglingToolResults(history: seq<Message>, names: map<CallId, Name>, pending: seq<CallId>)
    returns (history': seq<Message>, pending': seq<CallId>)
    ensures history' == Flush(Build(history, names, pending)).history && pending' == []
  {
    history' := history;
    for i := 0 to |pending|
      invariant history' == history + Cancelled(names, pending[..i])
    {
      assert pending[..i + 1][..i] == pending[..i];
      if pending[i] in names {
        history' := history' + [Tool([ResultPart(pending[i], names[pending[i]], CANCELLED)])];
      }
    }
    assert pending[..|pending|] == pending;
    pending' := [];
  }

  method ExtendMessages(history: seq<Message>, names: map<CallId, Name>, pending: seq<CallId>, messages: seq<Message>)
    returns (history': seq<Message>, names': map<CallId, Name>, pending': seq<CallId>)
    ensures Build(history', names', pending') == StepMessages(Build(history, names, pending), messages)
  {
    history', names', pending' := history, names, pending;
    for i := 0 to |messages|
      invariant Build(history', names', pending') == StepMessages(Build(history, names, pending), messages[..i])
    {
      assert messages[..i + 1][..i] == messages[..i];
      var m := messages[i];
      ghost var before := Build(history', names', pending');
      match m {
        case Tool(results) =>
          for j := 0 to |results|
            invariant pending' == RemoveResults(before.pending, results[..j])
          {
            assert results[..j + 1][..j] == results[..j];
            pending' := RemovePendingToolCall(pending', results[j].id);
          }
          assert results[..|results|] == results;
        case _ =>
          history', pending' := FlushDanglingToolResults(history', names', pending');
      }
      if m.Assistant? {
        ghost var flushed := Build(history', names', pending');
        for j := 0 to |m.parts|
          invariant Build(history', names', pending') == AddCalls(flushed, m.parts[..j])
        {
          assert m.parts[..j + 1][..j] == m.parts[..j];
          match m.parts[j] {
            case CallPart(id, name, _) => names', pending' := names'[id := name], pending' + [id];
            case OtherPart(_) =>
          }
        }
        assert m.parts[..|m.parts|] == m.parts;
      }
      history' := history' + [m];
    }
    assert messages[..|messages|] == messages;
  }

  method ExtendMessageHistory(history: seq<Message>, names: map<CallId, Name>, events: seq<EventData>)
    returns (history': seq<Message>, names': map<CallId, Name>)
    ensures history' == Extend(history, names, events).history
    ensures names' == Extend(history, names, events).names
  {
    history', names' := history, names;
    var pending: seq<CallId> := [];
    for i := 0 to |events|
      invariant Build(history', names', pending) == Fold(Build(history, names, []), events[..i])
    {
      assert events[..i + 1][..i] == events[..i];
      match events[i] {
        case Messages(messages) =>
          history', names', pending := ExtendMessages(history', names', pending, messages);
        case ToolRequested(call) =>
          if call.id !in names' {
            history' := history' + [CallMessage(call)];
            names' := names'[call.id := call.request.functionName];
            pending := pending + [call.id];
          }
        case ToolResult(id, result) =>
          if id in pending && id in names' {
            pending := RemovePendingToolCall(pending, id);
            history' := history' + [Tool([ResultPart(id, names'[id], result)])];
          }
        case _ =>
      }
    }
    assert events[..|events|] == events;
    history', pending := FlushDanglingToolResults(history', names', pending);
  }
}
