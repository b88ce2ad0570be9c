/**
 The append-only event log of a thread and the queries the executor makes on it.

 Identifiers and payloads that the code only compares for equality (tool-call ids, approval ids,
 function names, JSON values) are numbers here. Event ids are time-ordered, so a log carries
 strictly increasing ids.
 */
module Events {
  import opened Wrappers

  type EventId = nat
  type SessionId = nat
  type TurnId = nat
  type CallId = nat
  type ApprovalId = nat
  type Name = nat
  type Value = nat

  datatype ToolRequest = ToolRequest(functionName: Name, arguments: Value)

  /** A tool call as the executor holds it: the id and the request of one `ToolRequested` event. */
  datatype Call = Call(id: CallId, request: ToolRequest)

  datatype Approval = Approval(id: ApprovalId, call: Option<CallId>, round: Option<nat>, request: ToolRequest)

  datatype Response = Response(approval: ApprovalId, approved: bool, allowedTool: Option<Name>)

  datatype AssistantPart = OtherPart(body: Value) | CallPart(id: CallId, name: Name, arguments: Value)

  datatype ResultPart = ResultPart(id: CallId, name: Name, output: Value)

  /** `Plain` stands for system, developer, user and text-only assistant messages. */
  datatype Message =
    | Plain(body: Value)
    | Assistant(parts: seq<AssistantPart>)
    | Tool(results: seq<ResultPart>)

  datatype EventData =
    | Messages(messages: seq<Message>)
    | ToolRequested(call: Call)
    | ToolResult(id: CallId, result: Value)
    | RoundMarker(round: nat)
    | ApprovalRequested(approval: Approval)
    | ApprovalResponded(response: Response)
    | TurnCompleted
    | Error
    | TurnStarted
    | TurnEnded
    | OtherData

  datatype Kind =
    | KMessages | KToolRequested | KToolResult | KRoundMarker | KApprovalRequested
    | KApprovalResponded | KTurnCompleted | KError | KTurnStarted | KTurnEnded | KOther

  datatype Event = Event(id: EventId, session: SessionId, turn: Option<TurnId>, data: EventData)

  function KindOf(data: EventData): Kind {
    match data
    case Messages(_) => KMessages
    case ToolRequested(_) => KToolRequested
    case ToolResult(_, _) => KToolResult
    case RoundMarker(_) => KRoundMarker
    case ApprovalRequested(_) => KApprovalRequested
    case ApprovalResponded(_) => KApprovalResponded
    case TurnCompleted => KTurnCompleted
    case Error => KError
    case TurnStarted => KTurnStarted
    case TurnEnded => KTurnEnded
    case OtherData => KOther
  }

  /** The ascending queries the executor issues; an absent filter accepts everything. */
  datatype Query = Query(after: Option<EventId>, session: Option<SessionId>, turn: Option<TurnId>,
      kinds: Option<set<Kind>>)
  {
    predicate Accepts(e: Event) {
      && (after.Some? ==> after.value < e.id)
      && (session.Some? ==> e.session == session.value)
      && (turn.Some? ==> e.turn == turn)
      && (kinds.Some? ==> KindOf(e.data) in kinds.value)
    }
  }

  ghost predicate Increasing(log: seq<Event>) {
    forall i, j :: 0 <= i < j < |log| ==> log[i].id < log[j].id
  }

  /** The events of a log that a query accepts, oldest first. */
  function Select(q: Query, log: seq<Event>): seq<Event> {
    if log == [] then []
    else
      var earlier, last := Select(q, log[..|log| - 1]), log[|log| - 1];
      if q.Accepts(last) then earlier + [last] else earlier
  }

  function LastId(events: seq<Event>): Option<EventId> {
    if events == [] then None else Some(events[|events| - 1].id)
  }

  function DataOf(log: seq<Event>): seq<EventData> {
    seq(|log|, i requires 0 <= i < |log| => log[i].data)
  }

  lemma {:induction false} SelectConcat(q: Query, a: seq<Event>, b: seq<Event>)
    ensures Select(q, a + b) == Select(q, a) + Select(q, b)
  {
    if b == [] {
      assert a + b == a;
    } else {
      assert (a + b)[..|a + b| - 1] == a + b[..|b| - 1];
      SelectConcat(q, a, b[..|b| - 1]);
    }
  }

  lemma {:induction false} SelectNone(q: Query, log: seq<Event>)
    requires forall e :: e in log ==> !q.Accepts(e)
    ensures Select(q, log) == []
  {
    if log != [] {
      assert log[|log| - 1] in log;
      SelectNone(q, log[..|log| - 1]);
    }
  }

  lemma {:induction false} SelectSame(q: Query, q': Query, log: seq<Event>)
    requires forall e :: e in log ==> q.Accepts(e) == q'.Accepts(e)
    ensures Select(q, log) == Select(q', log)
  {
    if log != [] {
      assert log[|log| - 1] in log;
      SelectSame(q, q', log[..|log| - 1]);
    }
  }

  lemma {:induction false} SelectMembers(q: Query, log: seq<Event>)
    ensures forall e :: e in Select(q, log) <==> e in log && q.Accepts(e)
    ensures Increasing(log) ==> Increasing(Select(q, log))
  {
    if log != [] {
      var init, last := log[..|log| - 1], log[|log| - 1];
      SelectMembers(q, init);
      assert log == init + [last];
      if Increasing(log) {
        assert forall e :: e in init ==> e.id < last.id;
      }
    }
  }

  /** The last selected event is the newest accepted one. */
  lemma {:induction false} SelectLast(q: Query, log: seq<Event>)
    requires Increasing(log)
    ensures var chosen := Select(q, log);
      && (chosen == [] ==> forall e :: e in log ==> !q.Accepts(e))
      && (chosen != [] ==>
            && chosen[|chosen| - 1] in log
            && forall e :: e in log && q.Accepts(e) ==> e.id <= chosen[|chosen| - 1].id)
  {
    SelectMembers(q, log);
    var chosen := Select(q, log);
    forall e | e in log && q.Accepts(e)
      ensures chosen != [] && e.id <= chosen[|chosen| - 1].id
    {
      assert e in chosen;
      var m :| 0 <= m < |chosen| && chosen[m] == e;
    }
  }
}
