/**
 A turn as a transition system: the executor of crates/executor/src/basic.rs running under the
 harness of crates/executor/src/harness_adapter.rs and harness_events.rs, with its approvals
 (permissions.rs, provider.rs), its terminal events (harness_executor.rs, shared.rs) and its recovery
 (turn_queue.rs). A step is what happens between two points at which the process can die, be
 stopped, or let another task run.
 */
module TurnEngine {
  import opened Wrappers
  import opened Events
  import opened TurnProtocol
  import opened Permissions
  import opened Recovery
  import opened HistoryCache
  import HistoryBalance

  // ----- Model responses -----

  datatype ModelResponse = ModelResponse(messages: seq<Message>, metered: bool, calls: seq<Call>)

  function ResponseEvents(r: ModelResponse): seq<EventData> {
    (if r.messages != [] || r.metered then [Messages(r.messages)] else []) + Requests(r.calls)
  }

  function CollectToolRequests(events: seq<EventData>): seq<Call> {
    if events == [] then []
    else
      var earlier := CollectToolRequests(events[..|events| - 1]);
      match events[|events| - 1] case ToolRequested(call) => earlier + [call] case _ => earlier
  }

  lemma {:induction false} CollectedAfter(head: seq<EventData>, calls: seq<Call>)
    requires CollectToolRequests(head) == []
    ensures CollectToolRequests(head + Requests(calls)) == calls
  {
    if calls == [] {
      assert head + Requests(calls) == head;
    } else {
      var init, last := calls[..|calls| - 1], calls[|calls| - 1];
      CollectedAfter(head, init);
      var events := head + Requests(calls);
      assert events[..|events| - 1] == head + Requests(init);
      assert init + [last] == calls;
    }
  }

  /** The calls read back from a response's events are the response's calls. */
  lemma {:induction false} CollectedCalls(r: ModelResponse)
    ensures CollectToolRequests(ResponseEvents(r)) == r.calls
  {
    var head := if r.messages != [] || r.metered then [Messages(r.messages)] else [];
    assert head != [] ==> head[..0] == [];
    CollectedAfter(head, r.calls);
  }

  /** What the environment guarantees: call ids are new, and embedded calls are among the response's calls. */
  ghost predicate Admissible(r: ModelResponse, used: set<CallId>) {
    && DistinctIds(r.calls) && Ids(r.calls) !! used
    && forall id :: id in HistoryBalance.Calls(r.messages) ==>
         id in Ids(r.calls) && HistoryBalance.Calls(r.messages)[id] == 1
  }

  // ----- State -----

  /** An append in flight: the harness lock is held from its start until it is acknowledged or fails. */
  datatype Write =
    | Commit(round: nat, response: ModelResponse)
    | Final(response: ModelResponse)
    | Asking(round: nat, queue: seq<Call>, approval: Approval)
    | Resulting(round: nat, queue: seq<Call>, result: Value)

  /** Where the execution of the turn stands; `queue` holds the unfinished calls of the round. */
  datatype Work =
    | Down                                                             // no task in memory
    | Restoring | Loading                                              // the two recovery checks
    | Round(round: nat)                                                // before a model call
    | Authorizing(round: nat, queue: seq<Call>, resuming: bool)
    | Watching(round: nat, queue: seq<Call>, approval: Approval, cursor: nat)
    | Running(round: nat, queue: seq<Call>, policy: Policy)            // authorised, not started
    | Journaling(round: nat, queue: seq<Call>, result: Value)          // result not saved yet
    | Appending(write: Write, persisted: bool, mark: nat)
    | Completing                                                       // finished without error
    | Closing(todo: seq<EventData>)                                    // terminal events to append

  /** A tool execution, with the lengths of the turn's and of the session's log before it. */
  datatype Execution = Execution(call: CallId, name: Name, policy: Policy, at: nat, seen: nat)

  /** A checked response to an approval of an earlier turn. */
  datatype Late = Late(session: SessionId, turn: TurnId, response: Response)

  type Process = nat

  datatype Engine = Engine(
    session: SessionId,
    turn: TurnId,
    thread: seq<Event>,             // the whole log of the thread
    log: seq<EventData>,            // this turn's own events in it
    work: Work,
    live: set<CallId>,              // the harness's pending tools
    process: Process,               // the process that runs the turn
    caches: map<Process, Entry>,    // the prompt cache of every process
    responder: Option<Response>,    // a checked response, holding the approval lock
    late: Option<Late>,             // the same, left over from an earlier turn
    executed: seq<Execution>)       // every tool execution of this turn

  function NextId(thread: seq<Event>): EventId {
    if thread == [] then 0 else thread[|thread| - 1].id + 1
  }

  function Stamp(session: SessionId, turn: TurnId, first: EventId, data: seq<EventData>): seq<Event> {
    seq(|data|, i requires 0 <= i < |data| => Event(first + i, session, Some(turn), data[i]))
  }

  function Extended(session: SessionId, turn: TurnId, thread: seq<Event>, data: seq<EventData>): seq<Event> {
    thread + Stamp(session, turn, NextId(thread), data)
  }

  /** The turn appends a batch. */
  function Appended(s: Engine, batch: seq<EventData>): Engine {
    s.(thread := Extended(s.session, s.turn, s.thread, batch), log := s.log + batch)
  }

  /** The events of a session, whatever turn they belong to. */
  function SessionData(session: SessionId, thread: seq<Event>): seq<EventData> {
    DataOf(Select(Query(None, Some(session), None, None), thread))
  }

  function CacheOf(s: Engine): Option<Entry> {
    if s.process in s.caches then Some(s.caches[s.process]) else None
  }

  function Batch(w: Write): seq<EventData> {
    match w
    case Commit(round, response) => [RoundMarker(round)] + ResponseEvents(response)
    case Final(response) => ResponseEvents(response) + [TurnCompleted]
    case Asking(_, _, approval) => [ApprovalRequested(approval)]
    case Resulting(_, queue, result) => if queue == [] then [] else [ToolResult(queue[0].id, result)]
  }

  /** The next piece of work once the write is acknowledged; `mark` is the position after it. */
  function Then(w: Write, mark: nat): Work {
    match w
    case Commit(round, response) => Authorizing(round, response.calls, false)
    case Final(_) => Completing
    case Asking(round, queue, approval) => Watching(round, queue, approval, mark)
    case Resulting(round, queue, _) => if |queue| > 1 then Authorizing(round, queue[1..], false) else Round(round + 1)
  }

  const FAILURE := [Error, TurnEnded]

  /** What the finalizer adds to a completed turn. */
  function Completion(log: seq<EventData>): seq<EventData> {
    if TurnCompleted in log then [TurnEnded] else [TurnCompleted, TurnEnded]
  }

  /** A failed write ends the turn, except that a failed approval request only fails its call. */
  function OrElse(w: Write, error: Value): Work {
    match w
    case Asking(round, queue, _) => Journaling(round, queue, error)
    case _ => Closing(FAILURE)
  }

  predicate InFlight(w: Work) {
    !w.Down? && !w.Completing? && !w.Closing?
  }

  // ----- Steps -----

  /** Steps of the executor that touch nothing but its position. */
  datatype Move =
    | ReachLimit                                                // no more model rounds allowed
    | FailRound                                                 // the model or a read of the storage failed
    | Authorize(policy: Policy, approval: ApprovalId)           // decide; `approval` is the new id if one is asked
    | AuthorizeFails(error: Value)                              // storage failed, or the event stream closed
    | WatchNext(error: Value)                                   // look at one more event
    | Journal                                                   // start saving the result
    | AppendFails(error: Value)                                 // the append in flight reports an error
    | ReadMarker                                                // finalizer: was the turn marked completed?
    | MarkerUnread                                              // it cannot tell, or lost the outcome
    | Cancel
    | Recover                                                   // the queue takes the turn up again
    | Abort                                                     // the queue gives the turn up
    | Load                                                      // load_turn_progress

  /** Steps of the executor and the finalizer that reach the log, the cache or a tool. */
  datatype Effect =
    | CallModel(response: ModelResponse)
    | Persist                                                   // the append in flight reaches the log
    | Acknowledge                                               // and the harness learns about it
    | Execute(result: Value)
    | CloseNext                                                 // the finalizer's next append
    | CloseFails(landed: bool)                                  // it reports an error, whether it landed or not

  datatype Control =
    | Stop(processSurvives: bool)                               // crash, or shutdown of a living process
    | Suspend
    | Restore                                                   // restore_recovery_tools
    | TakeOver(process: Process)                                // another process may run the turn
    | Perish(process: Process)                                  // a process that does not run it dies
    | NextTurn(gap: seq<Event>, session: SessionId, turn: TurnId, input: seq<Message>)

  /** Steps of other tasks. */
  datatype Outside =
    | CheckResponse(approval: ApprovalId, approved: bool, allowForTool: bool)
    | AppendResponse
    | DropResponse
    | AppendLate
    | DropLate
    | Note

  datatype Step =
    | Moving(move: Move)
    | Effecting(effect: Effect)
    | Controlling(control: Control)
    | Replying(outside: Outside)

  function BeginEvents(input: seq<Message>): seq<EventData> {
    [TurnStarted, OtherData, Messages(input)]
  }

  /** The decision `authorize` takes for the head of the queue, on the log as it is now. */
  ghost function DecisionFor(s: Engine, policy: Policy): Decision
    requires s.work.Authorizing? && s.work.queue != []
  {
    Decide(policy, s.work.resuming, s.work.queue[0], s.work.round, s.log, SessionData(s.session, s.thread))
  }

  ghost function Authorized(s: Engine, policy: Policy, approval: ApprovalId): Option<Work>
    requires s.work.Authorizing? && s.work.queue != []
  {
    var Authorizing(round, queue, _) := s.work;
    match DecisionFor(s, policy)
    case Proceed => Some(Running(round, queue, policy))
    case Refuse => Some(Journaling(round, queue, 0))
    case Await(a, after) => Some(Watching(round, queue, a, after))
    case Ask =>
      if approval in DigestOf(s.log).asked then None
      else
        var asked := Approval(approval, Some(queue[0].id), Some(round), queue[0].request);
        Some(Appending(Asking(round, queue, asked), false, 0))
  }

  function Watched(log: seq<EventData>, w: Work, error: Value): Option<Work>
    requires w.Watching?
  {
    if w.cursor >= |log| then None
    else match log[w.cursor]
      case ApprovalResponded(r) =>
        if r.approval != w.approval.id then Some(w.(cursor := w.cursor + 1))
        else if r.approved then Some(Running(w.round, w.queue, AlwaysAsk))
        else Some(Journaling(w.round, w.queue, error))
      case TurnEnded => Some(Journaling(w.round, w.queue, error))
      case _ => Some(w.(cursor := w.cursor + 1))
  }

  ghost function NextWork(limit: Option<nat>, s: Engine, move: Move): Option<Work> {
    var w := s.work;
    match move
    case ReachLimit => if w.Round? && limit.Some? && w.round > limit.value then Some(Completing) else None
    case FailRound => if w.Round? || w.Restoring? || w.Loading? then Some(Closing(FAILURE)) else None
    case Authorize(policy, approval) =>
      if w.Authorizing? && w.queue != [] then Authorized(s, policy, approval) else None
    case AuthorizeFails(error) =>
      if w.Authorizing? || w.Watching? then Some(Journaling(w.round, w.queue, error)) else None
    case WatchNext(error) => if w.Watching? then Watched(s.log, w, error) else None
    case Journal =>
      if w.Journaling? && w.queue != [] then Some(Appending(Resulting(w.round, w.queue, w.result), false, 0)) else None
    case AppendFails(error) => if w.Appending? then Some(OrElse(w.write, error)) else None
    case ReadMarker =>
      if w.Completing? then Some(Closing(Completion(s.log))) else None
    case MarkerUnread => if w.Completing? then Some(Closing(FAILURE)) else None
    case Cancel => if InFlight(w) then Some(Closing(FAILURE)) else None
    case Recover =>
      if !w.Down? || TurnEnded in s.log then None
      else if Error in s.log || TurnCompleted in s.log then Some(Closing([TurnEnded]))
      else Some(Restoring)
    case Abort => if w.Down? && TurnEnded !in s.log then Some(Closing(FAILURE)) else None
    case Load =>
      if !w.Loading? then None
      else (match LoadProgress(s.log)
            case Success(Progress(start, None)) => Some(Round(start))
            case Success(Progress(start, Some(queue))) => Some(Authorizing(start, queue, true))
            case Failure(_) => Some(Closing(FAILURE)))
  }

  function ExecutionOf(s: Engine, call: Call, policy: Policy): Execution {
    Execution(call.id, call.request.functionName, policy, |s.log|, |SessionData(s.session, s.thread)|)
  }

  /** A marker that cannot be saved fails the turn; after any other failed append the finalizer gives up. */
  function AfterCloseFails(s: Engine, e: EventData, landed: bool): Engine {
    var after := if landed then Appended(s, [e]) else s;
    if e.TurnCompleted? then after.(work := Closing(FAILURE)) else after.(work := Down, live := {})
  }

  ghost function AfterEffect(limit: Option<nat>, s: Engine, effect: Effect): Option<Engine> {
    var w := s.work;
    match effect
    case CallModel(response) =>
      if w.Round? && (limit.Some? ==> w.round <= limit.value) && Admissible(response, DigestOf(s.log).calls)
      then
        var write := if response.calls == [] then Final(response) else Commit(w.round, response);
        Some(s.(work := Appending(write, false, 0), caches := s.caches[s.process := NewEntry(CacheOf(s), s.thread)]))
      else None
    case Persist =>
      if w.Appending? && !w.persisted
      then Some(Appended(s, Batch(w.write)).(work := Appending(w.write, true, |s.log + Batch(w.write)|)))
      else None
    case Acknowledge =>
      if w.Appending? && w.persisted
      then Some(s.(work := Then(w.write, w.mark), live := UpdateAll(s.live, Batch(w.write))))
      else None
    case Execute(result) =>
      if w.Running? && w.queue != []
      then Some(s.(work := Journaling(w.round, w.queue, result),
                   executed := s.executed + [ExecutionOf(s, w.queue[0], w.policy)]))
      else None
    case CloseNext =>
      if !w.Closing? then None
      else if w.todo == [] then Some(s.(work := Down, live := {}))
      else Some(Appended(s, [w.todo[0]]).(work := Closing(w.todo[1..])))
    case CloseFails(landed) =>
      if w.Closing? && w.todo != [] then Some(AfterCloseFails(s, w.todo[0], landed)) else None
  }

  ghost function AfterControl(s: Engine, control: Control): Option<Engine> {
    var w := s.work;
    match control
    case Stop(processSurvives) =>
      if w.Down? then None
      else Some(s.(work := Down, live := {},
                   caches := if processSurvives then s.caches else s.caches - {s.process},
                   responder := if processSurvives then s.responder else None,
                   late := if processSurvives then s.late else None))
    case Suspend =>
      // The boundary holds the harness lock while the execution is dropped.
      if InFlight(w) && !w.Appending? && s.live == {} then Some(s.(work := Down)) else None
    case Restore =>
      if !w.Restoring? then None
      else (match RestoreTools(s.log)
            case Success(pending) => Some(s.(work := Loading, live := pending))
            case Failure(_) => Some(s.(work := Closing(FAILURE))))
    case TakeOver(process) => if w.Down? then Some(s.(process := process)) else None
    case Perish(process) => if process != s.process then Some(s.(caches := s.caches - {process})) else None
    case NextTurn(gap, session, turn, input) =>
      var before := s.thread + gap;
      if w.Down? && TurnEnded in s.log && Increasing(before) && (forall e :: e in before ==> e.turn != Some(turn))
      then Some(Begun(s, before, session, turn, input))
      else None
  }

  /** The next turn; a checked response to the last one may still be on its way. */
  function Begun(s: Engine, before: seq<Event>, session: SessionId, turn: TurnId, input: seq<Message>): Engine {
    var data := BeginEvents(input);
    var late := if s.responder.Some? then Some(Late(s.session, s.turn, s.responder.value)) else s.late;
    var thread := Extended(session, turn, before, data);
    Engine(session, turn, thread, data, Round(0), {}, s.process, s.caches, None, late, [])
  }

  ghost function AfterOutside(s: Engine, outside: Outside): Option<Engine> {
    match outside
    case CheckResponse(approval, approved, allowForTool) =>
      if s.work.Down? || s.responder.Some? || s.late.Some? then None
      else (match RespondTo(s.log, approval, approved, allowForTool)
            case Success(response) => Some(s.(responder := Some(response)))
            case Failure(_) => None)
    case AppendResponse =>
      if s.responder.Some? then Some(Appended(s, [ApprovalResponded(s.responder.value)]).(responder := None)) else None
    case DropResponse => if s.responder.Some? then Some(s.(responder := None)) else None
    case AppendLate => if s.late.Some? then Some(s.(thread := WithLate(s.thread, s.late.value), late := None)) else None
    case DropLate => if s.late.Some? then Some(s.(late := None)) else None
    case Note => Some(Appended(s, [OtherData]))
  }

  function WithLate(thread: seq<Event>, late: Late): seq<Event> {
    Extended(late.session, late.turn, thread, [ApprovalResponded(late.response)])
  }

  ghost function Next(limit: Option<nat>, s: Engine, step: Step): Option<Engine> {
    match step
    case Moving(move) => (match NextWork(limit, s, move) case Some(work) => Some(s.(work := work)) case None => None)
    case Effecting(effect) => AfterEffect(limit, s, effect)
    case Controlling(control) => AfterControl(s, control)
    case Replying(outside) => AfterOutside(s, outside)
  }

  /** The first turn on a thread, whatever happened on the thread before and whatever the turn's input is. */
  ghost predicate StartsWith(s: Engine, before: seq<Event>, input: seq<Message>) {
    && Increasing(before) && (forall e :: e in before ==> e.turn != Some(s.turn))
    && s == Engine(s.session, s.turn, Extended(s.session, s.turn, before, BeginEvents(input)), BeginEvents(input),
                   Round(0), {}, s.process, map[], None, None, [])
  }

  ghost predicate Initial(s: Engine) {
    exists before, input :: StartsWith(s, before, input)
  }

  /** The state a run reaches, or nothing when one of its steps was not possible. */
  ghost function Run(limit: Option<nat>, s: Engine, steps: seq<Step>): Option<Engine> {
    if steps == [] then Some(s)
    else match Run(limit, s, steps[..|steps| - 1])
      case None => None
      case Some(before) => Next(limit, before, steps[|steps| - 1])
  }

  ghost predicate Reachable(limit: Option<nat>, s: Engine) {
    exists start, steps :: Initial(start) && Run(limit, start, steps) == Some(s)
  }
}
