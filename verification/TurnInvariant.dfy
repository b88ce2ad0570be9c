/**
 What every step of the turn engine keeps: the log follows the grammar, and the executor's position,
 the executed tools and the harness's pending set fit that log.
 */
module TurnInvariant {
  import opened Wrappers
  import opened Events
  import opened TurnProtocol
  import opened Permissions
  import opened Recovery
  import opened TurnEngine

  // ----- The invariant -----

  predicate Busy(d: Digest, round: nat, queue: seq<Call>) {
    d.Open() && queue != [] && d.pending == queue && d.round == Some(round)
  }

  predicate Idle(d: Digest, round: nat) {
    d.Open() && d.pending == [] && round == d.NextRound()
  }

  ghost predicate NotRun(executed: seq<Execution>, id: CallId) {
    forall i :: 0 <= i < |executed| ==> executed[i].call != id
  }

  ghost predicate Unanswered(log: seq<EventData>, approval: ApprovalId) {
    forall i :: 0 <= i < |log| && log[i].ApprovalResponded? ==> log[i].response.approval != approval
  }

  predicate ApprovedBy(request: EventData, response: EventData, call: CallId) {
    && request.ApprovalRequested? && request.approval.call == Some(call)
    && response.ApprovalResponded? && response.response.approval == request.approval.id && response.response.approved
  }

  /** The log holds an approval for the call and, after it, an approving response. */
  ghost predicate OwnApproval(log: seq<EventData>, call: CallId) {
    exists i, j :: 0 <= i < j < |log| && ApprovedBy(log[i], log[j], call)
  }

  /**
   A call may run: its policy allows it, its own approval was approved, or its function was allowed
   for the session.
   */
  ghost predicate Warranted(session: seq<EventData>, log: seq<EventData>, call: CallId, name: Name, policy: Policy) {
    policy.AlwaysAllow? || OwnApproval(log, call) || Granted(session, name)
  }

  predicate ApprovedIfAsked(d: Digest, call: CallId) {
    call in d.approvals ==> d.approvals[call].id in d.answers && d.answers[d.approvals[call].id]
  }

  ghost predicate ClosingOk(d: Digest, todo: seq<EventData>) {
    || todo == []
    || (todo == [TurnEnded] && d.ended == 0 && (d.completed > 0 || d.failed > 0))
    || (todo == [TurnCompleted, TurnEnded] && d.Open() && d.pending == [])
    || (todo == FAILURE && d.ended == 0)
  }

  ghost predicate WriteOk(limit: Option<nat>, d: Digest, executed: seq<Execution>, w: Write) {
    match w
    case Commit(round, response) =>
      Idle(d, round) && response.calls != [] && Admissible(response, d.calls) && (limit.Some? ==> round <= limit.value)
    case Final(response) => d.Open() && d.pending == [] && response.calls == [] && Admissible(response, d.calls)
    case Asking(round, queue, a) =>
      && Busy(d, round, queue) && NotRun(executed, queue[0].id) && queue[0].id !in d.approvals
      && a.id !in d.asked && a.call == Some(queue[0].id) && a.round == Some(round) && a.request == queue[0].request
    case Resulting(round, queue, _) => Busy(d, round, queue)
  }

  /** The position fits the log, when no append is in flight. */
  ghost predicate RestOk(past: seq<EventData>, log: seq<EventData>, d: Digest, executed: seq<Execution>, w: Work) {
    match w
    case Down => true
    case Restoring => d.Open()
    case Loading => d.Open()
    case Round(round) => Idle(d, round)
    case Authorizing(round, queue, resuming) =>
      Busy(d, round, queue) && NotRun(executed, queue[0].id) && (resuming || queue[0].id !in d.approvals)
    case Watching(round, queue, a, cursor) =>
      && Busy(d, round, queue) && NotRun(executed, queue[0].id)
      && queue[0].id in d.approvals && d.approvals[queue[0].id] == a
      && cursor <= |log| && Unanswered(log[..cursor], a.id)
    case Running(round, queue, policy) =>
      && Busy(d, round, queue) && NotRun(executed, queue[0].id) && ApprovedIfAsked(d, queue[0].id)
      && Warranted(past, log, queue[0].id, queue[0].request.functionName, policy)
    case Journaling(round, queue, _) => Busy(d, round, queue)
    case Completing => d.ended == 0 && d.failed == 0 && d.pending == []
    case Closing(todo) => ClosingOk(d, todo)
    case Appending(_, _, _) => false
  }

  ghost predicate WorkOk(limit: Option<nat>, past: seq<EventData>, log: seq<EventData>, d: Digest,
      executed: seq<Execution>, w: Work) {
    match w
    case Appending(write, persisted, mark) =>
      if persisted then RestOk(past, log, d, executed, Then(write, mark)) && (write.Final? ==> d.completed > 0)
      else WriteOk(limit, d, executed, write)
    case _ => RestOk(past, log, d, executed, w)
  }

  /** An executed call is resolved or the oldest unresolved one, and never has an approval that was not approved. */
  ghost predicate Settled(d: Digest, call: CallId) {
    && call in d.calls && ApprovedIfAsked(d, call)
    && forall i :: 1 <= i < |d.pending| ==> d.pending[i].id != call
  }

  ghost predicate ExecutionOk(past: seq<EventData>, log: seq<EventData>, d: Digest, x: Execution) {
    && Settled(d, x.call) && x.at <= |log| && x.seen <= |past|
    && Warranted(past[..x.seen], log[..x.at], x.call, x.name, x.policy)
  }

  ghost predicate ExecutedOk(past: seq<EventData>, log: seq<EventData>, d: Digest, executed: seq<Execution>) {
    && (forall i, j :: 0 <= i < j < |executed| ==> executed[i].call != executed[j].call)
    && forall i :: 0 <= i < |executed| ==> ExecutionOk(past, log, d, executed[i])
  }

  /** The harness's pending set is empty until recovery sets it up, and then the set of unresolved calls. */
  ghost predicate LiveOk(d: Digest, live: set<CallId>, w: Work) {
    match w
    case Appending(write, true, _) => UpdateAll(live, Batch(write)) == Ids(d.pending)
    case Down => live == {}
    case Restoring => live == {}
    case _ => InFlight(w) ==> live == Ids(d.pending)
  }

  /** A checked response is still unanswered: the lock keeps every other response out. */
  predicate ResponderOk(d: Digest, responder: Option<Response>) {
    responder.Some? ==> responder.value.approval in d.asked && responder.value.approval !in d.answers
  }

  ghost predicate Facts(limit: Option<nat>, past: seq<EventData>, log: seq<EventData>, work: Work,
                        live: set<CallId>, responder: Option<Response>, executed: seq<Execution>)
  {
    var d := DigestOf(log);
    && WellFormed(limit, log)
    && WorkOk(limit, past, log, d, executed, work)
    && ExecutedOk(past, log, d, executed)
    && LiveOk(d, live, work)
    && ResponderOk(d, responder)
  }

  /**
   The facts as a whole. The comparison with `true` changes nothing in meaning: it stops the verifier
   from unfolding the facts into every place where they are asserted, which makes the proofs about
   steps many times slower.
   */
  ghost predicate Core(limit: Option<nat>, past: seq<EventData>, log: seq<EventData>, work: Work,
                       live: set<CallId>, responder: Option<Response>, executed: seq<Execution>)
  {
    Facts(limit, past, log, work, live, responder, executed) == true
  }

  /** `past` is the session's log so far. */
  ghost predicate Inv(limit: Option<nat>, s: Engine) {
    Core(limit, SessionData(s.session, s.thread), s.log, s.work, s.live, s.responder, s.executed)
  }

  // ----- Facts about single events -----

  lemma {:induction false} WarrantedGrows(past: seq<EventData>, later: seq<EventData>, log: seq<EventData>,
                       more: seq<EventData>, call: CallId, name: Name, policy: Policy)
    requires Warranted(past, log, call, name, policy)
    ensures Warranted(past + later, log + more, call, name, policy)
  {
    if OwnApproval(log, call) {
      var i, j :| 0 <= i < j < |log| && ApprovedBy(log[i], log[j], call);
      assert ApprovedBy((log + more)[i], (log + more)[j], call);
    } else if Granted(past, name) {
      var i :| 0 <= i < |past| && Grants(past[i], name);
      assert (past + later)[i] == past[i];
    }
  }

  /** The invariant survives whatever else is appended to the session. */
  lemma {:induction false} SessionGrows(limit: Option<nat>, past: seq<EventData>, later: seq<EventData>,
      log: seq<EventData>, work: Work, live: set<CallId>, responder: Option<Response>, executed: seq<Execution>)
    requires Core(limit, past, log, work, live, responder, executed)
    ensures Core(limit, past + later, log, work, live, responder, executed)
  {
    var d := DigestOf(log);
    if work.Running? {
      var head := work.queue[0];
      WarrantedGrows(past, later, log, [], head.id, head.request.functionName, work.policy);
      assert log + [] == log;
    }
    forall i | 0 <= i < |executed|
      ensures ExecutionOk(past + later, log, d, executed[i])
    {
      assert ExecutionOk(past, log, d, executed[i]);
      assert (past + later)[..executed[i].seen] == past[..executed[i].seen];
    }
  }

  lemma {:induction false} SettledStep(limit: Option<nat>, d: Digest, e: EventData, call: CallId)
    requires PendingConsistent(d) && ApprovalsConsistent(d) && Legal(limit, d, e) && Settled(d, call)
    requires e.ApprovalRequested? ==> d.pending[0].id != call
    ensures Settled(Apply(d, e), call)
  {
    match e {
      case ToolResult(id, _) =>
        HeadResult(d.pending);
        assert forall i :: 0 <= i < |d.pending| - 1 ==> d.pending[1..][i] == d.pending[i + 1];
      case _ =>
    }
  }

  /** Executions stay accounted for when one event is appended, unless it asks about an executed call. */
  lemma {:induction false} ExecutedStep(limit: Option<nat>, past: seq<EventData>, log: seq<EventData>,
      executed: seq<Execution>, e: EventData)
    requires WellFormed(limit, log) && Legal(limit, DigestOf(log), e)
    requires ExecutedOk(past, log, DigestOf(log), executed)
    requires e.ApprovalRequested? ==> NotRun(executed, DigestOf(log).pending[0].id)
    ensures WellFormed(limit, log + [e]) && DigestOf(log + [e]) == Apply(DigestOf(log), e)
    ensures ExecutedOk(past, log + [e], DigestOf(log + [e]), executed)
  {
    var d := DigestOf(log);
    Snoc(limit, START, log, e);
    WellFormedConsistent(limit, log);
    forall i | 0 <= i < |executed|
      ensures ExecutionOk(past, log + [e], Apply(d, e), executed[i])
    {
      assert ExecutionOk(past, log, d, executed[i]);
      SettledStep(limit, d, e, executed[i].call);
      assert (log + [e])[..executed[i].at] == log[..executed[i].at];
    }
  }

  lemma {:induction false} ExecutedBatch(limit: Option<nat>, past: seq<EventData>, log: seq<EventData>,
      executed: seq<Execution>, batch: seq<EventData>)
    requires WellFormed(limit, log) && LegalFrom(limit, DigestOf(log), batch)
    requires ExecutedOk(past, log, DigestOf(log), executed)
    requires forall i :: 0 <= i < |batch| ==> !batch[i].ApprovalRequested?
    ensures WellFormed(limit, log + batch) && DigestOf(log + batch) == Fold(DigestOf(log), batch)
    ensures ExecutedOk(past, log + batch, DigestOf(log + batch), executed)
  {
    if batch == [] {
      assert log + batch == log;
    } else {
      var init, e := batch[..|batch| - 1], batch[|batch| - 1];
      ExecutedBatch(limit, past, log, executed, init);
      assert log + batch == (log + init) + [e];
      ExecutedStep(limit, past, log + init, executed, e);
    }
  }

  // ----- Events appended behind the executor's back -----

  predicate Passive(e: EventData) { e.ApprovalResponded? || e.OtherData? }

  lemma {:induction false} PassiveRest(limit: Option<nat>, past: seq<EventData>, log: seq<EventData>, d: Digest,
      executed: seq<Execution>, w: Work, e: EventData)
    requires Passive(e) && Legal(limit, d, e)
    requires RestOk(past, log, d, executed, w)
    ensures RestOk(past, log + [e], Apply(d, e), executed, w)
  {
    match w {
      case Watching(round, queue, a, cursor) => assert (log + [e])[..cursor] == log[..cursor];
      case Running(round, queue, policy) =>
        WarrantedGrows(past, [], log, [e], queue[0].id, queue[0].request.functionName, policy);
        assert past + [] == past;
      case _ =>
    }
  }

  lemma {:induction false} PassiveWork(limit: Option<nat>, past: seq<EventData>, log: seq<EventData>, d: Digest,
                    executed: seq<Execution>, w: Work, e: EventData)
    requires Passive(e) && Legal(limit, d, e)
    requires WorkOk(limit, past, log, d, executed, w)
    ensures WorkOk(limit, past, log + [e], Apply(d, e), executed, w)
  {
    if !w.Appending? {
      PassiveRest(limit, past, log, d, executed, w, e);
    } else if w.persisted {
      PassiveRest(limit, past, log, d, executed, Then(w.write, w.mark), e);
    } else {
      assert WriteOk(limit, Apply(d, e), executed, w.write);
    }
  }

  lemma {:induction false} PassiveLive(d: Digest, live: set<CallId>, w: Work, e: EventData)
    requires Passive(e) && LiveOk(d, live, w)
    ensures LiveOk(Apply(d, e), live, w)
  {
    assert Apply(d, e).pending == d.pending;
  }

  lemma {:induction false} PassiveAppend(limit: Option<nat>, past: seq<EventData>, log: seq<EventData>, work: Work,
                      live: set<CallId>, responder: Option<Response>, executed: seq<Execution>, e: EventData,
                      responder': Option<Response>)
    requires Core(limit, past, log, work, live, responder, executed)
    requires Passive(e) && Legal(limit, DigestOf(log), e)
    requires responder' == None || (e.OtherData? && responder' == responder)
    ensures Core(limit, past, log + [e], work, live, responder', executed)
  {
    var d := DigestOf(log);
    ExecutedStep(limit, past, log, executed, e);
    PassiveWork(limit, past, log, d, executed, work, e);
    PassiveLive(d, live, work, e);
  }

  // ----- The four writes of the executor -----

  lemma {:induction false} ResponseLegal(limit: Option<nat>, d: Digest, r: ModelResponse)
    requires d.Open() && (r.calls == [] || d.round.Some?) && DistinctIds(r.calls) && Ids(r.calls) !! d.calls
    ensures LegalFrom(limit, d, ResponseEvents(r))
    ensures Fold(d, ResponseEvents(r)) == d.(pending := d.pending + r.calls, calls := d.calls + Ids(r.calls))
  {
    var head := if r.messages != [] || r.metered then [Messages(r.messages)] else [];
    Single(limit, d, Messages(r.messages));
    Concat(limit, d, head, Requests(r.calls));
    if r.calls == [] {
      assert Requests(r.calls) == [];
      assert d.pending + [] == d.pending && d.calls + Ids([]) == d.calls;
    } else {
      RequestsLegal(limit, d, r.calls);
    }
  }

  lemma {:induction false} MarkerFirst(limit: Option<nat>, d: Digest, round: nat, events: seq<EventData>)
    requires Idle(d, round) && (limit.Some? ==> round <= limit.value)
    requires LegalFrom(limit, d.(round := Some(round)), events)
    ensures LegalFrom(limit, d, [RoundMarker(round)] + events)
    ensures Fold(d, [RoundMarker(round)] + events) == Fold(d.(round := Some(round)), events)
  {
    Single(limit, d, RoundMarker(round));
    Concat(limit, d, [RoundMarker(round)], events);
  }

  lemma {:induction false} CommitLegal(limit: Option<nat>, d: Digest, round: nat, r: ModelResponse)
    requires Idle(d, round) && Admissible(r, d.calls) && (limit.Some? ==> round <= limit.value)
    ensures LegalFrom(limit, d, Batch(Commit(round, r)))
    ensures Fold(d, Batch(Commit(round, r))) ==
      d.(round := Some(round), pending := r.calls, calls := d.calls + Ids(r.calls))
  {
    var mid := d.(round := Some(round));
    ResponseLegal(limit, mid, r);
    MarkerFirst(limit, d, round, ResponseEvents(r));
    assert mid.pending + r.calls == r.calls;
  }

  lemma {:induction false} FinalLegal(limit: Option<nat>, d: Digest, r: ModelResponse)
    requires d.Open() && d.pending == [] && r.calls == []
    ensures LegalFrom(limit, d, Batch(Final(r)))
    ensures Fold(d, Batch(Final(r))) == d.(completed := 1)
  {
    ResponseLegal(limit, d, r);
    assert d.pending + r.calls == d.pending && d.calls + Ids(r.calls) == d.calls;
    Snoc(limit, d, ResponseEvents(r), TurnCompleted);
  }

  lemma {:induction false} LiveBatch(limit: Option<nat>, d: Digest, live: set<CallId>, batch: seq<EventData>)
    requires Consistent(d) && LegalFrom(limit, d, batch) && live == Ids(d.pending)
    ensures UpdateAll(live, batch) == Ids(Fold(d, batch).pending) && Consistent(Fold(d, batch))
  {
    if batch != [] {
      var init := batch[..|batch| - 1];
      LiveBatch(limit, d, live, init);
      LiveStep(limit, Fold(d, init), batch[|batch| - 1]);
      ConsistentStep(limit, Fold(d, init), batch[|batch| - 1]);
    }
  }

  lemma {:induction false} NoApprovals(w: Write)
    requires w.Commit? || w.Final? || w.Resulting?
    ensures forall i :: 0 <= i < |Batch(w)| ==> !Batch(w)[i].ApprovalRequested?
  {
  }

  /** A call that was asked about for the first time has not been answered. */
  lemma {:induction false} FreshUnanswered(limit: Option<nat>, log: seq<EventData>, a: ApprovalId)
    requires WellFormed(limit, log) && a !in DigestOf(log).asked
    ensures Unanswered(log, a)
  {
    forall i | 0 <= i < |log| && log[i].ApprovalResponded?
      ensures log[i].response.approval != a
    {
      AnsweredWasAsked(limit, log, i);
    }
  }

  lemma {:induction false} AnsweredWasAsked(limit: Option<nat>, log: seq<EventData>, i: nat)
    requires WellFormed(limit, log) && i < |log| && log[i].ApprovalResponded?
    ensures log[i].response.approval in DigestOf(log).asked
    ensures log[i].response.approval in DigestOf(log).answers
    ensures DigestOf(log).answers[log[i].response.approval] == log[i].response.approved
  {
    var init := log[..|log| - 1];
    if i < |init| {
      AnsweredWasAsked(limit, init, i);
    }
  }

  /** What a legal batch without approval requests keeps, whatever it is. */
  lemma {:induction false} AfterBatch(limit: Option<nat>, past: seq<EventData>, log: seq<EventData>, live: set<CallId>,
                   executed: seq<Execution>, batch: seq<EventData>)
    requires WellFormed(limit, log) && LegalFrom(limit, DigestOf(log), batch)
    requires ExecutedOk(past, log, DigestOf(log), executed) && live == Ids(DigestOf(log).pending)
    requires forall i :: 0 <= i < |batch| ==> !batch[i].ApprovalRequested?
    ensures WellFormed(limit, log + batch) && DigestOf(log + batch) == Fold(DigestOf(log), batch)
    ensures ExecutedOk(past, log + batch, DigestOf(log + batch), executed)
    ensures UpdateAll(live, batch) == Ids(DigestOf(log + batch).pending)
  {
    WellFormedConsistent(limit, log);
    ExecutedBatch(limit, past, log, executed, batch);
    LiveBatch(limit, DigestOf(log), live, batch);
  }

  /** The invariant of a write that has reached the log, from its parts. */
  lemma {:induction false} Persisted(limit: Option<nat>, past: seq<EventData>, log: seq<EventData>, d: Digest, w: Write,
                  live: set<CallId>, responder: Option<Response>, executed: seq<Execution>)
    requires WellFormed(limit, log) && DigestOf(log) == d && ExecutedOk(past, log, d, executed)
    requires RestOk(past, log, d, executed, Then(w, |log|)) && (w.Final? ==> d.completed > 0)
    requires UpdateAll(live, Batch(w)) == Ids(d.pending) && ResponderOk(d, responder)
    ensures Core(limit, past, log, Appending(w, true, |log|), live, responder, executed)
  {
  }

  /** The calls of an admissible response have no approval yet and have not run. */
  lemma {:induction false} NewCall(past: seq<EventData>, log: seq<EventData>, d: Digest, executed: seq<Execution>,
                calls: seq<Call>)
    requires ApprovalsConsistent(d) && ExecutedOk(past, log, d, executed) && calls != [] && Ids(calls) !! d.calls
    ensures NotRun(executed, calls[0].id) && calls[0].id !in d.approvals
  {
    assert calls[0] in calls;
    assert calls[0].id in Ids(calls);
    forall i | 0 <= i < |executed|
      ensures executed[i].call != calls[0].id
    {
      assert ExecutionOk(past, log, d, executed[i]);
    }
  }

  lemma {:induction false} PersistCommit(limit: Option<nat>, past: seq<EventData>, log: seq<EventData>, w: Write,
      mark: nat, live: set<CallId>, responder: Option<Response>, executed: seq<Execution>)
    requires w.Commit? && Core(limit, past, log, Appending(w, false, mark), live, responder, executed)
    ensures Core(limit, past, log + Batch(w), Appending(w, true, |log + Batch(w)|), live, responder, executed)
  {
    var d, batch, calls := DigestOf(log), Batch(w), w.response.calls;
    assert WriteOk(limit, d, executed, w);
    var d' := d.(round := Some(w.round), pending := calls, calls := d.calls + Ids(calls));
    WellFormedConsistent(limit, log);
    CommitLegal(limit, d, w.round, w.response);
    NoApprovals(w);
    AfterBatch(limit, past, log, live, executed, batch);
    NewCall(past, log, d, executed, calls);
    CommitRest(past, log + batch, d', executed, w);
    Persisted(limit, past, log + batch, d', w, live, responder, executed);
  }

  lemma {:induction false} CommitRest(past: seq<EventData>, log: seq<EventData>, d: Digest, executed: seq<Execution>,
      w: Write)
    requires w.Commit? && Busy(d, w.round, w.response.calls)
    requires NotRun(executed, w.response.calls[0].id) && w.response.calls[0].id !in d.approvals
    ensures RestOk(past, log, d, executed, Then(w, |log|))
  {
  }

  lemma {:induction false} PersistFinal(limit: Option<nat>, past: seq<EventData>, log: seq<EventData>, w: Write,
      mark: nat, live: set<CallId>, responder: Option<Response>, executed: seq<Execution>)
    requires w.Final? && Core(limit, past, log, Appending(w, false, mark), live, responder, executed)
    ensures Core(limit, past, log + Batch(w), Appending(w, true, |log + Batch(w)|), live, responder, executed)
  {
    var d, batch := DigestOf(log), Batch(w);
    assert WriteOk(limit, d, executed, w);
    FinalLegal(limit, d, w.response);
    NoApprovals(w);
    AfterBatch(limit, past, log, live, executed, batch);
    FinalRest(past, log + batch, d.(completed := 1), executed, w);
    Persisted(limit, past, log + batch, d.(completed := 1), w, live, responder, executed);
  }

  lemma {:induction false} FinalRest(past: seq<EventData>, log: seq<EventData>, d: Digest, executed: seq<Execution>,
      w: Write)
    requires w.Final? && d.ended == 0 && d.failed == 0 && d.pending == []
    ensures RestOk(past, log, d, executed, Then(w, |log|))
  {
  }

  /** Once the oldest call has its result, the next one has not run. */
  lemma {:induction false} NextCall(past: seq<EventData>, log: seq<EventData>, d: Digest, executed: seq<Execution>)
    requires ExecutedOk(past, log, d, executed) && |d.pending| > 1
    ensures NotRun(executed, d.pending[1].id)
  {
    forall i | 0 <= i < |executed|
      ensures executed[i].call != d.pending[1].id
    {
      assert ExecutionOk(past, log, d, executed[i]);
    }
  }

  lemma {:induction false} PersistResult(limit: Option<nat>, past: seq<EventData>, log: seq<EventData>, w: Write,
      mark: nat, live: set<CallId>, responder: Option<Response>, executed: seq<Execution>)
    requires w.Resulting? && Core(limit, past, log, Appending(w, false, mark), live, responder, executed)
    ensures Core(limit, past, log + Batch(w), Appending(w, true, |log + Batch(w)|), live, responder, executed)
  {
    var d, e := DigestOf(log), ToolResult(w.queue[0].id, w.result);
    WellFormedConsistent(limit, log);
    Single(limit, d, e);
    AfterBatch(limit, past, log, live, executed, [e]);
    HeadResult(w.queue);
    if |w.queue| > 1 {
      NextCall(past, log, d, executed);
    }
    Persisted(limit, past, log + [e], Apply(d, e), w, live, responder, executed);
  }

  lemma {:induction false} PersistAsk(limit: Option<nat>, past: seq<EventData>, log: seq<EventData>, w: Write,
      mark: nat, live: set<CallId>, responder: Option<Response>, executed: seq<Execution>)
    requires w.Asking? && Core(limit, past, log, Appending(w, false, mark), live, responder, executed)
    ensures Core(limit, past, log + Batch(w), Appending(w, true, |log + Batch(w)|), live, responder, executed)
  {
    var d, e := DigestOf(log), ApprovalRequested(w.approval);
    WellFormedConsistent(limit, log);
    ExecutedStep(limit, past, log, executed, e);
    Single(limit, d, e);
    LiveBatch(limit, d, live, [e]);
    FreshUnanswered(limit, log, w.approval.id);
    assert (log + [e])[..|log + [e]|] == log + [e];
    Persisted(limit, past, log + [e], Apply(d, e), w, live, responder, executed);
  }
}
