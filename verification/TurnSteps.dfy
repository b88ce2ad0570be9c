/** Every step of the turn engine keeps the invariant, so every reachable state satisfies it. */
module TurnSteps {
  import opened Wrappers
  import opened Events
  import opened TurnProtocol
  import opened Permissions
  import opened Recovery
  import opened TurnEngine
  import opened TurnInvariant

  // ----- Reading the log back -----

  lemma {:induction false} Terminals(log: seq<EventData>)
    ensures multiset(log)[TurnEnded] == DigestOf(log).ended
    ensures multiset(log)[TurnCompleted] == DigestOf(log).completed
    ensures multiset(log)[Error] == DigestOf(log).failed
  {
    if log != [] {
      Terminals(log[..|log| - 1]);
      assert log == log[..|log| - 1] + [log[|log| - 1]];
    }
  }

  /** The completion, error and end events a scan finds are the ones the digest counts. */
  lemma {:induction false} TerminalsFound(log: seq<EventData>)
    ensures TurnEnded in log <==> DigestOf(log).ended > 0
    ensures TurnCompleted in log <==> DigestOf(log).completed > 0
    ensures Error in log <==> DigestOf(log).failed > 0
  {
    Terminals(log);
    assert forall e :: e in log <==> multiset(log)[e] > 0;
  }

  /** What `authorize` finds for a call when it scans the turn's approval events again. */
  ghost predicate SavedMatches(d: Digest, call: Call, round: nat, saved: Saved) {
    if call.id !in d.approvals || d.approvals[call.id].round != Some(round) then saved == Absent
    else if d.approvals[call.id].request != call.request then saved == Mismatched
    else
      var a := d.approvals[call.id];
      && saved.Present? && saved.approval == a
      && (saved.answer.Some? <==> a.id in d.answers)
      && (saved.answer.Some? ==> saved.answer.value.approved == d.answers[a.id])
  }

  lemma {:induction false} SavedAgrees(limit: Option<nat>, log: seq<EventData>, call: Call, round: nat)
    requires WellFormed(limit, log)
    ensures SavedMatches(DigestOf(log), call, round, SavedFor(call, round, log))
  {
    if log != [] {
      var init := log[..|log| - 1];
      SavedAgrees(limit, init, call, round);
      WellFormedConsistent(limit, init);
      assert Legal(limit, DigestOf(init), log[|log| - 1]);
    }
  }

  lemma {:induction false} RequestInDigest(limit: Option<nat>, log: seq<EventData>, i: nat)
    requires WellFormed(limit, log) && i < |log| && log[i].ApprovalRequested?
    ensures var a, d := log[i].approval, DigestOf(log);
      && a.call.Some? && a.call.value in d.approvals && d.approvals[a.call.value] == a
      && a.id in d.asked && d.asked[a.id] == a.call.value
  {
    var init := log[..|log| - 1];
    assert Legal(limit, DigestOf(init), log[|log| - 1]);
    if i < |init| {
      RequestInDigest(limit, init, i);
      WellFormedConsistent(limit, init);
    }
  }

  lemma {:induction false} AskedInLog(log: seq<EventData>, a: ApprovalId) returns (i: nat)
    requires a in DigestOf(log).asked
    ensures i < |log| && log[i].ApprovalRequested? && log[i].approval.id == a
  {
    var init, e := log[..|log| - 1], log[|log| - 1];
    if e.ApprovalRequested? && e.approval.id == a {
      i := |init|;
    } else {
      i := AskedInLog(init, a);
    }
  }

  lemma {:induction false} AnsweredInLog(limit: Option<nat>, log: seq<EventData>, a: ApprovalId)
    returns (i: nat, j: nat)
    requires WellFormed(limit, log) && a in DigestOf(log).answers
    ensures i < j < |log| && log[i].ApprovalRequested? && log[i].approval.id == a
    ensures log[j].ApprovalResponded? && log[j].response.approval == a
    ensures log[j].response.approved == DigestOf(log).answers[a]
  {
    var init, e := log[..|log| - 1], log[|log| - 1];
    assert Legal(limit, DigestOf(init), e);
    if e.ApprovalResponded? && e.response.approval == a {
      j := |init|;
      i := AskedInLog(init, a);
    } else {
      i, j := AnsweredInLog(limit, init, a);
    }
  }

  /** An approved answer in the digest is an approval and a later approving response in the log. */
  lemma {:induction false} ApprovedInLog(limit: Option<nat>, log: seq<EventData>, call: CallId)
    requires WellFormed(limit, log) && call in DigestOf(log).approvals && ApprovedIfAsked(DigestOf(log), call)
    ensures OwnApproval(log, call)
  {
    WellFormedConsistent(limit, log);
    var i, j := AnsweredInLog(limit, log, DigestOf(log).approvals[call].id);
    RequestInDigest(limit, log, i);
    assert ApprovedBy(log[i], log[j], call);
  }

  lemma {:induction false} NotAnsweredYet(limit: Option<nat>, log: seq<EventData>, a: ApprovalId)
    requires WellFormed(limit, log) && a !in DigestOf(log).answers
    ensures Unanswered(log, a)
  {
    forall i | 0 <= i < |log| && log[i].ApprovalResponded?
      ensures log[i].response.approval != a
    {
      AnsweredWasAsked(limit, log, i);
    }
  }

  // ----- Steps that only move the executor -----

  /** The executor may stand at `w` without anything else changing. */
  ghost predicate Fits(limit: Option<nat>, s: Engine, w: Work) {
    && WorkOk(limit, SessionData(s.session, s.thread), s.log, DigestOf(s.log), s.executed, w)
    && LiveOk(DigestOf(s.log), s.live, w)
  }

  lemma {:induction false} AuthorizeStep(limit: Option<nat>, s: Engine, move: Move)
    requires Inv(limit, s) && move.Authorize? && NextWork(limit, s, move).Some?
    ensures Fits(limit, s, NextWork(limit, s, move).value)
  {
    var Authorizing(round, queue, resuming) := s.work;
    var head := queue[0];
    if resuming {
      SavedAgrees(limit, s.log, head, round);
      match DecisionFor(s, move.policy) {
        case Proceed => ApprovedInLog(limit, s.log, head.id);
        case Await(a, after) => NotAnsweredYet(limit, s.log, a.id);
        case _ =>
      }
    }
  }

  lemma {:induction false} WatchStep(limit: Option<nat>, s: Engine, move: Move)
    requires Inv(limit, s) && move.WatchNext? && NextWork(limit, s, move).Some?
    ensures Fits(limit, s, NextWork(limit, s, move).value)
  {
    var Watching(round, queue, a, cursor) := s.work;
    var e := s.log[cursor];
    assert s.log[..cursor + 1] == s.log[..cursor] + [e];
    if e.ApprovalResponded? && e.response.approval == a.id && e.response.approved {
      AnsweredWasAsked(limit, s.log, cursor);
      ApprovedInLog(limit, s.log, queue[0].id);
    }
  }

  lemma {:induction false} LoadStep(limit: Option<nat>, s: Engine, move: Move)
    requires Inv(limit, s) && move.Load? && NextWork(limit, s, move).Some?
    ensures Fits(limit, s, NextWork(limit, s, move).value)
  {
    var d := DigestOf(s.log);
    LoadVerdict(limit, s.log);
    if d.HeadAwaitsAnswer() {
      forall i | 0 <= i < |s.executed|
        ensures s.executed[i].call != d.pending[0].id
      {
        assert ExecutionOk(SessionData(s.session, s.thread), s.log, d, s.executed[i]);
      }
    }
  }

  lemma {:induction false} FailureFits(limit: Option<nat>, s: Engine)
    requires DigestOf(s.log).ended == 0
    ensures Fits(limit, s, Closing(FAILURE))
  {
  }

  lemma {:induction false} JournalingFits(limit: Option<nat>, s: Engine, round: nat, queue: seq<Call>, result: Value)
    requires Busy(DigestOf(s.log), round, queue) && s.live == Ids(DigestOf(s.log).pending)
    ensures Fits(limit, s, Journaling(round, queue, result))
  {
  }

  /** While an approval request is being appended, its call is the oldest unresolved one. */
  lemma {:induction false} AskingBusy(limit: Option<nat>, s: Engine)
    requires Inv(limit, s) && s.work.Appending? && s.work.write.Asking?
    ensures Busy(DigestOf(s.log), s.work.write.round, s.work.write.queue) && s.live == Ids(DigestOf(s.log).pending)
  {
    var w := s.work.write;
    if s.work.persisted {
      assert Batch(w)[..0] == [];
      assert UpdateAll(s.live, Batch(w)) == s.live;
    }
  }

  lemma {:induction false} AppendFailsStep(limit: Option<nat>, s: Engine, move: Move)
    requires Inv(limit, s) && move.AppendFails? && NextWork(limit, s, move).Some?
    ensures Fits(limit, s, NextWork(limit, s, move).value)
  {
    var w := s.work.write;
    if w.Asking? {
      AskingBusy(limit, s);
      JournalingFits(limit, s, w.round, w.queue, move.error);
    } else {
      Unended(limit, SessionData(s.session, s.thread), s.log, DigestOf(s.log), s.executed, s.work);
      FailureFits(limit, s);
    }
  }

  lemma {:induction false} FinishStep(limit: Option<nat>, s: Engine, move: Move)
    requires Inv(limit, s) && move.ReadMarker? && NextWork(limit, s, move).Some?
    ensures Fits(limit, s, NextWork(limit, s, move).value)
  {
    TerminalsFound(s.log);
    WellFormedConsistent(limit, s.log);
  }

  lemma {:induction false} RecoverStep(limit: Option<nat>, s: Engine, move: Move)
    requires Inv(limit, s) && (move.Recover? || move.Abort?) && NextWork(limit, s, move).Some?
    ensures Fits(limit, s, NextWork(limit, s, move).value)
  {
    TerminalsFound(s.log);
  }

  /** While the executor is at work the turn has not ended. */
  lemma {:induction false} Unended(limit: Option<nat>, past: seq<EventData>, log: seq<EventData>, d: Digest,
                executed: seq<Execution>, w: Work)
    requires WorkOk(limit, past, log, d, executed, w) && InFlight(w)
    ensures d.ended == 0 && d.failed == 0
    ensures d.completed > 0 <==> w.Appending? && w.write.Final? && w.persisted
  {
    if w.Appending? {
      if w.persisted {
        assert RestOk(past, log, d, executed, Then(w.write, w.mark));
      } else {
        assert WriteOk(limit, d, executed, w.write);
      }
    }
  }

  lemma {:induction false} CancelStep(limit: Option<nat>, s: Engine, move: Move)
    requires Inv(limit, s) && move.Cancel? && NextWork(limit, s, move).Some?
    ensures Fits(limit, s, NextWork(limit, s, move).value)
  {
    Unended(limit, SessionData(s.session, s.thread), s.log, DigestOf(s.log), s.executed, s.work);
    FailureFits(limit, s);
  }

  lemma {:induction false} SimpleStep(limit: Option<nat>, s: Engine, move: Move)
    requires Inv(limit, s) && NextWork(limit, s, move).Some?
    requires move.ReachLimit? || move.FailRound? || move.AuthorizeFails? || move.Journal? || move.MarkerUnread?
    ensures Fits(limit, s, NextWork(limit, s, move).value)
  {
  }

  lemma {:induction false} ReadingMoveFits(limit: Option<nat>, s: Engine, move: Move)
    requires Inv(limit, s) && NextWork(limit, s, move).Some?
    requires move.Authorize? || move.WatchNext? || move.Load?
    ensures Fits(limit, s, NextWork(limit, s, move).value)
  {
    if move.Authorize? {
      AuthorizeStep(limit, s, move);
    } else if move.WatchNext? {
      WatchStep(limit, s, move);
    } else {
      LoadStep(limit, s, move);
    }
  }

  lemma {:induction false} EndingMoveFits(limit: Option<nat>, s: Engine, move: Move)
    requires Inv(limit, s) && NextWork(limit, s, move).Some?
    requires move.ReadMarker? || move.Cancel? || move.Recover? || move.Abort?
    ensures Fits(limit, s, NextWork(limit, s, move).value)
  {
    if move.ReadMarker? {
      FinishStep(limit, s, move);
    } else if move.Cancel? {
      CancelStep(limit, s, move);
    } else {
      RecoverStep(limit, s, move);
    }
  }

  lemma {:induction false} MoveFits(limit: Option<nat>, s: Engine, move: Move)
    requires Inv(limit, s) && NextWork(limit, s, move).Some?
    ensures Fits(limit, s, NextWork(limit, s, move).value)
  {
    if move.Authorize? || move.WatchNext? || move.Load? {
      ReadingMoveFits(limit, s, move);
    } else if move.ReadMarker? || move.Cancel? || move.Recover? || move.Abort? {
      EndingMoveFits(limit, s, move);
    } else if move.AppendFails? {
      AppendFailsStep(limit, s, move);
    } else {
      SimpleStep(limit, s, move);
    }
  }

  // ----- The other steps -----

  /** A query that accepts a batch of the turn finds it behind what it found before. */
  lemma {:induction false} QueryExtended(q: Query, session: SessionId, turn: TurnId, thread: seq<Event>,
      batch: seq<EventData>)
    requires q.after.None? && q.kinds.None? && q.session == Some(session) && (q.turn.Some? ==> q.turn.value == turn)
    ensures DataOf(Select(q, Extended(session, turn, thread, batch))) == DataOf(Select(q, thread)) + batch
  {
    var stamped := Stamp(session, turn, NextId(thread), batch);
    SelectConcat(q, thread, stamped);
    SelectAll(q, stamped);
    assert DataOf(Select(q, thread) + stamped) == DataOf(Select(q, thread)) + batch;
  }

  lemma {:induction false} SessionExtended(session: SessionId, turn: TurnId, thread: seq<Event>, batch: seq<EventData>)
    ensures SessionData(session, Extended(session, turn, thread, batch)) == SessionData(session, thread) + batch
  {
    QueryExtended(Query(None, Some(session), None, None), session, turn, thread, batch);
  }

  lemma {:induction false} SelectAll(q: Query, log: seq<Event>)
    requires forall i :: 0 <= i < |log| ==> q.Accepts(log[i])
    ensures Select(q, log) == log
  {
    if log != [] {
      SelectAll(q, log[..|log| - 1]);
    }
  }

  /** What the turn appends also reaches its session. */
  lemma {:induction false} AppendedInv(limit: Option<nat>, s: Engine, batch: seq<EventData>, work: Work,
      live: set<CallId>, responder: Option<Response>)
    requires Core(limit, SessionData(s.session, s.thread), s.log + batch, work, live, responder, s.executed)
    ensures Inv(limit, Appended(s, batch).(work := work, live := live, responder := responder))
  {
    SessionExtended(s.session, s.turn, s.thread, batch);
    SessionGrows(limit, SessionData(s.session, s.thread), batch, s.log + batch, work, live, responder, s.executed);
  }

  lemma {:induction false} PersistStep(limit: Option<nat>, s: Engine)
    requires Inv(limit, s) && s.work.Appending? && !s.work.persisted
    ensures var log := s.log + Batch(s.work.write);
      Inv(limit, Appended(s, Batch(s.work.write)).(work := Appending(s.work.write, true, |log|)))
  {
    var w, past := s.work.write, SessionData(s.session, s.thread);
    match w {
      case Commit(_, _) => PersistCommit(limit, past, s.log, w, s.work.mark, s.live, s.responder, s.executed);
      case Final(_) => PersistFinal(limit, past, s.log, w, s.work.mark, s.live, s.responder, s.executed);
      case Asking(_, _, _) => PersistAsk(limit, past, s.log, w, s.work.mark, s.live, s.responder, s.executed);
      case Resulting(_, _, _) => PersistResult(limit, past, s.log, w, s.work.mark, s.live, s.responder, s.executed);
    }
    AppendedInv(limit, s, Batch(w), Appending(w, true, |s.log + Batch(w)|), s.live, s.responder);
  }

  lemma {:induction false} ExecuteStep(limit: Option<nat>, s: Engine, result: Value)
    requires Inv(limit, s) && s.work.Running?
    ensures Core(limit, SessionData(s.session, s.thread), s.log, Journaling(s.work.round, s.work.queue, result),
                 s.live, s.responder, s.executed + [ExecutionOf(s, s.work.queue[0], s.work.policy)])
  {
    var d, past := DigestOf(s.log), SessionData(s.session, s.thread);
    WellFormedConsistent(limit, s.log);
    assert s.log[..|s.log|] == s.log && past[..|past|] == past;
    assert ExecutionOk(past, s.log, d, ExecutionOf(s, s.work.queue[0], s.work.policy));
  }

  lemma {:induction false} CloseStep(limit: Option<nat>, s: Engine)
    requires Inv(limit, s) && s.work.Closing? && s.work.todo != []
    ensures Inv(limit, Appended(s, [s.work.todo[0]]).(work := Closing(s.work.todo[1..])))
  {
    ExecutedStep(limit, SessionData(s.session, s.thread), s.log, s.executed, s.work.todo[0]);
    AppendedInv(limit, s, [s.work.todo[0]], Closing(s.work.todo[1..]), s.live, s.responder);
  }

  /** Until its end is saved, a turn that is being closed can fail, and it waits only for terminal events. */
  lemma {:induction false} ClosingUnended(limit: Option<nat>, s: Engine)
    requires Inv(limit, s) && s.work.Closing? && s.work.todo != []
    ensures DigestOf(s.log).ended == 0 && Legal(limit, DigestOf(s.log), s.work.todo[0])
    ensures s.work.todo[0].TurnCompleted? || s.work.todo[0].Error? || s.work.todo[0].TurnEnded?
  {
  }

  /** A finalizer that gives up, or that goes on to fail the turn, fits every log that has not ended. */
  lemma {:induction false} GivenUp(limit: Option<nat>, past: seq<EventData>, log: seq<EventData>, work: Work,
      live: set<CallId>, responder: Option<Response>, executed: seq<Execution>)
    requires WellFormed(limit, log) && ExecutedOk(past, log, DigestOf(log), executed)
    requires ResponderOk(DigestOf(log), responder)
    requires (work == Down && live == {}) || (work == Closing(FAILURE) && DigestOf(log).ended == 0)
    ensures Core(limit, past, log, work, live, responder, executed)
  {
  }

  lemma {:induction false} CloseFailsStep(limit: Option<nat>, s: Engine, landed: bool)
    requires Inv(limit, s) && s.work.Closing? && s.work.todo != []
    ensures Inv(limit, AfterCloseFails(s, s.work.todo[0], landed))
  {
    var e, past := s.work.todo[0], SessionData(s.session, s.thread);
    var work, live := if e.TurnCompleted? then Closing(FAILURE) else Down, if e.TurnCompleted? then s.live else {};
    ClosingUnended(limit, s);
    if landed {
      ExecutedStep(limit, past, s.log, s.executed, e);
      GivenUp(limit, past, s.log + [e], work, live, s.responder, s.executed);
      AppendedInv(limit, s, [e], work, live, s.responder);
    } else {
      GivenUp(limit, past, s.log, work, live, s.responder, s.executed);
    }
  }

  lemma {:induction false} RestoreStepKeeps(limit: Option<nat>, s: Engine)
    requires Inv(limit, s) && s.work.Restoring?
    ensures Inv(limit, AfterControl(s, Restore).value)
  {
    RestoreVerdict(limit, s.log);
  }

  lemma {:induction false} CheckStep(limit: Option<nat>, s: Engine, approval: ApprovalId, approved: bool,
      allowForTool: bool)
    requires Inv(limit, s)
    requires RespondTo(s.log, approval, approved, allowForTool).Success?
    ensures ResponderOk(DigestOf(s.log), Some(RespondTo(s.log, approval, approved, allowForTool).value))
  {
    PendingAgrees(limit, s.log);
  }

  lemma {:induction false} AnswerStep(limit: Option<nat>, s: Engine, e: EventData, responder: Option<Response>)
    requires Inv(limit, s)
    requires (e == OtherData && responder == s.responder) ||
             (s.responder.Some? && e == ApprovalResponded(s.responder.value) && responder == None)
    ensures Inv(limit, Appended(s, [e]).(responder := responder))
  {
    var past := SessionData(s.session, s.thread);
    PassiveAppend(limit, past, s.log, s.work, s.live, s.responder, s.executed, e, responder);
    AppendedInv(limit, s, [e], s.work, s.live, responder);
  }

  /** A response to an earlier turn may reach the session, but never the turn. */
  lemma {:induction false} LateSession(session: SessionId, thread: seq<Event>, late: Late)
    ensures SessionData(session, WithLate(thread, late)) ==
      SessionData(session, thread) + if late.session == session then [ApprovalResponded(late.response)] else []
  {
    if late.session == session {
      SessionExtended(session, late.turn, thread, [ApprovalResponded(late.response)]);
    } else {
      var q := Query(None, Some(session), None, None);
      var stamped := Stamp(late.session, late.turn, NextId(thread), [ApprovalResponded(late.response)]);
      SelectConcat(q, thread, stamped);
      SelectNone(q, stamped);
      assert SessionData(session, thread) + [] == SessionData(session, thread);
    }
  }

  lemma {:induction false} LateStep(limit: Option<nat>, s: Engine)
    requires Inv(limit, s) && s.late.Some?
    ensures Inv(limit, s.(thread := WithLate(s.thread, s.late.value), late := None))
  {
    var e := ApprovalResponded(s.late.value.response);
    LateSession(s.session, s.thread, s.late.value);
    SessionGrows(limit, SessionData(s.session, s.thread), if s.late.value.session == s.session then [e] else [],
                 s.log, s.work, s.live, s.responder, s.executed);
  }

  lemma {:induction false} BeginOk(limit: Option<nat>, past: seq<EventData>, input: seq<Message>)
    ensures Core(limit, past, BeginEvents(input), Round(0), {}, None, [])
    ensures DigestOf(BeginEvents(input)) == START
  {
    Single(limit, START, TurnStarted);
    Snoc(limit, START, [TurnStarted], OtherData);
    Snoc(limit, START, [TurnStarted, OtherData], Messages(input));
    assert BeginEvents(input) == [TurnStarted, OtherData] + [Messages(input)];
    assert [TurnStarted, OtherData] == [TurnStarted] + [OtherData];
  }

  lemma {:induction false} MoveKeeps(limit: Option<nat>, s: Engine, move: Move)
    requires Inv(limit, s) && NextWork(limit, s, move).Some?
    ensures Inv(limit, s.(work := NextWork(limit, s, move).value))
  {
    MoveFits(limit, s, move);
  }

  lemma {:induction false} EffectKeeps(limit: Option<nat>, s: Engine, effect: Effect)
    requires Inv(limit, s) && AfterEffect(limit, s, effect).Some?
    ensures Inv(limit, AfterEffect(limit, s, effect).value)
  {
    match effect {
      case CallModel(_) =>
      case Persist => PersistStep(limit, s);
      case Acknowledge =>
      case Execute(result) => ExecuteStep(limit, s, result);
      case CloseNext => if s.work.todo != [] { CloseStep(limit, s); }
      case CloseFails(landed) => CloseFailsStep(limit, s, landed);
    }
  }

  lemma {:induction false} ControlKeeps(limit: Option<nat>, s: Engine, control: Control)
    requires Inv(limit, s) && AfterControl(s, control).Some?
    ensures Inv(limit, AfterControl(s, control).value)
  {
    match control {
      case Restore => RestoreStepKeeps(limit, s);
      case NextTurn(gap, session, turn, input) =>
        BeginOk(limit, SessionData(session, Begun(s, s.thread + gap, session, turn, input).thread), input);
      case _ =>
    }
  }

  lemma {:induction false} OutsideKeeps(limit: Option<nat>, s: Engine, outside: Outside)
    requires Inv(limit, s) && AfterOutside(s, outside).Some?
    ensures Inv(limit, AfterOutside(s, outside).value)
  {
    match outside {
      case CheckResponse(approval, approved, allowForTool) => CheckStep(limit, s, approval, approved, allowForTool);
      case AppendResponse => AnswerStep(limit, s, ApprovalResponded(s.responder.value), None);
      case DropResponse =>
      case AppendLate => LateStep(limit, s);
      case DropLate =>
      case Note => AnswerStep(limit, s, OtherData, s.responder);
    }
  }

  /** Every step keeps the invariant. */
  lemma {:induction false} StepKeepsInv(limit: Option<nat>, s: Engine, step: Step)
    requires Inv(limit, s) && Next(limit, s, step).Some?
    ensures Inv(limit, Next(limit, s, step).value)
  {
    match step {
      case Moving(move) => MoveKeeps(limit, s, move);
      case Effecting(effect) => EffectKeeps(limit, s, effect);
      case Controlling(control) => ControlKeeps(limit, s, control);
      case Replying(outside) => OutsideKeeps(limit, s, outside);
    }
  }

  lemma {:induction false} RunKeepsInv(limit: Option<nat>, s: Engine, steps: seq<Step>)
    requires Inv(limit, s) && Run(limit, s, steps).Some?
    ensures Inv(limit, Run(limit, s, steps).value)
  {
    if steps != [] {
      RunKeepsInv(limit, s, steps[..|steps| - 1]);
      StepKeepsInv(limit, Run(limit, s, steps[..|steps| - 1]).value, steps[|steps| - 1]);
    }
  }

  lemma {:induction false} InitialInv(limit: Option<nat>, s: Engine)
    requires Initial(s)
    ensures Inv(limit, s)
  {
    var before, input :| StartsWith(s, before, input);
    BeginOk(limit, SessionData(s.session, s.thread), input);
  }

  lemma {:induction false} ReachableInv(limit: Option<nat>, s: Engine)
    requires Reachable(limit, s)
    ensures Inv(limit, s)
  {
    var start, steps :| Initial(start) && Run(limit, start, steps) == Some(s);
    InitialInv(limit, start);
    RunKeepsInv(limit, start, steps);
  }
}
