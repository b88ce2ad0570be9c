/** What the round limit and single failures do to a turn (crates/executor/src/basic.rs, provider.rs). */
module TurnFaults {
  import opened Wrappers
  import opened Events
  import opened TurnProtocol
  import opened TurnEngine
  import opened TurnInvariant
  import opened TurnSteps
  import opened TurnSafety
  import opened TurnProgress
  import opened TurnContent
  import opened TurnResume
  import opened Recovery
  import opened ResumeVerdict

  /** A round numbered up to the limit may call the model, whatever it answers; a later one may only end the turn. */
  lemma {:induction false} LimitExact(limit: Option<nat>, s: Engine, r: ModelResponse)
    requires s.work.Round? && Admissible(r, DigestOf(s.log).calls)
    ensures Next(limit, s, Effecting(CallModel(r))).Some? <==> limit == None || s.work.round <= limit.value
    ensures Next(limit, s, Moving(ReachLimit)).Some? <==> limit != None && s.work.round > limit.value
  {
  }

  /** A turn that reaches the limit is completed. */
  lemma {:induction false} LimitCompletes(limit: Option<nat>, s: Engine)
    requires Reachable(limit, s) && s.work.Round? && limit.Some? && s.work.round > limit.value
    ensures Run(limit, s, [Moving(ReachLimit), Moving(ReadMarker)] + Closes(3)) ==
      Some(Appended(s, [TurnCompleted, TurnEnded]).(work := Down, live := {}))
  {
    ReachableInv(limit, s);
    TerminalsFound(s.log);
    var mid, closing := s.(work := Completing), s.(work := Closing([TurnCompleted, TurnEnded]));
    assert Run(limit, s, []) == Some(s) && [] + [Moving(ReachLimit)] == [Moving(ReachLimit)];
    RunThen(limit, s, [], s, Moving(ReachLimit));
    RunThen(limit, s, [Moving(ReachLimit)], mid, Moving(ReadMarker));
    assert [Moving(ReachLimit)] + [Moving(ReadMarker)] == [Moving(ReachLimit), Moving(ReadMarker)];
    CloseAll(limit, closing);
    RunConcat(limit, s, [Moving(ReachLimit), Moving(ReadMarker)], Closes(3));
  }

  /** The step that fails while a call is authorised. */
  function AskingFails(s: Engine, error: Value): Move {
    if s.work.Appending? then AppendFails(error) else AuthorizeFails(error)
  }

  /**
   A failure while a call is authorised, asked for or awaited fails only that call: it does not run, the
   error is journaled as its result, and the round goes on.
   */
  lemma {:induction false} FailedAskFailsCall(limit: Option<nat>, s: Engine, round: nat, queue: seq<Call>, error: Value)
    returns (s': Engine)
    requires queue != []
    requires match s.work
      case Authorizing(n, q, _) => n == round && q == queue
      case Watching(n, q, _, _) => n == round && q == queue
      case Appending(Asking(n, q, _), _, _) => n == round && q == queue
      case _ => false
    ensures Run(limit, s, [Moving(AskingFails(s, error))] + ResultSteps()) == Some(s')
    ensures CallSettled(s, s', round, queue, false, error) && s'.log == s.log + [ToolResult(queue[0].id, error)]
  {
    var first, mid := Moving(AskingFails(s, error)), s.(work := Journaling(round, queue, error));
    assert Run(limit, s, []) == Some(s) && [] + [first] == [first];
    RunThen(limit, s, [], s, first);
    ResultRuns(limit, mid, round, queue, error);
    RunConcat(limit, s, [first], ResultSteps());
    s' := Journaled(mid, round, queue, error);
    ReadSnoc(s.log, ToolResult(queue[0].id, error));
    assert CallsRun(s.executed) + [] == CallsRun(s.executed);
  }

  /** The steps that fail the whole turn, and where they can come. */
  predicate FailsTurn(w: Work, log: seq<EventData>, move: Move) {
    match move
    case AppendFails(_) => w.Appending? && !w.write.Asking?
    case FailRound => w.Round? || w.Restoring? || w.Loading?
    case MarkerUnread => w.Completing?
    case Cancel => !w.Down? && !w.Completing? && !w.Closing?
    case Abort => w.Down? && TurnEnded !in log
    case _ => false
  }

  /**
   Any other append that fails, a model call or a recovery check that fails, a completion that cannot
   be confirmed, a cancellation and a turn the queue gives up: each ends the turn with an error.
   */
  lemma {:induction false} FailureEndsTurn(limit: Option<nat>, s: Engine, move: Move)
    requires FailsTurn(s.work, s.log, move)
    ensures Run(limit, s, [Moving(move)] + Closes(3)) ==
      Some(Appended(s, [Error, TurnEnded]).(work := Down, live := {}))
  {
    var closing := s.(work := Closing([Error, TurnEnded]));
    assert Run(limit, s, []) == Some(s) && [] + [Moving(move)] == [Moving(move)];
    RunThen(limit, s, [], s, Moving(move));
    CloseAll(limit, closing);
    RunConcat(limit, s, [Moving(move)], Closes(3));
  }

  /** A turn that was marked but not ended is only ended when it is taken up again. */
  lemma {:induction false} MarkedTurnEnds(limit: Option<nat>, s: Engine)
    requires s.work == Down && (TurnCompleted in s.log || Error in s.log) && TurnEnded !in s.log
    ensures Run(limit, s, [Moving(Recover)] + Closes(2)) == Some(Appended(s, [TurnEnded]).(work := Down, live := {}))
  {
    var closing := s.(work := Closing([TurnEnded]));
    assert Run(limit, s, []) == Some(s) && [] + [Moving(Recover)] == [Moving(Recover)];
    RunThen(limit, s, [], s, Moving(Recover));
    CloseAll(limit, closing);
    RunConcat(limit, s, [Moving(Recover)], Closes(2));
  }

  /** Between its rounds a turn can always be suspended. */
  lemma {:induction false} RoundSuspends(limit: Option<nat>, s: Engine)
    requires Reachable(limit, s) && s.work.Round?
    ensures Next(limit, s, Controlling(Suspend)) == Some(s.(work := Down))
  {
    ReachableInv(limit, s);
    assert Ids([]) == {};
  }

  /** A turn left without a marker, an error and an end can be taken up. */
  ghost predicate Unmarked(s: Engine) {
    s.work == Down && TurnCompleted !in s.log && Error !in s.log && TurnEnded !in s.log
  }

  /** The first two recovery steps of such a turn. */
  lemma {:induction false} Restores(limit: Option<nat>, s: Engine)
    requires Unmarked(s)
    ensures Run(limit, s, [Moving(Recover), Controlling(Restore)]) ==
      match RestoreTools(s.log)
      case Success(pending) => Some(s.(work := Loading, live := pending))
      case Failure(_) => Some(s.(work := Closing(FAILURE)))
  {
    var mid := s.(work := Restoring);
    assert Run(limit, s, []) == Some(s) && [] + [Moving(Recover)] == [Moving(Recover)];
    RunThen(limit, s, [], s, Moving(Recover));
    RunThen(limit, s, [Moving(Recover)], mid, Controlling(Restore));
    assert [Moving(Recover)] + [Controlling(Restore)] == [Moving(Recover), Controlling(Restore)];
  }

  /** A turn whose calls all have results goes on with the round after its last one. */
  lemma {:induction false} ResolvedTurnGoesOn(limit: Option<nat>, s: Engine)
    requires Reachable(limit, s) && Unmarked(s) && AllResolved(s.log)
    ensures Run(limit, s, [Moving(Recover), Controlling(Restore), Moving(Load)]) ==
      Some(s.(work := Round(|Markers(s.log)|), live := {}))
  {
    var steps := [Moving(Recover), Controlling(Restore)];
    var calls, at := ResumeExactly(limit, s);
    if calls != [] {
      assert false;
    }
    Restores(limit, s);
    RunThen(limit, s, steps, s.(work := Loading, live := {}), Moving(Load));
    assert steps + [Moving(Load)] == [Moving(Recover), Controlling(Restore), Moving(Load)];
  }

  lemma {:induction false} FirstUnresolved(log: seq<EventData>, calls: seq<Call>, at: seq<nat>, i: nat)
    requires UnresolvedAt(log, calls, at)
    requires i < |log| && log[i].ToolRequested? && !ResolvedAfter(log, i)
    requires forall k :: 0 <= k < i && log[k].ToolRequested? ==> ResolvedAfter(log, k)
    ensures calls != [] && calls[0] == log[i].call
  {
    assert i in at && at[0] <= i;
  }

  /** A turn whose oldest unresolved call does not wait for an answer is not run again: it fails. */
  lemma {:induction false} UnsafeTurnFails(limit: Option<nat>, s: Engine, i: nat)
    requires Reachable(limit, s) && Unmarked(s)
    requires i < |s.log| && s.log[i].ToolRequested? && !ResolvedAfter(s.log, i)
    requires forall k :: 0 <= k < i && s.log[k].ToolRequested? ==> ResolvedAfter(s.log, k)
    requires !AwaitsAnswer(s.log, |Markers(s.log)| - 1, s.log[i].call)
    ensures Run(limit, s, [Moving(Recover), Controlling(Restore)] + Closes(3)) ==
      Some(Appended(s, [Error, TurnEnded]).(work := Down, live := {}))
  {
    var calls, at := ResumeExactly(limit, s);
    FirstUnresolved(s.log, calls, at, i);
    Restores(limit, s);
    CloseAll(limit, s.(work := Closing(FAILURE)));
    RunConcat(limit, s, [Moving(Recover), Controlling(Restore)], Closes(3));
  }
}
