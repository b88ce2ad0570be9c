/** Exactly when a turn's log gets both a completion marker and an error, in every run. */
module TurnEndings {
  import opened Wrappers
  import opened Events
  import opened TurnProtocol
  import opened TurnEngine
  import opened TurnSteps
  import opened TurnSafety
  import opened TurnInputs

  /** Completed, and failed as well. */
  predicate Contradictory(log: seq<EventData>) { TurnCompleted in log && Error in log }

  /** The finalizer is about to add an error to a log that holds a completion marker. */
  predicate Doomed(s: Engine) { s.work == Closing(FAILURE) && TurnCompleted in s.log }

  /**
   The step turns a completed turn into a failing one. The final answer has been saved but not
   acknowledged, and the turn is cancelled or the append reports an error; or the finalizer cannot
   read the saved marker; or its own marker reaches the log but the append reports an error; or
   nobody runs the marked turn any more and the queue gives it up.
   */
  predicate Spoils(s: Engine, step: Step) {
    || (s.work.Appending? && s.work.write.Final? && s.work.persisted
        && step.Moving? && (step.move.Cancel? || step.move.AppendFails?))
    || (s.work.Completing? && TurnCompleted in s.log && step == Moving(MarkerUnread))
    || (s.work == Closing([TurnCompleted, TurnEnded]) && step == Effecting(CloseFails(true)))
    || (s.work.Down? && TurnCompleted in s.log && step == Moving(Abort))
  }

  /** The finalizer's next event reaches the log. */
  predicate Lands(step: Step) { step == Effecting(CloseNext) || step == Effecting(CloseFails(true)) }

  predicate Adds(s: Engine, step: Step) { Doomed(s) && Lands(step) }

  /** The step leaves the finalizer alone: another task answers, or another process dies. */
  predicate Elsewhere(step: Step) { step.Replying? || (step.Controlling? && step.control.Perish?) }

  predicate NewTurn(step: Step) { step.Controlling? && step.control.NextTurn? }

  // ----- One step -----

  lemma {:induction false} MoveDooms(limit: Option<nat>, s: Engine, move: Move)
    requires Reachable(limit, s) && NextWork(limit, s, move).Some?
    ensures NextWork(limit, s, move).value == Closing(FAILURE) && TurnCompleted in s.log <==> Spoils(s, Moving(move))
  {
    if InFlight(s.work) {
      MarkedInFlight(limit, s);
    }
    NotFailures(s.log);
  }

  /** While the executor is at work, the marker is there exactly when the final answer has just been saved. */
  lemma {:induction false} MarkedInFlight(limit: Option<nat>, s: Engine)
    requires Reachable(limit, s) && InFlight(s.work)
    ensures TurnCompleted in s.log <==> s.work.Appending? && s.work.write.Final? && s.work.persisted
  {
    ReachableInv(limit, s);
    TerminalsFound(s.log);
    Unended(limit, SessionData(s.session, s.thread), s.log, DigestOf(s.log), s.executed, s.work);
  }

  lemma {:induction false} NotFailures(log: seq<EventData>)
    ensures [TurnEnded] != FAILURE && Completion(log) != FAILURE
  {
    assert Completion(log)[0] != FAILURE[0];
  }

  lemma {:induction false} ControlDooms(limit: Option<nat>, s: Engine, control: Control)
    requires Reachable(limit, s) && AfterControl(s, control).Some?
    ensures Doomed(AfterControl(s, control).value) <==> Doomed(s) && control.Perish?
    ensures Contradictory(AfterControl(s, control).value.log) <==> !control.NextTurn? && Contradictory(s.log)
  {
    if control.Restore? {
      ReachableInv(limit, s);
      TerminalsFound(s.log);
    }
  }

  lemma {:induction false} EffectDooms(limit: Option<nat>, s: Engine, effect: Effect)
    requires Reachable(limit, s) && AfterEffect(limit, s, effect).Some?
    ensures Doomed(AfterEffect(limit, s, effect).value) <==> Spoils(s, Effecting(effect))
    ensures Contradictory(AfterEffect(limit, s, effect).value.log) <==>
      Contradictory(s.log) || Adds(s, Effecting(effect))
  {
    match effect {
      case Persist => PersistAddsNoError(limit, s);
      case CloseNext => if s.work.todo != [] { CloseAdds(limit, s); }
      case CloseFails(landed) => CloseAdds(limit, s);
      case _ =>
    }
  }

  lemma {:induction false} PersistAddsNoError(limit: Option<nat>, s: Engine)
    requires Reachable(limit, s) && s.work.Appending? && !s.work.persisted
    ensures !Contradictory(s.log) && !Contradictory(s.log + Batch(s.work.write))
  {
    ReachableInv(limit, s);
    TerminalsFound(s.log);
    Unended(limit, SessionData(s.session, s.thread), s.log, DigestOf(s.log), s.executed, s.work);
    NoError(s.work.write);
  }

  lemma {:induction false} NoError(w: Write)
    ensures Error !in Batch(w)
  {
    assert w.Commit? || w.Final? ==> Error !in ResponseEvents(w.response) by {
      if w.Commit? || w.Final? {
        assert Error !in Requests(w.response.calls);
      }
    }
  }

  /** The finalizer's lists, and what the log holds while they wait. */
  lemma {:induction false} CloseAdds(limit: Option<nat>, s: Engine)
    requires Reachable(limit, s) && s.work.Closing? && s.work.todo != []
    ensures Contradictory(s.log + [s.work.todo[0]]) <==> Contradictory(s.log) || Doomed(s)
    ensures s.work.todo[1..] != FAILURE
    ensures s.work.todo[0].TurnCompleted? <==> s.work.todo == [TurnCompleted, TurnEnded]
    ensures s.work.todo[0].TurnCompleted? ==> TurnCompleted !in s.log
  {
    ReachableInv(limit, s);
    TerminalsFound(s.log);
  }

  lemma {:induction false} OutsideDooms(s: Engine, outside: Outside)
    requires AfterOutside(s, outside).Some?
    ensures Doomed(AfterOutside(s, outside).value) <==> Doomed(s)
    ensures Contradictory(AfterOutside(s, outside).value.log) <==> Contradictory(s.log)
  {
  }

  /** For every reachable state and every step: when the finalizer gets doomed, and when it adds the error. */
  lemma {:induction false} StepDooms(limit: Option<nat>, s: Engine, step: Step)
    requires Reachable(limit, s) && Next(limit, s, step).Some?
    ensures Doomed(Next(limit, s, step).value) <==> Spoils(s, step) || (Doomed(s) && Elsewhere(step))
    ensures Contradictory(Next(limit, s, step).value.log) <==>
      !NewTurn(step) && (Contradictory(s.log) || Adds(s, step))
  {
    match step {
      case Moving(move) => MoveDooms(limit, s, move);
      case Effecting(effect) => EffectDooms(limit, s, effect);
      case Controlling(control) => ControlDooms(limit, s, control);
      case Replying(outside) => OutsideDooms(s, outside);
    }
  }

  // ----- Whole runs -----

  ghost predicate Runs(limit: Option<nat>, start: Engine, steps: seq<Step>) {
    Initial(start) && Run(limit, start, steps).Some?
  }

  /** The state before step `i`. */
  ghost function At(limit: Option<nat>, start: Engine, steps: seq<Step>, i: nat): Engine
    requires Runs(limit, start, steps) && i <= |steps|
  {
    RunPrefix(limit, start, steps, i);
    Run(limit, start, steps[..i]).value
  }

  lemma {:induction false} RunPrefix(limit: Option<nat>, start: Engine, steps: seq<Step>, i: nat)
    requires Run(limit, start, steps).Some? && i <= |steps|
    ensures Run(limit, start, steps[..i]).Some?
  {
    if i == |steps| {
      assert steps[..i] == steps;
    } else {
      RunPrefix(limit, start, steps[..|steps| - 1], i);
      assert steps[..|steps| - 1][..i] == steps[..i];
    }
  }

  lemma {:induction false} AtStep(limit: Option<nat>, start: Engine, steps: seq<Step>, i: nat)
    requires Runs(limit, start, steps) && i < |steps|
    ensures Reachable(limit, At(limit, start, steps, i))
    ensures Next(limit, At(limit, start, steps, i), steps[i]) == Some(At(limit, start, steps, i + 1))
  {
    RunPrefix(limit, start, steps, i);
    RunPrefix(limit, start, steps, i + 1);
    assert steps[..i + 1][..i] == steps[..i];
    assert Run(limit, start, steps[..i]) == Some(At(limit, start, steps, i));
  }

  /** A switch that one kind of step sets and only another kind keeps. */
  ghost predicate Latch(on: seq<bool>, sets: seq<bool>, keeps: seq<bool>, i: nat)
    requires i < |sets| == |keeps| && |on| == |sets| + 1
  {
    on[i + 1] <==> sets[i] || (on[i] && keeps[i])
  }

  ghost predicate SetAt(sets: seq<bool>, keeps: seq<bool>, j: nat, n: nat)
    requires n <= |sets| == |keeps|
  {
    j < n && sets[j] && forall k :: j < k < n ==> keeps[k]
  }

  lemma {:induction false} LatchExact(on: seq<bool>, sets: seq<bool>, keeps: seq<bool>, n: nat)
    requires |sets| == |keeps| && |on| == |sets| + 1 && n <= |sets| && !on[0]
    requires forall i :: 0 <= i < |sets| ==> Latch(on, sets, keeps, i)
    ensures on[n] <==> exists j :: SetAt(sets, keeps, j, n)
  {
    if n > 0 {
      LatchExact(on, sets, keeps, n - 1);
      assert Latch(on, sets, keeps, n - 1);
      if sets[n - 1] {
        assert SetAt(sets, keeps, n - 1, n);
      } else if on[n] {
        var j :| SetAt(sets, keeps, j, n - 1);
        assert SetAt(sets, keeps, j, n);
      }
      if j: nat :| SetAt(sets, keeps, j, n) {
        assert j < n - 1 ==> SetAt(sets, keeps, j, n - 1) && keeps[n - 1];
      }
    }
  }

  /** Step `j` spoils the turn, and the finalizer is left alone until step `n`. */
  ghost predicate SpoiledAt(limit: Option<nat>, start: Engine, steps: seq<Step>, j: nat, n: nat)
    requires Runs(limit, start, steps) && n <= |steps|
  {
    j < n && Spoils(At(limit, start, steps, j), steps[j]) && forall k :: j < k < n ==> Elsewhere(steps[k])
  }

  lemma {:induction false} StartState(limit: Option<nat>, start: Engine, steps: seq<Step>)
    requires Runs(limit, start, steps)
    ensures !Doomed(At(limit, start, steps, 0)) && !Contradictory(At(limit, start, steps, 0).log)
  {
    assert steps[..0] == [];
  }

  lemma {:induction false} DoomedInRuns(limit: Option<nat>, start: Engine, steps: seq<Step>, n: nat)
    requires Runs(limit, start, steps) && n <= |steps|
    ensures Doomed(At(limit, start, steps, n)) <==> exists j :: SpoiledAt(limit, start, steps, j, n)
  {
    var on := seq(n + 1, i requires 0 <= i <= n => Doomed(At(limit, start, steps, i)));
    var sets := seq(n, i requires 0 <= i < n => Spoils(At(limit, start, steps, i), steps[i]));
    var keeps := seq(n, i requires 0 <= i < n => Elsewhere(steps[i]));
    StartState(limit, start, steps);
    forall i | 0 <= i < n ensures Latch(on, sets, keeps, i) {
      AtStep(limit, start, steps, i);
      StepDooms(limit, At(limit, start, steps, i), steps[i]);
    }
    LatchExact(on, sets, keeps, n);
    forall j: nat ensures SetAt(sets, keeps, j, n) <==> SpoiledAt(limit, start, steps, j, n) {
      assert forall k :: j < k < n ==> keeps[k] == Elsewhere(steps[k]);
    }
  }

  /** Step `i` adds the error to a spoiled turn, and no new turn has begun before step `n`. */
  ghost predicate AddedAt(limit: Option<nat>, start: Engine, steps: seq<Step>, i: nat, n: nat)
    requires Runs(limit, start, steps) && n <= |steps|
  {
    && i < n && Lands(steps[i]) && (exists j :: SpoiledAt(limit, start, steps, j, i))
    && forall k :: i < k < n ==> !NewTurn(steps[k])
  }

  /**
   In every run, a turn's log holds both a completion marker and an error exactly when some step
   spoiled the turn, the finalizer's next own step put the error into the log, and no other turn has
   begun.
   */
  lemma {:induction false} ContradictionExact(limit: Option<nat>, start: Engine, steps: seq<Step>, n: nat)
    requires Runs(limit, start, steps) && n <= |steps|
    ensures Contradictory(At(limit, start, steps, n).log) <==> exists i :: AddedAt(limit, start, steps, i, n)
  {
    var on := seq(n + 1, i requires 0 <= i <= n => Contradictory(At(limit, start, steps, i).log));
    var sets := seq(n, i requires 0 <= i < n => Adds(At(limit, start, steps, i), steps[i]));
    var keeps := seq(n, i requires 0 <= i < n => !NewTurn(steps[i]));
    StartState(limit, start, steps);
    forall i | 0 <= i < n ensures Latch(on, sets, keeps, i) {
      AtStep(limit, start, steps, i);
      StepDooms(limit, At(limit, start, steps, i), steps[i]);
    }
    LatchExact(on, sets, keeps, n);
    forall i: nat ensures SetAt(sets, keeps, i, n) <==> AddedAt(limit, start, steps, i, n) {
      if i < n {
        DoomedInRuns(limit, start, steps, i);
        assert forall k :: i < k < n ==> keeps[k] == !NewTurn(steps[k]);
      }
    }
  }

  // ----- It happens -----

  /** A final answer that has reached the log, but whose append is not acknowledged. */
  lemma {:induction false} SavedAnswer() returns (s: Engine)
    ensures Reachable(None, s) && s.log == BeginEvents([Plain(0)]) + [TurnCompleted] && TurnEnded !in s.log
    ensures s.work.Appending? && s.work.write.Final? && s.work.persisted
  {
    var r := ModelResponse([], false, []);
    EmptyAnswer(r);
    var asked := FirstModelCall(r);
    ReachStep(None, asked, Effecting(Persist));
    s := Next(None, asked, Effecting(Persist)).value;
    SavedLog([Plain(0)]);
  }

  lemma {:induction false} SavedLog(input: seq<Message>)
    ensures TurnEnded !in BeginEvents(input) + [TurnCompleted]
  {
  }

  lemma {:induction false} EmptyAnswer(r: ModelResponse)
    requires r == ModelResponse([], false, [])
    ensures Admissible(r, {}) && Batch(Final(r)) == [TurnCompleted]
  {
    assert Requests(r.calls) == [];
    assert ResponseEvents(r) == [];
  }

  lemma {:induction false} ErrorAdded(closing: Engine) returns (s: Engine)
    requires Reachable(None, closing) && closing.work == Closing(FAILURE)
    ensures Reachable(None, s) && s.log == closing.log + [Error]
  {
    ReachStep(None, closing, Effecting(CloseNext));
    s := Next(None, closing, Effecting(CloseNext)).value;
  }

  /** The turn is cancelled, or the append reports an error, before the saved final answer is acknowledged. */
  lemma {:induction false} CancelledAfterCompletion(move: Move) returns (s: Engine)
    requires move.Cancel? || move.AppendFails?
    ensures Reachable(None, s) && s.log == BeginEvents([Plain(0)]) + [TurnCompleted] + [Error]
  {
    var saved := SavedAnswer();
    ReachStep(None, saved, Moving(move));
    s := ErrorAdded(saved.(work := Closing(FAILURE)));
  }

  /** The final answer is saved and acknowledged, but the finalizer cannot read its marker. */
  lemma {:induction false} UnreadAfterCompletion() returns (s: Engine)
    ensures Reachable(None, s) && s.log == BeginEvents([Plain(0)]) + [TurnCompleted] + [Error]
  {
    var saved := SavedAnswer();
    ReachStep(None, saved, Effecting(Acknowledge));
    var completing := Next(None, saved, Effecting(Acknowledge)).value;
    ReachStep(None, completing, Moving(MarkerUnread));
    s := ErrorAdded(completing.(work := Closing(FAILURE)));
  }

  /** A turn at its round limit: the finalizer's own marker reaches the log, but the append reports an error. */
  lemma {:induction false} UnsavedCompletion() returns (limit: Option<nat>, s: Engine)
    ensures Reachable(limit, s) && Contradictory(s.log)
  {
    limit := Some(0);
    var failing := MarkerLost();
    ReachStep(limit, failing, Effecting(CloseNext));
    s := Next(limit, failing, Effecting(CloseNext)).value;
  }

  lemma {:induction false} MarkerLost() returns (s: Engine)
    ensures Reachable(Some(0), s) && Doomed(s)
  {
    var limited := AtLimit();
    ReachStep(Some(0), limited, Moving(ReachLimit));
    var completing := limited.(work := Completing);
    ReachStep(Some(0), completing, Moving(ReadMarker));
    var closing := completing.(work := Closing([TurnCompleted, TurnEnded]));
    ReachStep(Some(0), closing, Effecting(CloseFails(true)));
    s := Next(Some(0), closing, Effecting(CloseFails(true))).value;
  }

  /** A turn that has used up its only round. */
  lemma {:induction false} AtLimit() returns (s: Engine)
    ensures Reachable(Some(0), s) && s.work == Round(1) && TurnCompleted !in s.log
  {
    var start := FirstTurn([Plain(0)]);
    var c := Call(1, ToolRequest(0, 0));
    s := FirstRoundRuns(Some(0), start, [], [Plain(0)], c, 0);
    assert Run(Some(0), start, FirstRound(c, 0)) == Some(s);
    ReachableInv(Some(0), s);
    TerminalsFound(s.log);
  }

  /** The process dies after the final answer was saved, and the queue gives the turn up instead of finishing it. */
  lemma {:induction false} AbortedAfterCompletion() returns (s: Engine)
    ensures Reachable(None, s) && s.log == BeginEvents([Plain(0)]) + [TurnCompleted] + [Error]
  {
    var saved := SavedAnswer();
    ReachStep(None, saved, Controlling(Stop(true)));
    var down := saved.(work := Down, live := {});
    ReachStep(None, down, Moving(Abort));
    s := ErrorAdded(down.(work := Closing(FAILURE)));
  }
}
