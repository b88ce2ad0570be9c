/**
 A call that waits for its approval when its process dies: whenever the answer comes, before the
 resumed executor looks or while it watches, the call is run once if approved, never if denied, and
 its result is journaled.
 */
module TurnResume {
  import opened Wrappers
  import opened Events
  import opened TurnProtocol
  import opened Permissions
  import opened Recovery
  import opened TurnEngine
  import opened TurnInvariant
  import opened TurnSteps
  import opened TurnSafety
  import opened TurnProgress

  /** The oldest call of the turn waits for the answer to this approval, and nobody is answering. */
  ghost predicate Awaited(limit: Option<nat>, s: Engine, a: Approval) {
    var d := DigestOf(s.log);
    && WellFormed(limit, s.log) && d.Open() && d.HeadAwaitsAnswer() && d.round.Some?
    && d.approvals[d.pending[0].id] == a && s.responder == None && s.late == None
  }

  function AnswerTo(a: Approval, approve: bool, forTool: bool): Response {
    Response(a.id, approve, if approve && forTool then Some(a.request.functionName) else None)
  }

  function Answering(a: Approval, approve: bool, forTool: bool): seq<Step> {
    [Replying(CheckResponse(a.id, approve, approve && forTool)), Replying(AppendResponse)]
  }

  lemma {:induction false} AwaitedIsPending(limit: Option<nat>, s: Engine, a: Approval, approve: bool, forTool: bool)
    requires Awaited(limit, s, a)
    ensures RespondTo(s.log, a.id, approve, approve && forTool) == Success(AnswerTo(a, approve, forTool))
    ensures TurnEnded !in s.log
  {
    WellFormedConsistent(limit, s.log);
    PendingAgrees(limit, s.log);
    TerminalsFound(s.log);
  }

  lemma {:induction false} AnswerArrives(limit: Option<nat>, s: Engine, a: Approval, approve: bool, forTool: bool)
    requires Awaited(limit, s, a) && !s.work.Down?
    ensures Run(limit, s, Answering(a, approve, forTool)) ==
      Some(Appended(s, [ApprovalResponded(AnswerTo(a, approve, forTool))]))
  {
    var response, steps := AnswerTo(a, approve, forTool), Answering(a, approve, forTool);
    AwaitedIsPending(limit, s, a, approve, forTool);
    assert Run(limit, s, []) == Some(s) && [] + [steps[0]] == [steps[0]] && [steps[0]] + [steps[1]] == steps;
    RunThen(limit, s, [], s, steps[0]);
    RunThen(limit, s, [steps[0]], s.(responder := Some(response)), steps[1]);
  }

  // ----- The answer comes before the executor looks -----

  lemma {:induction false} AnswerFound(limit: Option<nat>, s: Engine, a: Approval, approve: bool, forTool: bool,
      policy: Policy, newId: ApprovalId)
    requires Awaited(limit, s, a)
    requires s.work == Authorizing(DigestOf(s.log).round.value, DigestOf(s.log).pending, true)
    ensures var s', d := Appended(s, [ApprovalResponded(AnswerTo(a, approve, forTool))]), DigestOf(s.log);
      NextWork(limit, s', Authorize(policy, newId)) ==
        Some(if approve then Running(d.round.value, d.pending, policy) else Journaling(d.round.value, d.pending, 0))
  {
    var e, d := ApprovalResponded(AnswerTo(a, approve, forTool)), DigestOf(s.log);
    WellFormedConsistent(limit, s.log);
    Snoc(limit, START, s.log, e);
    SavedAgrees(limit, s.log + [e], d.pending[0], d.round.value);
  }

  // ----- The answer comes while it watches -----

  function Watches(n: nat, error: Value): seq<Step> { seq(n, _ => Moving(WatchNext(error))) }

  lemma {:induction false} WatchSkips(limit: Option<nat>, s: Engine, error: Value)
    requires s.work.Watching? && s.work.cursor < |s.log| && !EndsWait(s.log[s.work.cursor], s.work.approval.id)
    ensures Next(limit, s, Moving(WatchNext(error))) == Some(s.(work := s.work.(cursor := s.work.cursor + 1)))
  {
  }

  lemma {:induction false} WatchPasses(limit: Option<nat>, s: Engine, n: nat, error: Value)
    requires s.work.Watching? && s.work.cursor + n <= |s.log|
    requires forall i :: s.work.cursor <= i < s.work.cursor + n ==> !EndsWait(s.log[i], s.work.approval.id)
    ensures Run(limit, s, Watches(n, error)) == Some(s.(work := s.work.(cursor := s.work.cursor + n)))
  {
    if n > 0 {
      WatchPasses(limit, s, n - 1, error);
      var mid := s.(work := s.work.(cursor := s.work.cursor + n - 1));
      WatchSkips(limit, mid, error);
      RunThen(limit, s, Watches(n - 1, error), mid, Moving(WatchNext(error)));
      assert Watches(n, error) == Watches(n - 1, error) + [Moving(WatchNext(error))];
    }
  }

  /** Nothing behind the cursor of a fresh watch ends it before the answer does. */
  lemma {:induction false} NothingEndsWait(log: seq<EventData>, e: EventData, approval: ApprovalId)
    requires TurnEnded !in log
    ensures forall i :: AfterLast(log) <= i < |log| ==> !EndsWait((log + [e])[i], approval)
  {
    AfterLastQuiet(log);
    forall i | AfterLast(log) <= i < |log| ensures !EndsWait((log + [e])[i], approval) {
      assert KindOf(log[i]) !in APPROVAL_KINDS && log[i] in log;
    }
  }

  lemma {:induction false} WatchEnds(limit: Option<nat>, s: Engine, r: Response, error: Value)
    requires s.work.Watching? && s.work.cursor < |s.log| && s.log[s.work.cursor] == ApprovalResponded(r)
    requires r.approval == s.work.approval.id
    ensures Next(limit, s, Moving(WatchNext(error))) ==
      Some(s.(work := if r.approved then Running(s.work.round, s.work.queue, AlwaysAsk)
                      else Journaling(s.work.round, s.work.queue, error)))
  {
  }

  lemma {:induction false} AnswerWatched(limit: Option<nat>, s: Engine, r: Response, error: Value)
    returns (steps: seq<Step>)
    requires s.work.Watching? && r.approval == s.work.approval.id && TurnEnded !in s.log
    requires s.work.cursor == AfterLast(s.log) <= |s.log|
    ensures Run(limit, Appended(s, [ApprovalResponded(r)]), steps) ==
      Some(Appended(s, [ApprovalResponded(r)]).(
             work := if r.approved then Running(s.work.round, s.work.queue, AlwaysAsk)
                     else Journaling(s.work.round, s.work.queue, error)))
    ensures forall i :: 0 <= i < |steps| ==> steps[i] == Moving(WatchNext(error))
  {
    var s', n := Appended(s, [ApprovalResponded(r)]), |s.log| - AfterLast(s.log);
    NothingEndsWait(s.log, ApprovalResponded(r), r.approval);
    WatchPasses(limit, s', n, error);
    var last := s'.(work := s.work.(cursor := |s.log|));
    WatchEnds(limit, last, r, error);
    RunThen(limit, s', Watches(n, error), last, Moving(WatchNext(error)));
    steps := Watches(n, error) + [Moving(WatchNext(error))];
  }

  // ----- From the crash to the journaled result -----

  /** Run if approved, and journaled either way. */
  function Finished(s: Engine, round: nat, queue: seq<Call>, approve: bool, policy: Policy, result: Value): Engine
    requires queue != []
  {
    Journaled(if approve then Executed(s, queue[0], policy) else s, round, queue, result)
  }

  function FinishSteps(approve: bool, result: Value): seq<Step> {
    (if approve then [Effecting(Execute(result))] else []) + ResultSteps()
  }

  lemma {:induction false} FinishRuns(limit: Option<nat>, s: Engine, round: nat, queue: seq<Call>, approve: bool,
      policy: Policy, result: Value)
    requires queue != []
    requires s.work == if approve then Running(round, queue, policy) else Journaling(round, queue, result)
    ensures Run(limit, s, FinishSteps(approve, result)) == Some(Finished(s, round, queue, approve, policy, result))
  {
    if approve {
      ExecuteThenResult(limit, s, round, queue, policy, result);
    } else {
      ResultRuns(limit, s, round, queue, result);
      assert [] + ResultSteps() == ResultSteps();
    }
  }

  /** From s to s' the call ran once if approved and not at all if denied, and its result was journaled. */
  ghost predicate CallSettled(s: Engine, s': Engine, round: nat, queue: seq<Call>, approve: bool, result: Value) {
    && queue != []
    && CallsRun(s'.executed) == CallsRun(s.executed) + (if approve then [queue[0].id] else [])
    && ResultsIn(s'.log) == ResultsIn(s.log) + [ToolResult(queue[0].id, result)]
    && s'.work == if |queue| > 1 then Authorizing(round, queue[1..], false) else Round(round + 1)
  }

  lemma {:induction false} JournaledFacts(s: Engine, round: nat, queue: seq<Call>, result: Value) returns (s': Engine)
    requires queue != []
    ensures s' == Journaled(s, round, queue, result) && s'.executed == s.executed
    ensures ResultsIn(s'.log) == ResultsIn(s.log) + [ToolResult(queue[0].id, result)]
    ensures s'.work == if |queue| > 1 then Authorizing(round, queue[1..], false) else Round(round + 1)
  {
    s' := Journaled(s, round, queue, result);
    ReadSnoc(s.log, ToolResult(queue[0].id, result));
  }

  lemma {:induction false} ExecutedFacts(s: Engine, call: Call, policy: Policy) returns (s': Engine)
    ensures s' == Executed(s, call, policy) && s'.log == s.log
    ensures CallsRun(s'.executed) == CallsRun(s.executed) + [call.id]
  {
    s' := Executed(s, call, policy);
  }

  lemma {:induction false} AnsweredFacts(s: Engine, e: EventData) returns (s': Engine)
    requires e.ApprovalResponded?
    ensures s' == Appended(s, [e]) && ResultsIn(s'.log) == ResultsIn(s.log) && s'.executed == s.executed
  {
    s' := Appended(s, [e]);
    ReadSnoc(s.log, e);
  }

  lemma {:induction false} FinishedFacts(s: Engine, e: EventData, round: nat, queue: seq<Call>, approve: bool,
      policy: Policy, result: Value)
    requires queue != [] && e.ApprovalResponded?
    ensures var s' := Finished(Appended(s, [e]), round, queue, approve, policy, result);
      CallSettled(s, s', round, queue, approve, result)
  {
    var ran := AnsweredFacts(s, e);
    if approve {
      ran := ExecutedFacts(ran, queue[0], policy);
    }
    var s' := JournaledFacts(ran, round, queue, result);
    assert CallsRun(s.executed) + [] == CallsRun(s.executed);
  }

  lemma {:induction false} DownAwaited(limit: Option<nat>, s: Engine)
    requires Reachable(limit, s) && s.work.Watching? && Unanswered(s.log, s.work.approval.id)
    ensures Awaited(limit, Crashed(s), s.work.approval)
    ensures DigestOf(s.log).pending == s.work.queue && DigestOf(s.log).round == Some(s.work.round)
  {
    WaitingDigest(limit, s);
  }

  function Crashed(s: Engine): Engine {
    s.(work := Down, live := {}, caches := s.caches - {s.process}, responder := None, late := None)
  }

  function Recovering(): seq<Step> { [Moving(Recover), Controlling(Restore), Moving(Load)] }

  /** The answer is found, or watched for, in a state in which the call is next. */
  lemma {:induction false} AnsweredBefore(limit: Option<nat>, s: Engine, a: Approval, approve: bool, forTool: bool,
      policy: Policy, newId: ApprovalId, result: Value) returns (steps: seq<Step>, s': Engine)
    requires Awaited(limit, s, a) && DigestOf(s.log).pending != []
    requires s.work == Authorizing(DigestOf(s.log).round.value, DigestOf(s.log).pending, true)
    ensures Answering(a, approve, forTool) <= steps && Run(limit, s, steps) == Some(s')
    ensures CallSettled(s, s', s.work.round, s.work.queue, approve, if approve then result else 0)
  {
    var round, queue, value := s.work.round, s.work.queue, if approve then result else 0;
    var e, answer, look := ApprovalResponded(AnswerTo(a, approve, forTool)), Answering(a, approve, forTool),
                           Moving(Authorize(policy, newId));
    var answered := Appended(s, [e]);
    var decided := answered.(work := if approve then Running(round, queue, policy) else Journaling(round, queue, 0));
    AnswerArrives(limit, s, a, approve, forTool);
    AnswerFound(limit, s, a, approve, forTool, policy, newId);
    RunThen(limit, s, answer, answered, look);
    FinishRuns(limit, decided, round, queue, approve, policy, value);
    RunConcat(limit, s, answer + [look], FinishSteps(approve, value));
    steps := answer + [look] + FinishSteps(approve, value);
    s' := Finished(decided, round, queue, approve, policy, value);
    FinishedFacts(s, e, round, queue, approve, policy, value);
  }

  lemma {:induction false} AnsweredInWatch(limit: Option<nat>, s: Engine, a: Approval, approve: bool, forTool: bool,
      result: Value) returns (steps: seq<Step>, s': Engine)
    requires Awaited(limit, s, a) && s.work.Watching? && s.work.queue != []
    requires s.work.approval == a && s.work.cursor == AfterLast(s.log) <= |s.log|
    ensures Answering(a, approve, forTool) <= steps && Run(limit, s, steps) == Some(s')
    ensures CallSettled(s, s', s.work.round, s.work.queue, approve, result)
  {
    var round, queue, r := s.work.round, s.work.queue, AnswerTo(a, approve, forTool);
    var answered, answer := Appended(s, [ApprovalResponded(r)]), Answering(a, approve, forTool);
    AnswerArrives(limit, s, a, approve, forTool);
    AwaitedIsPending(limit, s, a, approve, forTool);
    var watch := AnswerWatched(limit, s, r, result);
    RunConcat(limit, s, answer, watch);
    var next := if approve then Running(round, queue, AlwaysAsk) else Journaling(round, queue, result);
    FinishRuns(limit, answered.(work := next), round, queue, approve, AlwaysAsk, result);
    RunConcat(limit, s, answer + watch, FinishSteps(approve, result));
    steps := answer + watch + FinishSteps(approve, result);
    s' := Finished(answered, round, queue, approve, AlwaysAsk, result);
    FinishedFacts(s, ApprovalResponded(r), round, queue, approve, AlwaysAsk, result);
  }

  /** The call is next once recovery has loaded the turn. */
  lemma {:induction false} RecoveredAwaited(limit: Option<nat>, down: Engine, a: Approval)
    requires Awaited(limit, down, a) && down.work == Down && down.live == {}
    ensures var d := DigestOf(down.log);
      Run(limit, down, Recovering()) ==
        Some(down.(work := Authorizing(d.round.value, d.pending, true), live := Ids(d.pending)))
  {
    var d := DigestOf(down.log);
    WaitRecovered(limit, down);
    WaitLoaded(limit, down, d.round.value, d.pending);
  }

  /** Steps from another state with the same log and executions settle the call alike. */
  lemma {:induction false} SettledAlike(s: Engine, t: Engine, s': Engine, round: nat, queue: seq<Call>, approve: bool,
      result: Value)
    requires CallSettled(t, s', round, queue, approve, result) && t.log == s.log && t.executed == s.executed
    ensures CallSettled(s, s', round, queue, approve, result)
  {
  }

  lemma {:induction false} SettledEarly(limit: Option<nat>, s: Engine, approve: bool, forTool: bool,
      policy: Policy, newId: ApprovalId, result: Value) returns (steps: seq<Step>, s': Engine)
    requires s.work.Watching? && Awaited(limit, Crashed(s), s.work.approval)
    requires DigestOf(s.log).pending == s.work.queue && DigestOf(s.log).round == Some(s.work.round)
    ensures Recovering() + Answering(s.work.approval, approve, forTool) <= steps
    ensures Run(limit, Crashed(s), steps) == Some(s')
    ensures CallSettled(s, s', s.work.round, s.work.queue, approve, if approve then result else 0)
  {
    var down, a, round, queue := Crashed(s), s.work.approval, s.work.round, s.work.queue;
    var authorizing := down.(work := Authorizing(round, queue, true), live := Ids(queue));
    RecoveredAwaited(limit, down, a);
    var more: seq<Step>;
    more, s' := AnsweredBefore(limit, authorizing, a, approve, forTool, policy, newId, result);
    steps := Recovering() + more;
    RunConcat(limit, down, Recovering(), more);
    SettledAlike(s, authorizing, s', round, queue, approve, if approve then result else 0);
  }

  lemma {:induction false} SettledLate(limit: Option<nat>, s: Engine, approve: bool, forTool: bool,
      policy: Policy, newId: ApprovalId, result: Value) returns (steps: seq<Step>, s': Engine)
    requires s.work.Watching? && Awaited(limit, Crashed(s), s.work.approval)
    requires DigestOf(s.log).pending == s.work.queue && DigestOf(s.log).round == Some(s.work.round)
    ensures RecoverySteps(policy, newId) + Answering(s.work.approval, approve, forTool) <= steps
    ensures Run(limit, Crashed(s), steps) == Some(s')
    ensures CallSettled(s, s', s.work.round, s.work.queue, approve, result)
  {
    var down, a, round, queue := Crashed(s), s.work.approval, s.work.round, s.work.queue;
    var watching := down.(work := Watching(round, queue, a, AfterLast(s.log)), live := Ids(queue));
    WaitTakenUp(limit, down, policy, newId);
    AfterLastQuiet(s.log);
    var more: seq<Step>;
    more, s' := AnsweredInWatch(limit, watching, a, approve, forTool, result);
    steps := RecoverySteps(policy, newId) + more;
    RunConcat(limit, down, RecoverySteps(policy, newId), more);
    SettledAlike(s, watching, s', round, queue, approve, result);
  }

  lemma {:induction false} Dies(limit: Option<nat>, s: Engine)
    requires s.work.Watching?
    ensures Next(limit, s, Controlling(Stop(false))) == Some(Crashed(s))
  {
  }

  /**
   A process dies while a call waits for its approval; the turn is taken up again, and the answer
   comes before or after the executor looks. An approved call then runs exactly once more and a
   denied one never; its result is journaled, and the round goes on.
   */
  lemma {:induction false} AnsweredAfterCrash(limit: Option<nat>, s: Engine, early: bool, approve: bool, forTool: bool,
      policy: Policy, newId: ApprovalId, result: Value) returns (steps: seq<Step>, s': Engine)
    requires Reachable(limit, s) && s.work.Watching? && Unanswered(s.log, s.work.approval.id)
    ensures Next(limit, s, Controlling(Stop(false))) == Some(Crashed(s)) && Run(limit, Crashed(s), steps) == Some(s')
    ensures var taken := if early then Recovering() else RecoverySteps(policy, newId);
      taken + Answering(s.work.approval, approve, forTool) <= steps
    ensures CallSettled(s, s', s.work.round, s.work.queue, approve, if early && !approve then 0 else result)
  {
    Dies(limit, s);
    DownAwaited(limit, s);
    if early {
      steps, s' := SettledEarly(limit, s, approve, forTool, policy, newId, result);
    } else {
      steps, s' := SettledLate(limit, s, approve, forTool, policy, newId, result);
    }
  }
}
