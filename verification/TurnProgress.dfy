/**
 What undisturbed runs achieve: rounds run every call exactly once and in order, and waiting for an
 approval survives a crash.
 */
module TurnProgress {
  import opened Wrappers
  import opened Events
  import opened TurnProtocol
  import opened Permissions
  import opened Recovery
  import opened TurnEngine
  import opened TurnInvariant
  import opened TurnSteps
  import opened TurnSafety

  lemma {:induction false} RunConcat(limit: Option<nat>, s: Engine, x: seq<Step>, y: seq<Step>)
    ensures Run(limit, s, x + y) == match Run(limit, s, x) case None => None case Some(mid) => Run(limit, mid, y)
  {
    if y == [] {
      assert x + y == x;
    } else {
      assert (x + y)[..|x + y| - 1] == x + y[..|y| - 1];
      RunConcat(limit, s, x, y[..|y| - 1]);
    }
  }

  lemma {:induction false} RunThen(limit: Option<nat>, s: Engine, steps: seq<Step>, mid: Engine, step: Step)
    requires Run(limit, s, steps) == Some(mid)
    ensures Run(limit, s, steps + [step]) == Next(limit, mid, step)
  {
    assert (steps + [step])[..|steps|] == steps;
  }

  lemma {:induction false} RunThree(limit: Option<nat>, s: Engine, a: Step, b: Step, c: Step, s1: Engine, s2: Engine)
    requires Next(limit, s, a) == Some(s1) && Next(limit, s1, b) == Some(s2)
    ensures Run(limit, s, [a, b, c]) == Next(limit, s2, c)
  {
    assert Run(limit, s, []) == Some(s) && [] + [a] == [a] && [a] + [b] == [a, b] && [a, b] + [c] == [a, b, c];
    RunThen(limit, s, [], s, a);
    RunThen(limit, s, [a], s1, b);
    RunThen(limit, s, [a, b], s2, c);
  }

  // ----- One call -----

  /**
   What is settled for a call: its policy, the id of its approval and the answer if it is asked for,
   and its result.
   */
  datatype Choice = Choice(policy: Policy, approval: ApprovalId, approve: bool, forTool: bool, result: Value)

  function Grant(granted: set<Name>, e: EventData): set<Name> {
    if e.ApprovalResponded? && e.response.approved && e.response.allowedTool.Some?
    then granted + {e.response.allowedTool.value} else granted
  }

  /** The functions that approving responses have allowed for the session. */
  function GrantedNames(session: seq<EventData>): set<Name> {
    if session == [] then {} else Grant(GrantedNames(session[..|session| - 1]), session[|session| - 1])
  }

  lemma {:induction false} GrantedNamesExact(session: seq<EventData>, name: Name)
    ensures name in GrantedNames(session) <==> Granted(session, name)
  {
    if session != [] {
      var init, e := session[..|session| - 1], session[|session| - 1];
      GrantedNamesExact(init, name);
      if Granted(init, name) {
        var i :| 0 <= i < |init| && Grants(init[i], name);
        assert Grants(session[i], name);
      }
      if i :| 0 <= i < |session| && Grants(session[i], name) {
        assert i < |init| ==> Grants(init[i], name);
      }
    }
  }

  function Granting(s: Engine): set<Name> { GrantedNames(SessionData(s.session, s.thread)) }

  /** The call has to be asked for. */
  predicate Asks(granted: set<Name>, call: Call, c: Choice) {
    c.policy.AlwaysAsk? && call.request.functionName !in granted
  }

  function ApprovalOf(round: nat, call: Call, c: Choice): Approval {
    Approval(c.approval, Some(call.id), Some(round), call.request)
  }

  function ResponseOf(call: Call, c: Choice): Response {
    Response(c.approval, c.approve, if c.approve && c.forTool then Some(call.request.functionName) else None)
  }

  /** The approval of a call and its answer. */
  function Exchange(round: nat, call: Call, c: Choice): seq<EventData> {
    [ApprovalRequested(ApprovalOf(round, call, c)), ApprovalResponded(ResponseOf(call, c))]
  }

  function ResultSteps(): seq<Step> { [Moving(Journal), Effecting(Persist), Effecting(Acknowledge)] }

  function AskSteps(c: Choice): seq<Step> {
    [Moving(Authorize(c.policy, c.approval)), Effecting(Persist), Effecting(Acknowledge)]
  }

  function AnswerSteps(c: Choice): seq<Step> {
    var check := CheckResponse(c.approval, c.approve, c.approve && c.forTool);
    [Replying(check), Replying(AppendResponse), Moving(WatchNext(c.result))]
  }

  function CallSteps(granted: set<Name>, call: Call, c: Choice): seq<Step> {
    if !Asks(granted, call, c)
    then [Moving(Authorize(c.policy, c.approval))] + [Effecting(Execute(c.result))] + ResultSteps()
    else AskSteps(c) + AnswerSteps(c) + (if c.approve then [Effecting(Execute(c.result))] else []) + ResultSteps()
  }

  /** The state once the result of the oldest call is journaled. */
  function Journaled(s: Engine, round: nat, queue: seq<Call>, result: Value): Engine
    requires queue != []
  {
    var event := ToolResult(queue[0].id, result);
    Appended(s, [event]).(
      work := if |queue| > 1 then Authorizing(round, queue[1..], false) else Round(round + 1),
      live := Update(s.live, event))
  }

  function Executed(s: Engine, call: Call, policy: Policy): Engine {
    s.(executed := s.executed + [ExecutionOf(s, call, policy)])
  }

  /** The state after a call: asked for and answered if need be, run unless it was denied, and journaled. */
  function AfterCall(s: Engine, round: nat, queue: seq<Call>, c: Choice): Engine
    requires queue != []
  {
    var call := queue[0];
    if !Asks(Granting(s), call, c) then Journaled(Executed(s, call, c.policy), round, queue, c.result)
    else
      var answered := Appended(s, Exchange(round, call, c));
      Journaled(if c.approve then Executed(answered, call, AlwaysAsk) else answered, round, queue, c.result)
  }

  lemma {:induction false} ResultRuns(limit: Option<nat>, s: Engine, round: nat, queue: seq<Call>, result: Value)
    requires s.work == Journaling(round, queue, result) && queue != []
    ensures Run(limit, s, ResultSteps()) == Some(Journaled(s, round, queue, result))
  {
    var event, w := ToolResult(queue[0].id, result), Resulting(round, queue, result);
    var s1 := s.(work := Appending(w, false, 0));
    var s2 := Appended(s, [event]).(work := Appending(w, true, |s.log + [event]|));
    assert [event][..0] == [];
    assert UpdateAll(s.live, [event]) == Update(s.live, event);
    RunThree(limit, s, ResultSteps()[0], ResultSteps()[1], ResultSteps()[2], s1, s2);
  }

  lemma {:induction false} ExecuteThenResult(limit: Option<nat>, s: Engine, round: nat, queue: seq<Call>,
      policy: Policy, result: Value)
    requires s.work == Running(round, queue, policy) && queue != []
    ensures Run(limit, s, [Effecting(Execute(result))] + ResultSteps()) ==
      Some(Journaled(Executed(s, queue[0], policy), round, queue, result))
  {
    var ran := Executed(s, queue[0], policy).(work := Journaling(round, queue, result));
    RunThen(limit, s, [], s, Effecting(Execute(result)));
    assert [] + [Effecting(Execute(result))] == [Effecting(Execute(result))];
    ResultRuns(limit, ran, round, queue, result);
    RunConcat(limit, s, [Effecting(Execute(result))], ResultSteps());
  }

  lemma {:induction false} AllowedRuns(limit: Option<nat>, s: Engine, round: nat, queue: seq<Call>, c: Choice)
    requires s.work == Authorizing(round, queue, false) && queue != [] && !Asks(Granting(s), queue[0], c)
    ensures Run(limit, s, CallSteps(Granting(s), queue[0], c)) == Some(AfterCall(s, round, queue, c))
  {
    var first, rest := [Moving(Authorize(c.policy, c.approval))], [Effecting(Execute(c.result))] + ResultSteps();
    var s1 := s.(work := Running(round, queue, c.policy));
    GrantedNamesExact(SessionData(s.session, s.thread), queue[0].request.functionName);
    RunThen(limit, s, [], s, first[0]);
    assert [] + [first[0]] == first;
    ExecuteThenResult(limit, s1, round, queue, c.policy, c.result);
    RunConcat(limit, s, first, rest);
    assert CallSteps(Granting(s), queue[0], c) == first + rest;
  }

  /** Waiting for the answer, with the watch just behind the request. */
  function Waiting(s: Engine, round: nat, queue: seq<Call>, a: Approval): Engine {
    Appended(s, [ApprovalRequested(a)]).(work := Watching(round, queue, a, |s.log| + 1))
  }

  lemma {:induction false} AskRuns(limit: Option<nat>, s: Engine, round: nat, queue: seq<Call>, c: Choice)
    requires s.work == Authorizing(round, queue, false) && queue != [] && Asks(Granting(s), queue[0], c)
    requires c.approval !in DigestOf(s.log).asked
    ensures Run(limit, s, AskSteps(c)) == Some(Waiting(s, round, queue, ApprovalOf(round, queue[0], c)))
  {
    var a := ApprovalOf(round, queue[0], c);
    var w, event := Asking(round, queue, a), ApprovalRequested(a);
    GrantedNamesExact(SessionData(s.session, s.thread), queue[0].request.functionName);
    var s1 := s.(work := Appending(w, false, 0));
    var s2 := Appended(s, [event]).(work := Appending(w, true, |s.log + [event]|));
    assert [event][..0] == [];
    assert UpdateAll(s.live, [event]) == s.live;
    RunThree(limit, s, AskSteps(c)[0], AskSteps(c)[1], AskSteps(c)[2], s1, s2);
  }

  lemma {:induction false} AskedIsPending(log: seq<EventData>, a: Approval)
    requires TurnEnded !in log
    ensures var asked := log + [ApprovalRequested(a)];
      a.id in PendingApprovals(asked) && PendingApprovals(asked)[a.id] == a
  {
    assert (log + [ApprovalRequested(a)])[..|log|] == log;
  }

  lemma {:induction false} AnswerRuns(limit: Option<nat>, s: Engine, round: nat, queue: seq<Call>, c: Choice)
    requires queue != [] && s.responder == None && s.late == None && TurnEnded !in s.log
    ensures var a, after := ApprovalOf(round, queue[0], c), Appended(s, Exchange(round, queue[0], c));
      Run(limit, Waiting(s, round, queue, a), AnswerSteps(c)) ==
        Some(after.(work := if c.approve then Running(round, queue, AlwaysAsk) else Journaling(round, queue, c.result)))
  {
    var call, a := queue[0], ApprovalOf(round, queue[0], c);
    var asked, response := ApprovalRequested(a), ResponseOf(call, c);
    var s0 := Waiting(s, round, queue, a);
    AskedIsPending(s.log, a);
    assert RespondTo(s0.log, c.approval, c.approve, c.approve && c.forTool) == Success(response);
    var s1 := s0.(responder := Some(response));
    var s2 := Appended(s0, [ApprovalResponded(response)]);
    AppendedTwice(s, [asked], [ApprovalResponded(response)]);
    assert [asked] + [ApprovalResponded(response)] == Exchange(round, call, c);
    assert s2.log[|s.log| + 1] == ApprovalResponded(response);
    RunThree(limit, s0, AnswerSteps(c)[0], AnswerSteps(c)[1], AnswerSteps(c)[2], s1, s2);
  }

  lemma {:induction false} AskedRuns(limit: Option<nat>, s: Engine, round: nat, queue: seq<Call>, c: Choice)
    requires s.work == Authorizing(round, queue, false) && queue != [] && Asks(Granting(s), queue[0], c)
    requires s.responder == None && s.late == None && TurnEnded !in s.log && c.approval !in DigestOf(s.log).asked
    ensures Run(limit, s, CallSteps(Granting(s), queue[0], c)) == Some(AfterCall(s, round, queue, c))
  {
    var call, a := queue[0], ApprovalOf(round, queue[0], c);
    var after := Appended(s, Exchange(round, call, c));
    AskRuns(limit, s, round, queue, c);
    AnswerRuns(limit, s, round, queue, c);
    RunConcat(limit, s, AskSteps(c), AnswerSteps(c));
    if c.approve {
      var running := after.(work := Running(round, queue, AlwaysAsk));
      ExecuteThenResult(limit, running, round, queue, AlwaysAsk, c.result);
      RunConcat(limit, s, AskSteps(c) + AnswerSteps(c), [Effecting(Execute(c.result))] + ResultSteps());
      var run := [Effecting(Execute(c.result))] + ResultSteps();
      assert CallSteps(Granting(s), call, c) == AskSteps(c) + AnswerSteps(c) + run;
    } else {
      ResultRuns(limit, after.(work := Journaling(round, queue, c.result)), round, queue, c.result);
      RunConcat(limit, s, AskSteps(c) + AnswerSteps(c), ResultSteps());
      assert CallSteps(Granting(s), call, c) == AskSteps(c) + AnswerSteps(c) + ResultSteps();
    }
  }

  // ----- A whole round -----

  function RoundSteps(granted: set<Name>, queue: seq<Call>, choices: seq<Choice>): seq<Step>
    requires |queue| == |choices|
    decreases |queue|
  {
    if queue == [] then []
    else
      var rest := RoundSteps(GrantedAfter(granted, queue[0], choices[0]), queue[1..], choices[1..]);
      CallSteps(granted, queue[0], choices[0]) + rest
  }

  /** What is granted after a call: its function too, when it was asked for and allowed for the session. */
  function GrantedAfter(granted: set<Name>, call: Call, c: Choice): set<Name> {
    if Asks(granted, call, c) && c.approve && c.forTool then granted + {call.request.functionName} else granted
  }

  /** The calls that run, in order: all but those that are asked for and denied. */
  function Runnable(granted: set<Name>, queue: seq<Call>, choices: seq<Choice>): seq<CallId>
    requires |queue| == |choices|
    decreases |queue|
  {
    if queue == [] then []
    else
      var rest := Runnable(GrantedAfter(granted, queue[0], choices[0]), queue[1..], choices[1..]);
      if Asks(granted, queue[0], choices[0]) && !choices[0].approve then rest else [queue[0].id] + rest
  }

  function CallsRun(executed: seq<Execution>): seq<CallId> {
    seq(|executed|, i requires 0 <= i < |executed| => executed[i].call)
  }

  /** The results in a log, oldest first. */
  function ResultsIn(log: seq<EventData>): seq<EventData> {
    if log == [] then [] else WithResult(ResultsIn(log[..|log| - 1]), log[|log| - 1])
  }

  function WithResult(results: seq<EventData>, e: EventData): seq<EventData> {
    if e.ToolResult? then results + [e] else results
  }

  function ResultsOf(queue: seq<Call>, choices: seq<Choice>): seq<EventData>
    requires |queue| == |choices|
  {
    seq(|queue|, i requires 0 <= i < |queue| => ToolResult(queue[i].id, choices[i].result))
  }

  ghost predicate FreshIds(asked: map<ApprovalId, CallId>, choices: seq<Choice>) {
    && (forall i :: 0 <= i < |choices| ==> choices[i].approval !in asked)
    && forall i, j :: 0 <= i < j < |choices| ==> choices[i].approval != choices[j].approval
  }

  /** The turn can take the round's calls up: nothing stands in the way of the answers. */
  ghost predicate Ready(s: Engine, round: nat, queue: seq<Call>) {
    && s.work == (if queue == [] then Round(round + 1) else Authorizing(round, queue, false))
    && s.responder == None && s.late == None
  }

  lemma {:induction false} CallRuns(limit: Option<nat>, s: Engine, round: nat, queue: seq<Call>, c: Choice)
    requires Inv(limit, s) && Ready(s, round, queue) && queue != [] && c.approval !in DigestOf(s.log).asked
    ensures Run(limit, s, CallSteps(Granting(s), queue[0], c)) == Some(AfterCall(s, round, queue, c))
    ensures Inv(limit, AfterCall(s, round, queue, c)) && Ready(AfterCall(s, round, queue, c), round, queue[1..])
  {
    if Asks(Granting(s), queue[0], c) {
      OpenTurn(limit, s);
      AskedRuns(limit, s, round, queue, c);
    } else {
      AllowedRuns(limit, s, round, queue, c);
    }
    RunKeepsInv(limit, s, CallSteps(Granting(s), queue[0], c));
  }

  lemma {:induction false} OpenTurn(limit: Option<nat>, s: Engine)
    requires Inv(limit, s) && s.work.Authorizing?
    ensures TurnEnded !in s.log
  {
    TerminalsFound(s.log);
  }

  /** The three readings of a log, one event at a time. */
  lemma {:induction false} ReadSnoc(log: seq<EventData>, e: EventData)
    ensures GrantedNames(log + [e]) == Grant(GrantedNames(log), e)
    ensures ResultsIn(log + [e]) == WithResult(ResultsIn(log), e)
    ensures DigestOf(log + [e]) == Apply(DigestOf(log), e)
  {
    assert (log + [e])[..|log|] == log;
  }

  lemma {:induction false} ReadExchange(log: seq<EventData>, round: nat, call: Call, c: Choice)
    ensures var after := log + Exchange(round, call, c);
      && GrantedNames(after) == Grant(GrantedNames(log), ApprovalResponded(ResponseOf(call, c)))
      && ResultsIn(after) == ResultsIn(log)
      && DigestOf(after).asked == DigestOf(log).asked[c.approval := call.id]
  {
    var asked, answered := ApprovalRequested(ApprovalOf(round, call, c)), ApprovalResponded(ResponseOf(call, c));
    ReadSnoc(log, asked);
    ReadSnoc(log + [asked], answered);
    assert log + Exchange(round, call, c) == log + [asked] + [answered];
  }

  /** What a call appends. */
  function CallEvents(granted: set<Name>, round: nat, call: Call, c: Choice): seq<EventData> {
    (if Asks(granted, call, c) then Exchange(round, call, c) else []) + [ToolResult(call.id, c.result)]
  }

  lemma {:induction false} ReadCall(granted: set<Name>, log: seq<EventData>, round: nat, call: Call, c: Choice)
    ensures var after := log + CallEvents(granted, round, call, c);
      && (granted == GrantedNames(log) ==> GrantedNames(after) == GrantedAfter(granted, call, c))
      && ResultsIn(after) == ResultsIn(log) + [ToolResult(call.id, c.result)]
      && DigestOf(after).asked ==
           (if Asks(granted, call, c) then DigestOf(log).asked[c.approval := call.id] else DigestOf(log).asked)
  {
    var event := ToolResult(call.id, c.result);
    if Asks(granted, call, c) {
      ReadExchange(log, round, call, c);
      ReadSnoc(log + Exchange(round, call, c), event);
      assert log + CallEvents(granted, round, call, c) == log + Exchange(round, call, c) + [event];
    } else {
      ReadSnoc(log, event);
      assert log + CallEvents(granted, round, call, c) == log + [event];
    }
  }

  lemma {:induction false} CallAppends(s: Engine, round: nat, queue: seq<Call>, c: Choice)
    requires queue != []
    ensures var after, batch := AfterCall(s, round, queue, c), CallEvents(Granting(s), round, queue[0], c);
      && after.log == s.log + batch && after.thread == Appended(s, batch).thread
      && after.session == s.session
  {
    var event := ToolResult(queue[0].id, c.result);
    AppendedTwice(s, Exchange(round, queue[0], c), [event]);
    assert [] + [event] == [event];
  }

  lemma {:induction false} CallExecutes(s: Engine, round: nat, queue: seq<Call>, c: Choice)
    requires queue != []
    ensures CallsRun(AfterCall(s, round, queue, c).executed) ==
      CallsRun(s.executed) + if Asks(Granting(s), queue[0], c) && !c.approve then [] else [queue[0].id]
  {
    assert CallsRun(s.executed) + [] == CallsRun(s.executed);
  }

  /** What one call adds to the session's grants, to the results and to the approvals asked for. */
  lemma {:induction false} CallEffect(s: Engine, round: nat, queue: seq<Call>, c: Choice)
    requires queue != []
    ensures var after := AfterCall(s, round, queue, c);
      && Granting(after) == GrantedAfter(Granting(s), queue[0], c)
      && ResultsIn(after.log) == ResultsIn(s.log) + [ToolResult(queue[0].id, c.result)]
      && DigestOf(after.log).asked.Keys <= DigestOf(s.log).asked.Keys + {c.approval}
  {
    var batch := CallEvents(Granting(s), round, queue[0], c);
    CallAppends(s, round, queue, c);
    SessionExtended(s.session, s.turn, s.thread, batch);
    ReadCall(Granting(s), SessionData(s.session, s.thread), round, queue[0], c);
    ReadCall(Granting(s), s.log, round, queue[0], c);
  }

  /** What the calls of a round append, one after the other. */
  function RoundEvents(granted: set<Name>, round: nat, queue: seq<Call>, choices: seq<Choice>): seq<EventData>
    requires |queue| == |choices|
    decreases |queue|
  {
    if queue == [] then []
    else
      var rest := RoundEvents(GrantedAfter(granted, queue[0], choices[0]), round, queue[1..], choices[1..]);
      CallEvents(granted, round, queue[0], choices[0]) + rest
  }

  /**
   A round that nothing disturbs, whatever the policies are and whatever the user answers: every call
   gets its result, in order; the calls that run are exactly those not asked for and denied, each
   once and in order; an answer that allows a function covers the later calls of the round; and the
   turn goes on to the next round.
   */
  lemma {:induction false} RoundRuns(limit: Option<nat>, s: Engine, round: nat, queue: seq<Call>, choices: seq<Choice>)
    returns (s': Engine)
    requires Inv(limit, s) && Ready(s, round, queue) && |choices| == |queue| && FreshIds(DigestOf(s.log).asked, choices)
    ensures Run(limit, s, RoundSteps(Granting(s), queue, choices)) == Some(s') && s'.work == Round(round + 1)
    ensures CallsRun(s'.executed) == CallsRun(s.executed) + Runnable(Granting(s), queue, choices)
    ensures ResultsIn(s'.log) == ResultsIn(s.log) + ResultsOf(queue, choices)
    ensures s'.log == s.log + RoundEvents(Granting(s), round, queue, choices)
    decreases |queue|
  {
    if queue == [] {
      s' := s;
      assert CallsRun(s.executed) + [] == CallsRun(s.executed);
      assert ResultsIn(s.log) + ResultsOf(queue, choices) == ResultsIn(s.log);
      assert s.log + [] == s.log;
    } else {
      var mid := AfterCall(s, round, queue, choices[0]);
      var first := CallSteps(Granting(s), queue[0], choices[0]);
      var rest := RoundSteps(Granting(mid), queue[1..], choices[1..]);
      CallRuns(limit, s, round, queue, choices[0]);
      CallAppends(s, round, queue, choices[0]);
      CallEffect(s, round, queue, choices[0]);
      CallExecutes(s, round, queue, choices[0]);
      LaterIds(DigestOf(s.log).asked, DigestOf(mid.log).asked, choices);
      s' := RoundRuns(limit, mid, round, queue[1..], choices[1..]);
      RunConcat(limit, s, first, rest);
      RoundPieces(s, mid, queue, choices);
      EventsJoin(s.log, CallEvents(Granting(s), round, queue[0], choices[0]),
                 RoundEvents(Granting(mid), round, queue[1..], choices[1..]));
    }
  }

  lemma {:induction false} EventsJoin(log: seq<EventData>, x: seq<EventData>, y: seq<EventData>)
    ensures log + x + y == log + (x + y)
  {
    assert log + x + y == log + (x + y);
  }

  lemma {:induction false} LaterIds(asked: map<ApprovalId, CallId>, later: map<ApprovalId, CallId>,
      choices: seq<Choice>)
    requires choices != [] && FreshIds(asked, choices) && later.Keys <= asked.Keys + {choices[0].approval}
    ensures FreshIds(later, choices[1..])
  {
    forall i | 0 <= i < |choices| - 1 ensures choices[1..][i].approval !in later {
      assert choices[1..][i] == choices[i + 1];
    }
  }

  lemma {:induction false} RoundPieces(s: Engine, mid: Engine, queue: seq<Call>, choices: seq<Choice>)
    requires queue != [] && |queue| == |choices| && Granting(mid) == GrantedAfter(Granting(s), queue[0], choices[0])
    requires CallsRun(mid.executed) ==
      CallsRun(s.executed)
      + if Asks(Granting(s), queue[0], choices[0]) && !choices[0].approve then [] else [queue[0].id]
    requires ResultsIn(mid.log) == ResultsIn(s.log) + [ToolResult(queue[0].id, choices[0].result)]
    ensures CallsRun(mid.executed) + Runnable(Granting(mid), queue[1..], choices[1..]) ==
      CallsRun(s.executed) + Runnable(Granting(s), queue, choices)
    ensures ResultsIn(mid.log) + ResultsOf(queue[1..], choices[1..]) == ResultsIn(s.log) + ResultsOf(queue, choices)
  {
    var head := [ToolResult(queue[0].id, choices[0].result)];
    assert ResultsOf(queue, choices) == head + ResultsOf(queue[1..], choices[1..]);
  }

  // ----- Waiting for an approval -----

  lemma {:induction false} WaitingDigest(limit: Option<nat>, s: Engine)
    requires Reachable(limit, s) && s.work.Watching? && Unanswered(s.log, s.work.approval.id)
    ensures var d := DigestOf(s.log);
      && WellFormed(limit, s.log) && Consistent(d) && d.Open() && d.HeadAwaitsAnswer()
      && s.work.queue == d.pending && d.round == Some(s.work.round) && d.approvals[d.pending[0].id] == s.work.approval
  {
    ReachableInv(limit, s);
    WellFormedConsistent(limit, s.log);
    if s.work.approval.id in DigestOf(s.log).answers {
      var i, j := AnsweredInLog(limit, s.log, s.work.approval.id);
      assert false;
    }
  }

  lemma {:induction false} WaitRecovered(limit: Option<nat>, s: Engine)
    requires WellFormed(limit, s.log) && DigestOf(s.log).Open() && DigestOf(s.log).HeadAwaitsAnswer()
    ensures var d := DigestOf(s.log);
      && d.round.Some?
      && NextWork(limit, s.(work := Down), Recover) == Some(Restoring)
      && AfterControl(s.(work := Restoring, live := {}), Restore) == Some(s.(work := Loading, live := Ids(d.pending)))
      && NextWork(limit, s.(work := Loading), Load) == Some(Authorizing(d.round.value, d.pending, true))
  {
    TerminalsFound(s.log);
    RestoreVerdict(limit, s.log);
    LoadVerdict(limit, s.log);
  }

  lemma {:induction false} WaitResumed(limit: Option<nat>, s: Engine, policy: Policy, newId: ApprovalId)
    requires WellFormed(limit, s.log) && DigestOf(s.log).HeadAwaitsAnswer() && DigestOf(s.log).round.Some?
    requires s.work == Authorizing(DigestOf(s.log).round.value, DigestOf(s.log).pending, true)
    ensures var d := DigestOf(s.log);
      NextWork(limit, s, Authorize(policy, newId)) ==
        Some(Watching(d.round.value, d.pending, d.approvals[d.pending[0].id], AfterLast(s.log)))
  {
    WellFormedConsistent(limit, s.log);
    SavedAgrees(limit, s.log, s.work.queue[0], s.work.round);
  }

  function RecoverySteps(policy: Policy, newId: ApprovalId): seq<Step> {
    [Moving(Recover), Controlling(Restore), Moving(Load), Moving(Authorize(policy, newId))]
  }

  lemma {:induction false} WaitTakenUp(limit: Option<nat>, down: Engine, policy: Policy, newId: ApprovalId)
    requires down.work == Down && down.live == {}
    requires WellFormed(limit, down.log) && DigestOf(down.log).Open() && DigestOf(down.log).HeadAwaitsAnswer()
    ensures var d := DigestOf(down.log);
      && d.round.Some?
      && Run(limit, down, RecoverySteps(policy, newId)) ==
           Some(down.(live := Ids(d.pending),
                      work := Watching(d.round.value, d.pending, d.approvals[d.pending[0].id], AfterLast(down.log))))
  {
    var steps := RecoverySteps(policy, newId);
    WaitRecovered(limit, down);
    var round, queue := DigestOf(down.log).round.value, DigestOf(down.log).pending;
    var authorizing := down.(work := Authorizing(round, queue, true), live := Ids(queue));
    WaitLoaded(limit, down, round, queue);
    WaitResumed(limit, authorizing, policy, newId);
    assert steps[..3] == [Moving(Recover), Controlling(Restore), Moving(Load)] && steps == steps[..3] + [steps[3]];
    RunThen(limit, down, steps[..3], authorizing, steps[3]);
  }

  /**
   A process that dies while a call waits for its approval takes the wait up again: recovery is
   accepted, nothing is appended, the same approval is awaited whatever the policy is now, and the
   calls behind it are still queued.
   */
  lemma {:induction false} WaitSurvivesCrash(limit: Option<nat>, s: Engine, policy: Policy, newId: ApprovalId)
    requires Reachable(limit, s) && s.work.Watching? && Unanswered(s.log, s.work.approval.id)
    ensures var down := s.(work := Down, live := {}, caches := s.caches - {s.process}, responder := None, late := None);
      && Next(limit, s, Controlling(Stop(false))) == Some(down)
      && Run(limit, down, RecoverySteps(policy, newId)) ==
           Some(down.(work := s.work.(cursor := AfterLast(s.log)), live := Ids(s.work.queue)))
  {
    WaitingDigest(limit, s);
    var down := s.(work := Down, live := {}, caches := s.caches - {s.process}, responder := None, late := None);
    WaitTakenUp(limit, down, policy, newId);
  }

  lemma {:induction false} WaitLoaded(limit: Option<nat>, down: Engine, round: nat, queue: seq<Call>)
    requires down.work == Down && down.live == {}
    requires NextWork(limit, down, Recover) == Some(Restoring)
    requires AfterControl(down.(work := Restoring), Restore) == Some(down.(work := Loading, live := Ids(queue)))
    requires NextWork(limit, down.(work := Loading), Load) == Some(Authorizing(round, queue, true))
    ensures Run(limit, down, [Moving(Recover), Controlling(Restore), Moving(Load)]) ==
      Some(down.(work := Authorizing(round, queue, true), live := Ids(queue)))
  {
    var steps := [Moving(Recover), Controlling(Restore), Moving(Load)];
    RunThen(limit, down, [], down, steps[0]);
    assert [] + [steps[0]] == steps[..1];
    RunThen(limit, down, steps[..1], down.(work := Restoring), steps[1]);
    assert steps[..1] + [steps[1]] == steps[..2];
    RunThen(limit, down, steps[..2], down.(work := Loading, live := Ids(queue)), steps[2]);
    assert steps[..2] + [steps[2]] == steps;
  }
}
