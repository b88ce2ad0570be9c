/** What holds in every reachable state of a turn, stated on the raw log. */
module TurnSafety {
  import opened Wrappers
  import opened Events
  import opened TurnProtocol
  import opened Permissions
  import opened Recovery
  import opened TurnEngine
  import opened TurnInvariant
  import opened TurnSteps

  // ----- Execution and authorisation -----

  /** In every run, with any number of crashes and resumes, no tool call is executed twice. */
  lemma {:induction false} AtMostOnce(limit: Option<nat>, s: Engine)
    requires Reachable(limit, s)
    ensures forall i, j :: 0 <= i < j < |s.executed| ==> s.executed[i].call != s.executed[j].call
  {
    ReachableInv(limit, s);
  }

  /**
   Every executed call whose policy is to ask was, before it ran, approved by a response to its own
   approval or covered by an approving response that allowed its function for the session.
   */
  lemma {:induction false} OnlyAuthorised(limit: Option<nat>, s: Engine, i: nat)
    requires Reachable(limit, s) && i < |s.executed| && s.executed[i].policy.AlwaysAsk?
    ensures var x, session := s.executed[i], SessionData(s.session, s.thread);
      && x.at <= |s.log| && x.seen <= |session|
      && (OwnApproval(s.log[..x.at], x.call) || Granted(session[..x.seen], x.name))
  {
    ReachableInv(limit, s);
    assert ExecutionOk(SessionData(s.session, s.thread), s.log, DigestOf(s.log), s.executed[i]);
  }

  /** A call whose own approval was denied is never executed, before or after the denial. */
  lemma {:induction false} DeniedNeverRuns(limit: Option<nat>, s: Engine, i: nat, j: nat, call: CallId)
    requires Reachable(limit, s) && i < |s.log| && j < |s.log|
    requires s.log[i].ApprovalRequested? && s.log[i].approval.call == Some(call)
    requires s.log[j].ApprovalResponded? && s.log[j].response.approval == s.log[i].approval.id
    requires !s.log[j].response.approved
    ensures NotRun(s.executed, call)
  {
    ReachableInv(limit, s);
    RequestInDigest(limit, s.log, i);
    AnsweredWasAsked(limit, s.log, j);
    forall x | 0 <= x < |s.executed|
      ensures s.executed[x].call != call
    {
      assert ExecutionOk(SessionData(s.session, s.thread), s.log, DigestOf(s.log), s.executed[x]);
    }
  }

  // ----- Approvals -----

  /** No approval gets two responses. */
  lemma {:induction false} AnsweredOnce(limit: Option<nat>, s: Engine, i: nat, j: nat)
    requires Reachable(limit, s) && i < j < |s.log| && s.log[i].ApprovalResponded? && s.log[j].ApprovalResponded?
    ensures s.log[i].response.approval != s.log[j].response.approval
  {
    ReachableInv(limit, s);
    PrefixLegal(limit, s.log, j);
    AnsweredWasAsked(limit, s.log[..j], i);
  }

  lemma {:induction false} PrefixLegal(limit: Option<nat>, log: seq<EventData>, j: nat)
    requires WellFormed(limit, log) && j < |log|
    ensures WellFormed(limit, log[..j]) && Legal(limit, DigestOf(log[..j]), log[j])
  {
    if j < |log| - 1 {
      PrefixLegal(limit, log[..|log| - 1], j);
      assert log[..|log| - 1][..j] == log[..j];
    }
  }

  lemma {:induction false} WatchFinds(approval: ApprovalId, log: seq<EventData>, cursor: nat, j: nat)
    requires cursor <= j < |log| && TurnEnded !in log
    requires log[j].ApprovalResponded? && log[j].response.approval == approval
    requires forall i :: cursor <= i < j && log[i].ApprovalResponded? ==> log[i].response.approval != approval
    ensures Watch(approval, log[cursor..]) == if log[j].response.approved then Approved else Denied
    decreases j - cursor
  {
    if cursor < j {
      assert log[cursor..][1..] == log[cursor + 1..];
      WatchFinds(approval, log, cursor + 1, j);
    }
  }

  /** A response to an awaited approval is never missed: the watch returns exactly that answer. */
  lemma {:induction false} AwaitedAnswerSeen(limit: Option<nat>, s: Engine, j: nat)
    requires Reachable(limit, s) && s.work.Watching?
    requires j < |s.log| && s.log[j].ApprovalResponded? && s.log[j].response.approval == s.work.approval.id
    ensures s.work.cursor <= j
    ensures Watch(s.work.approval.id, s.log[s.work.cursor..]) == if s.log[j].response.approved then Approved else Denied
  {
    ReachableInv(limit, s);
    TerminalsFound(s.log);
    var a, cursor := s.work.approval.id, s.work.cursor;
    assert forall i :: 0 <= i < cursor ==> s.log[..cursor][i] == s.log[i];
    forall i | 0 <= i < j && s.log[i].ApprovalResponded?
      ensures s.log[i].response.approval != a
    {
      AnsweredOnce(limit, s, i, j);
    }
    WatchFinds(a, s.log, cursor, j);
  }

  // ----- Rounds and replays -----

  /** In every reachable log the rounds are numbered 0, 1, 2, ... within the limit, each resolved before the next. */
  lemma {:induction false} RoundsInOrder(limit: Option<nat>, s: Engine)
    requires Reachable(limit, s)
    ensures forall i :: 0 <= i < |Markers(s.log)| ==> Markers(s.log)[i] == i
    ensures limit.Some? ==> |Markers(s.log)| <= limit.value + 1
    ensures forall i :: 0 <= i < |s.log| && s.log[i].RoundMarker? ==> AllResolved(s.log[..i])
    ensures ScanLog(s.log).Scan?
  {
    ReachableInv(limit, s);
    RoundDiscipline(limit, s.log);
    ScanAgrees(limit, s.log);
    forall i | 0 <= i < |s.log| && s.log[i].RoundMarker?
      ensures AllResolved(s.log[..i])
    {
      PrefixLegal(limit, s.log, i);
      NothingLeft(limit, s.log[..i]);
    }
  }

  /** Every request in the log is followed by its result. */
  ghost predicate AllResolved(log: seq<EventData>) {
    forall i :: 0 <= i < |log| && log[i].ToolRequested? ==> ResolvedAfter(log, i)
  }

  ghost predicate ResolvedAfter(log: seq<EventData>, i: nat)
    requires i < |log| && log[i].ToolRequested?
  {
    exists j :: i < j < |log| && log[j].ToolResult? && log[j].id == log[i].call.id
  }

  lemma {:induction false} PendingOrResolved(limit: Option<nat>, log: seq<EventData>, i: nat)
    requires WellFormed(limit, log) && i < |log| && log[i].ToolRequested?
    ensures log[i].call in DigestOf(log).pending || ResolvedAfter(log, i)
  {
    var init, e := log[..|log| - 1], log[|log| - 1];
    assert Legal(limit, DigestOf(init), e);
    if i < |init| {
      PendingOrResolved(limit, init, i);
      WellFormedConsistent(limit, init);
      if ResolvedAfter(init, i) {
        var j :| i < j < |init| && init[j].ToolResult? && init[j].id == init[i].call.id;
        assert log[j] == init[j];
      } else if e.ToolResult? {
        HeadResult(DigestOf(init).pending);
        if log[i].call != DigestOf(init).pending[0] {
          var m :| 0 <= m < |DigestOf(init).pending| && DigestOf(init).pending[m] == log[i].call;
          assert DigestOf(log).pending[m - 1] == log[i].call;
        }
      }
    }
  }

  lemma {:induction false} NothingLeft(limit: Option<nat>, log: seq<EventData>)
    requires WellFormed(limit, log) && DigestOf(log).pending == []
    ensures AllResolved(log)
  {
    forall i | 0 <= i < |log| && log[i].ToolRequested?
      ensures ResolvedAfter(log, i)
    {
      PendingOrResolved(limit, log, i);
    }
  }

  /**
   In every reachable state of an unfinished turn: while an initialised executor holds no lock, the
   live set is what both recovery replays would rebuild, and a recovery would be accepted by both
   checks or refused by both.
   */
  lemma {:induction false} ReplaysAgreeInRuns(limit: Option<nat>, s: Engine)
    requires Reachable(limit, s) && TurnEnded !in s.log
    ensures InFlight(s.work) && !s.work.Restoring? && !s.work.Appending? ==> s.live == UpdateAll({}, s.log)
    ensures LoadProgress(s.log).Success? <==> RestoreTools(s.log).Success?
    ensures RestoreTools(s.log).Success? ==> RestoreTools(s.log).value == UpdateAll({}, s.log)
    ensures LoadProgress(s.log).Success? ==>
      UpdateAll({}, s.log) == match LoadProgress(s.log).value.pending case None => {} case Some(calls) => Ids(calls)
  {
    ReachableInv(limit, s);
    ReplaysAgree(limit, s.log);
    LiveAgrees(limit, s.log);
  }

  // ----- Suspension -----

  lemma {:induction false} HasId(calls: seq<Call>)
    requires calls != []
    ensures Ids(calls) != {}
  {
    assert calls[0] in calls;
    assert calls[0].id in Ids(calls);
  }

  lemma {:induction false} SuspendedAtRest(limit: Option<nat>, s: Engine)
    requires Reachable(limit, s) && !s.work.Restoring? && AfterControl(s, Suspend).Some?
    ensures WellFormed(limit, s.log) && DigestOf(s.log).Open() && DigestOf(s.log).pending == []
  {
    ReachableInv(limit, s);
    if DigestOf(s.log).pending != [] {
      HasId(DigestOf(s.log).pending);
      assert false;
    }
  }

  /** The three recovery steps of a turn without unresolved calls. */
  lemma {:induction false} ResumedAtRest(limit: Option<nat>, s: Engine)
    requires WellFormed(limit, s.log) && DigestOf(s.log).Open() && DigestOf(s.log).pending == []
    ensures LoadProgress(s.log) == Success(Progress(|Markers(s.log)|, None))
    ensures NextWork(limit, s.(work := Down), Recover) == Some(Restoring)
    ensures AfterControl(s.(work := Restoring), Restore) == Some(s.(work := Loading, live := {}))
    ensures NextWork(limit, s.(work := Loading), Load) == Some(Round(|Markers(s.log)|))
  {
    TerminalsFound(s.log);
    RoundDiscipline(limit, s.log);
    LoadVerdict(limit, s.log);
    RestoreVerdict(limit, s.log);
    assert Ids([]) == {};
  }

  /**
   A suspension after recovery has set up the pending set leaves every call resolved, changes
   nothing in the log, and is resumed at the next round.
   */
  lemma {:induction false} SuspensionIsResumable(limit: Option<nat>, s: Engine)
    requires Reachable(limit, s) && !s.work.Restoring? && AfterControl(s, Suspend).Some?
    ensures AllResolved(s.log)
    ensures LoadProgress(s.log) == Success(Progress(|Markers(s.log)|, None))
    ensures AfterControl(s, Suspend) == Some(s.(work := Down))
    ensures NextWork(limit, s.(work := Down), Recover) == Some(Restoring)
    ensures AfterControl(s.(work := Restoring), Restore) == Some(s.(work := Loading, live := {}))
    ensures NextWork(limit, s.(work := Loading), Load) == Some(Round(|Markers(s.log)|))
  {
    SuspendedAtRest(limit, s);
    NothingLeft(limit, s.log);
    ResumedAtRest(limit, s);
  }

  /** A pending call's request is in the log, and no result follows it. */
  lemma {:induction false} PendingUnresolved(limit: Option<nat>, log: seq<EventData>, c: Call) returns (i: nat)
    requires WellFormed(limit, log) && c in DigestOf(log).pending
    ensures i < |log| && log[i] == ToolRequested(c) && !ResolvedAfter(log, i)
  {
    var init, e := log[..|log| - 1], log[|log| - 1];
    assert Legal(limit, DigestOf(init), e);
    if e == ToolRequested(c) {
      i := |init|;
    } else {
      StillPending(limit, init, e, c);
      i := PendingUnresolved(limit, init, c);
      assert forall j :: i < j < |log| && log[j].ToolResult? && log[j].id == c.id && j < |init| ==> init[j] == log[j];
    }
  }

  lemma {:induction false} StillPending(limit: Option<nat>, log: seq<EventData>, e: EventData, c: Call)
    requires WellFormed(limit, log) && Legal(limit, DigestOf(log), e)
    requires c in Apply(DigestOf(log), e).pending && e != ToolRequested(c)
    ensures c in DigestOf(log).pending && (e.ToolResult? ==> e.id != c.id)
  {
    WellFormedConsistent(limit, log);
    if e.ToolResult? {
      var pending := DigestOf(log).pending;
      HeadResult(pending);
      var m :| 0 <= m < |pending| - 1 && pending[1..][m] == c;
      assert pending[m + 1] == c;
    }
  }

  /**
   Exactly when a suspension leaves every call resolved: unless it hits a recovering turn that has not
   yet run `restore_recovery_tools`, and whose log holds calls that this would find pending.
   */
  lemma {:induction false} SuspensionExact(limit: Option<nat>, s: Engine)
    requires Reachable(limit, s) && AfterControl(s, Suspend).Some?
    ensures AllResolved(s.log) <==> !s.work.Restoring? || RestoreLog(s.log).pending == []
  {
    ReachableInv(limit, s);
    RestoreAgrees(limit, s.log);
    if !s.work.Restoring? {
      SuspendedAtRest(limit, s);
    }
    if DigestOf(s.log).pending == [] {
      NothingLeft(limit, s.log);
    } else {
      var i := PendingUnresolved(limit, s.log, DigestOf(s.log).pending[0]);
    }
  }

  lemma {:induction false} ReachStep(limit: Option<nat>, s: Engine, step: Step)
    requires Reachable(limit, s) && Next(limit, s, step).Some?
    ensures Reachable(limit, Next(limit, s, step).value)
  {
    var start, steps :| Initial(start) && Run(limit, start, steps) == Some(s);
    assert (steps + [step])[..|steps|] == steps;
    assert Run(limit, start, steps + [step]) == Next(limit, s, step);
  }

  /** The first turn on an empty thread. */
  lemma {:induction false} FirstTurn(input: seq<Message>) returns (s: Engine)
    ensures Reachable(None, s) && StartsWith(s, [], input)
  {
    var data := BeginEvents(input);
    s := Engine(0, 0, Extended(0, 0, [], data), data, Round(0), {}, 0, map[], None, None, []);
    assert StartsWith(s, [], input);
    assert Run(None, s, []) == Some(s);
  }

  /** The first model call of that turn. */
  lemma {:induction false} FirstModelCall(r: ModelResponse) returns (s: Engine)
    requires Admissible(r, {})
    ensures Reachable(None, s) && s.log == BeginEvents([Plain(0)])
    ensures s.work == Appending(if r.calls == [] then Final(r) else Commit(0, r), false, 0)
  {
    var start := FirstTurn([Plain(0)]);
    BeginOk(None, [], [Plain(0)]);
    ReachStep(None, start, Effecting(CallModel(r)));
    s := Next(None, start, Effecting(CallModel(r))).value;
  }

  /** A turn that has just committed a round with one call. */
  lemma {:induction false} FirstCommit(c: Call) returns (s: Engine)
    ensures Reachable(None, s) && s.work.Appending? && s.work.persisted
    ensures s.log == [TurnStarted, OtherData, Messages([Plain(0)]), RoundMarker(0), ToolRequested(c)]
  {
    assert ModelResponse([], false, [c]).messages == [];
    var before := FirstModelCall(ModelResponse([], false, [c]));
    ReachStep(None, before, Effecting(Persist));
    s := Next(None, before, Effecting(Persist)).value;
    assert Requests([c]) == [ToolRequested(c)];
  }

  lemma {:induction false} FirstCommitOpen(c: Call, log: seq<EventData>)
    requires log == [TurnStarted, OtherData, Messages([Plain(0)]), RoundMarker(0), ToolRequested(c)]
    ensures TurnEnded !in log && TurnCompleted !in log && Error !in log && !AllResolved(log)
  {
    assert log[4].ToolRequested? && !ResolvedAfter(log, 4);
  }

  /**
   The pending set must have been set up: a recovering turn that is suspended before
   `restore_recovery_tools` has run can be suspended with an unresolved call in its log.
   */
  lemma {:induction false} SuspendedBeforeRestore() returns (s: Engine)
    ensures Reachable(None, s) && s.work.Restoring? && AfterControl(s, Suspend).Some? && !AllResolved(s.log)
  {
    var c := Call(1, ToolRequest(0, 0));
    var s2 := FirstCommit(c);
    FirstCommitOpen(c, s2.log);
    ReachStep(None, s2, Controlling(Stop(true)));
    var s3 := s2.(work := Down, live := {});
    ReachStep(None, s3, Moving(Recover));
    s := s3.(work := Restoring);
  }

  // ----- The end of a turn -----

  /** Closing steps one after the other. */
  function Closes(n: nat): seq<Step> { seq(n, _ => Effecting(CloseNext)) }

  lemma {:induction false} AppendedTwice(s: Engine, x: seq<EventData>, y: seq<EventData>)
    ensures Appended(Appended(s, x), y) == Appended(s, x + y)
  {
    var first := Extended(s.session, s.turn, s.thread, x);
    assert x != [] ==> first[|first| - 1].id == NextId(s.thread) + |x| - 1;
    assert x == [] ==> first == s.thread;
    assert Extended(s.session, s.turn, first, y) == Extended(s.session, s.turn, s.thread, x + y);
    assert s.log + x + y == s.log + (x + y);
  }

  lemma {:induction false} CloseSome(limit: Option<nat>, s: Engine, m: nat)
    requires s.work.Closing? && m <= |s.work.todo|
    ensures Run(limit, s, Closes(m)) == Some(Appended(s, s.work.todo[..m]).(work := Closing(s.work.todo[m..])))
  {
    var todo := s.work.todo;
    if m == 0 {
      assert s.log + todo[..0] == s.log && todo[0..] == todo;
      assert Extended(s.session, s.turn, s.thread, todo[..0]) == s.thread;
    } else {
      CloseSome(limit, s, m - 1);
      assert Closes(m)[..m - 1] == Closes(m - 1);
      AppendedTwice(s, todo[..m - 1], [todo[m - 1]]);
      assert todo[..m] == todo[..m - 1] + [todo[m - 1]];
      assert todo[m - 1..][1..] == todo[m..];
    }
  }

  lemma {:induction false} CloseAll(limit: Option<nat>, s: Engine)
    requires s.work.Closing?
    ensures Run(limit, s, Closes(|s.work.todo| + 1)) == Some(Appended(s, s.work.todo).(work := Down, live := {}))
  {
    var n := |s.work.todo|;
    CloseSome(limit, s, n);
    assert Closes(n + 1)[..n] == Closes(n);
    assert s.work.todo[..n] == s.work.todo;
  }

  lemma {:induction false} CompletedCounts(limit: Option<nat>, log: seq<EventData>)
    requires WellFormed(limit, log) && DigestOf(log).ended == 0 && DigestOf(log).failed == 0
    ensures var all := log + Completion(log);
      && multiset(all)[TurnCompleted] == 1 && multiset(all)[Error] == 0 && multiset(log)[TurnEnded] == 0
      && all[|all| - 1] == TurnEnded
  {
    Terminals(log);
    TerminalsFound(log);
    WellFormedConsistent(limit, log);
    assert multiset(log + Completion(log)) == multiset(log) + multiset(Completion(log));
  }

  lemma {:induction false} CompletingUnended(limit: Option<nat>, s: Engine)
    requires Reachable(limit, s) && s.work.Completing?
    ensures WellFormed(limit, s.log) && DigestOf(s.log).ended == 0 && DigestOf(s.log).failed == 0
  {
    ReachableInv(limit, s);
  }

  /**
   A turn that completed, by a final answer or by reaching its round limit, ends with exactly one
   completion marker, no error, and the end of the turn.
   */
  lemma {:induction false} CompletedTurn(limit: Option<nat>, s: Engine)
    requires Reachable(limit, s) && s.work.Completing?
    ensures NextWork(limit, s, ReadMarker) == Some(Closing(Completion(s.log)))
    ensures var todo, all := Completion(s.log), s.log + Completion(s.log);
      && Run(limit, s.(work := Closing(todo)), Closes(|todo| + 1)) == Some(Appended(s, todo).(work := Down, live := {}))
      && multiset(all)[TurnCompleted] == 1 && multiset(all)[Error] == 0 && multiset(s.log)[TurnEnded] == 0
      && all[|all| - 1] == TurnEnded
  {
    CompletingUnended(limit, s);
    CompletedCounts(limit, s.log);
    ClosedBy(limit, s, Completion(s.log));
  }

  lemma {:induction false} ClosedBy(limit: Option<nat>, s: Engine, todo: seq<EventData>)
    ensures Run(limit, s.(work := Closing(todo)), Closes(|todo| + 1)) ==
      Some(Appended(s, todo).(work := Down, live := {}))
  {
    CloseAll(limit, s.(work := Closing(todo)));
  }

  /** A failed or cancelled turn gets an error and the end of the turn. */
  lemma {:induction false} FailedTurn(limit: Option<nat>, s: Engine)
    requires Reachable(limit, s) && s.work == Closing(FAILURE)
    ensures Run(limit, s, Closes(3)) == Some(Appended(s, [Error, TurnEnded]).(work := Down, live := {}))
    ensures multiset(s.log)[TurnEnded] == 0
  {
    ReachableInv(limit, s);
    Terminals(s.log);
    CloseAll(limit, s);
  }

  /**
   A turn that is stopped, crashes or is suspended while it runs gets no terminal event: it is left
   without error and end, and without a completion marker unless its final answer was just saved.
   */
  lemma {:induction false} StoppedTurn(limit: Option<nat>, s: Engine, control: Control)
    requires Reachable(limit, s) && InFlight(s.work)
    requires (control.Stop? || control.Suspend?) && AfterControl(s, control).Some?
    ensures AfterControl(s, control).value.log == s.log && AfterControl(s, control).value.work == Down
    ensures Error !in s.log && TurnEnded !in s.log
    ensures TurnCompleted in s.log <==> s.work.Appending? && s.work.write.Final? && s.work.persisted
  {
    ReachableInv(limit, s);
    Unended(limit, SessionData(s.session, s.thread), s.log, DigestOf(s.log), s.executed, s.work);
    TerminalsFound(s.log);
  }

  /**
   In every run, whatever crashes: at most one completion marker; the end of a turn comes once,
   after a completion marker or an error; and after it only late approval responses and unrelated
   notes can follow.
   */
  lemma {:induction false} EndIsFinal(limit: Option<nat>, s: Engine, k: nat)
    requires Reachable(limit, s) && k < |s.log|
    ensures s.log[k] == TurnCompleted ==> TurnCompleted !in s.log[..k] && Error !in s.log[..k]
    ensures s.log[k] == TurnEnded ==> TurnCompleted in s.log[..k] || Error in s.log[..k]
    ensures TurnEnded in s.log[..k] ==> Passive(s.log[k])
  {
    ReachableInv(limit, s);
    PrefixLegal(limit, s.log, k);
    TerminalsFound(s.log[..k]);
  }
}
