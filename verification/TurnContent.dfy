/**
 What a turn leaves in the log: the model's answers, whole and in order, its calls and their results
 (crates/executor/src/basic.rs, model_events.rs).
 */
module TurnContent {
  import opened Wrappers
  import opened Events
  import opened TurnProtocol
  import opened Permissions
  import opened Recovery
  import opened HistoryCache
  import opened HistoryContent
  import opened TurnEngine
  import opened TurnInvariant
  import opened TurnSteps
  import opened TurnSafety
  import opened TurnProgress
  import TurnHistory
  import MH = MessageHistory

  lemma {:induction false} StoredConcat(x: seq<EventData>, y: seq<EventData>)
    ensures Stored(x + y) == Stored(x) + Stored(y)
  {
    if y == [] {
      assert x + y == x;
    } else {
      assert (x + y)[..|x + y| - 1] == x + y[..|y| - 1];
      StoredConcat(x, y[..|y| - 1]);
    }
  }

  lemma {:induction false} NothingStored(events: seq<EventData>)
    requires forall i :: 0 <= i < |events| ==> !events[i].Messages?
    ensures Stored(events) == []
  {
    if events != [] {
      NothingStored(events[..|events| - 1]);
    }
  }

  // ----- One append -----

  /** A response's events: its messages, unless there are none and nothing was metered, then its calls in order. */
  ghost predicate ResponseSaved(events: seq<EventData>, r: ModelResponse) {
    var n := if r.messages == [] && !r.metered then 0 else 1;
    && |events| == n + |r.calls|
    && (n == 1 ==> events[0] == Messages(r.messages))
    && forall i :: 0 <= i < |r.calls| ==> events[n + i] == ToolRequested(r.calls[i])
  }

  /** The events an append adds to the log, and to the thread under the turn's own session and turn. */
  ghost predicate Adds(s: Engine, s': Engine, events: seq<EventData>) {
    && s'.log == s.log + events
    && |s'.thread| == |s.thread| + |events| && s'.thread[..|s.thread|] == s.thread
    && forall i :: 0 <= i < |events| ==>
         var e := s'.thread[|s.thread| + i]; e.session == s.session && e.turn == Some(s.turn) && e.data == events[i]
  }

  lemma {:induction false} SavedMessages(events: seq<EventData>, r: ModelResponse)
    requires ResponseSaved(events, r)
    ensures Stored(events) == r.messages
  {
    var n := if r.messages == [] && !r.metered then 0 else 1;
    var head, calls := events[..n], events[n..];
    assert events == head + calls;
    StoredConcat(head, calls);
    assert forall i :: 0 <= i < |calls| ==> calls[i] == ToolRequested(r.calls[i]);
    NothingStored(calls);
    assert n == 1 ==> head[..0] == [];
    assert r.messages + [] == r.messages && [] + r.messages == r.messages;
  }

  lemma {:induction false} AppendAdds(s: Engine, batch: seq<EventData>, work: Work)
    ensures Adds(s, Appended(s, batch).(work := work), batch)
  {
    assert Extended(s.session, s.turn, s.thread, batch)[..|s.thread|] == s.thread;
  }

  lemma {:induction false} EventsSaved(r: ModelResponse)
    ensures ResponseSaved(ResponseEvents(r), r) && Stored(ResponseEvents(r)) == r.messages
  {
    SavedMessages(ResponseEvents(r), r);
  }

  /** A marker before or after the response's events stores nothing more. */
  lemma {:induction false} SavedAround(log: seq<EventData>, events: seq<EventData>, e: EventData)
    requires !e.Messages?
    ensures Stored(log + ([e] + events)) == Stored(log) + Stored(events)
    ensures Stored(log + (events + [e])) == Stored(log) + Stored(events)
  {
    NothingStored([e]);
    StoredConcat([e], events);
    StoredConcat(events, [e]);
    StoredConcat(log, [e] + events);
    StoredConcat(log, events + [e]);
  }

  /** What saving a write of this response adds. */
  function AddedBy(w: Write, events: seq<EventData>): seq<EventData>
    requires w.Final? || w.Commit?
  {
    match w
    case Final(_) => events + [TurnCompleted]
    case Commit(round, _) => [RoundMarker(round)] + events
  }

  /**
   Saving a round of the model puts its marker, its messages and its calls into the log, and saving a
   final answer its messages and the completion marker: what the model said is stored whole.
   */
  lemma {:induction false} AnswerSaved(limit: Option<nat>, s: Engine, s': Engine) returns (events: seq<EventData>)
    requires s.work.Appending? && (s.work.write.Final? || s.work.write.Commit?)
    requires Next(limit, s, Effecting(Persist)) == Some(s')
    ensures ResponseSaved(events, s.work.write.response)
    ensures Adds(s, s', AddedBy(s.work.write, events))
    ensures Stored(s'.log) == Stored(s.log) + s.work.write.response.messages
  {
    var w := s.work.write;
    events := ResponseEvents(w.response);
    EventsSaved(w.response);
    AppendAdds(s, Batch(w), s'.work);
    SavedAround(s.log, events, if w.Final? then TurnCompleted else RoundMarker(w.round));
  }

  // ----- A round, from the model call to its end -----

  /** The round is within the limit and the response is one the model may give. */
  ghost predicate MayRespond(limit: Option<nat>, s: Engine, r: ModelResponse) {
    && s.work.Round? && (limit.Some? ==> s.work.round <= limit.value) && Admissible(r, DigestOf(s.log).calls)
  }

  function ModelSteps(r: ModelResponse): seq<Step> {
    [Effecting(CallModel(r)), Effecting(Persist), Effecting(Acknowledge)]
  }

  function WriteOf(round: nat, r: ModelResponse): Write { if r.calls == [] then Final(r) else Commit(round, r) }

  /** The state once the write of a response is acknowledged. */
  ghost function Answered(s: Engine, r: ModelResponse): Engine
    requires s.work.Round?
  {
    var batch := Batch(WriteOf(s.work.round, r));
    Appended(s, batch).(
      work := if r.calls == [] then Completing else Authorizing(s.work.round, r.calls, false),
      live := UpdateAll(s.live, batch),
      caches := s.caches[s.process := NewEntry(CacheOf(s), s.thread)])
  }

  lemma {:induction false} ModelRuns(limit: Option<nat>, s: Engine, r: ModelResponse)
    requires MayRespond(limit, s, r)
    ensures Run(limit, s, ModelSteps(r)) == Some(Answered(s, r))
  {
    var w := WriteOf(s.work.round, r);
    var s1 := s.(work := Appending(w, false, 0), caches := s.caches[s.process := NewEntry(CacheOf(s), s.thread)]);
    var s2 := Appended(s1, Batch(w)).(work := Appending(w, true, |s.log + Batch(w)|));
    RunThree(limit, s, ModelSteps(r)[0], ModelSteps(r)[1], ModelSteps(r)[2], s1, s2);
  }

  /** The event that holds what the model said; a metered response has one even without messages. */
  function Spoken(r: ModelResponse): seq<EventData> {
    if r.messages == [] && !r.metered then [] else [Messages(r.messages)]
  }

  lemma {:induction false} SpokenSaved(r: ModelResponse)
    ensures ResponseEvents(r) == Spoken(r) + Requests(r.calls)
    ensures Stored(Spoken(r)) == r.messages
  {
    SavedMessages(Spoken(r), r.(calls := []));
  }

  function ClosingSteps(): seq<Step> { [Moving(ReadMarker)] + Closes(2) }

  lemma {:induction false} CompletionRuns(limit: Option<nat>, s: Engine)
    requires s.work == Completing && TurnCompleted in s.log
    ensures Run(limit, s, ClosingSteps()) == Some(Appended(s, [TurnEnded]).(work := Down, live := {}))
  {
    var closing := s.(work := Closing([TurnEnded]));
    RunThen(limit, s, [], s, Moving(ReadMarker));
    assert [] + [Moving(ReadMarker)] == [Moving(ReadMarker)];
    CloseAll(limit, closing);
    RunConcat(limit, s, [Moving(ReadMarker)], Closes(2));
  }

  /**
   A final answer that nothing disturbs ends the turn, and leaves the model's messages, the completion
   marker and the end of the turn in the log and in the thread.
   */
  lemma {:induction false} FinalRoundRuns(limit: Option<nat>, s: Engine, r: ModelResponse) returns (s': Engine)
    requires MayRespond(limit, s, r) && r.calls == []
    ensures Run(limit, s, ModelSteps(r) + ClosingSteps()) == Some(s') && s'.work == Down && s'.executed == s.executed
    ensures Adds(s, s', Spoken(r) + [TurnCompleted, TurnEnded])
    ensures Stored(s'.log) == Stored(s.log) + r.messages
  {
    var mid := Answered(s, r);
    ModelRuns(limit, s, r);
    SpokenSaved(r);
    assert Batch(Final(r)) == Spoken(r) + [TurnCompleted] && mid.log[|mid.log| - 1] == TurnCompleted;
    CompletionRuns(limit, mid);
    RunConcat(limit, s, ModelSteps(r), ClosingSteps());
    s' := Appended(mid, [TurnEnded]).(work := Down, live := {});
    FinalAdds(s, s', r);
  }

  lemma {:induction false} FinalAdds(s: Engine, s': Engine, r: ModelResponse)
    requires s'.log == Appended(Appended(s, Spoken(r) + [TurnCompleted]), [TurnEnded]).log
    requires s'.thread == Appended(Appended(s, Spoken(r) + [TurnCompleted]), [TurnEnded]).thread
    ensures Adds(s, s', Spoken(r) + [TurnCompleted, TurnEnded])
    ensures Stored(s'.log) == Stored(s.log) + r.messages
  {
    var all := Spoken(r) + [TurnCompleted, TurnEnded];
    AppendedTwice(s, Spoken(r) + [TurnCompleted], [TurnEnded]);
    assert Spoken(r) + [TurnCompleted] + [TurnEnded] == all;
    AddsBatch(s, s', all);
    FinalStored(s.log, r);
  }

  lemma {:induction false} AddsBatch(s: Engine, s': Engine, batch: seq<EventData>)
    requires s'.log == Appended(s, batch).log && s'.thread == Appended(s, batch).thread
    ensures Adds(s, s', batch)
  {
    AppendAdds(s, batch, s.work);
  }

  lemma {:induction false} FinalStored(log: seq<EventData>, r: ModelResponse)
    ensures Stored(log + (Spoken(r) + [TurnCompleted, TurnEnded])) == Stored(log) + r.messages
  {
    SpokenSaved(r);
    StoredConcat(log, Spoken(r) + [TurnCompleted, TurnEnded]);
    StoredConcat(Spoken(r), [TurnCompleted, TurnEnded]);
    NothingStored([TurnCompleted, TurnEnded]);
    assert r.messages + [] == r.messages;
  }

  // ----- A round with calls -----

  lemma {:induction false} RoundStoresNothing(granted: set<Name>, round: nat, queue: seq<Call>, choices: seq<Choice>)
    requires |queue| == |choices|
    ensures Stored(RoundEvents(granted, round, queue, choices)) == []
    decreases |queue|
  {
    if queue != [] {
      var events := CallEvents(granted, round, queue[0], choices[0]);
      var later := GrantedAfter(granted, queue[0], choices[0]);
      RoundStoresNothing(later, round, queue[1..], choices[1..]);
      NothingStored(events);
      StoredConcat(events, RoundEvents(later, round, queue[1..], choices[1..]));
    }
  }

  /** Markers, messages and requests grant nothing, ask for nothing and give no result. */
  predicate QuietEvent(e: EventData) { e.RoundMarker? || e.Messages? || e.ToolRequested? }

  lemma {:induction false} QuietReads(log: seq<EventData>, events: seq<EventData>)
    requires forall i :: 0 <= i < |events| ==> QuietEvent(events[i])
    ensures var after := log + events;
      && GrantedNames(after) == GrantedNames(log) && ResultsIn(after) == ResultsIn(log)
      && DigestOf(after).asked == DigestOf(log).asked
  {
    if events == [] {
      assert log + events == log;
    } else {
      var init, e := events[..|events| - 1], events[|events| - 1];
      QuietReads(log, init);
      assert QuietEvent(e);
      ReadSnoc(log + init, e);
      assert log + events == log + init + [e];
    }
  }

  lemma {:induction false} RoundIsQuiet(round: nat, r: ModelResponse)
    ensures forall i :: 0 <= i < |Batch(Commit(round, r))| ==> QuietEvent(Batch(Commit(round, r))[i])
  {
    SpokenSaved(r);
  }

  lemma {:induction false} AnsweredReady(limit: Option<nat>, s: Engine, r: ModelResponse) returns (mid: Engine)
    requires Inv(limit, s) && MayRespond(limit, s, r) && r.calls != [] && s.responder == None && s.late == None
    ensures Run(limit, s, ModelSteps(r)) == Some(mid) && Inv(limit, mid) && Ready(mid, s.work.round, r.calls)
    ensures mid.log == s.log + Batch(Commit(s.work.round, r)) && mid.executed == s.executed
    ensures Granting(mid) == Granting(s) && ResultsIn(mid.log) == ResultsIn(s.log)
    ensures DigestOf(mid.log).asked == DigestOf(s.log).asked
  {
    mid := Answered(s, r);
    ModelRuns(limit, s, r);
    RunKeepsInv(limit, s, ModelSteps(r));
    AnswerKeeps(s, mid, s.work.round, r);
  }

  /**
   A whole round that nothing disturbs: the marker, what the model said and its calls are saved, every
   call is settled in turn, and the next round can begin.
   */
  lemma {:induction false} ModelRoundRuns(limit: Option<nat>, s: Engine, r: ModelResponse, choices: seq<Choice>)
    returns (s': Engine)
    requires Inv(limit, s) && MayRespond(limit, s, r) && r.calls != [] && s.responder == None && s.late == None
    requires |choices| == |r.calls| && FreshIds(DigestOf(s.log).asked, choices)
    ensures Run(limit, s, ModelSteps(r) + RoundSteps(Granting(s), r.calls, choices)) == Some(s')
    ensures s'.work == Round(s.work.round + 1)
    ensures s'.log ==
      s.log + [RoundMarker(s.work.round)] + Spoken(r) + Requests(r.calls)
      + RoundEvents(Granting(s), s.work.round, r.calls, choices)
    ensures CallsRun(s'.executed) == CallsRun(s.executed) + Runnable(Granting(s), r.calls, choices)
    ensures ResultsIn(s'.log) == ResultsIn(s.log) + ResultsOf(r.calls, choices)
    ensures Stored(s'.log) == Stored(s.log) + r.messages
  {
    var mid := AnsweredReady(limit, s, r);
    s' := CallsRunFrom(limit, s.log, mid, s.work.round, r, choices);
    RunBoth(limit, s, ModelSteps(r), mid, RoundSteps(Granting(s), r.calls, choices), s');
  }

  lemma {:induction false} CallsRunFrom(limit: Option<nat>, log: seq<EventData>, mid: Engine, round: nat,
      r: ModelResponse, choices: seq<Choice>) returns (s': Engine)
    requires Inv(limit, mid) && Ready(mid, round, r.calls) && mid.log == log + Batch(Commit(round, r))
    requires |choices| == |r.calls| && FreshIds(DigestOf(mid.log).asked, choices)
    ensures Run(limit, mid, RoundSteps(Granting(mid), r.calls, choices)) == Some(s') && s'.work == Round(round + 1)
    ensures s'.log ==
      log + [RoundMarker(round)] + Spoken(r) + Requests(r.calls) + RoundEvents(Granting(mid), round, r.calls, choices)
    ensures CallsRun(s'.executed) == CallsRun(mid.executed) + Runnable(Granting(mid), r.calls, choices)
    ensures ResultsIn(s'.log) == ResultsIn(mid.log) + ResultsOf(r.calls, choices)
    ensures Stored(s'.log) == Stored(log) + r.messages
  {
    s' := RoundRuns(limit, mid, round, r.calls, choices);
    RoundStores(log, mid.log, s'.log, round, r, Granting(mid), choices);
  }

  lemma {:induction false} RunBoth(limit: Option<nat>, s: Engine, x: seq<Step>, mid: Engine, y: seq<Step>, s': Engine)
    requires Run(limit, s, x) == Some(mid) && Run(limit, mid, y) == Some(s')
    ensures Run(limit, s, x + y) == Some(s')
  {
    RunConcat(limit, s, x, y);
  }

  lemma {:induction false} AnswerKeeps(s: Engine, mid: Engine, round: nat, r: ModelResponse)
    requires mid.session == s.session && mid.thread == Appended(s, Batch(Commit(round, r))).thread
    requires mid.log == s.log + Batch(Commit(round, r))
    ensures Granting(mid) == Granting(s) && ResultsIn(mid.log) == ResultsIn(s.log)
    ensures DigestOf(mid.log).asked == DigestOf(s.log).asked
  {
    var batch := Batch(Commit(round, r));
    SessionExtended(s.session, s.turn, s.thread, batch);
    RoundIsQuiet(round, r);
    QuietReads(SessionData(s.session, s.thread), batch);
    QuietReads(s.log, batch);
  }

  lemma {:induction false} RoundStores(log: seq<EventData>, mid: seq<EventData>, after: seq<EventData>, round: nat,
      r: ModelResponse, granted: set<Name>, choices: seq<Choice>)
    requires |r.calls| == |choices| && mid == log + Batch(Commit(round, r))
    requires after == mid + RoundEvents(granted, round, r.calls, choices)
    ensures after ==
      log + [RoundMarker(round)] + Spoken(r) + Requests(r.calls) + RoundEvents(granted, round, r.calls, choices)
    ensures Stored(after) == Stored(log) + r.messages
  {
    SpokenSaved(r);
    EventsSaved(r);
    SavedAround(log, ResponseEvents(r), RoundMarker(round));
    RoundStoresNothing(granted, round, r.calls, choices);
    StoredConcat(mid, RoundEvents(granted, round, r.calls, choices));
    assert Stored(mid) + [] == Stored(mid);
    EventsJoin(log + [RoundMarker(round)], Spoken(r), Requests(r.calls));
    EventsJoin(log, [RoundMarker(round)], ResponseEvents(r));
  }

  // ----- Over whole runs -----

  /** What a step says in the thread: the answer it saves, or a new turn's input behind what others wrote. */
  function SaidBy(s: Engine, step: Step): seq<Message> {
    match step
    case Effecting(Persist) =>
      if s.work.Appending? && (s.work.write.Commit? || s.work.write.Final?) then s.work.write.response.messages else []
    case Controlling(NextTurn(gap, _, _, input)) => Stored(DataOf(gap)) + input
    case _ => []
  }

  ghost function Said(limit: Option<nat>, s: Engine, steps: seq<Step>): seq<Message> {
    if steps == [] then []
    else
      var init, step := steps[..|steps| - 1], steps[|steps| - 1];
      Said(limit, s, init) + match Run(limit, s, init) case Some(mid) => SaidBy(mid, step) case None => []
  }

  lemma {:induction false} ExtendedStores(session: SessionId, turn: TurnId, thread: seq<Event>, data: seq<EventData>)
    ensures Stored(DataOf(Extended(session, turn, thread, data))) == Stored(DataOf(thread)) + Stored(data)
  {
    assert DataOf(Extended(session, turn, thread, data)) == DataOf(thread) + data;
    StoredConcat(DataOf(thread), data);
  }

  lemma {:induction false} InputStored(input: seq<Message>)
    ensures Stored(BeginEvents(input)) == input
  {
    StoredConcat([TurnStarted, OtherData], [Messages(input)]);
    NothingStored([TurnStarted, OtherData]);
    assert BeginEvents(input) == [TurnStarted, OtherData] + [Messages(input)] && [Messages(input)][..0] == [];
    assert [] + input == input;
  }

  lemma {:induction false} InputSays(session: SessionId, turn: TurnId, thread: seq<Event>, gap: seq<Event>,
      input: seq<Message>)
    ensures Stored(DataOf(Extended(session, turn, thread + gap, BeginEvents(input)))) ==
      Stored(DataOf(thread)) + (Stored(DataOf(gap)) + input)
  {
    var x, y := Stored(DataOf(thread)), Stored(DataOf(gap));
    ExtendedStores(session, turn, thread + gap, BeginEvents(input));
    InputStored(input);
    assert DataOf(thread + gap) == DataOf(thread) + DataOf(gap);
    StoredConcat(DataOf(thread), DataOf(gap));
    assert x + y + input == x + (y + input);
  }

  lemma {:induction false} TurnSays(s: Engine, gap: seq<Event>, session: SessionId, turn: TurnId, input: seq<Message>)
    requires AfterControl(s, NextTurn(gap, session, turn, input)).Some?
    ensures var s' := AfterControl(s, NextTurn(gap, session, turn, input)).value;
      Stored(DataOf(s'.thread)) == Stored(DataOf(s.thread)) + (Stored(DataOf(gap)) + input)
  {
    InputSays(session, turn, s.thread, gap, input);
  }

  lemma {:induction false} WriteSays(s: Engine, w: Write)
    ensures Stored(DataOf(Appended(s, Batch(w)).thread)) ==
      Stored(DataOf(s.thread)) + if w.Commit? || w.Final? then w.response.messages else []
  {
    ExtendedStores(s.session, s.turn, s.thread, Batch(w));
    match w {
      case Commit(round, r) =>
        EventsSaved(r);
        SavedAround(DataOf(s.thread), ResponseEvents(r), RoundMarker(round));
        StoredConcat(DataOf(s.thread), Batch(w));
      case Final(r) =>
        EventsSaved(r);
        SavedAround(DataOf(s.thread), ResponseEvents(r), TurnCompleted);
        StoredConcat(DataOf(s.thread), Batch(w));
      case _ => NothingStored(Batch(w));
    }
  }

  /** Steps that append something other than messages. */
  lemma {:induction false} QuietAppend(session: SessionId, turn: TurnId, thread: seq<Event>, e: EventData)
    requires !e.Messages?
    ensures Stored(DataOf(Extended(session, turn, thread, [e]))) == Stored(DataOf(thread))
  {
    ExtendedStores(session, turn, thread, [e]);
    NothingStored([e]);
    assert Stored(DataOf(thread)) + [] == Stored(DataOf(thread));
  }

  lemma {:induction false} CloseSays(limit: Option<nat>, s: Engine, effect: Effect)
    requires Inv(limit, s) && (effect.CloseNext? || effect.CloseFails?) && AfterEffect(limit, s, effect).Some?
    ensures Stored(DataOf(AfterEffect(limit, s, effect).value.thread)) == Stored(DataOf(s.thread))
  {
    if s.work.todo != [] {
      assert !s.work.todo[0].Messages?;
      QuietAppend(s.session, s.turn, s.thread, s.work.todo[0]);
    }
  }

  lemma {:induction false} EffectSays(limit: Option<nat>, s: Engine, effect: Effect)
    requires Inv(limit, s) && AfterEffect(limit, s, effect).Some?
    ensures Stored(DataOf(AfterEffect(limit, s, effect).value.thread)) ==
      Stored(DataOf(s.thread)) + SaidBy(s, Effecting(effect))
  {
    assert Stored(DataOf(s.thread)) + [] == Stored(DataOf(s.thread));
    match effect {
      case Persist => WriteSays(s, s.work.write);
      case CloseNext => CloseSays(limit, s, effect);
      case CloseFails(_) => CloseSays(limit, s, effect);
      case _ =>
    }
  }

  lemma {:induction false} ReplySays(s: Engine, outside: Outside)
    requires AfterOutside(s, outside).Some?
    ensures Stored(DataOf(AfterOutside(s, outside).value.thread)) == Stored(DataOf(s.thread))
  {
    match outside {
      case AppendResponse => QuietAppend(s.session, s.turn, s.thread, ApprovalResponded(s.responder.value));
      case AppendLate =>
        var late := s.late.value;
        QuietAppend(late.session, late.turn, s.thread, ApprovalResponded(late.response));
      case Note => QuietAppend(s.session, s.turn, s.thread, OtherData);
      case _ =>
    }
  }

  lemma {:induction false} ControlSays(s: Engine, control: Control)
    requires AfterControl(s, control).Some?
    ensures Stored(DataOf(AfterControl(s, control).value.thread)) ==
      Stored(DataOf(s.thread)) + SaidBy(s, Controlling(control))
  {
    assert Stored(DataOf(s.thread)) + [] == Stored(DataOf(s.thread));
    if control.NextTurn? {
      TurnSays(s, control.gap, control.session, control.turn, control.input);
    }
  }

  /** A step adds to the messages of the thread what it says, and takes nothing away. */
  lemma {:induction false} StepSays(limit: Option<nat>, s: Engine, step: Step)
    requires Inv(limit, s) && Next(limit, s, step).Some?
    ensures Stored(DataOf(Next(limit, s, step).value.thread)) == Stored(DataOf(s.thread)) + SaidBy(s, step)
  {
    assert Stored(DataOf(s.thread)) + [] == Stored(DataOf(s.thread));
    match step {
      case Moving(_) =>
      case Effecting(effect) => EffectSays(limit, s, effect);
      case Controlling(control) => ControlSays(s, control);
      case Replying(outside) => ReplySays(s, outside);
    }
  }

  lemma {:induction false} StartSays(s: Engine, before: seq<Event>, input: seq<Message>)
    requires StartsWith(s, before, input)
    ensures Stored(DataOf(s.thread)) == Stored(DataOf(before)) + input
  {
    ExtendedStores(s.session, s.turn, before, BeginEvents(input));
    InputStored(input);
  }

  lemma {:induction false} RunSays(limit: Option<nat>, start: Engine, steps: seq<Step>, s: Engine)
    requires Inv(limit, start) && Run(limit, start, steps) == Some(s)
    ensures Stored(DataOf(s.thread)) == Stored(DataOf(start.thread)) + Said(limit, start, steps)
  {
    if steps == [] {
      assert Stored(DataOf(start.thread)) + [] == Stored(DataOf(start.thread));
    } else {
      var init := steps[..|steps| - 1];
      var mid := Run(limit, start, init).value;
      RunSays(limit, start, init, mid);
      RunKeepsInv(limit, start, init);
      StepSays(limit, mid, steps[|steps| - 1]);
      SaidLonger(limit, start, steps, mid, Stored(DataOf(start.thread)));
    }
  }

  lemma {:induction false} SaidLonger(limit: Option<nat>, start: Engine, steps: seq<Step>, mid: Engine,
      first: seq<Message>)
    requires steps != [] && Run(limit, start, steps[..|steps| - 1]) == Some(mid)
    ensures first + Said(limit, start, steps) ==
      first + Said(limit, start, steps[..|steps| - 1]) + SaidBy(mid, steps[|steps| - 1])
  {
    var said, last := Said(limit, start, steps[..|steps| - 1]), SaidBy(mid, steps[|steps| - 1]);
    assert Said(limit, start, steps) == said + last;
    assert first + (said + last) == first + said + last;
  }

  /**
   In every run, whatever crashes: the messages of the thread are those before it, the input, and then
   exactly what was said, every saved answer and every later input whole and in order.
   */
  lemma {:induction false} ThreadHoldsConversation(limit: Option<nat>, start: Engine, before: seq<Event>,
      input: seq<Message>, steps: seq<Step>, s: Engine)
    requires StartsWith(start, before, input) && Run(limit, start, steps) == Some(s)
    ensures Stored(DataOf(s.thread)) == Stored(DataOf(before)) + input + Said(limit, start, steps)
  {
    StartSays(start, before, input);
    InitialInv(limit, start);
    RunSays(limit, start, steps, s);
  }

  /**
   And whenever the model is called, its prompt holds all of it, unaltered and in order, whichever
   process builds it and whatever its cache held.
   */
  lemma {:induction false} PromptHoldsConversation(limit: Option<nat>, start: Engine, before: seq<Event>,
      input: seq<Message>, steps: seq<Step>, s: Engine)
    requires StartsWith(start, before, input) && Run(limit, start, steps) == Some(s) && s.work.Round?
    requires TurnHistory.Settles(input) && TurnHistory.AllSettle(steps)
    ensures Within(Stored(DataOf(before)) + input + Said(limit, start, steps), NewEntry(CacheOf(s), s.thread).messages)
  {
    ThreadHoldsConversation(limit, start, before, input, steps, s);
    assert TurnHistory.SettledStart(start);
    TurnHistory.CachedPromptIsRecomputed(limit, s);
    StoredMessagesKept(DataOf(s.thread));
  }
}
