/**
 Which inputs the prompt cache needs. `TurnHistory` shows that the cached prompt is exact when every
 turn's input settles; here the condition is shown to be needed, for every input.
 */
module TurnInputs {
  import opened Wrappers
  import opened Events
  import opened TurnProtocol
  import opened Permissions
  import opened HistoryCache
  import opened TurnEngine
  import opened TurnSteps
  import opened TurnHistory
  import opened TurnProgress
  import opened TurnSafety
  import MH = MessageHistory
  import HB = HistoryBalance
  import opened Recovery

  // ----- A batch boundary and a later tool round -----

  /** What a round with a single call and no message leaves for the conversion. */
  function OneCallRound(c: Call, result: Value): seq<EventData> { [ToolRequested(c), ToolResult(c.id, result)] }

  lemma {:induction false} PendingNamed(events: seq<EventData>, id: CallId)
    requires id in MH.Fold(MH.EMPTY, events).pending
    ensures id in MH.Fold(MH.EMPTY, events).names
  {
    var init, e := events[..|events| - 1], events[|events| - 1];
    var b := MH.Fold(MH.EMPTY, init);
    forall x | x in b.pending ensures x in b.names {
      PendingNamed(init, x);
    }
    match e {
      case Messages(messages) => MessagesPend(b, messages);
      case ToolResult(done, _) =>
        HB.RemoveFirstBag(b.pending, done);
        assert id in multiset(MH.Fold(MH.EMPTY, events).pending);
        assert id in multiset(b.pending);
      case _ =>
    }
  }

  /** A call that is not pending is not removed, and the cancelled results of the others do not depend on it. */
  lemma {:induction false} NotPending(pending: seq<CallId>, id: CallId)
    requires id !in pending
    ensures MH.RemoveFirst(pending + [id], id) == pending
  {
    if pending != [] {
      assert (pending + [id])[1..] == pending[1..] + [id];
      NotPending(pending[1..], id);
      assert pending == [pending[0]] + pending[1..];
    } else {
      assert [id][1..] == [] && pending + [id] == [id];
    }
  }

  lemma {:induction false} SameCancelled(names: map<CallId, Name>, id: CallId, name: Name, pending: seq<CallId>)
    requires id !in pending
    ensures MH.Cancelled(names[id := name], pending) == MH.Cancelled(names, pending)
  {
    if pending != [] {
      SameCancelled(names, id, name, pending[..|pending| - 1]);
    }
  }

  lemma {:induction false} CancelledFirst(names: map<CallId, Name>, pending: seq<CallId>)
    requires pending != [] && forall id :: id in pending ==> id in names
    ensures MH.Cancelled(names, pending) != [] && MH.Cancelled(names, pending)[0].Tool?
  {
    if |pending| > 1 {
      CancelledFirst(names, pending[..|pending| - 1]);
    } else {
      assert pending[..0] == [];
    }
  }

  lemma {:induction false} OneCallFold(b: MH.Build, c: Call, result: Value)
    requires c.id !in b.names && c.id !in b.pending
    ensures var name := c.request.functionName;
      var history := b.history + [MH.CallMessage(c)] + [Tool([ResultPart(c.id, name, result)])];
      MH.Fold(b, OneCallRound(c, result)) == MH.Build(history, b.names[c.id := name], b.pending)
  {
    var y := OneCallRound(c, result);
    assert y == [y[0]] + [y[1]];
    FoldConcat(b, [y[0]], [y[1]]);
    FoldOne(b, y[0]);
    FoldOne(MH.StepEvent(b, y[0]), y[1]);
    NotPending(b.pending, c.id);
  }

  /** What the two ways to read such a round give. */
  lemma {:induction false} TwoReadings(x: seq<EventData>, c: Call, result: Value)
    requires c.id !in MH.Fold(MH.EMPTY, x).names
    ensures var b, y := MH.Fold(MH.EMPTY, x), OneCallRound(c, result);
      var round := [MH.CallMessage(c)] + [Tool([ResultPart(c.id, c.request.functionName, result)])];
      var flushed, cancelled := MH.Flush(b), MH.Cancelled(b.names, b.pending);
      && MH.Extend(flushed.history, flushed.names, y).history == b.history + cancelled + round
      && MH.Recompute(x + y) == b.history + round + cancelled
  {
    var b, y := MH.Fold(MH.EMPTY, x), OneCallRound(c, result);
    var flushed := MH.Flush(b);
    if c.id in b.pending {
      PendingNamed(x, c.id);
      assert false;
    }
    OneCallFold(b, c, result);
    OneCallFold(MH.Build(flushed.history, flushed.names, []), c, result);
    FoldConcat(MH.EMPTY, x, y);
    SameCancelled(b.names, c.id, c.request.functionName, b.pending);
    var call, answer := [MH.CallMessage(c)], [Tool([ResultPart(c.id, c.request.functionName, result)])];
    assert b.history + call + answer == b.history + (call + answer);
    assert flushed.history + call + answer == flushed.history + (call + answer);
    var h := flushed.history + (call + answer);
    assert h + [] == h;
  }

  /**
   Reading a log up to here and then such a round gives what reading all of it gives exactly when
   nothing is pending here.
   */
  lemma {:induction false} RoundComposesExactly(x: seq<EventData>, c: Call, result: Value)
    requires c.id !in MH.Fold(MH.EMPTY, x).names
    ensures var b, y := MH.Fold(MH.EMPTY, x), OneCallRound(c, result);
      MH.Extend(MH.Flush(b).history, MH.Flush(b).names, y).history == MH.Recompute(x + y) <==> b.pending == []
  {
    var b, y := MH.Fold(MH.EMPTY, x), OneCallRound(c, result);
    TwoReadings(x, c, result);
    var round := [MH.CallMessage(c)] + [Tool([ResultPart(c.id, c.request.functionName, result)])];
    if b.pending == [] {
      assert b.history + [] + round == b.history + round + [];
    } else {
      forall id | id in b.pending ensures id in b.names {
        PendingNamed(x, id);
      }
      CancelledFirst(b.names, b.pending);
      var cancelled := MH.Cancelled(b.names, b.pending);
      assert (b.history + cancelled + round)[|b.history|] == cancelled[0];
      assert (b.history + round + cancelled)[|b.history|] == round[0];
    }
  }

  // ----- In the engine -----

  /** The first prompt of a turn: nothing is cached, so the entry is the whole conversion, flushed. */
  lemma {:induction false} FirstEntry(thread: seq<Event>)
    requires Increasing(thread)
    ensures var e, b := NewEntry(None, thread), MH.Flush(MH.Fold(MH.EMPTY, DataOf(thread)));
      e.messages == b.history && e.names == b.names && Covers(e.cursor, thread, |thread|)
  {
    FoldSelected(MH.EMPTY, thread);
    CoversAll(None, thread, 0);
  }

  lemma {:induction false} RoundSelected(session: SessionId, turn: TurnId, first: EventId, c: Call, result: Value)
    ensures DataOf(Select(Unread(None), Stamp(session, turn, first, [RoundMarker(0)] + OneCallRound(c, result)))) ==
      OneCallRound(c, result)
  {
    var more, q := Stamp(session, turn, first, [RoundMarker(0)] + OneCallRound(c, result)), Unread(None);
    assert more == [more[0]] + more[1..];
    SelectConcat(q, [more[0]], more[1..]);
    SelectNone(q, [more[0]]);
    SelectAll(q, more[1..]);
    assert DataOf([] + more[1..]) == OneCallRound(c, result);
  }

  /** The second prompt reads the round behind the first. */
  lemma {:induction false} SecondPrompt(session: SessionId, turn: TurnId, thread: seq<Event>, c: Call, result: Value)
    requires Increasing(thread)
    ensures var e := NewEntry(None, thread);
      var longer := Extended(session, turn, thread, [RoundMarker(0)] + OneCallRound(c, result));
      NewEntry(Some(e), longer).messages == MH.Extend(e.messages, e.names, OneCallRound(c, result)).history
  {
    var e, batch := NewEntry(None, thread), [RoundMarker(0)] + OneCallRound(c, result);
    FirstEntry(thread);
    IncreasingExtended(session, turn, thread, batch);
    RoundSelected(session, turn, NextId(thread), c, result);
    ReadBehind(e, thread, Stamp(session, turn, NextId(thread), batch));
  }

  lemma {:induction false} ReadBehind(e: Entry, thread: seq<Event>, more: seq<Event>)
    requires Increasing(thread + more) && Covers(e.cursor, thread, |thread|)
    ensures NewEntry(Some(e), thread + more).messages ==
      MH.Extend(e.messages, e.names, DataOf(Select(Unread(None), more))).history
  {
    CoversKept(e.cursor, thread, more, |thread|);
    UnreadIsRest(e.cursor, thread + more, |thread|);
    assert (thread + more)[|thread|..] == more;
  }

  lemma {:induction false} MarkerIgnored(x: seq<EventData>, y: seq<EventData>)
    ensures MH.Recompute(x + ([RoundMarker(0)] + y)) == MH.Recompute(x + y)
  {
    var b := MH.Fold(MH.EMPTY, x);
    FoldConcat(MH.EMPTY, x, [RoundMarker(0)] + y);
    FoldConcat(MH.EMPTY, x, y);
    FoldConcat(b, [RoundMarker(0)], y);
    FoldOne(b, RoundMarker(0));
  }

  function OneCallResponse(c: Call): ModelResponse { ModelResponse([], false, [c]) }

  function CommitSteps(c: Call): seq<Step> {
    [Effecting(CallModel(OneCallResponse(c))), Effecting(Persist), Effecting(Acknowledge)]
  }

  lemma {:induction false} CommitRuns(limit: Option<nat>, s: Engine, c: Call)
    requires s.work == Round(0) && DigestOf(s.log).calls == {}
    ensures var batch := [RoundMarker(0)] + [ToolRequested(c)];
      Run(limit, s, CommitSteps(c)) ==
        Some(Appended(s, batch).(work := Authorizing(0, [c], false), live := s.live + {c.id},
                                 caches := s.caches[s.process := NewEntry(CacheOf(s), s.thread)]))
  {
    var r, w := OneCallResponse(c), Commit(0, OneCallResponse(c));
    var batch := [RoundMarker(0)] + [ToolRequested(c)];
    assert Requests([c]) == [ToolRequested(c)] && ResponseEvents(r) == [ToolRequested(c)] && Batch(w) == batch;
    var s1 := s.(work := Appending(w, false, 0), caches := s.caches[s.process := NewEntry(CacheOf(s), s.thread)]);
    var s2 := Appended(s1, batch).(work := Appending(w, true, |s.log + batch|));
    assert batch[..1] == [RoundMarker(0)] && batch[..1][..0] == [];
    assert UpdateAll(s.live, batch[..1]) == s.live;
    RunThree(limit, s, CommitSteps(c)[0], CommitSteps(c)[1], CommitSteps(c)[2], s1, s2);
  }

  /** A model round with one call that needs no approval, and the call. */
  function FirstRound(c: Call, result: Value): seq<Step> {
    CommitSteps(c) + CallSteps({}, c, Choice(AlwaysAllow, 0, false, false, result))
  }

  lemma {:induction false} FirstRoundRuns(limit: Option<nat>, s: Engine, before: seq<Event>, input: seq<Message>,
      c: Call, result: Value)
    returns (s': Engine)
    requires StartsWith(s, before, input)
    ensures Run(limit, s, FirstRound(c, result)) == Some(s') && s'.work == Round(1)
    ensures s'.thread == Extended(s.session, s.turn, s.thread, [RoundMarker(0)] + OneCallRound(c, result))
    ensures CacheOf(s') == Some(NewEntry(None, s.thread))
  {
    var choice := Choice(AlwaysAllow, 0, false, false, result);
    BeginOk(limit, [], input);
    CommitRuns(limit, s, c);
    var mid := Run(limit, s, CommitSteps(c)).value;
    AllowedRuns(limit, mid, 0, [c], choice);
    s' := AfterCall(mid, 0, [c], choice);
    assert CallSteps(Granting(mid), c, choice) == CallSteps({}, c, choice);
    RunConcat(limit, s, CommitSteps(c), CallSteps({}, c, choice));
    var batch := [RoundMarker(0)] + [ToolRequested(c)];
    AppendedTwice(s, batch, [ToolResult(c.id, result)]);
    assert batch + [ToolResult(c.id, result)] == [RoundMarker(0)] + OneCallRound(c, result);
  }

  /**
   For every thread, every input with a message that is not a tool message, and every new call: after a
   first round with that call, the cached prompt is the recomputed one exactly when the input settles.
   */
  lemma {:induction false} SettlingIsNeeded(limit: Option<nat>, s: Engine, before: seq<Event>, input: seq<Message>,
      c: Call, result: Value)
    returns (s': Engine)
    requires StartsWith(s, before, input) && (exists m :: m in input && !m.Tool?)
    requires c.id !in MH.Fold(MH.EMPTY, DataOf(s.thread)).names
    ensures Run(limit, s, FirstRound(c, result)) == Some(s') && s'.work == Round(1)
    ensures NewEntry(CacheOf(s'), s'.thread).messages == MH.Recompute(DataOf(s'.thread)) <==> Settles(input)
  {
    s' := FirstRoundRuns(limit, s, before, input, c, result);
    var x, y := DataOf(s.thread), OneCallRound(c, result);
    BeginThread(s.session, s.turn, before, input);
    FirstEntry(s.thread);
    SecondPrompt(s.session, s.turn, s.thread, c, result);
    IncreasingExtended(s.session, s.turn, s.thread, [RoundMarker(0)] + y);
    MarkerIgnored(x, y);
    RoundComposesExactly(x, c, result);
    StartPending(s, before, input);
  }

  lemma {:induction false} StartPending(s: Engine, before: seq<Event>, input: seq<Message>)
    requires StartsWith(s, before, input) && exists m :: m in input && !m.Tool?
    ensures MH.Fold(MH.EMPTY, DataOf(s.thread)).pending == MH.StepMessages(MH.EMPTY, input).pending
  {
    IncreasingExtended(s.session, s.turn, before, BeginEvents(input));
    FoldConcat(MH.EMPTY, DataOf(before), BeginEvents(input));
    BeginFold(MH.Fold(MH.EMPTY, DataOf(before)), input);
    InputAlone(MH.Fold(MH.EMPTY, DataOf(before)), input);
  }

  /** An input that ends with a plain message settles, whatever else it holds. */
  lemma {:induction false} PlainEndSettles(input: seq<Message>)
    requires input != [] && input[|input| - 1].Plain?
    ensures Settles(input)
  {
    assert input[|input| - 1] in input;
  }

  /** An input that ends with an unanswered call does not settle, and then a reachable cached prompt is wrong. */
  lemma {:induction false} UnsettledInput() returns (s: Engine)
    ensures Reachable(None, s) && s.work == Round(1)
    ensures NewEntry(CacheOf(s), s.thread).messages != MH.Recompute(DataOf(s.thread))
  {
    var input := [Plain(0), Assistant([CallPart(7, 0, 0)])];
    var c := Call(8, ToolRequest(0, 0));
    var start := FirstTurn(input);
    UnansweredCall(input, start);
    assert input[0] in input;
    s := SettlingIsNeeded(None, start, [], input, c, 0);
    assert Run(None, start, FirstRound(c, 0)) == Some(s);
  }

  lemma {:induction false} UnansweredCall(input: seq<Message>, s: Engine)
    requires input == [Plain(0), Assistant([CallPart(7, 0, 0)])] && StartsWith(s, [], input)
    ensures !Settles(input) && 8 !in MH.Fold(MH.EMPTY, DataOf(s.thread)).names
  {
    var parts := [CallPart(7, 0, 0)];
    assert input[..1] == [Plain(0)] && input[..1][..0] == [] && parts[..0] == [];
    var b := MH.StepMessages(MH.EMPTY, input[..1]);
    assert b == MH.Build([Plain(0)], map[], []);
    assert MH.AddCalls(MH.Flush(b), parts).pending == [7];
    assert MH.StepMessages(MH.EMPTY, input) == MH.StepMessage(b, input[1]);
    IncreasingExtended(s.session, s.turn, [], BeginEvents(input));
    assert DataOf([]) + BeginEvents(input) == BeginEvents(input);
    BeginFold(MH.EMPTY, input);
  }
}
