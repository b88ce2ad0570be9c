/**
 Over whole runs of a thread, at every model round the cached prompt is the prompt recomputed from
 the entire log (crates/executor/src/basic.rs, message_history.rs, harness_helpers.rs).
 */
module TurnHistory {
  import opened Wrappers
  import opened Events
  import opened TurnProtocol
  import opened HistoryCache
  import opened TurnEngine
  import opened TurnInvariant
  import opened TurnSteps
  import MH = MessageHistory
  import HB = HistoryBalance

  // ----- The thread log -----

  /** What a query for the turn and its session returns. */
  function OwnData(session: SessionId, turn: TurnId, thread: seq<Event>): seq<EventData> {
    DataOf(Select(Query(None, Some(session), Some(turn), None), thread))
  }

  ghost predicate Mentions(thread: seq<Event>, turn: TurnId) {
    exists e :: e in thread && e.turn == Some(turn)
  }

  /** The turn's log is its part of the thread's log, and a late response belongs to another turn. */
  ghost predicate ThreadOk(session: SessionId, turn: TurnId, thread: seq<Event>, log: seq<EventData>,
      late: Option<Late>) {
    && Increasing(thread) && OwnData(session, turn, thread) == log && Mentions(thread, turn)
    && (late.Some? ==> late.value.turn != turn && Mentions(thread, late.value.turn))
  }

  ghost predicate ThreadInv(s: Engine) {
    ThreadOk(s.session, s.turn, s.thread, s.log, s.late)
  }

  lemma {:induction false} IncreasingExtended(session: SessionId, turn: TurnId, thread: seq<Event>,
      data: seq<EventData>)
    requires Increasing(thread)
    ensures Increasing(Extended(session, turn, thread, data))
    ensures DataOf(Extended(session, turn, thread, data)) == DataOf(thread) + data
  {
    var whole := Extended(session, turn, thread, data);
    forall i, j | 0 <= i < j < |whole|
      ensures whole[i].id < whole[j].id
    {
      if i < |thread| <= j {
        assert thread[i].id <= thread[|thread| - 1].id;
      }
    }
  }

  lemma {:induction false} AppendKeepsThread(s: Engine, batch: seq<EventData>)
    requires ThreadInv(s)
    ensures ThreadInv(Appended(s, batch))
  {
    IncreasingExtended(s.session, s.turn, s.thread, batch);
    QueryExtended(Query(None, Some(s.session), Some(s.turn), None), s.session, s.turn, s.thread, batch);
    MentionsKept(s.thread, Stamp(s.session, s.turn, NextId(s.thread), batch));
  }

  lemma {:induction false} MentionsKept(thread: seq<Event>, more: seq<Event>)
    ensures forall t: TurnId :: Mentions(thread, t) ==> Mentions(thread + more, t)
  {
    forall t: TurnId | Mentions(thread, t) ensures Mentions(thread + more, t) {
      var e :| e in thread && e.turn == Some(t);
      assert e in thread + more;
    }
  }

  lemma {:induction false} LateKeepsThread(s: Engine)
    requires ThreadInv(s) && s.late.Some?
    ensures ThreadInv(s.(thread := WithLate(s.thread, s.late.value), late := None))
  {
    var late, q := s.late.value, Query(None, Some(s.session), Some(s.turn), None);
    var stamped := Stamp(late.session, late.turn, NextId(s.thread), [ApprovalResponded(late.response)]);
    IncreasingExtended(late.session, late.turn, s.thread, [ApprovalResponded(late.response)]);
    SelectConcat(q, s.thread, stamped);
    SelectNone(q, stamped);
    assert Select(q, s.thread) + [] == Select(q, s.thread);
    MentionsKept(s.thread, stamped);
  }

  lemma {:induction false} BeginThread(session: SessionId, turn: TurnId, before: seq<Event>, input: seq<Message>)
    requires Increasing(before) && (forall e :: e in before ==> e.turn != Some(turn))
    ensures ThreadOk(session, turn, Extended(session, turn, before, BeginEvents(input)), BeginEvents(input), None)
  {
    var q, thread := Query(None, Some(session), Some(turn), None), Extended(session, turn, before, BeginEvents(input));
    IncreasingExtended(session, turn, before, BeginEvents(input));
    SelectNone(q, before);
    QueryExtended(q, session, turn, before, BeginEvents(input));
    assert DataOf([]) + BeginEvents(input) == BeginEvents(input);
    assert thread[|before|] in thread;
  }

  lemma {:induction false} TurnKeepsThread(s: Engine, gap: seq<Event>, session: SessionId, turn: TurnId,
      input: seq<Message>)
    requires ThreadInv(s) && AfterControl(s, NextTurn(gap, session, turn, input)).Some?
    ensures ThreadInv(AfterControl(s, NextTurn(gap, session, turn, input)).value)
  {
    var before := s.thread + gap;
    BeginThread(session, turn, before, input);
    MentionsKept(s.thread, gap);
    MentionsKept(before, Stamp(session, turn, NextId(before), BeginEvents(input)));
  }

  lemma {:induction false} StepKeepsThread(limit: Option<nat>, s: Engine, step: Step)
    requires ThreadInv(s) && Next(limit, s, step).Some?
    ensures ThreadInv(Next(limit, s, step).value)
  {
    var s' := Next(limit, s, step).value;
    if step.Controlling? && step.control.NextTurn? {
      TurnKeepsThread(s, step.control.gap, step.control.session, step.control.turn, step.control.input);
    } else if step.Replying? && step.outside.AppendLate? {
      LateKeepsThread(s);
    } else {
      var batch := AppendedBy(limit, s, step);
      AppendKeepsThread(s, batch);
    }
  }

  /** Every other step appends some events of the turn, or none. */
  lemma {:induction false} AppendedBy(limit: Option<nat>, s: Engine, step: Step) returns (batch: seq<EventData>)
    requires Next(limit, s, step).Some?
    requires !(step.Controlling? && step.control.NextTurn?) && !(step.Replying? && step.outside.AppendLate?)
    ensures var s' := Next(limit, s, step).value;
      && s'.session == s.session && s'.turn == s.turn && (s'.late == s.late || s'.late == None)
      && s'.thread == Appended(s, batch).thread && s'.log == Appended(s, batch).log
  {
    batch := [];
    assert s.thread + [] == s.thread && s.log + [] == s.log;
    match step {
      case Effecting(Persist) => batch := Batch(s.work.write);
      case Effecting(CloseNext) => batch := if s.work.todo == [] then [] else [s.work.todo[0]];
      case Effecting(CloseFails(landed)) => batch := if landed then [s.work.todo[0]] else [];
      case Replying(AppendResponse) => batch := [ApprovalResponded(s.responder.value)];
      case Replying(Note) => batch := [OtherData];
      case _ =>
    }
  }

  lemma {:induction false} RunKeepsThread(limit: Option<nat>, s: Engine, steps: seq<Step>)
    requires ThreadInv(s) && Run(limit, s, steps).Some?
    ensures ThreadInv(Run(limit, s, steps).value)
  {
    if steps != [] {
      RunKeepsThread(limit, s, steps[..|steps| - 1]);
      StepKeepsThread(limit, Run(limit, s, steps[..|steps| - 1]).value, steps[|steps| - 1]);
    }
  }

  /** In every run, the turn's own events are exactly what a query for its turn and session returns. */
  lemma {:induction false} TurnQuery(limit: Option<nat>, s: Engine)
    requires Reachable(limit, s)
    ensures DataOf(Select(Query(None, Some(s.session), Some(s.turn), None), s.thread)) == s.log
    ensures Increasing(s.thread)
  {
    var start, steps :| Initial(start) && Run(limit, start, steps) == Some(s);
    var before, input :| StartsWith(start, before, input);
    BeginThread(start.session, start.turn, before, input);
    RunKeepsThread(limit, start, steps);
  }

  // ----- The conversion and the caches -----

  /** Calls pending in the conversion are unresolved calls of the turn, each pending once. */
  ghost predicate PendingWithin(b: MH.Build, ids: set<CallId>) {
    forall id :: id in multiset(b.pending) ==> multiset(b.pending)[id] == 1 && id in b.names && id in ids
  }

  ghost predicate CacheOk(entry: Entry, thread: seq<Event>) {
    exists k :: ValidAt(Some(entry), thread, k)
  }

  ghost predicate HistoryOk(thread: seq<Event>, log: seq<EventData>, caches: map<Process, Entry>) {
    && PendingWithin(MH.Fold(MH.EMPTY, DataOf(thread)), Ids(DigestOf(log).pending))
    && forall p :: p in caches ==> CacheOk(caches[p], thread)
  }

  ghost predicate HistoryInv(s: Engine) {
    Increasing(s.thread) && HistoryOk(s.thread, s.log, s.caches)
  }

  lemma {:induction false} CachesKept(thread: seq<Event>, more: seq<Event>, caches: map<Process, Entry>)
    requires Increasing(thread + more) && forall p :: p in caches ==> CacheOk(caches[p], thread)
    ensures forall p :: p in caches ==> CacheOk(caches[p], thread + more)
  {
    forall p | p in caches ensures CacheOk(caches[p], thread + more) {
      var k :| ValidAt(Some(caches[p]), thread, k);
      EntryKept(Some(caches[p]), thread, more, k);
    }
  }

  // ----- One batch at a time -----

  lemma {:induction false} MessagesPend(b: MH.Build, messages: seq<Message>)
    requires forall id :: id in b.pending ==> id in b.names
    ensures var b' := MH.StepMessages(b, messages);
      && multiset(b'.pending) <= multiset(b.pending) + HB.Calls(messages)
      && forall id :: id in b'.pending ==> id in b'.names
  {
    if messages != [] {
      var init, m := messages[..|messages| - 1], messages[|messages| - 1];
      MessagesPend(b, init);
      var b1 := MH.StepMessages(b, init);
      assert messages == init + [m];
      match m {
        case Tool(results) =>
          HB.RemoveResultsBag(b1.pending, results);
          forall id | id in MH.RemoveResults(b1.pending, results)
            ensures id in b1.names
          {
            assert id in multiset(MH.RemoveResults(b1.pending, results));
            assert id in multiset(b1.pending);
          }
        case Assistant(parts) => HB.AddCallsEffect(MH.Flush(b1), parts);
        case Plain(_) =>
      }
    }
  }

  lemma {:induction false} RequestsPend(b: MH.Build, calls: seq<Call>, ids: set<CallId>)
    requires PendingWithin(b, ids) && Ids(calls) <= ids
    ensures PendingWithin(MH.Fold(b, Requests(calls)), ids)
  {
    if calls != [] {
      var init, last := calls[..|calls| - 1], calls[|calls| - 1];
      assert last in calls && Ids(init) <= Ids(calls);
      RequestsPend(b, init, ids);
      assert Requests(calls) == Requests(init) + [ToolRequested(last)];
      assert Requests(calls)[..|calls| - 1] == Requests(init);
      var b1 := MH.Fold(b, Requests(init));
      if last.id !in b1.names {
        assert last.id !in multiset(b1.pending);
        assert multiset(b1.pending + [last.id]) == multiset(b1.pending) + multiset{last.id};
      }
    }
  }

  lemma {:induction false} ResponsePend(b: MH.Build, r: ModelResponse)
    requires b.pending == [] && Admissible(r, {})
    ensures PendingWithin(MH.Fold(b, ResponseEvents(r)), Ids(r.calls))
  {
    var head := if r.messages != [] || r.metered then [Messages(r.messages)] else [];
    FoldConcat(b, head, Requests(r.calls));
    assert head != [] ==> head[..0] == [];
    MessagesPend(b, r.messages);
    assert multiset(b.pending) == multiset{};
    var b1 := MH.Fold(b, head);
    forall id | id in multiset(b1.pending)
      ensures multiset(b1.pending)[id] == 1 && id in b1.names && id in Ids(r.calls)
    {
      assert id in b1.pending;
      assert id in HB.Calls(r.messages);
    }
    RequestsPend(b1, r.calls, Ids(r.calls));
  }

  lemma {:induction false} ResultPend(b: MH.Build, queue: seq<Call>, result: Value)
    requires queue != [] && DistinctIds(queue) && PendingWithin(b, Ids(queue))
    ensures PendingWithin(MH.StepEvent(b, ToolResult(queue[0].id, result)), Ids(queue[1..]))
  {
    HeadResult(queue);
    HB.RemoveFirstBag(b.pending, queue[0].id);
    if queue[0].id in b.pending {
      assert queue[0].id in multiset(b.pending);
    } else {
      assert queue[0].id !in multiset(b.pending);
    }
  }

  lemma {:induction false} NothingPending(b: MH.Build)
    requires PendingWithin(b, {})
    ensures b.pending == []
  {
    assert multiset(b.pending) == multiset{};
    assert |multiset(b.pending)| == |b.pending|;
  }

  // ----- Inputs -----

  /**
   Converting the input alone flushes what was pending and leaves nothing pending itself: it holds a
   message that is not a tool message, and every call in it is answered or followed by such a message.
   */
  ghost predicate Settles(input: seq<Message>) {
    (exists m :: m in input && !m.Tool?) && MH.StepMessages(MH.EMPTY, input).pending == []
  }

  lemma {:induction false} SamePendingCalls(b: MH.Build, c: MH.Build, parts: seq<AssistantPart>)
    requires b.pending == c.pending
    ensures MH.AddCalls(b, parts).pending == MH.AddCalls(c, parts).pending
  {
    if parts != [] {
      SamePendingCalls(b, c, parts[..|parts| - 1]);
    }
  }

  lemma {:induction false} SamePendingStep(b: MH.Build, c: MH.Build, m: Message)
    requires b.pending == c.pending || !m.Tool?
    ensures MH.StepMessage(b, m).pending == MH.StepMessage(c, m).pending
  {
    if m.Assistant? {
      SamePendingCalls(MH.Flush(b), MH.Flush(c), m.parts);
    }
  }

  /**
   What an input leaves pending does not depend on what came before it, once it holds a message that
   is not a tool message.
   */
  lemma {:induction false} InputAlone(b: MH.Build, input: seq<Message>)
    requires exists m :: m in input && !m.Tool?
    ensures MH.StepMessages(b, input).pending == MH.StepMessages(MH.EMPTY, input).pending
  {
    var init, m := input[..|input| - 1], input[|input| - 1];
    assert input == init + [m];
    if m.Tool? {
      var x :| x in input && !x.Tool?;
      assert x in init;
      InputAlone(b, init);
    }
    SamePendingStep(MH.StepMessages(b, init), MH.StepMessages(MH.EMPTY, init), m);
  }

  lemma {:induction false} BeginFold(b: MH.Build, input: seq<Message>)
    ensures MH.Fold(b, BeginEvents(input)) == MH.StepMessages(b, input)
  {
    FoldOne(b, TurnStarted);
    FoldConcat(b, [TurnStarted], [OtherData]);
    FoldOne(b, OtherData);
    FoldConcat(b, [TurnStarted] + [OtherData], [Messages(input)]);
    FoldOne(b, Messages(input));
    assert BeginEvents(input) == [TurnStarted] + [OtherData] + [Messages(input)];
  }

  // ----- Runs -----

  lemma {:induction false} FoldOne(b: MH.Build, e: EventData)
    ensures MH.Fold(b, [e]) == MH.StepEvent(b, e)
  {
    assert [e][..0] == [];
  }

  function Converted(s: Engine): MH.Build { MH.Fold(MH.EMPTY, DataOf(s.thread)) }

  /** Appending a batch that keeps the pending calls within bounds keeps the history invariant. */
  lemma {:induction false} AppendKeepsHistory(s: Engine, batch: seq<EventData>)
    requires HistoryInv(s)
    requires PendingWithin(MH.Fold(Converted(s), batch), Ids(DigestOf(s.log + batch).pending))
    ensures HistoryInv(Appended(s, batch))
  {
    IncreasingExtended(s.session, s.turn, s.thread, batch);
    FoldConcat(MH.EMPTY, DataOf(s.thread), batch);
    CachesKept(s.thread, Stamp(s.session, s.turn, NextId(s.thread), batch), s.caches);
  }

  lemma {:induction false} QuietKeepsHistory(s: Engine, e: EventData)
    requires HistoryInv(s) && !e.Messages? && !e.ToolRequested? && !e.ToolResult?
    ensures HistoryInv(Appended(s, [e]))
  {
    Snoc(None, START, s.log, e);
    FoldOne(Converted(s), e);
    AppendKeepsHistory(s, [e]);
  }

  lemma {:induction false} LateKeepsHistory(s: Engine)
    requires HistoryInv(s) && s.late.Some?
    ensures HistoryInv(s.(thread := WithLate(s.thread, s.late.value)))
  {
    var late, e := s.late.value, ApprovalResponded(s.late.value.response);
    IncreasingExtended(late.session, late.turn, s.thread, [e]);
    FoldConcat(MH.EMPTY, DataOf(s.thread), [e]);
    FoldOne(Converted(s), e);
    CachesKept(s.thread, Stamp(late.session, late.turn, NextId(s.thread), [e]), s.caches);
  }

  lemma {:induction false} CommitKeepsHistory(limit: Option<nat>, s: Engine, round: nat, r: ModelResponse)
    requires HistoryInv(s) && Idle(DigestOf(s.log), round) && Admissible(r, DigestOf(s.log).calls)
    requires limit.Some? ==> round <= limit.value
    ensures HistoryInv(Appended(s, Batch(Commit(round, r))))
  {
    var b, batch := Converted(s), Batch(Commit(round, r));
    Concat(limit, START, s.log, batch);
    CommitLegal(limit, DigestOf(s.log), round, r);
    NothingPending(b);
    FoldOne(b, RoundMarker(round));
    FoldConcat(b, [RoundMarker(round)], ResponseEvents(r));
    ResponsePend(b, r);
    AppendKeepsHistory(s, batch);
  }

  lemma {:induction false} FinalKeepsHistory(s: Engine, r: ModelResponse)
    requires HistoryInv(s) && DigestOf(s.log).Open() && DigestOf(s.log).pending == []
    requires r.calls == [] && Admissible(r, DigestOf(s.log).calls)
    ensures HistoryInv(Appended(s, Batch(Final(r))))
  {
    var b, batch := Converted(s), Batch(Final(r));
    Concat(None, START, s.log, batch);
    FinalLegal(None, DigestOf(s.log), r);
    NothingPending(b);
    FoldConcat(b, ResponseEvents(r), [TurnCompleted]);
    FoldOne(MH.Fold(b, ResponseEvents(r)), TurnCompleted);
    ResponsePend(b, r);
    AppendKeepsHistory(s, batch);
  }

  lemma {:induction false} ResultKeepsHistory(s: Engine, round: nat, queue: seq<Call>, result: Value)
    requires HistoryInv(s) && Busy(DigestOf(s.log), round, queue) && DistinctIds(queue)
    ensures HistoryInv(Appended(s, [ToolResult(queue[0].id, result)]))
  {
    var b, e := Converted(s), ToolResult(queue[0].id, result);
    Snoc(None, START, s.log, e);
    FoldOne(b, e);
    HeadResult(queue);
    ResultPend(b, queue, result);
    AppendKeepsHistory(s, [e]);
  }

  lemma {:induction false} WriteKeepsHistory(limit: Option<nat>, s: Engine)
    requires Inv(limit, s) && HistoryInv(s) && s.work.Appending? && !s.work.persisted
    ensures HistoryInv(Appended(s, Batch(s.work.write)))
  {
    WellFormedConsistent(limit, s.log);
    assert WriteOk(limit, DigestOf(s.log), s.executed, s.work.write);
    match s.work.write {
      case Commit(round, r) => CommitKeepsHistory(limit, s, round, r);
      case Final(r) => FinalKeepsHistory(s, r);
      case Asking(_, _, a) => QuietKeepsHistory(s, ApprovalRequested(a));
      case Resulting(round, queue, result) => ResultKeepsHistory(s, round, queue, result);
    }
  }

  /** At a model round nothing is pending in the conversion, so the cached prompt is exact. */
  lemma {:induction false} PromptAtRound(s: Engine)
    requires HistoryInv(s) && DigestOf(s.log).pending == []
    ensures NewEntry(CacheOf(s), s.thread).messages == MH.Recompute(DataOf(s.thread))
    ensures CacheOk(NewEntry(CacheOf(s), s.thread), s.thread)
  {
    NothingPending(Converted(s));
    var k: nat := 0;
    if CacheOf(s).Some? {
      k :| ValidAt(CacheOf(s), s.thread, k);
    }
    CacheIsExact(CacheOf(s), s.thread, k);
  }

  lemma {:induction false} CallKeepsHistory(s: Engine)
    requires HistoryInv(s) && DigestOf(s.log).pending == []
    ensures HistoryOk(s.thread, s.log, s.caches[s.process := NewEntry(CacheOf(s), s.thread)])
  {
    PromptAtRound(s);
  }

  lemma {:induction false} BeginHistory(before: seq<Event>, session: SessionId, turn: TurnId,
      caches: map<Process, Entry>, input: seq<Message>)
    requires Increasing(before) && Settles(input) && forall p :: p in caches ==> CacheOk(caches[p], before)
    ensures Increasing(Extended(session, turn, before, BeginEvents(input)))
    ensures HistoryOk(Extended(session, turn, before, BeginEvents(input)), BeginEvents(input), caches)
  {
    var b := MH.Fold(MH.EMPTY, DataOf(before));
    IncreasingExtended(session, turn, before, BeginEvents(input));
    FoldConcat(MH.EMPTY, DataOf(before), BeginEvents(input));
    BeginFold(b, input);
    InputAlone(b, input);
    CachesKept(before, Stamp(session, turn, NextId(before), BeginEvents(input)), caches);
  }

  lemma {:induction false} TurnKeepsHistory(s: Engine, gap: seq<Event>, session: SessionId, turn: TurnId,
      input: seq<Message>)
    requires HistoryInv(s) && Settles(input) && AfterControl(s, NextTurn(gap, session, turn, input)).Some?
    ensures HistoryInv(AfterControl(s, NextTurn(gap, session, turn, input)).value)
  {
    CachesKept(s.thread, gap, s.caches);
    BeginHistory(s.thread + gap, session, turn, s.caches, input);
  }

  lemma {:induction false} CloseKeepsHistory(limit: Option<nat>, s: Engine)
    requires Inv(limit, s) && HistoryInv(s) && s.work.Closing? && s.work.todo != []
    ensures HistoryInv(Appended(s, [s.work.todo[0]]))
  {
    ClosingUnended(limit, s);
    QuietKeepsHistory(s, s.work.todo[0]);
  }

  lemma {:induction false} ModelKeepsHistory(limit: Option<nat>, s: Engine, r: ModelResponse)
    requires Inv(limit, s) && HistoryInv(s) && AfterEffect(limit, s, CallModel(r)).Some?
    ensures HistoryInv(AfterEffect(limit, s, CallModel(r)).value)
  {
    RoundIsIdle(limit, s);
    CallKeepsHistory(s);
  }

  lemma {:induction false} CloseNextKeepsHistory(limit: Option<nat>, s: Engine)
    requires Inv(limit, s) && HistoryInv(s) && AfterEffect(limit, s, CloseNext).Some?
    ensures HistoryInv(AfterEffect(limit, s, CloseNext).value)
  {
    if s.work.todo != [] {
      CloseKeepsHistory(limit, s);
    }
  }

  lemma {:induction false} CloseFailsKeepsHistory(limit: Option<nat>, s: Engine, landed: bool)
    requires Inv(limit, s) && HistoryInv(s) && AfterEffect(limit, s, CloseFails(landed)).Some?
    ensures HistoryInv(AfterEffect(limit, s, CloseFails(landed)).value)
  {
    if landed {
      CloseKeepsHistory(limit, s);
    }
  }

  lemma {:induction false} EffectKeepsHistory(limit: Option<nat>, s: Engine, effect: Effect)
    requires Inv(limit, s) && HistoryInv(s) && AfterEffect(limit, s, effect).Some?
    ensures HistoryInv(AfterEffect(limit, s, effect).value)
  {
    match effect {
      case CallModel(r) => ModelKeepsHistory(limit, s, r);
      case Persist => WriteKeepsHistory(limit, s);
      case CloseNext => CloseNextKeepsHistory(limit, s);
      case CloseFails(landed) => CloseFailsKeepsHistory(limit, s, landed);
      case _ =>
    }
  }

  lemma {:induction false} OutsideKeepsHistory(s: Engine, outside: Outside)
    requires HistoryInv(s) && AfterOutside(s, outside).Some?
    ensures HistoryInv(AfterOutside(s, outside).value)
  {
    match outside {
      case AppendResponse => QuietKeepsHistory(s, ApprovalResponded(s.responder.value));
      case AppendLate => LateKeepsHistory(s);
      case Note => QuietKeepsHistory(s, OtherData);
      case _ =>
    }
  }

  ghost predicate StepSettles(step: Step) {
    step.Controlling? && step.control.NextTurn? ==> Settles(step.control.input)
  }

  lemma {:induction false} StepKeepsHistory(limit: Option<nat>, s: Engine, step: Step)
    requires Inv(limit, s) && HistoryInv(s) && Next(limit, s, step).Some? && StepSettles(step)
    ensures HistoryInv(Next(limit, s, step).value)
  {
    match step {
      case Moving(_) =>
      case Effecting(effect) => EffectKeepsHistory(limit, s, effect);
      case Controlling(control) => ControlKeepsHistory(s, control);
      case Replying(outside) => OutsideKeepsHistory(s, outside);
    }
  }

  lemma {:induction false} ControlKeepsHistory(s: Engine, control: Control)
    requires HistoryInv(s) && AfterControl(s, control).Some? && (control.NextTurn? ==> Settles(control.input))
    ensures HistoryInv(AfterControl(s, control).value)
  {
    if control.NextTurn? {
      TurnKeepsHistory(s, control.gap, control.session, control.turn, control.input);
    }
  }

  lemma {:induction false} RunKeepsHistory(limit: Option<nat>, s: Engine, steps: seq<Step>)
    requires Inv(limit, s) && HistoryInv(s) && Run(limit, s, steps).Some?
    requires forall i :: 0 <= i < |steps| ==> StepSettles(steps[i])
    ensures HistoryInv(Run(limit, s, steps).value)
  {
    if steps != [] {
      var init := steps[..|steps| - 1];
      RunKeepsHistory(limit, s, init);
      RunKeepsInv(limit, s, init);
      StepKeepsHistory(limit, Run(limit, s, init).value, steps[|steps| - 1]);
    }
  }

  ghost predicate SettledStart(s: Engine) {
    exists before, input :: StartsWith(s, before, input) && Settles(input)
  }

  ghost predicate AllSettle(steps: seq<Step>) {
    forall i :: 0 <= i < |steps| ==> StepSettles(steps[i])
  }

  /** A state of a run in which every turn's input settles. */
  ghost predicate SettledRun(limit: Option<nat>, s: Engine) {
    exists start, steps :: SettledStart(start) && AllSettle(steps) && Run(limit, start, steps) == Some(s)
  }

  lemma {:induction false} StartHistory(limit: Option<nat>, s: Engine)
    requires SettledStart(s)
    ensures Inv(limit, s) && HistoryInv(s)
  {
    var before, input :| StartsWith(s, before, input) && Settles(input);
    InitialInv(limit, s);
    BeginHistory(before, s.session, s.turn, map[], input);
  }

  lemma {:induction false} SettledHistory(limit: Option<nat>, s: Engine)
    requires SettledRun(limit, s)
    ensures Inv(limit, s) && HistoryInv(s)
  {
    var start, steps :| SettledStart(start) && AllSettle(steps) && Run(limit, start, steps) == Some(s);
    StartHistory(limit, start);
    RunKeepsInv(limit, start, steps);
    RunKeepsHistory(limit, start, steps);
  }

  /**
   In every run of a thread, over any number of turns, crashes, restarts and processes: whenever the
   executor is about to call the model, the prompt it builds from its cache is the instructions
   followed by the conversion of the thread's whole log.
   */
  lemma {:induction false} CachedPromptIsRecomputed(limit: Option<nat>, s: Engine)
    requires SettledRun(limit, s) && s.work.Round?
    ensures NewEntry(CacheOf(s), s.thread).messages == MH.Recompute(DataOf(s.thread))
  {
    SettledHistory(limit, s);
    RoundIsIdle(limit, s);
    PromptAtRound(s);
  }

  lemma {:induction false} RoundIsIdle(limit: Option<nat>, s: Engine)
    requires Inv(limit, s) && s.work.Round?
    ensures DigestOf(s.log).pending == []
  {
  }
}
