/**
 The incremental prompt cache (crates/executor/src/basic.rs, `materialize_prompt_history`) against
 converting the whole log again (crates/executor/src/harness_helpers.rs).
 */
module HistoryCache {
  import opened Wrappers
  import opened Events
  import opened MessageHistory

  type ThreadId = nat

  const HISTORY_KINDS: set<Kind> := {KMessages, KToolRequested, KToolResult}

  // ----- Splitting a log into batches -----

  lemma {:induction false} FoldConcat(b: Build, x: seq<EventData>, y: seq<EventData>)
    ensures Fold(b, x + y) == Fold(Fold(b, x), y)
  {
    if y == [] {
      assert x + y == x;
    } else {
      assert (x + y)[..|x + y| - 1] == x + y[..|y| - 1];
      FoldConcat(b, x, y[..|y| - 1]);
    }
  }

  lemma {:induction false} StepMessagesConcat(b: Build, x: seq<Message>, y: seq<Message>)
    ensures StepMessages(b, x + y) == StepMessages(StepMessages(b, x), y)
  {
    if y == [] {
      assert x + y == x;
    } else {
      assert (x + y)[..|x + y| - 1] == x + y[..|y| - 1];
      StepMessagesConcat(b, x, y[..|y| - 1]);
    }
  }

  /** The first event of a batch that can touch the history starts with a message that is not a tool message. */
  predicate OpensWithFlush(events: seq<EventData>) {
    if events == [] then true
    else match events[0]
      case Messages(messages) => if messages == [] then OpensWithFlush(events[1..]) else !messages[0].Tool?
      case ToolRequested(_) => false
      case ToolResult(_, _) => false
      case _ => OpensWithFlush(events[1..])
  }

  lemma {:induction false} FlushTwice(b: Build)
    ensures Flush(Flush(b)) == Flush(b)
    ensures b.pending == [] ==> Flush(b) == b
  {
    assert b.history + [] == b.history;
    assert Flush(b).history + [] == Flush(b).history;
  }

  lemma {:induction false} FlushThenBatch(b: Build, events: seq<EventData>)
    requires b.pending == [] || OpensWithFlush(events)
    ensures Flush(Fold(Flush(b), events)) == Flush(Fold(b, events))
    decreases events
  {
    FlushTwice(b);
    if b.pending != [] && events != [] {
      var e, rest := events[0], events[1..];
      assert events == [e] + rest && [e][..0] == [];
      FoldConcat(b, [e], rest);
      FoldConcat(Flush(b), [e], rest);
      if e.Messages? && e.messages != [] {
        var m, more := e.messages[0], e.messages[1..];
        assert e.messages == [m] + more && [m][..0] == [];
        StepMessagesConcat(b, [m], more);
        StepMessagesConcat(Flush(b), [m], more);
        assert StepMessage(Flush(b), m) == StepMessage(b, m);
      } else {
        assert StepEvent(b, e) == b && StepEvent(Flush(b), e) == Flush(b);
        FlushThenBatch(b, rest);
      }
    }
  }

  /** Two batches give what one gives when the first leaves nothing pending or the second opens with a flush. */
  lemma {:induction false} BatchesCompose(x: seq<EventData>, y: seq<EventData>)
    requires Fold(EMPTY, x).pending == [] || OpensWithFlush(y)
    ensures var first := Extend([], map[], x); Extend(first.history, first.names, y) == Extend([], map[], x + y)
  {
    FoldConcat(EMPTY, x, y);
    FlushThenBatch(Fold(EMPTY, x), y);
  }

  /** The condition matters: cutting a log inside a tool round replaces the real result by a cancellation. */
  lemma {:induction false} CutInsideRoundLosesResult(call: Call, result: Value)
    requires result != CANCELLED
    ensures
      var x, y := [ToolRequested(call)], [ToolResult(call.id, result)];
      var first := Extend([], map[], x);
      var answer := Tool([ResultPart(call.id, call.request.functionName, result)]);
      && answer in Recompute(x + y)
      && answer !in Extend(first.history, first.names, y).history
  {
    var x, y := [ToolRequested(call)], [ToolResult(call.id, result)];
    var name := call.request.functionName;
    assert x[..0] == [] && y[..0] == [];
    var open := Build([CallMessage(call)], map[call.id := name], [call.id]);
    assert Fold(EMPTY, x) == open;
    assert [call.id][..0] == [];
    assert Cancelled(open.names, [call.id]) == [Tool([ResultPart(call.id, name, CANCELLED)])];
    var first := Extend([], map[], x);
    assert first.history == [CallMessage(call), Tool([ResultPart(call.id, name, CANCELLED)])];
    assert Fold(Build(first.history, first.names, []), y) == first;
    FoldConcat(EMPTY, x, y);
    assert Recompute(x + y) == [CallMessage(call), Tool([ResultPart(call.id, name, result)])];
  }

  // ----- The cache -----

  datatype Entry = Entry(cursor: Option<EventId>, messages: seq<Message>, names: map<CallId, Name>)

  function CursorOf(entry: Option<Entry>): Option<EventId> {
    if entry.Some? then entry.value.cursor else None
  }

  function Unread(cursor: Option<EventId>): Query {
    Query(cursor, None, None, Some(HISTORY_KINDS))
  }

  /** The cursor the query reports, or the previous one when it returned nothing. */
  function NextCursor(cursor: Option<EventId>, events: seq<Event>): Option<EventId> {
    if events == [] then cursor else LastId(events)
  }

  function NewEntry(prior: Option<Entry>, log: seq<Event>): Entry {
    var events := Select(Unread(CursorOf(prior)), log);
    var base := if prior.Some? then prior.value else Entry(None, [], map[]);
    var b := Extend(base.messages, base.names, DataOf(events));
    Entry(NextCursor(CursorOf(prior), events), b.history, b.names)
  }

  /** Basic's executor state for prompts: one entry per thread, replaced at every model round. */
  class PromptHistory {
    var cache: map<ThreadId, Entry>

    constructor ()
      ensures cache == map[]
    {
      cache := map[];
    }

    function Cached(thread: ThreadId): Option<Entry>
      reads this
    {
      if thread in cache then Some(cache[thread]) else None
    }

    method Materialize(thread: ThreadId, instructions: seq<Message>, log: seq<Event>) returns (messages: seq<Message>)
      modifies this
      ensures cache == old(cache)[thread := NewEntry(old(Cached(thread)), log)]
      ensures messages == instructions + NewEntry(old(Cached(thread)), log).messages
    {
      var cached := Cached(thread);
      var events := Select(Unread(CursorOf(cached)), log);
      var eventMessages, names := [], map[];
      if cached.Some? {
        eventMessages, names := cached.value.messages, cached.value.names;
      }
      eventMessages, names := ExtendMessageHistory(eventMessages, names, DataOf(events));
      var cursor := LastId(events);
      if cursor.None? && cached.Some? {
        cursor := cached.value.cursor;
      }
      cache := cache[thread := Entry(cursor, eventMessages, names)];
      messages := instructions + eventMessages;
    }
  }

  /** The event contributes to the history. */
  predicate Relevant(e: Event) { KindOf(e.data) in HISTORY_KINDS }

  /** The cursor separates the first `k` events from the rest, as far as the history is concerned. */
  ghost predicate Covers(cursor: Option<EventId>, log: seq<Event>, k: nat)
    requires k <= |log|
  {
    && (forall i :: 0 <= i < k && Relevant(log[i]) ==> cursor.Some? && log[i].id <= cursor.value)
    && (forall i :: k <= i < |log| && Relevant(log[i]) && cursor.Some? ==> cursor.value < log[i].id)
    && (cursor.Some? ==> exists i :: 0 <= i < k && log[i].id == cursor.value)
  }

  /** The entry holds exactly the conversion of the first `k` events, and they leave no call pending. */
  ghost predicate ValidAt(entry: Option<Entry>, log: seq<Event>, k: nat) {
    && k <= |log|
    && Covers(CursorOf(entry), log, k)
    && match entry
       case None => k == 0
       case Some(e) => Fold(EMPTY, DataOf(log[..k])) == Build(e.messages, e.names, [])
  }

  lemma {:induction false} FoldSelected(b: Build, log: seq<Event>)
    ensures Fold(b, DataOf(Select(Unread(None), log))) == Fold(b, DataOf(log))
  {
    var q := Unread(None);
    if log != [] {
      var init, last := log[..|log| - 1], log[|log| - 1];
      FoldSelected(b, init);
      assert DataOf(log) == DataOf(init) + [last.data];
      FoldConcat(b, DataOf(init), [last.data]);
      assert [last.data][..0] == [];
      if q.Accepts(last) {
        assert DataOf(Select(q, log)) == DataOf(Select(q, init)) + [last.data];
        FoldConcat(b, DataOf(Select(q, init)), [last.data]);
      } else {
        assert StepEvent(Fold(b, DataOf(init)), last.data) == Fold(b, DataOf(init));
        assert Select(q, log) == Select(q, init);
      }
    }
  }

  /** The cursor query reads exactly the events that the entry does not hold yet. */
  lemma {:induction false} UnreadIsRest(cursor: Option<EventId>, log: seq<Event>, k: nat)
    requires k <= |log| && Covers(cursor, log, k)
    ensures Select(Unread(cursor), log) == Select(Unread(None), log[k..])
  {
    var q := Unread(cursor);
    assert log == log[..k] + log[k..];
    SelectConcat(q, log[..k], log[k..]);
    SelectNone(q, log[..k]);
    SelectSame(q, Unread(None), log[k..]);
  }

  lemma {:induction false} CoversAll(cursor: Option<EventId>, log: seq<Event>, k: nat)
    requires Increasing(log) && k <= |log| && Covers(cursor, log, k)
    ensures Covers(NextCursor(cursor, Select(Unread(cursor), log)), log, |log|)
  {
    var rest := log[k..];
    var chosen := Select(Unread(None), rest);
    UnreadIsRest(cursor, log, k);
    SelectLast(Unread(None), rest);
    forall i | k <= i < |log|
      ensures log[i] in rest
    {
      assert log[i] == rest[i - k];
    }
    if chosen != [] {
      var last := chosen[|chosen| - 1];
      var m :| 0 <= m < |rest| && rest[m] == last;
      assert log[k + m] == last;
    }
  }

  /** Reading what is new on top of the entry gives what reading the whole log gives. */
  lemma {:induction false} NewIsWhole(entry: Option<Entry>, log: seq<Event>, k: nat)
    requires ValidAt(entry, log, k)
    ensures var base := if entry.Some? then Build(entry.value.messages, entry.value.names, []) else EMPTY;
      Fold(base, DataOf(Select(Unread(CursorOf(entry)), log))) == Fold(EMPTY, DataOf(log))
  {
    UnreadIsRest(CursorOf(entry), log, k);
    var b := Fold(EMPTY, DataOf(log[..k]));
    assert k == 0 ==> DataOf(log[..k]) == [];
    FoldSelected(b, log[k..]);
    assert DataOf(log) == DataOf(log[..k]) + DataOf(log[k..]);
    FoldConcat(EMPTY, DataOf(log[..k]), DataOf(log[k..]));
  }

  /**
   At a point of the log where no call is pending, the incremental prompt is the recomputed prompt,
   and the new entry again covers the whole log.
   */
  lemma {:induction false} CacheIsExact(entry: Option<Entry>, log: seq<Event>, k: nat)
    requires Increasing(log) && ValidAt(entry, log, k)
    requires Fold(EMPTY, DataOf(log)).pending == []
    ensures NewEntry(entry, log).messages == Recompute(DataOf(log))
    ensures ValidAt(Some(NewEntry(entry, log)), log, |log|)
  {
    NewIsWhole(entry, log, k);
    CoversAll(CursorOf(entry), log, k);
    FlushTwice(Fold(EMPTY, DataOf(log)));
    assert log[..|log|] == log;
  }

  lemma {:induction false} CoversKept(cursor: Option<EventId>, log: seq<Event>, more: seq<Event>, k: nat)
    requires Increasing(log + more) && k <= |log| && Covers(cursor, log, k)
    ensures Covers(cursor, log + more, k)
  {
    if cursor.Some? {
      var i :| 0 <= i < k && log[i].id == cursor.value;
      assert (log + more)[i] == log[i];
      forall j | |log| <= j < |log + more|
        ensures cursor.value < (log + more)[j].id
      {
      }
    }
  }

  /** Entries stay valid while the log grows, whoever appends to it. */
  lemma {:induction false} EntryKept(entry: Option<Entry>, log: seq<Event>, more: seq<Event>, k: nat)
    requires Increasing(log + more) && ValidAt(entry, log, k)
    ensures ValidAt(entry, log + more, k)
  {
    assert (log + more)[..k] == log[..k];
    CoversKept(CursorOf(entry), log, more, k);
  }
}
