/**
 Every tool call of a converted history has exactly one result, and the results are named after
 their calls (crates/executor/src/message_history.rs).
 */
module HistoryBalance {
  import opened Events
  import opened MessageHistory

  function PartIds(parts: seq<AssistantPart>): multiset<CallId> {
    if parts == [] then multiset{}
    else
      PartIds(parts[..|parts| - 1])
      + match parts[|parts| - 1] case CallPart(id, _, _) => multiset{id} case OtherPart(_) => multiset{}
  }

  function ResultIds(results: seq<ResultPart>): multiset<CallId> {
    if results == [] then multiset{}
    else ResultIds(results[..|results| - 1]) + multiset{results[|results| - 1].id}
  }

  /** The calls made in a history, with multiplicity. */
  function Calls(history: seq<Message>): multiset<CallId> {
    if history == [] then multiset{}
    else
      Calls(history[..|history| - 1])
      + match history[|history| - 1] case Assistant(parts) => PartIds(parts) case _ => multiset{}
  }

  /** The results given in a history, with multiplicity. */
  function Results(history: seq<Message>): multiset<CallId> {
    if history == [] then multiset{}
    else
      Results(history[..|history| - 1])
      + match history[|history| - 1] case Tool(results) => ResultIds(results) case _ => multiset{}
  }

  function PartNames(names: map<CallId, Name>, parts: seq<AssistantPart>): map<CallId, Name> {
    if parts == [] then names
    else
      var before := PartNames(names, parts[..|parts| - 1]);
      match parts[|parts| - 1] case CallPart(id, name, _) => before[id := name] case OtherPart(_) => before
  }

  /** The name each call id was last requested under. */
  function LastNames(history: seq<Message>): map<CallId, Name> {
    if history == [] then map[]
    else
      var before := LastNames(history[..|history| - 1]);
      match history[|history| - 1] case Assistant(parts) => PartNames(before, parts) case _ => before
  }

  /** Message `k` gives no more results than calls are open, each under the name of its call. */
  ghost predicate SoundAt(history: seq<Message>, k: nat)
    requires k < |history|
  {
    && Results(history[..k + 1]) <= Calls(history[..k + 1])
    && (history[k].Tool? ==> Named(LastNames(history[..k]), history[k].results))
  }

  ghost predicate Named(names: map<CallId, Name>, results: seq<ResultPart>) {
    forall i :: 0 <= i < |results| ==> results[i].id in names && results[i].name == names[results[i].id]
  }

  ghost predicate Sound(history: seq<Message>) {
    forall k :: 0 <= k < |history| ==> SoundAt(history, k)
  }

  /** A tool message embedded in the log answers only calls that are pending, under their names. */
  ghost predicate Answers(b: Build, m: Message) {
    m.Tool? ==> ResultIds(m.results) <= multiset(b.pending) && Named(b.names, m.results)
  }

  ghost predicate AllAnswer(b: Build, messages: seq<Message>) {
    messages != [] ==>
      && AllAnswer(b, messages[..|messages| - 1])
      && Answers(StepMessages(b, messages[..|messages| - 1]), messages[|messages| - 1])
  }

  ghost predicate LogAnswers(b: Build, events: seq<EventData>) {
    events != [] ==>
      && LogAnswers(b, events[..|events| - 1])
      && (events[|events| - 1].Messages? ==> AllAnswer(Fold(b, events[..|events| - 1]), events[|events| - 1].messages))
  }

  /** What the loop keeps: open calls are exactly the pending ones, and the name table is the history's. */
  ghost predicate Balanced(b: Build) {
    && Calls(b.history) == Results(b.history) + multiset(b.pending)
    && b.names == LastNames(b.history)
    && (forall id :: id in b.pending ==> id in b.names)
    && Sound(b.history)
  }

  // ----- Small steps -----

  lemma {:induction false} Snoc(history: seq<Message>, m: Message)
    ensures Calls(history + [m]) == Calls(history) + (if m.Assistant? then PartIds(m.parts) else multiset{})
    ensures Results(history + [m]) == Results(history) + (if m.Tool? then ResultIds(m.results) else multiset{})
    ensures LastNames(history + [m]) ==
      if m.Assistant? then PartNames(LastNames(history), m.parts) else LastNames(history)
  {
    assert (history + [m])[..|history|] == history;
  }

  /** Soundness is a property of prefixes. */
  lemma {:induction false} SoundPrefix(history: seq<Message>, more: seq<Message>)
    requires Sound(history + more)
    ensures Sound(history)
  {
    forall k | 0 <= k < |history|
      ensures SoundAt(history, k)
    {
      assert SoundAt(history + more, k);
      assert (history + more)[..k + 1] == history[..k + 1];
      assert (history + more)[..k] == history[..k];
    }
  }

  lemma {:induction false} SoundAtEarlier(history: seq<Message>, m: Message, k: nat)
    requires k < |history|
    ensures SoundAt(history + [m], k) <==> SoundAt(history, k)
  {
    var h := history + [m];
    assert h[..k + 1] == history[..k + 1] && h[..k] == history[..k];
  }

  lemma {:induction false} SoundAtEnd(history: seq<Message>, m: Message)
    ensures SoundAt(history + [m], |history|) <==>
            && Results(history + [m]) <= Calls(history + [m])
            && (m.Tool? ==> Named(LastNames(history), m.results))
  {
    var h := history + [m];
    assert h[..|history| + 1] == h && h[..|history|] == history;
  }

  lemma {:induction false} SoundSnoc(history: seq<Message>, m: Message)
    requires Sound(history)
    ensures Sound(history + [m]) <==>
            && Results(history + [m]) <= Calls(history + [m])
            && (m.Tool? ==> Named(LastNames(history), m.results))
  {
    SoundAtEnd(history, m);
    forall k | 0 <= k < |history|
      ensures SoundAt(history + [m], k)
    {
      SoundAtEarlier(history, m, k);
    }
  }

  lemma {:induction false} RemoveFirstBag(pending: seq<CallId>, id: CallId)
    ensures multiset(RemoveFirst(pending, id)) == multiset(pending) - multiset{id}
  {
    if pending != [] {
      var head, rest := pending[0], pending[1..];
      assert pending == [head] + rest;
      assert multiset(pending) == multiset{head} + multiset(rest);
      if head != id {
        RemoveFirstBag(rest, id);
        assert multiset([head] + RemoveFirst(rest, id)) == multiset{head} + multiset(RemoveFirst(rest, id));
      }
    }
  }

  lemma {:induction false} RemoveResultsBag(pending: seq<CallId>, results: seq<ResultPart>)
    ensures multiset(RemoveResults(pending, results)) == multiset(pending) - ResultIds(results)
  {
    if results != [] {
      RemoveResultsBag(pending, results[..|results| - 1]);
      RemoveFirstBag(RemoveResults(pending, results[..|results| - 1]), results[|results| - 1].id);
    }
  }

  lemma {:induction false} AddCallsEffect(b: Build, parts: seq<AssistantPart>)
    requires forall id :: id in b.pending ==> id in b.names
    ensures var b' := AddCalls(b, parts);
      && b'.history == b.history
      && multiset(b'.pending) == multiset(b.pending) + PartIds(parts)
      && b'.names == PartNames(b.names, parts)
      && forall id :: id in b'.pending ==> id in b'.names
  {
    if parts != [] {
      AddCallsEffect(b, parts[..|parts| - 1]);
    }
  }

  lemma {:induction false} CancelledSnoc(names: map<CallId, Name>, pending: seq<CallId>, id: CallId)
    requires id in names
    ensures Cancelled(names, pending + [id]) ==
      Cancelled(names, pending) + [Tool([ResultPart(id, names[id], CANCELLED)])]
  {
    assert (pending + [id])[..|pending|] == pending;
  }

  lemma {:induction false} Regroup(results: multiset<CallId>, init: seq<CallId>, id: CallId, rest: multiset<CallId>)
    ensures results + multiset(init + [id]) + rest == results + multiset(init) + (rest + multiset{id})
  {
    assert multiset(init + [id]) == multiset(init) + multiset{id};
  }

  lemma {:induction false} CancelledEffect(history: seq<Message>, names: map<CallId, Name>, pending: seq<CallId>,
      rest: multiset<CallId>)
    requires Sound(history) && names == LastNames(history)
    requires Calls(history) == Results(history) + multiset(pending) + rest
    requires forall id :: id in pending ==> id in names
    ensures var h := history + Cancelled(names, pending);
      && Sound(h) && LastNames(h) == names && Calls(h) == Results(h) + rest
  {
    if pending == [] {
      assert history + Cancelled(names, pending) == history;
    } else {
      var init, id := pending[..|pending| - 1], pending[|pending| - 1];
      assert pending == init + [id];
      Regroup(Results(history), init, id, rest);
      CancelledEffect(history, names, init, rest + multiset{id});
      CancelledSnoc(names, init, id);
      var h, r := history + Cancelled(names, init), ResultPart(id, names[id], CANCELLED);
      OneResult(h, r, rest);
      assert history + Cancelled(names, pending) == h + [Tool([r])];
    }
  }

  /** Answering one open call. */
  lemma {:induction false} OneResult(h: seq<Message>, r: ResultPart, rest: multiset<CallId>)
    requires Sound(h) && Calls(h) == Results(h) + (rest + multiset{r.id})
    requires Named(LastNames(h), [r])
    ensures var h' := h + [Tool([r])];
      && Sound(h') && LastNames(h') == LastNames(h) && Calls(h') == Results(h') + rest
  {
    assert [r][..0] == [];
    assert ResultIds([r]) == multiset{r.id};
    Snoc(h, Tool([r]));
    SoundSnoc(h, Tool([r]));
  }

  lemma {:induction false} FlushBalanced(b: Build)
    requires Balanced(b)
    ensures Balanced(Flush(b)) && Flush(b).names == b.names
  {
    CancelledEffect(b.history, b.names, b.pending, multiset{});
  }

  // ----- The loop -----

  lemma {:induction false} ToolMessageStep(b: Build, results: seq<ResultPart>)
    requires Balanced(b)
    ensures Answers(b, Tool(results)) ==> Balanced(StepMessage(b, Tool(results)))
    ensures !Answers(b, Tool(results)) ==> !Sound(StepMessage(b, Tool(results)).history)
  {
    var m := Tool(results);
    var pending := RemoveResults(b.pending, results);
    RemoveResultsBag(b.pending, results);
    Snoc(b.history, m);
    SoundSnoc(b.history, m);
    assert StepMessage(b, m) == Build(b.history + [m], b.names, pending);
    if Answers(b, m) {
      forall id | id in pending
        ensures id in b.names
      {
        assert id in multiset(pending);
        assert id in multiset(b.pending);
      }
    } else if Named(b.names, results) {
      var id :| ResultIds(results)[id] > multiset(b.pending)[id];
      assert Results(b.history + [m])[id] > Calls(b.history + [m])[id];
    }
  }

  lemma {:induction false} OtherMessageStep(b: Build, m: Message)
    requires Balanced(b) && !m.Tool?
    ensures Balanced(StepMessage(b, m))
  {
    FlushBalanced(b);
    var b1 := Flush(b);
    Snoc(b1.history, m);
    SoundSnoc(b1.history, m);
    if m.Assistant? {
      AddCallsEffect(b1, m.parts);
    }
  }

  /** One message keeps the balance exactly when it answers only pending calls. */
  lemma {:induction false} MessageStep(b: Build, m: Message)
    requires Balanced(b)
    ensures Answers(b, m) ==> Balanced(StepMessage(b, m))
    ensures !Answers(b, m) ==> !Sound(StepMessage(b, m).history)
  {
    if m.Tool? {
      ToolMessageStep(b, m.results);
    } else {
      OtherMessageStep(b, m);
    }
  }

  lemma {:induction false} MessagesStep(b: Build, messages: seq<Message>)
    requires Balanced(b)
    ensures AllAnswer(b, messages) ==> Balanced(StepMessages(b, messages))
    ensures !AllAnswer(b, messages) ==> !Sound(StepMessages(b, messages).history)
  {
    if messages != [] {
      var init, m := messages[..|messages| - 1], messages[|messages| - 1];
      MessagesStep(b, init);
      var b1 := StepMessages(b, init);
      StepMessageGrows(b1, m);
      if AllAnswer(b, init) {
        MessageStep(b1, m);
      } else {
        Grown(b1.history, StepMessage(b1, m).history);
      }
    }
  }

  lemma {:induction false} StepMessageGrows(b: Build, m: Message)
    ensures b.history <= StepMessage(b, m).history
  {
    if m.Assistant? {
      AddCallsKeepsHistory(Flush(b), m.parts);
    }
  }

  lemma {:induction false} AddCallsKeepsHistory(b: Build, parts: seq<AssistantPart>)
    ensures AddCalls(b, parts).history == b.history
  {
    if parts != [] {
      AddCallsKeepsHistory(b, parts[..|parts| - 1]);
    }
  }

  lemma {:induction false} MessagesGrow(b: Build, messages: seq<Message>)
    ensures b.history <= StepMessages(b, messages).history
  {
    if messages != [] {
      MessagesGrow(b, messages[..|messages| - 1]);
      StepMessageGrows(StepMessages(b, messages[..|messages| - 1]), messages[|messages| - 1]);
    }
  }

  lemma {:induction false} Grown(h: seq<Message>, h': seq<Message>)
    requires h <= h' && !Sound(h)
    ensures !Sound(h')
  {
    if Sound(h') {
      assert h' == h + h'[|h|..];
      SoundPrefix(h, h'[|h|..]);
    }
  }

  /** Making one call. */
  lemma {:induction false} OneCall(history: seq<Message>, call: Call)
    requires Sound(history) && Results(history) <= Calls(history)
    ensures var h := history + [CallMessage(call)];
      && Sound(h) && Results(h) == Results(history) && Calls(h) == Calls(history) + multiset{call.id}
      && LastNames(h) == LastNames(history)[call.id := call.request.functionName]
  {
    var m := CallMessage(call);
    assert m.parts[..0] == [];
    Snoc(history, m);
    SoundSnoc(history, m);
  }

  lemma {:induction false} RequestStep(b: Build, call: Call)
    requires Balanced(b)
    ensures Balanced(StepEvent(b, ToolRequested(call)))
  {
    OneCall(b.history, call);
    assert multiset(b.pending + [call.id]) == multiset(b.pending) + multiset{call.id};
  }

  lemma {:induction false} ResultStep(b: Build, id: CallId, result: Value)
    requires Balanced(b)
    ensures Balanced(StepEvent(b, ToolResult(id, result)))
  {
    if id in b.pending {
      var pending := RemoveFirst(b.pending, id);
      RemoveFirstBag(b.pending, id);
      assert id in multiset(b.pending);
      assert multiset(b.pending) == multiset{id} + multiset(pending);
      forall x | x in pending
        ensures x in b.names
      {
        assert x in multiset(pending);
        assert x in multiset(b.pending);
      }
      OneResult(b.history, ResultPart(id, b.names[id], result), multiset(pending));
    }
  }

  lemma {:induction false} EventStep(b: Build, e: EventData)
    requires Balanced(b)
    ensures (e.Messages? ==> AllAnswer(b, e.messages)) ==> Balanced(StepEvent(b, e))
    ensures e.Messages? && !AllAnswer(b, e.messages) ==> !Sound(StepEvent(b, e).history)
  {
    match e {
      case Messages(messages) => MessagesStep(b, messages);
      case ToolRequested(call) => RequestStep(b, call);
      case ToolResult(id, result) => ResultStep(b, id, result);
      case _ =>
    }
  }

  lemma {:induction false} LogStep(events: seq<EventData>)
    ensures LogAnswers(EMPTY, events) ==> Balanced(Fold(EMPTY, events))
    ensures !LogAnswers(EMPTY, events) ==> !Sound(Fold(EMPTY, events).history)
  {
    if events != [] {
      var init, e := events[..|events| - 1], events[|events| - 1];
      LogStep(init);
      var b := Fold(EMPTY, init);
      if LogAnswers(EMPTY, init) {
        EventStep(b, e);
      } else {
        if e.Messages? {
          MessagesGrow(b, e.messages);
        }
        Grown(b.history, StepEvent(b, e).history);
      }
    }
  }

  /**
   Conservation of calls and results, for every log: the prompt never gives a result before its call
   or under another name exactly when the tool messages stored in the log answer pending calls; and
   then every call of the prompt has been answered exactly once.
   */
  lemma {:induction false} CallsAndResultsBalance(events: seq<EventData>)
    ensures Sound(Recompute(events)) <==> LogAnswers(EMPTY, events)
    ensures Sound(Recompute(events)) ==> Calls(Recompute(events)) == Results(Recompute(events))
  {
    LogStep(events);
    var b := Fold(EMPTY, events);
    if LogAnswers(EMPTY, events) {
      FlushBalanced(b);
    } else {
      Grown(b.history, Flush(b).history);
    }
  }

  /** Without stored tool messages, as for logs written by this executor alone, nothing needs checking. */
  lemma {:induction false} OwnLogsBalance(events: seq<EventData>)
    requires forall i, m :: 0 <= i < |events| && events[i].Messages? && m in events[i].messages ==> !m.Tool?
    ensures LogAnswers(EMPTY, events)
  {
    if events != [] {
      var init, e := events[..|events| - 1], events[|events| - 1];
      OwnLogsBalance(init);
      if e.Messages? {
        NoToolMessages(Fold(EMPTY, init), e.messages);
      }
    }
  }

  lemma {:induction false} NoToolMessages(b: Build, messages: seq<Message>)
    requires forall m :: m in messages ==> !m.Tool?
    ensures AllAnswer(b, messages)
  {
    if messages != [] {
      NoToolMessages(b, messages[..|messages| - 1]);
    }
  }
}
