/**
 The grammar of a turn's log: which event may follow which. `Digest` sums up a log; `Legal` says
 which events may come next. Everything the replays rely on is a consequence of this grammar, and
 the turn engine is shown to write only such logs.
 */
module TurnProtocol {
  import opened Wrappers
  import opened Events

  datatype Digest = Digest(
    round: Option<nat>,                 // the last round marker
    pending: seq<Call>,                 // calls without a result, oldest first
    calls: set<CallId>,                 // every call requested so far
    approvals: map<CallId, Approval>,   // the approval asked for a call
    asked: map<ApprovalId, CallId>,     // the call an approval was asked for
    answers: map<ApprovalId, bool>,     // answered approvals, true when approved
    completed: nat,                     // completion markers
    failed: nat,                        // error events
    ended: nat)                         // turn-ended events
  {
    predicate Open() { completed == 0 && failed == 0 && ended == 0 }

    function NextRound(): nat { if round.Some? then round.value + 1 else 0 }

    /** The oldest unresolved call waits for an answer to its own approval. */
    predicate HeadAwaitsAnswer() {
      && pending != []
      && pending[0].id in approvals
      && approvals[pending[0].id].id !in answers
    }
  }

  const START := Digest(None, [], {}, map[], map[], map[], 0, 0, 0)

  function Ids(calls: seq<Call>): set<CallId> {
    set c | c in calls :: c.id
  }

  ghost predicate DistinctIds(calls: seq<Call>) {
    forall i, j :: 0 <= i < j < |calls| ==> calls[i].id != calls[j].id
  }

  /** Drop the first call with this id. */
  function Without(calls: seq<Call>, id: CallId): seq<Call> {
    if calls == [] then []
    else if calls[0].id == id then calls[1..]
    else [calls[0]] + Without(calls[1..], id)
  }

  function Apply(d: Digest, e: EventData): Digest {
    match e
    case RoundMarker(round) => d.(round := Some(round))
    case ToolRequested(call) => d.(pending := d.pending + [call], calls := d.calls + {call.id})
    case ToolResult(id, _) => d.(pending := Without(d.pending, id))
    case ApprovalRequested(a) =>
      if a.call.None? then d
      else d.(approvals := d.approvals[a.call.value := a], asked := d.asked[a.id := a.call.value])
    case ApprovalResponded(r) => d.(answers := d.answers[r.approval := r.approved])
    case TurnCompleted => d.(completed := d.completed + 1)
    case Error => d.(failed := d.failed + 1)
    case TurnEnded => d.(ended := d.ended + 1)
    case _ => d
  }

  /** The event may be appended to a log with this digest, under this limit on tool rounds. */
  predicate Legal(limit: Option<nat>, d: Digest, e: EventData) {
    match e
    case RoundMarker(round) =>
      d.Open() && d.pending == [] && round == d.NextRound() && (limit.Some? ==> round <= limit.value)
    case ToolRequested(call) => d.Open() && d.round.Some? && call.id !in d.calls
    case ToolResult(id, _) => d.Open() && d.pending != [] && d.pending[0].id == id
    case ApprovalRequested(a) =>
      && d.Open() && d.pending != []
      && a.call == Some(d.pending[0].id) && a.round == d.round && a.request == d.pending[0].request
      && d.pending[0].id !in d.approvals && a.id !in d.asked
    case ApprovalResponded(r) => r.approval in d.asked && r.approval !in d.answers
    case TurnCompleted => d.Open() && d.pending == []
    case Error => d.ended == 0
    case TurnEnded => d.ended == 0 && (d.completed > 0 || d.failed > 0)
    case Messages(_) => d.Open()
    case TurnStarted => d.Open()
    case OtherData => true
  }

  function Fold(d: Digest, events: seq<EventData>): Digest {
    if events == [] then d else Apply(Fold(d, events[..|events| - 1]), events[|events| - 1])
  }

  ghost predicate LegalFrom(limit: Option<nat>, d: Digest, events: seq<EventData>) {
    events != [] ==>
      && LegalFrom(limit, d, events[..|events| - 1])
      && Legal(limit, Fold(d, events[..|events| - 1]), events[|events| - 1])
  }

  function DigestOf(log: seq<EventData>): Digest { Fold(START, log) }

  ghost predicate WellFormed(limit: Option<nat>, log: seq<EventData>) { LegalFrom(limit, START, log) }

  lemma {:induction false} Concat(limit: Option<nat>, d: Digest, x: seq<EventData>, y: seq<EventData>)
    ensures Fold(d, x + y) == Fold(Fold(d, x), y)
    ensures LegalFrom(limit, d, x + y) <==> LegalFrom(limit, d, x) && LegalFrom(limit, Fold(d, x), y)
  {
    if y == [] {
      assert x + y == x;
    } else {
      assert (x + y)[..|x + y| - 1] == x + y[..|y| - 1];
      Concat(limit, d, x, y[..|y| - 1]);
    }
  }

  lemma {:induction false} Snoc(limit: Option<nat>, d: Digest, log: seq<EventData>, e: EventData)
    ensures Fold(d, log + [e]) == Apply(Fold(d, log), e)
    ensures LegalFrom(limit, d, log + [e]) <==> LegalFrom(limit, d, log) && Legal(limit, Fold(d, log), e)
  {
    assert (log + [e])[..|log|] == log;
  }

  lemma {:induction false} Single(limit: Option<nat>, d: Digest, e: EventData)
    ensures Fold(d, [e]) == Apply(d, e)
    ensures LegalFrom(limit, d, [e]) <==> Legal(limit, d, e)
  {
    Snoc(limit, d, [], e);
    assert [] + [e] == [e];
  }

  ghost predicate PendingConsistent(d: Digest) {
    && DistinctIds(d.pending)
    && (forall i :: 0 <= i < |d.pending| ==> d.pending[i].id in d.calls)
    && (d.pending != [] ==> d.round.Some?)
  }

  /** Approvals, the calls they were asked for and their answers refer to each other one to one. */
  ghost predicate ApprovalsConsistent(d: Digest) {
    && (forall c :: c in d.approvals ==>
          && c in d.calls && d.approvals[c].call == Some(c)
          && d.approvals[c].id in d.asked && d.asked[d.approvals[c].id] == c)
    && (forall a :: a in d.asked ==> d.asked[a] in d.approvals && d.approvals[d.asked[a]].id == a)
    && (forall a :: a in d.answers ==> a in d.asked)
  }

  /** Only the oldest unresolved call can have an approval, and it is the one for this very request. */
  ghost predicate HeadConsistent(d: Digest) {
    && (forall i :: 1 <= i < |d.pending| ==> d.pending[i].id !in d.approvals)
    && (d.pending != [] && d.pending[0].id in d.approvals ==>
          && d.approvals[d.pending[0].id].round == d.round
          && d.approvals[d.pending[0].id].request == d.pending[0].request)
  }

  /** What every legal log keeps. */
  ghost predicate Consistent(d: Digest) {
    && PendingConsistent(d) && ApprovalsConsistent(d) && HeadConsistent(d)
    && d.ended <= 1 && d.completed <= 1
    && (d.ended > 0 ==> d.completed > 0 || d.failed > 0)
  }

  lemma {:induction false} HeadResult(calls: seq<Call>)
    requires calls != [] && DistinctIds(calls)
    ensures Without(calls, calls[0].id) == calls[1..]
    ensures Ids(calls[1..]) == Ids(calls) - {calls[0].id}
  {
    forall c | c in calls[1..]
      ensures c.id != calls[0].id
    {
      var i :| 0 <= i < |calls[1..]| && calls[1..][i] == c;
      assert calls[i + 1] == c;
    }
    assert calls == [calls[0]] + calls[1..];
  }

  lemma {:induction false} RequestConsistent(limit: Option<nat>, d: Digest, call: Call)
    requires Consistent(d) && Legal(limit, d, ToolRequested(call))
    ensures Consistent(Apply(d, ToolRequested(call)))
  {
    var d' := Apply(d, ToolRequested(call));
    assert forall i :: 0 <= i < |d.pending| ==> d'.pending[i] == d.pending[i];
    assert PendingConsistent(d');
  }

  lemma {:induction false} ResultConsistent(limit: Option<nat>, d: Digest, id: CallId, result: Value)
    requires Consistent(d) && Legal(limit, d, ToolResult(id, result))
    ensures Consistent(Apply(d, ToolResult(id, result)))
  {
    HeadResult(d.pending);
    var d' := Apply(d, ToolResult(id, result));
    assert forall i :: 0 <= i < |d'.pending| ==> d'.pending[i] == d.pending[i + 1];
    assert PendingConsistent(d');
  }

  lemma {:induction false} AskConsistent(limit: Option<nat>, d: Digest, a: Approval)
    requires Consistent(d) && Legal(limit, d, ApprovalRequested(a))
    ensures Consistent(Apply(d, ApprovalRequested(a)))
  {
    var d' := Apply(d, ApprovalRequested(a));
    assert ApprovalsConsistent(d');
    assert HeadConsistent(d');
  }

  lemma {:induction false} ConsistentStep(limit: Option<nat>, d: Digest, e: EventData)
    requires Consistent(d) && Legal(limit, d, e)
    ensures Consistent(Apply(d, e))
  {
    match e {
      case ToolRequested(call) => RequestConsistent(limit, d, call);
      case ToolResult(id, result) => ResultConsistent(limit, d, id, result);
      case ApprovalRequested(a) => AskConsistent(limit, d, a);
      case _ =>
    }
  }

  lemma {:induction false} WellFormedConsistent(limit: Option<nat>, log: seq<EventData>)
    requires WellFormed(limit, log)
    ensures Consistent(DigestOf(log))
  {
    if log != [] {
      WellFormedConsistent(limit, log[..|log| - 1]);
      ConsistentStep(limit, DigestOf(log[..|log| - 1]), log[|log| - 1]);
    }
  }

  // ----- Batches -----

  function Requests(calls: seq<Call>): seq<EventData> {
    seq(|calls|, i requires 0 <= i < |calls| => ToolRequested(calls[i]))
  }

  lemma {:induction false} IdsSnoc(calls: seq<Call>)
    requires calls != [] && DistinctIds(calls)
    ensures var init, last := calls[..|calls| - 1], calls[|calls| - 1];
      DistinctIds(init) && last.id !in Ids(init) && Ids(calls) == Ids(init) + {last.id}
  {
    assert calls == calls[..|calls| - 1] + [calls[|calls| - 1]];
  }

  /** Appending the requests of a round makes exactly those calls pending. */
  lemma {:induction false} RequestsLegal(limit: Option<nat>, d: Digest, calls: seq<Call>)
    requires d.Open() && d.round.Some?
    requires DistinctIds(calls) && Ids(calls) !! d.calls
    ensures LegalFrom(limit, d, Requests(calls))
    ensures Fold(d, Requests(calls)) == d.(pending := d.pending + calls, calls := d.calls + Ids(calls))
  {
    if calls == [] {
      assert d.pending + [] == d.pending && d.calls + {} == d.calls;
    } else {
      var init, last := calls[..|calls| - 1], calls[|calls| - 1];
      IdsSnoc(calls);
      RequestsLegal(limit, d, init);
      var mid := d.(pending := d.pending + init, calls := d.calls + Ids(init));
      assert Requests(calls) == Requests(init) + [ToolRequested(last)];
      Snoc(limit, d, Requests(init), ToolRequested(last));
      assert mid.pending + [last] == d.pending + calls;
      assert mid.calls + {last.id} == d.calls + Ids(calls);
    }
  }

  // ----- Round discipline -----

  /** The numbers on the round markers, in log order. */
  function Markers(log: seq<EventData>): seq<nat> {
    if log == [] then []
    else
      Markers(log[..|log| - 1])
      + match log[|log| - 1] case RoundMarker(round) => [round] case _ => []
  }

  /** Markers count 0, 1, 2, ... without gaps, stay within the limit, and follow a resolved round. */
  lemma {:induction false} RoundDiscipline(limit: Option<nat>, log: seq<EventData>)
    requires WellFormed(limit, log)
    ensures forall i :: 0 <= i < |Markers(log)| ==> Markers(log)[i] == i
    ensures limit.Some? ==> |Markers(log)| <= limit.value + 1
    ensures DigestOf(log).NextRound() == |Markers(log)|
    ensures forall i :: 0 <= i < |log| && log[i].RoundMarker? ==> DigestOf(log[..i]).pending == []
  {
    if log != [] {
      var init := log[..|log| - 1];
      RoundDiscipline(limit, init);
      assert Legal(limit, DigestOf(init), log[|log| - 1]);
      if log[|log| - 1].RoundMarker? {
        assert Markers(log) == Markers(init) + [|Markers(init)|];
      } else {
        assert Markers(log) == Markers(init);
      }
      forall i | 0 <= i < |log| && log[i].RoundMarker?
        ensures DigestOf(log[..i]).pending == []
      {
        if i < |log| - 1 {
          assert init[i] == log[i] && init[..i] == log[..i];
        }
      }
    }
  }
}
