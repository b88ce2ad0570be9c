/**
 What recovery makes of a log, read off the log by positions: what the executor's replay calls corrupt,
 for every log, and what both replays resume and refuse, for every log a turn can leave behind.
 */
module ResumeVerdict {
  import opened Wrappers
  import opened Events
  import opened TurnProtocol
  import opened Permissions
  import opened Recovery
  import opened TurnEngine
  import opened TurnInvariant
  import opened TurnSteps
  import opened TurnSafety

  // ----- Corrupt logs -----

  /** How many requests of an id are waiting for a result; a result without a request counts for nothing. */
  function Outstanding(events: seq<EventData>, id: CallId): nat {
    if events == [] then 0
    else
      var earlier := Outstanding(events[..|events| - 1], id);
      match events[|events| - 1]
      case ToolRequested(call) => if call.id == id then earlier + 1 else earlier
      case ToolResult(other, _) => if other == id && earlier > 0 then earlier - 1 else earlier
      case _ => earlier
  }

  function CountId(calls: seq<Call>, id: CallId): nat {
    if calls == [] then 0 else CountId(calls[..|calls| - 1], id) + if calls[|calls| - 1].id == id then 1 else 0
  }

  lemma {:induction false} CountConcat(x: seq<Call>, y: seq<Call>, id: CallId)
    ensures CountId(x + y, id) == CountId(x, id) + CountId(y, id)
  {
    if y == [] {
      assert x + y == x;
    } else {
      assert (x + y)[..|x + y| - 1] == x + y[..|y| - 1];
      CountConcat(x, y[..|y| - 1], id);
    }
  }

  lemma {:induction false} CountOne(c: Call, id: CallId)
    ensures CountId([c], id) == if c.id == id then 1 else 0
  {
    assert [c][..0] == [];
  }

  lemma {:induction false} CountWithout(calls: seq<Call>, gone: CallId, id: CallId)
    ensures CountId(Without(calls, gone), id) ==
      CountId(calls, id) - if gone == id && CountId(calls, id) > 0 then 1 else 0
  {
    if calls != [] {
      assert calls == [calls[0]] + calls[1..];
      CountConcat([calls[0]], calls[1..], id);
      CountOne(calls[0], id);
      if calls[0].id != gone {
        CountWithout(calls[1..], gone, id);
        CountConcat([calls[0]], Without(calls[1..], gone), id);
      }
    }
  }

  lemma {:induction false} SomethingCounted(calls: seq<Call>)
    ensures calls != [] <==> exists id :: CountId(calls, id) > 0
  {
    if calls != [] {
      assert CountId(calls, calls[|calls| - 1].id) > 0;
    }
  }

  /** A round begins while a call has no result, or a call is requested before any round. */
  ghost predicate Breaks(events: seq<EventData>, i: nat) {
    && i < |events|
    && (|| (events[i].RoundMarker? && exists id :: Outstanding(events[..i], id) > 0)
        || (events[i].ToolRequested? && forall j :: 0 <= j < i ==> !events[j].RoundMarker?))
  }

  ghost predicate AnyMarker(events: seq<EventData>) { exists j :: 0 <= j < |events| && events[j].RoundMarker? }

  /** Unless broken, the replay has seen no break, and holds the outstanding calls. */
  ghost predicate Replayed(events: seq<EventData>, s: Scan) {
    && (s.Broken? <==> exists i: nat :: Breaks(events, i))
    && (s.Scan? ==>
          (s.round.Some? <==> AnyMarker(events)) && forall id :: CountId(s.pending, id) == Outstanding(events, id))
  }

  lemma {:induction false} BreaksSnoc(events: seq<EventData>, e: EventData)
    ensures (exists i: nat :: Breaks(events + [e], i)) <==>
      (exists i: nat :: Breaks(events, i)) || Breaks(events + [e], |events|)
    ensures AnyMarker(events + [e]) <==> AnyMarker(events) || e.RoundMarker?
  {
    var all := events + [e];
    forall i: nat | i < |events| ensures Breaks(all, i) <==> Breaks(events, i) {
      assert all[..i] == events[..i] && forall j :: 0 <= j <= i ==> all[j] == events[j];
    }
    if AnyMarker(events) {
      var j :| 0 <= j < |events| && events[j].RoundMarker?;
      assert all[j].RoundMarker?;
    }
    assert all[|events|] == e;
  }

  lemma {:induction false} ReplayedStep(events: seq<EventData>, e: EventData)
    requires Replayed(events, ScanLog(events))
    ensures Replayed(events + [e], ScanStep(ScanLog(events), e))
  {
    var all, s := events + [e], ScanLog(events);
    assert all[..|events|] == events;
    BreaksSnoc(events, e);
    if s.Scan? {
      SomethingCounted(s.pending);
      match e {
        case ToolRequested(call) =>
          forall id ensures CountId(s.pending + [call], id) == Outstanding(all, id) {
            CountConcat(s.pending, [call], id);
            CountOne(call, id);
          }
        case ToolResult(gone, _) =>
          forall id ensures CountId(Without(s.pending, gone), id) == Outstanding(all, id) {
            CountWithout(s.pending, gone, id);
          }
        case _ =>
      }
    }
  }

  lemma {:induction false} ReplayedLog(events: seq<EventData>)
    ensures Replayed(events, ScanLog(events))
  {
    if events != [] {
      ReplayedLog(events[..|events| - 1]);
      ReplayedStep(events[..|events| - 1], events[|events| - 1]);
      assert events == events[..|events| - 1] + [events[|events| - 1]];
    }
  }

  /**
   For every log, the executor's recovery reports corruption exactly when some round begins with a call
   unresolved or some call is requested outside a round.
   */
  lemma {:induction false} CorruptExactly(events: seq<EventData>)
    ensures LoadProgress(events) == Failure(CorruptLog) <==> exists i: nat :: Breaks(events, i)
  {
    ReplayedLog(events);
  }

  // ----- Unresolved calls -----

  /** The calls without a result, in the order of their requests, with the positions of these. */
  ghost predicate UnresolvedAt(log: seq<EventData>, calls: seq<Call>, at: seq<nat>) {
    && |at| == |calls|
    && (forall i :: 0 <= i < |at| ==>
          at[i] < |log| && log[at[i]] == ToolRequested(calls[i]) && !ResolvedAfter(log, at[i]))
    && (forall i, j :: 0 <= i < j < |at| ==> at[i] < at[j])
    && forall k :: 0 <= k < |log| && log[k].ToolRequested? && !ResolvedAfter(log, k) ==> k in at
  }

  lemma {:induction false} ResolvedSnoc(log: seq<EventData>, e: EventData, k: nat)
    requires k < |log| && log[k].ToolRequested?
    ensures ResolvedAfter(log + [e], k) <==> ResolvedAfter(log, k) || (e.ToolResult? && e.id == log[k].call.id)
  {
    var all := log + [e];
    if ResolvedAfter(log, k) {
      var j :| k < j < |log| && log[j].ToolResult? && log[j].id == log[k].call.id;
      assert all[j] == log[j];
    }
    assert all[|log|] == e;
  }

  lemma {:induction false} UnresolvedPositions(limit: Option<nat>, log: seq<EventData>) returns (at: seq<nat>)
    requires WellFormed(limit, log)
    ensures UnresolvedAt(log, DigestOf(log).pending, at)
  {
    if log == [] {
      at := [];
    } else {
      var init, e := log[..|log| - 1], log[|log| - 1];
      var before := UnresolvedPositions(limit, init);
      assert log == init + [e];
      at := PositionsStep(limit, init, e, before);
    }
  }

  lemma {:induction false} PositionsStep(limit: Option<nat>, log: seq<EventData>, e: EventData, before: seq<nat>)
    returns (at: seq<nat>)
    requires WellFormed(limit, log) && Legal(limit, DigestOf(log), e)
    requires UnresolvedAt(log, DigestOf(log).pending, before)
    ensures UnresolvedAt(log + [e], DigestOf(log + [e]).pending, at)
  {
    var pending := DigestOf(log).pending;
    WellFormedConsistent(limit, log);
    Snoc(limit, START, log, e);
    match e {
      case ToolRequested(call) =>
        at := before + [|log|];
        RequestPositions(log, call, pending, before);
      case ToolResult(id, result) =>
        at := before[1..];
        HeadResult(pending);
        ResultPositions(log, id, result, pending, before);
      case _ =>
        at := before;
        OtherPositions(log, e, pending, before);
    }
  }

  lemma {:induction false} OtherPositions(log: seq<EventData>, e: EventData, pending: seq<Call>, before: seq<nat>)
    requires UnresolvedAt(log, pending, before) && !e.ToolRequested? && !e.ToolResult?
    ensures UnresolvedAt(log + [e], pending, before)
  {
    var all := log + [e];
    assert forall k :: 0 <= k < |log| ==> all[k] == log[k];
    forall k | 0 <= k < |log| && log[k].ToolRequested? ensures ResolvedAfter(all, k) <==> ResolvedAfter(log, k) {
      ResolvedSnoc(log, e, k);
    }
  }

  lemma {:induction false} RequestPositions(log: seq<EventData>, call: Call, pending: seq<Call>, before: seq<nat>)
    requires UnresolvedAt(log, pending, before)
    ensures UnresolvedAt(log + [ToolRequested(call)], pending + [call], before + [|log|])
  {
    var all := log + [ToolRequested(call)];
    assert all[|log|] == ToolRequested(call) && !ResolvedAfter(all, |log|);
    assert forall k :: 0 <= k < |log| ==> all[k] == log[k];
    forall k | 0 <= k < |log| && log[k].ToolRequested? ensures ResolvedAfter(all, k) <==> ResolvedAfter(log, k) {
      ResolvedSnoc(log, ToolRequested(call), k);
    }
  }

  lemma {:induction false} ResultPositions(log: seq<EventData>, id: CallId, result: Value, pending: seq<Call>,
      before: seq<nat>)
    requires UnresolvedAt(log, pending, before) && DistinctIds(pending) && pending != [] && pending[0].id == id
    ensures UnresolvedAt(log + [ToolResult(id, result)], pending[1..], before[1..])
  {
    var all := log + [ToolResult(id, result)];
    assert forall k :: 0 <= k < |log| ==> all[k] == log[k];
    forall k | 0 <= k < |log| && log[k].ToolRequested?
      ensures ResolvedAfter(all, k) <==> ResolvedAfter(log, k) || log[k].call.id == id
    {
      ResolvedSnoc(log, ToolResult(id, result), k);
    }
    forall k | 0 <= k < |all| && all[k].ToolRequested? && !ResolvedAfter(all, k) ensures k in before[1..] {
      assert k in before && k != before[0];
    }
  }

  // ----- The verdict -----

  /** An approval was asked for this very call in this round and has no answer. */
  ghost predicate AwaitsAnswer(log: seq<EventData>, round: int, call: Call) {
    exists i :: 0 <= i < |log| && log[i].ApprovalRequested? && Unanswered(log, log[i].approval.id)
                && log[i].approval.call == Some(call.id) && log[i].approval.request == call.request
                && log[i].approval.round.Some? && log[i].approval.round.value == round
  }

  lemma {:induction false} HeadAwaits(limit: Option<nat>, log: seq<EventData>)
    requires WellFormed(limit, log) && DigestOf(log).pending != []
    ensures DigestOf(log).round == Some(|Markers(log)| - 1)
    ensures DigestOf(log).HeadAwaitsAnswer() <==> AwaitsAnswer(log, |Markers(log)| - 1, DigestOf(log).pending[0])
  {
    var d := DigestOf(log);
    WellFormedConsistent(limit, log);
    RoundDiscipline(limit, log);
    if d.HeadAwaitsAnswer() {
      var a := d.approvals[d.pending[0].id];
      var i := AskedInLog(limit, log, d.pending[0].id);
      assert Unanswered(log, a.id) by {
        forall j | 0 <= j < |log| && log[j].ApprovalResponded? ensures log[j].response.approval != a.id {
          AnsweredWasAsked(limit, log, j);
        }
      }
    }
    if AwaitsAnswer(log, |Markers(log)| - 1, d.pending[0]) {
      var i :| 0 <= i < |log| && log[i].ApprovalRequested? && Unanswered(log, log[i].approval.id)
               && log[i].approval.call == Some(d.pending[0].id);
      RequestInDigest(limit, log, i);
      if log[i].approval.id in d.answers {
        var m, j := AnsweredInLog(limit, log, log[i].approval.id);
        assert false;
      }
    }
  }

  lemma {:induction false} AskedInLog(limit: Option<nat>, log: seq<EventData>, call: CallId) returns (i: nat)
    requires WellFormed(limit, log) && call in DigestOf(log).approvals
    ensures i < |log| && log[i] == ApprovalRequested(DigestOf(log).approvals[call])
  {
    var init, e := log[..|log| - 1], log[|log| - 1];
    assert Legal(limit, DigestOf(init), e);
    if e.ApprovalRequested? && e.approval.call == Some(call) {
      i := |init|;
    } else {
      i := AskedInLog(limit, init, call);
    }
  }

  /**
   In every reachable state of an unfinished turn, both recovery checks: without unresolved calls the
   turn goes on with a new round; with an unanswered approval for the oldest one it is taken up with
   all of them, in order; otherwise it is refused.
   */
  lemma {:induction false} ResumeExactly(limit: Option<nat>, s: Engine) returns (calls: seq<Call>, at: seq<nat>)
    requires Reachable(limit, s) && TurnEnded !in s.log
    ensures UnresolvedAt(s.log, calls, at)
    ensures calls == [] ==>
      LoadProgress(s.log) == Success(Progress(|Markers(s.log)|, None)) && RestoreTools(s.log) == Success({})
    ensures calls != [] && AwaitsAnswer(s.log, |Markers(s.log)| - 1, calls[0]) ==>
      && |Markers(s.log)| > 0 && LoadProgress(s.log) == Success(Progress(|Markers(s.log)| - 1, Some(calls)))
      && RestoreTools(s.log) == Success(set c | c in calls :: c.id)
    ensures calls != [] && !AwaitsAnswer(s.log, |Markers(s.log)| - 1, calls[0]) ==>
      LoadProgress(s.log) == Failure(UnsafeToResume) && RestoreTools(s.log) == Failure(UnsafeToResume)
  {
    ReachableInv(limit, s);
    calls := DigestOf(s.log).pending;
    at := UnresolvedPositions(limit, s.log);
    LogVerdict(limit, s.log, calls);
  }

  lemma {:induction false} LogVerdict(limit: Option<nat>, log: seq<EventData>, calls: seq<Call>)
    requires WellFormed(limit, log) && TurnEnded !in log && calls == DigestOf(log).pending
    ensures calls == [] ==>
      LoadProgress(log) == Success(Progress(|Markers(log)|, None)) && RestoreTools(log) == Success({})
    ensures calls != [] && AwaitsAnswer(log, |Markers(log)| - 1, calls[0]) ==>
      && |Markers(log)| > 0 && LoadProgress(log) == Success(Progress(|Markers(log)| - 1, Some(calls)))
      && RestoreTools(log) == Success(Ids(calls))
    ensures calls != [] && !AwaitsAnswer(log, |Markers(log)| - 1, calls[0]) ==>
      LoadProgress(log) == Failure(UnsafeToResume) && RestoreTools(log) == Failure(UnsafeToResume)
  {
    NotEnded(limit, log);
    LoadVerdict(limit, log);
    RestoreVerdict(limit, log);
    if calls == [] {
      RoundDiscipline(limit, log);
      assert Ids([]) == {};
    } else {
      HeadAwaits(limit, log);
    }
  }
}
