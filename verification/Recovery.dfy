/**
 The three separately written replays of one turn log: the executor's own
 (crates/executor/src/basic.rs, `load_turn_progress`), the harness's
 (crates/executor/src/harness_adapter.rs, `restore_recovery_tools`) and the set the running harness
 keeps up to date (crates/executor/src/harness_events.rs, `update_pending_tools`).
 */
module Recovery {
  import opened Wrappers
  import opened Events
  import opened TurnProtocol
  import opened Permissions

  datatype RecoveryError = CorruptLog | UnsafeToResume

  // ----- load_turn_progress -----

  datatype Scan = Broken | Scan(round: Option<nat>, pending: seq<Call>)

  datatype Progress = Progress(startRound: nat, pending: Option<seq<Call>>)

  function ScanStep(s: Scan, e: EventData): Scan {
    if s.Broken? then s
    else match e
      case RoundMarker(round) => if s.pending == [] then s.(round := Some(round)) else Broken
      case ToolRequested(call) => if s.round.Some? then s.(pending := s.pending + [call]) else Broken
      case ToolResult(id, _) => s.(pending := Without(s.pending, id))
      case _ => s
  }

  function ScanLog(events: seq<EventData>): Scan {
    if events == [] then Scan(None, []) else ScanStep(ScanLog(events[..|events| - 1]), events[|events| - 1])
  }

  predicate ApprovalFor(a: Approval, call: Call, round: Option<nat>) {
    a.call == Some(call.id) && round.Some? && a.round == round && a.request == call.request
  }

  function LoadProgress(events: seq<EventData>): Result<Progress, RecoveryError> {
    match ScanLog(events)
    case Broken => Failure(CorruptLog)
    case Scan(round, pending) =>
      if pending == [] then Success(Progress(if round.Some? then round.value + 1 else 0, None))
      else
        var approvals := PendingApprovals(events);
        if exists id :: id in approvals && ApprovalFor(approvals[id], pending[0], round)
        then Success(Progress(round.value, Some(pending)))
        else Failure(UnsafeToResume)
  }

  lemma {:induction false} ScanBroken(events: seq<EventData>, n: nat)
    requires n <= |events| && ScanLog(events[..n]).Broken?
    ensures ScanLog(events).Broken?
  {
    if n == |events| {
      assert events[..n] == events;
    } else {
      assert events[..|events| - 1][..n] == events[..n];
      ScanBroken(events[..|events| - 1], n);
    }
  }

  lemma {:induction false} ScanRound(events: seq<EventData>)
    ensures ScanLog(events).Scan? && ScanLog(events).pending != [] ==> ScanLog(events).round.Some?
  {
    if events != [] {
      ScanRound(events[..|events| - 1]);
    }
  }

  method LoadTurnProgress(events: seq<EventData>) returns (r: Result<Progress, RecoveryError>)
    ensures r == LoadProgress(events)
  {
    var round: Option<nat> := None;
    var pending: seq<Call> := [];
    for i := 0 to |events|
      invariant ScanLog(events[..i]) == Scan(round, pending)
    {
      assert events[..i + 1][..i] == events[..i];
      match events[i] {
        case RoundMarker(marker) =>
          if pending != [] {
            ScanBroken(events, i + 1);
            return Failure(CorruptLog);
          }
          round := Some(marker);
        case ToolRequested(call) =>
          if round.None? {
            ScanBroken(events, i + 1);
            return Failure(CorruptLog);
          }
          pending := pending + [call];
        case ToolResult(id, _) => pending := Without(pending, id);
        case _ =>
      }
    }
    assert events[..|events|] == events;
    ScanRound(events);
    if pending == [] {
      return Success(Progress(if round.Some? then round.value + 1 else 0, None));
    }
    var approvals := PendingFromEvents(events);
    if exists id :: id in approvals && ApprovalFor(approvals[id], pending[0], round) {
      r := Success(Progress(round.value, Some(pending)));
    } else {
      r := Failure(UnsafeToResume);
    }
  }

  // ----- restore_recovery_tools -----

  datatype Tagged = Tagged(round: Option<nat>, call: Call)

  datatype Restored = Restored(round: Option<nat>, pending: seq<Tagged>, approvals: seq<Approval>,
      responses: set<ApprovalId>)

  function DropAll(pending: seq<Tagged>, id: CallId): seq<Tagged> {
    if pending == [] then []
    else
      var kept, last := DropAll(pending[..|pending| - 1], id), pending[|pending| - 1];
      if last.call.id == id then kept else kept + [last]
  }

  function RestoreStep(s: Restored, e: EventData): Restored {
    match e
    case RoundMarker(round) => s.(round := Some(round))
    case ApprovalRequested(a) => s.(approvals := s.approvals + [a])
    case ApprovalResponded(r) => s.(responses := s.responses + {r.approval})
    case ToolRequested(call) => s.(pending := s.pending + [Tagged(s.round, call)])
    case ToolResult(id, _) => s.(pending := DropAll(s.pending, id))
    case _ => s
  }

  function RestoreLog(events: seq<EventData>): Restored {
    if events == [] then Restored(None, [], [], {})
    else RestoreStep(RestoreLog(events[..|events| - 1]), events[|events| - 1])
  }

  function TaggedIds(pending: seq<Tagged>): set<CallId> {
    set t | t in pending :: t.call.id
  }

  /** The call has an approval of its own that has not been answered. */
  predicate Answerable(approvals: seq<Approval>, responses: set<ApprovalId>, t: Tagged) {
    exists a :: a in approvals && ApprovalFor(a, t.call, t.round) && a.id !in responses
  }

  function RestoreTools(events: seq<EventData>): Result<set<CallId>, RecoveryError> {
    var s := RestoreLog(events);
    if s.pending == [] || Answerable(s.approvals, s.responses, s.pending[0])
    then Success(TaggedIds(s.pending))
    else Failure(UnsafeToResume)
  }

  method RestoreRecoveryTools(events: seq<EventData>) returns (r: Result<set<CallId>, RecoveryError>)
    ensures r == RestoreTools(events)
  {
    var round: Option<nat> := None;
    var pending: seq<Tagged> := [];
    var approvals: seq<Approval> := [];
    var responses: set<ApprovalId> := {};
    for i := 0 to |events|
      invariant RestoreLog(events[..i]) == Restored(round, pending, approvals, responses)
    {
      assert events[..i + 1][..i] == events[..i];
      match events[i] {
        case RoundMarker(marker) => round := Some(marker);
        case ApprovalRequested(a) => approvals := approvals + [a];
        case ApprovalResponded(response) => responses := responses + {response.approval};
        case ToolRequested(call) => pending := pending + [Tagged(round, call)];
        case ToolResult(id, _) => pending := DropAll(pending, id);
        case _ =>
      }
    }
    assert events[..|events|] == events;
    if pending != [] {
      if !Answerable(approvals, responses, pending[0]) {
        return Failure(UnsafeToResume);
      }
    }
    r := Success(TaggedIds(pending));
  }

  // ----- update_pending_tools -----

  function Update(pending: set<CallId>, e: EventData): set<CallId> {
    match e
    case ToolRequested(call) => pending + {call.id}
    case ToolResult(id, _) => pending - {id}
    case _ => pending
  }

  function UpdateAll(pending: set<CallId>, events: seq<EventData>): set<CallId> {
    if events == [] then pending
    else Update(UpdateAll(pending, events[..|events| - 1]), events[|events| - 1])
  }

  // ----- Agreement -----

  lemma {:induction false} ScanStepAgrees(limit: Option<nat>, d: Digest, e: EventData)
    requires Legal(limit, d, e)
    ensures ScanStep(Scan(d.round, d.pending), e) == Scan(Apply(d, e).round, Apply(d, e).pending)
  {
  }

  lemma {:induction false} ScanAgrees(limit: Option<nat>, log: seq<EventData>)
    requires WellFormed(limit, log)
    ensures ScanLog(log) == Scan(DigestOf(log).round, DigestOf(log).pending)
  {
    if log != [] {
      ScanAgrees(limit, log[..|log| - 1]);
      ScanStepAgrees(limit, DigestOf(log[..|log| - 1]), log[|log| - 1]);
    }
  }

  ghost predicate SamePending(d: Digest, pending: seq<Tagged>) {
    |pending| == |d.pending| && forall i :: 0 <= i < |pending| ==> pending[i] == Tagged(d.round, d.pending[i])
  }

  lemma {:induction false} DropAbsent(pending: seq<Tagged>, id: CallId)
    requires forall t :: t in pending ==> t.call.id != id
    ensures DropAll(pending, id) == pending
  {
    if pending != [] {
      assert pending[|pending| - 1] in pending;
      DropAbsent(pending[..|pending| - 1], id);
    }
  }

  lemma {:induction false} DropConcat(x: seq<Tagged>, y: seq<Tagged>, id: CallId)
    ensures DropAll(x + y, id) == DropAll(x, id) + DropAll(y, id)
  {
    if y == [] {
      assert x + y == x;
    } else {
      assert (x + y)[..|x + y| - 1] == x + y[..|y| - 1];
      DropConcat(x, y[..|y| - 1], id);
    }
  }

  lemma {:induction false} DropHead(d: Digest, pending: seq<Tagged>)
    requires SamePending(d, pending) && d.pending != [] && DistinctIds(d.pending)
    ensures DropAll(pending, d.pending[0].id) == pending[1..]
  {
    var id := d.pending[0].id;
    assert pending == [pending[0]] + pending[1..];
    assert [pending[0]][..0] == [];
    DropConcat([pending[0]], pending[1..], id);
    forall t | t in pending[1..]
      ensures t.call.id != id
    {
      var i :| 0 <= i < |pending[1..]| && pending[1..][i] == t;
      assert pending[i + 1] == t;
    }
    DropAbsent(pending[1..], id);
  }

  /** The lists of approvals and responses hold what the digest's tables hold. */
  ghost predicate SameApprovals(d: Digest, approvals: seq<Approval>, responses: set<ApprovalId>) {
    && (forall a :: a in approvals ==> a.call.Some? && a.call.value in d.approvals && d.approvals[a.call.value] == a)
    && (forall c :: c in d.approvals ==> d.approvals[c] in approvals)
    && responses == d.answers.Keys
  }

  ghost predicate SameRestored(d: Digest, s: Restored) {
    s.round == d.round && SamePending(d, s.pending) && SameApprovals(d, s.approvals, s.responses)
  }

  lemma {:induction false} RestoreStepAgrees(limit: Option<nat>, d: Digest, s: Restored, e: EventData)
    requires SameRestored(d, s) && DistinctIds(d.pending) && Legal(limit, d, e)
    ensures SameRestored(Apply(d, e), RestoreStep(s, e))
  {
    match e {
      case ToolResult(id, _) =>
        DropHead(d, s.pending);
        HeadResult(d.pending);
      case ApprovalRequested(a) =>
        assert forall x :: x in s.approvals + [a] <==> x in s.approvals || x == a;
      case _ =>
    }
  }

  lemma {:induction false} RestoreAgrees(limit: Option<nat>, log: seq<EventData>)
    requires WellFormed(limit, log)
    ensures SameRestored(DigestOf(log), RestoreLog(log))
  {
    if log != [] {
      var init := log[..|log| - 1];
      RestoreAgrees(limit, init);
      WellFormedConsistent(limit, init);
      RestoreStepAgrees(limit, DigestOf(init), RestoreLog(init), log[|log| - 1]);
    }
  }

  /** The pending table holds the approvals that were asked and not answered. */
  ghost predicate SameUnanswered(d: Digest, pending: map<ApprovalId, Approval>) {
    && pending.Keys == d.asked.Keys - d.answers.Keys
    && forall id :: id in pending ==> d.asked[id] in d.approvals && pending[id] == d.approvals[d.asked[id]]
  }

  lemma {:induction false} PendingStepAgrees(limit: Option<nat>, d: Digest, pending: map<ApprovalId, Approval>,
      e: EventData)
    requires SameUnanswered(d, pending) && ApprovalsConsistent(d) && Legal(limit, d, e)
    ensures SameUnanswered(Apply(d, e), PendingStep(pending, e))
  {
    match e {
      case ApprovalRequested(a) =>
        var d', pending' := Apply(d, e), PendingStep(pending, e);
        assert a.id !in d.answers;
        assert pending'.Keys == d'.asked.Keys - d'.answers.Keys;
        forall id | id in pending
          ensures d.asked[id] != a.call.value
        {
        }
      case _ =>
    }
  }

  lemma {:induction false} PendingAgrees(limit: Option<nat>, log: seq<EventData>)
    requires WellFormed(limit, log)
    ensures SameUnanswered(DigestOf(log), PendingFold(log))
  {
    if log != [] {
      var init := log[..|log| - 1];
      PendingAgrees(limit, init);
      WellFormedConsistent(limit, init);
      PendingStepAgrees(limit, DigestOf(init), PendingFold(init), log[|log| - 1]);
    }
  }

  lemma {:induction false} LiveAgrees(limit: Option<nat>, log: seq<EventData>)
    requires WellFormed(limit, log)
    ensures UpdateAll({}, log) == Ids(DigestOf(log).pending)
  {
    if log != [] {
      var init, e := log[..|log| - 1], log[|log| - 1];
      LiveAgrees(limit, init);
      WellFormedConsistent(limit, init);
      LiveStep(limit, DigestOf(init), e);
    }
  }

  lemma {:induction false} LiveStep(limit: Option<nat>, d: Digest, e: EventData)
    requires Legal(limit, d, e) && DistinctIds(d.pending)
    ensures Ids(Apply(d, e).pending) == Update(Ids(d.pending), e)
  {
    if e.ToolResult? {
      HeadResult(d.pending);
    } else if e.ToolRequested? {
      assert forall c :: c in d.pending + [e.call] <==> c in d.pending || c == e.call;
    }
  }

  lemma {:induction false} NotEnded(limit: Option<nat>, log: seq<EventData>)
    requires WellFormed(limit, log)
    ensures TurnEnded in log <==> DigestOf(log).ended > 0
  {
    if log != [] {
      NotEnded(limit, log[..|log| - 1]);
      assert log == log[..|log| - 1] + [log[|log| - 1]];
    }
  }

  lemma {:induction false} LoadVerdict(limit: Option<nat>, log: seq<EventData>)
    requires WellFormed(limit, log) && DigestOf(log).ended == 0
    ensures var d := DigestOf(log);
      && (d.pending != [] ==> d.round.Some?)
      && LoadProgress(log) ==
        if d.pending == [] then Success(Progress(d.NextRound(), None))
        else if d.HeadAwaitsAnswer() then Success(Progress(d.round.value, Some(d.pending)))
        else Failure(UnsafeToResume)
  {
    var d := DigestOf(log);
    ScanAgrees(limit, log);
    PendingAgrees(limit, log);
    WellFormedConsistent(limit, log);
    NotEnded(limit, log);
    if d.pending != [] {
      var head := d.pending[0];
      var approvals := PendingApprovals(log);
      if d.HeadAwaitsAnswer() {
        var id := d.approvals[head.id].id;
        assert id in approvals && ApprovalFor(approvals[id], head, d.round);
      } else {
        forall id | id in approvals
          ensures !ApprovalFor(approvals[id], head, d.round)
        {
          assert d.asked[id] != head.id;
        }
      }
    }
  }

  lemma {:induction false} RestoreVerdict(limit: Option<nat>, log: seq<EventData>)
    requires WellFormed(limit, log)
    ensures var d := DigestOf(log);
      RestoreTools(log) ==
        if d.pending == [] || d.HeadAwaitsAnswer() then Success(Ids(d.pending)) else Failure(UnsafeToResume)
  {
    var d, s := DigestOf(log), RestoreLog(log);
    RestoreAgrees(limit, log);
    WellFormedConsistent(limit, log);
    assert TaggedIds(s.pending) == Ids(d.pending) by {
      forall id
        ensures id in TaggedIds(s.pending) <==> id in Ids(d.pending)
      {
        if id in TaggedIds(s.pending) {
          var i :| 0 <= i < |s.pending| && s.pending[i].call.id == id;
          assert d.pending[i] in d.pending;
        }
        if id in Ids(d.pending) {
          var i :| 0 <= i < |d.pending| && d.pending[i].id == id;
          assert s.pending[i] in s.pending;
        }
      }
    }
    if d.pending != [] {
      var head := d.pending[0];
      assert s.pending[0] == Tagged(d.round, head);
      if d.HeadAwaitsAnswer() {
        assert d.approvals[head.id] in s.approvals;
      }
    }
  }

  /**
   On every legal log of an unfinished turn the three replays hold the same calls, the executor's
   replay never reports a corrupt log, and both recovery checks resume or refuse together: they
   resume exactly when nothing is unresolved or the oldest unresolved call still waits for the
   answer to its own approval.
   */
  lemma {:induction false} ReplaysAgree(limit: Option<nat>, log: seq<EventData>)
    requires WellFormed(limit, log) && TurnEnded !in log
    ensures LoadProgress(log) != Failure(CorruptLog)
    ensures LoadProgress(log).Success? <==> RestoreTools(log).Success?
    ensures LoadProgress(log).Success? <==> DigestOf(log).pending == [] || DigestOf(log).HeadAwaitsAnswer()
    ensures RestoreTools(log).Success? ==> RestoreTools(log).value == UpdateAll({}, log)
    ensures LoadProgress(log).Success? ==>
      UpdateAll({}, log) == match LoadProgress(log).value.pending case None => {} case Some(calls) => Ids(calls)
  {
    NotEnded(limit, log);
    LoadVerdict(limit, log);
    RestoreVerdict(limit, log);
    LiveAgrees(limit, log);
  }

  lemma {:induction false} ReplaySnoc(log: seq<EventData>, e: EventData)
    ensures ScanLog(log + [e]) == ScanStep(ScanLog(log), e)
    ensures RestoreLog(log + [e]) == RestoreStep(RestoreLog(log), e)
    ensures PendingFold(log + [e]) == PendingStep(PendingFold(log), e)
  {
    assert (log + [e])[..|log|] == log;
  }

  lemma {:induction false} BothDropped(c: Call, r: Call)
    requires c.id == r.id
    ensures DropAll([Tagged(Some(0), c), Tagged(Some(0), r)], c.id) == []
  {
    var first, second := [Tagged(Some(0), c)], [Tagged(Some(0), r)];
    DropConcat(first, second, c.id);
    assert first + second == [Tagged(Some(0), c), Tagged(Some(0), r)];
    assert first[..0] == [] && second[..0] == [];
  }

  function Repeated(c: Call, r: Call): seq<EventData> {
    [RoundMarker(0), ToolRequested(c), ToolRequested(r), ToolResult(c.id, 0)]
  }

  lemma {:induction false} RepeatedScan(c: Call, r: Call)
    requires c.id == r.id
    ensures ScanLog(Repeated(c, r)) == Scan(Some(0), [r]) && PendingFold(Repeated(c, r)) == map[]
    ensures RestoreLog(Repeated(c, r)).pending == []
  {
    var log := Repeated(c, r);
    assert log[..1] == [] + [log[0]] && log[..2] == log[..1] + [log[1]];
    assert log[..3] == log[..2] + [log[2]] && log == log[..3] + [log[3]];
    ReplaySnoc([], log[0]);
    ReplaySnoc(log[..1], log[1]);
    ReplaySnoc(log[..2], log[2]);
    ReplaySnoc(log[..3], log[3]);
    assert ScanLog(log[..3]) == Scan(Some(0), [c, r]);
    assert RestoreLog(log[..3]).pending == [Tagged(Some(0), c), Tagged(Some(0), r)];
    BothDropped(c, r);
  }

  /** Distinct call ids matter: with a repeated id the executor keeps a call the harness has dropped. */
  lemma {:induction false} RepeatedIdSplitsReplays(c: Call, r: Call)
    requires c.id == r.id
    ensures LoadProgress(Repeated(c, r)) == Failure(UnsafeToResume) && RestoreTools(Repeated(c, r)) == Success({})
  {
    RepeatedScan(c, r);
    assert TaggedIds([]) == {};
  }
}
