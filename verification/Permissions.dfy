/**
 The approval protocol (crates/executor/src/permissions.rs): which approvals are pending, how one is
 answered, and how a tool call is authorised.
 */
module Permissions {
  import opened Wrappers
  import opened Events

  datatype Policy = AlwaysAllow | AlwaysAsk

  const APPROVAL_KINDS: set<Kind> := {KApprovalRequested, KApprovalResponded, KTurnEnded}
  const PAGE_LIMIT := 100

  // ----- Reading approval events page by page -----

  lemma {:induction false} SelectAfter(q: Query, log: seq<Event>, n: nat)
    requires Increasing(log) && 0 < n <= |Select(q, log)|
    ensures Select(q.(after := Some(Select(q, log)[n - 1].id)), log) == Select(q, log)[n..]
  {
    var init, last := log[..|log| - 1], log[|log| - 1];
    var all := Select(q, log);
    var q' := q.(after := Some(all[n - 1].id));
    SelectMembers(q, log);
    assert all[n - 1] in all;
    if n <= |Select(q, init)| {
      assert all[n - 1] == Select(q, init)[n - 1];
      SelectAfter(q, init, n);
      SelectMembers(q, init);
      assert all[n - 1] in Select(q, init);
    } else {
      assert all[n - 1] == last;
      SelectNone(q', log);
    }
  }

  /** Paging until a page reports no cursor returns every matching event, once and in order. */
  method ApprovalEvents(query: Query, log: seq<Event>) returns (events: seq<Event>)
    requires Increasing(log)
    ensures events == Select(query.(kinds := Some(APPROVAL_KINDS)), log)
  {
    var cursor := query.after;
    ghost var q := query.(kinds := Some(APPROVAL_KINDS));
    ghost var all := Select(q, log);
    events := [];
    while true
      invariant events <= all
      invariant Select(query.(kinds := Some(APPROVAL_KINDS), after := cursor), log) == all[|events|..]
      decreases |all| - |events|
    {
      var rest := Select(query.(kinds := Some(APPROVAL_KINDS), after := cursor), log);
      var page := if |rest| <= PAGE_LIMIT then rest else rest[..PAGE_LIMIT];
      if page == [] {
        return;
      }
      events := events + page;
      cursor := LastId(page);
      assert cursor == Some(all[|events| - 1].id);
      SelectAfter(q, log, |events|);
    }
  }

  // ----- Pending approvals -----

  function PendingStep(pending: map<ApprovalId, Approval>, e: EventData): map<ApprovalId, Approval> {
    match e
    case ApprovalRequested(a) => pending[a.id := a]
    case ApprovalResponded(r) => pending - {r.approval}
    case _ => pending
  }

  function PendingFold(events: seq<EventData>): map<ApprovalId, Approval> {
    if events == [] then map[]
    else PendingStep(PendingFold(events[..|events| - 1]), events[|events| - 1])
  }

  /** Approvals asked and not answered; none once the turn has ended. */
  function PendingApprovals(events: seq<EventData>): map<ApprovalId, Approval> {
    if TurnEnded in events then map[] else PendingFold(events)
  }

  method PendingFromEvents(events: seq<EventData>) returns (pending: map<ApprovalId, Approval>)
    ensures pending == PendingApprovals(events)
  {
    pending := map[];
    for i := 0 to |events|
      invariant TurnEnded !in events[..i]
      invariant pending == PendingFold(events[..i])
    {
      assert events[..i + 1][..i] == events[..i];
      match events[i] {
        case ApprovalRequested(a) => pending := pending[a.id := a];
        case ApprovalResponded(r) => pending := pending - {r.approval};
        case TurnEnded => return map[];
        case _ =>
      }
    }
    assert events[..|events|] == events;
  }

  /** The last request with this id is event `i`, and no response to it follows. */
  ghost predicate Awaits(events: seq<EventData>, i: nat, id: ApprovalId) {
    && i < |events| && events[i].ApprovalRequested? && events[i].approval.id == id
    && forall j :: i < j < |events| ==> !Concerns(events[j], id)
  }

  predicate Concerns(e: EventData, id: ApprovalId) {
    (e.ApprovalRequested? && e.approval.id == id) || (e.ApprovalResponded? && e.response.approval == id)
  }

  /** The pending table read off the events: what it holds, and nothing else. */
  lemma {:induction false} PendingExact(events: seq<EventData>, id: ApprovalId)
    ensures id in PendingFold(events) <==> exists i :: Awaits(events, i, id)
    ensures forall i: nat :: Awaits(events, i, id) ==>
      id in PendingFold(events) && PendingFold(events)[id] == events[i].approval
  {
    if events != [] {
      var init, e := events[..|events| - 1], events[|events| - 1];
      PendingExact(init, id);
      if Concerns(e, id) {
        assert e.ApprovalRequested? ==> Awaits(events, |init|, id);
      } else {
        forall i: nat ensures Awaits(events, i, id) <==> Awaits(init, i, id) {
          assert i < |init| ==> events[i] == init[i];
          assert forall j :: i < j < |init| ==> events[j] == init[j];
        }
      }
    }
  }

  datatype Refusal = DeniedCannotAllow | NotPending

  function RespondTo(events: seq<EventData>, approval: ApprovalId, approved: bool, allowForTool: bool)
    : Result<Response, Refusal>
  {
    var pending := PendingApprovals(events);
    if allowForTool && !approved then Failure(DeniedCannotAllow)
    else if approval !in pending then Failure(NotPending)
    else
      var allowed := if allowForTool then Some(pending[approval].request.functionName) else None;
      Success(Response(approval, approved, allowed))
  }

  /**
   A response is made exactly when the turn has not ended, a request with this id still awaits its
   answer and a denial allows nothing. It allows at most the function of that request, a denial
   grants nothing, and once it is appended the approval is not pending any more.
   */
  method Respond(events: seq<EventData>, approval: ApprovalId, approved: bool, allowForTool: bool)
    returns (r: Result<Response, Refusal>)
    ensures r == RespondTo(events, approval, approved, allowForTool)
    ensures r.Success? <==>
      (allowForTool ==> approved) && TurnEnded !in events && exists i :: Awaits(events, i, approval)
    ensures r == Failure(DeniedCannotAllow) <==> allowForTool && !approved
    ensures r.Success? ==> r.value.approval == approval && r.value.approved == approved
    ensures r.Success? ==> (r.value.allowedTool.Some? <==> allowForTool)
    ensures r.Success? ==> forall name :: Grants(ApprovalResponded(r.value), name) ==>
      approved && allowForTool && forall i: nat :: Awaits(events, i, approval) ==>
        name == events[i].approval.request.functionName
    ensures r.Success? ==> approval !in PendingApprovals(events + [ApprovalResponded(r.value)])
  {
    PendingExact(events, approval);
    if allowForTool && !approved {
      return Failure(DeniedCannotAllow);
    }
    var pending := PendingFromEvents(events);
    if approval !in pending {
      return Failure(NotPending);
    }
    var allowed := if allowForTool then Some(pending[approval].request.functionName) else None;
    r := Success(Response(approval, approved, allowed));
    assert (events + [ApprovalResponded(r.value)])[..|events|] == events;
  }

  // ----- Authorising a call -----

  /** The approval saved for a call, with its answer if one was saved after it. */
  datatype Saved = Absent | Mismatched | Present(approval: Approval, answer: Option<Response>)

  function SavedFor(call: Call, round: nat, events: seq<EventData>): Saved {
    if events == [] then Absent
    else
      var before := SavedFor(call, round, events[..|events| - 1]);
      if before.Mismatched? then before
      else match events[|events| - 1]
        case ApprovalRequested(a) =>
          if a.call == Some(call.id) && a.round == Some(round)
          then (if a.request == call.request then Present(a, None) else Mismatched)
          else before
        case ApprovalResponded(r) =>
          if before.Present? && r.approval == before.approval.id then Present(before.approval, Some(r)) else before
        case _ => before
  }

  predicate Grants(e: EventData, name: Name) {
    e.ApprovalResponded? && e.response.approved && e.response.allowedTool == Some(name)
  }

  /** Some response of the session approved every call of this function. */
  ghost predicate Granted(sessionEvents: seq<EventData>, name: Name) {
    exists i :: 0 <= i < |sessionEvents| && Grants(sessionEvents[i], name)
  }

  /** The position just after the last approval event: the watch starts there. */
  function AfterLast(events: seq<EventData>): nat
    ensures AfterLast(events) <= |events|
  {
    if events == [] then 0
    else if KindOf(events[|events| - 1]) in APPROVAL_KINDS then |events|
    else AfterLast(events[..|events| - 1])
  }

  datatype Decision = Proceed | Refuse | Ask | Await(approval: Approval, after: nat)

  ghost function Decide(policy: Policy, resuming: bool, call: Call, round: nat,
                        turnEvents: seq<EventData>, sessionEvents: seq<EventData>): Decision
  {
    if resuming then
      match SavedFor(call, round, turnEvents)
      case Absent => Refuse
      case Mismatched => Refuse
      case Present(_, Some(r)) => if r.approved then Proceed else Refuse
      case Present(a, None) => Await(a, AfterLast(turnEvents))
    else if policy.AlwaysAllow? || Granted(sessionEvents, call.request.functionName) then Proceed
    else Ask
  }

  /** `authorize` up to the point where it asks or waits. */
  method AuthorizeCall(policy: Policy, resuming: bool, call: Call, round: nat,
                       turnEvents: seq<EventData>, sessionEvents: seq<EventData>) returns (d: Decision)
    ensures d == Decide(policy, resuming, call, round, turnEvents, sessionEvents)
  {
    if !resuming && policy.AlwaysAllow? {
      return Proceed;
    }
    var existing := Absent;
    var after := 0;
    if resuming {
      for i := 0 to |turnEvents|
        invariant existing == SavedFor(call, round, turnEvents[..i]) && !existing.Mismatched?
        invariant after == AfterLast(turnEvents[..i])
      {
        assert turnEvents[..i + 1][..i] == turnEvents[..i];
        match turnEvents[i] {
          case ApprovalRequested(a) =>
            if a.call == Some(call.id) && a.round == Some(round) {
              if a.request != call.request {
                SavedPrefix(call, round, turnEvents, i + 1);
                return Refuse;
              }
              existing := Present(a, None);
            }
          case ApprovalResponded(r) =>
            if existing.Present? && r.approval == existing.approval.id {
              existing := Present(existing.approval, Some(r));
            }
          case _ =>
        }
        if KindOf(turnEvents[i]) in APPROVAL_KINDS {
          after := i + 1;
        }
      }
      assert turnEvents[..|turnEvents|] == turnEvents;
      match existing {
        case Present(_, Some(r)) => return if r.approved then Proceed else Refuse;
        case Present(a, None) => return Await(a, after);
        case _ => return Refuse;
      }
    }
    for i := 0 to |sessionEvents|
      invariant forall j :: 0 <= j < i ==> !Grants(sessionEvents[j], call.request.functionName)
    {
      if Grants(sessionEvents[i], call.request.functionName) {
        return Proceed;
      }
    }
    d := Ask;
  }

  /** A mismatch found early stays a mismatch. */
  lemma {:induction false} SavedPrefix(call: Call, round: nat, events: seq<EventData>, n: nat)
    requires n <= |events| && SavedFor(call, round, events[..n]).Mismatched?
    ensures SavedFor(call, round, events).Mismatched?
  {
    if n == |events| {
      assert events[..n] == events;
    } else {
      assert events[..|events| - 1][..n] == events[..n];
      SavedPrefix(call, round, events[..|events| - 1], n);
    }
  }

  // ----- What `authorize` decides, by positions in the log -----

  /** Event `i` asks for this call in this round. */
  predicate AsksFor(events: seq<EventData>, i: nat, call: CallId, round: nat) {
    && i < |events| && events[i].ApprovalRequested?
    && events[i].approval.call == Some(call) && events[i].approval.round == Some(round)
  }

  /** Event `i` is the last that asks for this call in this round. */
  ghost predicate LastAsk(events: seq<EventData>, i: nat, call: CallId, round: nat) {
    AsksFor(events, i, call, round) && forall j: nat :: AsksFor(events, j, call, round) ==> j <= i
  }

  predicate Responds(events: seq<EventData>, j: nat, id: ApprovalId) {
    j < |events| && events[j].ApprovalResponded? && events[j].response.approval == id
  }

  /** Every event that asks for the call in the round holds this very request. */
  ghost predicate SameRequest(events: seq<EventData>, call: Call, round: nat) {
    forall i: nat :: AsksFor(events, i, call.id, round) ==> events[i].approval.request == call.request
  }

  /** Event `j` is the last response to this approval, and it comes after event `i`. */
  ghost predicate LastAnswer(events: seq<EventData>, i: nat, j: nat, id: ApprovalId) {
    Responds(events, j, id) && i < j && forall k: nat :: Responds(events, k, id) ==> k <= j
  }

  ghost predicate Unresponded(events: seq<EventData>, i: nat, id: ApprovalId) {
    forall k: nat :: i < k ==> !Responds(events, k, id)
  }

  /** The last request for the call is event `i`, and this is its answer. */
  ghost predicate SavedAt(events: seq<EventData>, i: nat, call: CallId, round: nat, a: Approval,
      answer: Option<Response>) {
    && LastAsk(events, i, call, round) && events[i].approval == a
    && (answer.None? ==> Unresponded(events, i, a.id))
    && (answer.Some? ==> exists j: nat :: LastAnswer(events, i, j, a.id) && events[j].response == answer.value)
  }

  /** What the scan keeps in mind, told by positions. */
  ghost predicate SavedMeans(events: seq<EventData>, call: Call, round: nat, saved: Saved) {
    match saved
    case Mismatched => !SameRequest(events, call, round)
    case Absent => forall i: nat :: !AsksFor(events, i, call.id, round)
    case Present(a, answer) =>
      SameRequest(events, call, round) && exists i: nat :: SavedAt(events, i, call.id, round, a, answer)
  }

  lemma {:induction false} SavedExact(events: seq<EventData>, call: Call, round: nat)
    ensures SavedMeans(events, call, round, SavedFor(call, round, events))
  {
    if events != [] {
      SavedExact(events[..|events| - 1], call, round);
      SavedStep(events[..|events| - 1], events[|events| - 1], call, round);
      assert events == events[..|events| - 1] + [events[|events| - 1]];
    }
  }

  lemma {:induction false} SavedStep(events: seq<EventData>, e: EventData, call: Call, round: nat)
    requires SavedMeans(events, call, round, SavedFor(call, round, events))
    ensures SavedMeans(events + [e], call, round, SavedFor(call, round, events + [e]))
  {
    var all, n := events + [e], |events|;
    assert all[..n] == events;
    forall i: nat
      ensures AsksFor(all, i, call.id, round) <==>
        AsksFor(events, i, call.id, round) || (i == n && AsksFor(all, n, call.id, round))
    {
      assert i < n ==> all[i] == events[i];
    }
    forall i: nat, id: ApprovalId
      ensures Responds(all, i, id) <==> Responds(events, i, id) || (i == n && Responds(all, n, id))
    {
      assert i < n ==> all[i] == events[i];
    }
    var saved := SavedFor(call, round, events);
    if AsksFor(all, n, call.id, round) {
      if !saved.Mismatched? && e.approval.request == call.request {
        assert SavedAt(all, n, call.id, round, e.approval, None);
      }
    } else if saved.Present? {
      var i: nat :| SavedAt(events, i, call.id, round, saved.approval, saved.answer);
      SavedKept(events, e, i, call.id, round, saved.approval, saved.answer);
    }
  }

  lemma {:induction false} SavedKept(events: seq<EventData>, e: EventData, i: nat, call: CallId, round: nat,
      a: Approval, answer: Option<Response>)
    requires SavedAt(events, i, call, round, a, answer) && !AsksFor(events + [e], |events|, call, round)
    ensures SavedAt(events + [e], i, call, round, a,
                    if Responds(events + [e], |events|, a.id) then Some(e.response) else answer)
  {
    var all, n := events + [e], |events|;
    assert forall k: nat :: k < n ==> all[k] == events[k];
    forall k: nat ensures AsksFor(all, k, call, round) <==> AsksFor(events, k, call, round) {
      assert k < n ==> all[k] == events[k];
    }
    forall k: nat ensures Responds(all, k, a.id) <==> Responds(events, k, a.id) || (k == n && Responds(all, n, a.id)) {
      assert k < n ==> all[k] == events[k];
    }
    if Responds(all, n, a.id) {
      assert LastAnswer(all, i, n, a.id);
    } else if answer.Some? {
      var j: nat :| LastAnswer(events, i, j, a.id) && events[j].response == answer.value;
      assert LastAnswer(all, i, j, a.id);
    }
  }

  /**
   After a resume, on every log: without a request for the call in its round, or with one that holds
   another request, the call is refused; otherwise the last answer to the last request decides, and
   without one it is awaited.
   */
  lemma {:induction false} ResumedDecision(policy: Policy, call: Call, round: nat, events: seq<EventData>,
      session: seq<EventData>)
    ensures var d := Decide(policy, true, call, round, events, session);
      && (!SameRequest(events, call, round) || (forall i: nat :: !AsksFor(events, i, call.id, round)) ==> d == Refuse)
      && (SameRequest(events, call, round) ==>
            forall i: nat :: LastAsk(events, i, call.id, round) && Unresponded(events, i, events[i].approval.id) ==>
              d == Await(events[i].approval, AfterLast(events)))
      && (SameRequest(events, call, round) ==>
            forall i: nat, j: nat ::
              LastAsk(events, i, call.id, round) && LastAnswer(events, i, j, events[i].approval.id) ==>
                d == if events[j].response.approved then Proceed else Refuse)
  {
    SavedExact(events, call, round);
  }

  /** The response approves, and allows this function for the session. */
  predicate AllowsTool(e: EventData, name: Name) {
    e.ApprovalResponded? && e.response == Response(e.response.approval, true, Some(name))
  }

  /**
   A call that is not being resumed runs exactly when its policy or a response of the session allows
   it, and is asked for otherwise.
   */
  lemma {:induction false} FreshDecision(policy: Policy, call: Call, round: nat, events: seq<EventData>,
      session: seq<EventData>)
    ensures var allowed := policy.AlwaysAllow?
        || exists k :: 0 <= k < |session| && AllowsTool(session[k], call.request.functionName);
      Decide(policy, false, call, round, events, session) == if allowed then Proceed else Ask
  {
    forall e: EventData ensures Grants(e, call.request.functionName) <==> AllowsTool(e, call.request.functionName) {
    }
  }

  // ----- Waiting for the answer -----

  datatype Verdict = Waiting | Approved | Denied | TurnOver

  function Watch(approval: ApprovalId, events: seq<EventData>): Verdict {
    if events == [] then Waiting
    else match events[0]
      case ApprovalResponded(r) =>
        if r.approval == approval then (if r.approved then Approved else Denied) else Watch(approval, events[1..])
      case TurnEnded => TurnOver
      case _ => Watch(approval, events[1..])
  }

  method WatchForAnswer(approval: ApprovalId, events: seq<EventData>) returns (v: Verdict)
    ensures v == Watch(approval, events)
  {
    for i := 0 to |events|
      invariant Watch(approval, events) == Watch(approval, events[i..])
    {
      assert events[i..][1..] == events[i + 1..];
      match events[i] {
        case ApprovalResponded(r) =>
          if r.approval == approval {
            return if r.approved then Approved else Denied;
          }
        case TurnEnded => return TurnOver;
        case _ =>
      }
    }
    v := Waiting;
  }

  /** The event ends the wait for this approval. */
  predicate EndsWait(e: EventData, approval: ApprovalId) {
    e.TurnEnded? || (e.ApprovalResponded? && e.response.approval == approval)
  }

  /** The first event that ends the wait decides: an approval, a denial, or the end of the turn. */
  lemma {:induction false} WatchExact(approval: ApprovalId, events: seq<EventData>, k: nat)
    requires k <= |events| && forall i :: 0 <= i < k ==> !EndsWait(events[i], approval)
    ensures k == |events| ==> Watch(approval, events) == Waiting
    ensures k < |events| && events[k].TurnEnded? ==> Watch(approval, events) == TurnOver
    ensures k < |events| && events[k].ApprovalResponded? && events[k].response.approval == approval ==>
      Watch(approval, events) == if events[k].response.approved then Approved else Denied
  {
    if k > 0 {
      assert !EndsWait(events[0], approval);
      WatchExact(approval, events[1..], k - 1);
    }
  }

  lemma {:induction false} AfterLastQuiet(events: seq<EventData>)
    ensures forall i :: AfterLast(events) <= i < |events| ==> KindOf(events[i]) !in APPROVAL_KINDS
  {
    if events != [] && KindOf(events[|events| - 1]) !in APPROVAL_KINDS {
      AfterLastQuiet(events[..|events| - 1]);
    }
  }

  lemma {:induction false} WatchSkips(approval: ApprovalId, quiet: seq<EventData>, more: seq<EventData>)
    requires forall i :: 0 <= i < |quiet| ==> KindOf(quiet[i]) !in APPROVAL_KINDS
    ensures Watch(approval, quiet + more) == Watch(approval, more)
  {
    if quiet == [] {
      assert quiet + more == more;
    } else {
      assert (quiet + more)[1..] == quiet[1..] + more;
      assert KindOf(quiet[0]) !in APPROVAL_KINDS;
      WatchSkips(approval, quiet[1..], more);
    }
  }

  /**
   No answer is missed: whatever is appended after the snapshot, a watch started after the
   snapshot's last approval event sees exactly what was appended, as far as approvals go.
   */
  lemma {:induction false} WatchSeesEverythingNew(approval: ApprovalId, snapshot: seq<EventData>, more: seq<EventData>)
    ensures Watch(approval, (snapshot + more)[AfterLast(snapshot)..]) == Watch(approval, more)
  {
    var n := AfterLast(snapshot);
    AfterLastQuiet(snapshot);
    assert (snapshot + more)[n..] == snapshot[n..] + more;
    forall i | 0 <= i < |snapshot[n..]|
      ensures KindOf(snapshot[n..][i]) !in APPROVAL_KINDS
    {
      assert snapshot[n..][i] == snapshot[n + i];
    }
    WatchSkips(approval, snapshot[n..], more);
  }
}
