/**
 Delivery of a turn's outcome under interleaving (crates/executor/src/harness_events.rs). Any number
 of tasks emit events: each looks its route up, waits for the per-turn lock, and may be dropped at
 any await. A cell's `trace` records what happened to that registration.
 */
module HarnessEvents {
  import opened Wrappers

  type Key = nat
  type TaskId = nat
  type Payload = nat

  datatype Outcome = Completed | Failed | Cancelled | Suspended | Interrupted

  datatype HarnessEvent =
    | TurnEvents(events: seq<Payload>)
    | TurnFinished(outcome: Outcome, events: seq<Payload>)
    | ExecutionStopped

  datatype Mark =
    | Appended(events: seq<Payload>)
    | Finished(requested: Outcome, appendOk: bool)
    | Delivered(outcome: Outcome)

  /** One registration; `completion` is the sender that delivers its outcome, present until used. */
  datatype Cell = Cell(outcome: Option<Outcome>, completion: bool, trace: seq<Mark>)

  /** A task between two awaits: it has found its cell, or holds the cell's lock while it appends. */
  datatype Task =
    | Waiting(key: Key, cell: nat, event: HarnessEvent)
    | Holding(key: Key, cell: nat, event: HarnessEvent, appended: bool)

  datatype Hub = Hub(routes: map<Key, nat>, cells: seq<Cell>, tasks: map<TaskId, Task>)

  datatype Step =
    | Register(key: Key)
    | Remove(key: Key)
    | Lookup(task: TaskId, key: Key, event: HarnessEvent)
    | Acquire(task: TaskId)
    | Append(task: TaskId)
    | Conclude(task: TaskId, ok: bool)
    | Drop(task: TaskId)

  predicate LockFree(h: Hub, cell: nat) {
    forall t :: t in h.tasks ==> !(h.tasks[t].Holding? && h.tasks[t].cell == cell)
  }

  function Delivery(c: Cell): Cell {
    var outcome := if c.outcome.Some? then c.outcome.value else Failed;
    Cell(None, false, c.trace + [Delivered(outcome)])
  }

  /** What `emit` does when it gets the lock: refuse, stop the turn, or go on to append. */
  function Acquired(h: Hub, t: TaskId, w: Task): Hub
    requires w.Waiting? && w.cell < |h.cells|
  {
    var c := h.cells[w.cell];
    if !c.completion then h.(tasks := h.tasks - {t})
    else if w.event.ExecutionStopped? then
      Hub(h.routes - {w.key}, h.cells[w.cell := Delivery(c)], h.tasks - {t})
    else if c.outcome.Some? then h.(tasks := h.tasks - {t})
    else h.(tasks := h.tasks[t := Holding(w.key, w.cell, w.event, false)])
  }

  function Concluded(h: Hub, t: TaskId, w: Task, ok: bool): Hub
    requires w.Holding? && w.cell < |h.cells|
  {
    var c := h.cells[w.cell];
    match w.event
    case TurnFinished(outcome, _) =>
      var finished := Cell(Some(Result(outcome, ok)), c.completion, c.trace + [Finished(outcome, ok)]);
      h.(cells := h.cells[w.cell := finished], tasks := h.tasks - {t})
    case _ => h.(tasks := h.tasks - {t})
  }

  function Next(h: Hub, step: Step): Option<Hub> {
    match step
    case Register(key) =>
      if key in h.routes then None
      else Some(h.(routes := h.routes[key := |h.cells|], cells := h.cells + [Cell(None, true, [])]))
    case Remove(key) => Some(h.(routes := h.routes - {key}))
    case Lookup(task, key, event) =>
      if task in h.tasks || key !in h.routes then None
      else Some(h.(tasks := h.tasks[task := Waiting(key, h.routes[key], event)]))
    case Acquire(task) =>
      if task in h.tasks && h.tasks[task].Waiting? && h.tasks[task].cell < |h.cells| && LockFree(h, h.tasks[task].cell)
      then Some(Acquired(h, task, h.tasks[task])) else None
    case Append(task) =>
      if task in h.tasks && h.tasks[task].Holding? && !h.tasks[task].appended && h.tasks[task].cell < |h.cells|
         && !h.tasks[task].event.ExecutionStopped? && h.tasks[task].event.events != []
      then
        var w := h.tasks[task];
        var c := h.cells[w.cell];
        var appended := c.(trace := c.trace + [Appended(w.event.events)]);
        Some(h.(cells := h.cells[w.cell := appended], tasks := h.tasks[task := w.(appended := true)]))
      else None
    case Conclude(task, ok) =>
      if task in h.tasks && h.tasks[task].Holding? && h.tasks[task].cell < |h.cells|
         && (ok && !h.tasks[task].event.ExecutionStopped? ==>
               h.tasks[task].appended || h.tasks[task].event.events == [])
      then Some(Concluded(h, task, h.tasks[task], ok)) else None
    case Drop(task) => if task in h.tasks then Some(h.(tasks := h.tasks - {task})) else None
  }

  ghost function Run(h: Hub, steps: seq<Step>): Option<Hub> {
    if steps == [] then Some(h)
    else match Run(h, steps[..|steps| - 1])
      case None => None
      case Some(before) => Next(before, steps[|steps| - 1])
  }

  const IDLE := Hub(map[], [], map[])

  // ----- What a registration may go through -----

  datatype Phase = Live | Done(outcome: Outcome) | Over(outcome: Outcome) | Bad

  function Advance(p: Phase, m: Mark): Phase {
    match (p, m)
    case (Live, Appended(_)) => Live
    case (Live, Finished(requested, ok)) => Done(Result(requested, ok))
    case (Live, Delivered(outcome)) => if outcome == Failed then Over(outcome) else Bad
    case (Done(result), Delivered(outcome)) => if outcome == result then Over(outcome) else Bad
    case _ => Bad
  }

  function PhaseOf(trace: seq<Mark>): Phase {
    if trace == [] then Live else Advance(PhaseOf(trace[..|trace| - 1]), trace[|trace| - 1])
  }

  ghost predicate CellOk(c: Cell) {
    if c.completion then PhaseOf(c.trace) == (if c.outcome.Some? then Done(c.outcome.value) else Live)
    else c.outcome.None? && PhaseOf(c.trace).Over?
  }

  /** A task refers to a cell; one that holds a lock is appending to a cell that has not finished. */
  ghost predicate TaskOk(cells: seq<Cell>, w: Task) {
    && w.cell < |cells|
    && (w.Holding? ==> cells[w.cell].completion && cells[w.cell].outcome.None? && !w.event.ExecutionStopped?)
  }

  ghost predicate Exclusive(tasks: map<TaskId, Task>) {
    forall t, u ::
      t in tasks && u in tasks && tasks[t].Holding? && tasks[u].Holding? && tasks[t].cell == tasks[u].cell ==> t == u
  }

  ghost predicate Inv(h: Hub) {
    && (forall i :: 0 <= i < |h.cells| ==> CellOk(h.cells[i]))
    && (forall k :: k in h.routes ==> h.routes[k] < |h.cells|)
    && (forall t :: t in h.tasks ==> TaskOk(h.cells, h.tasks[t]))
    && Exclusive(h.tasks)
  }

  lemma {:induction false} TraceSnoc(trace: seq<Mark>, m: Mark)
    ensures PhaseOf(trace + [m]) == Advance(PhaseOf(trace), m)
  {
    assert (trace + [m])[..|trace|] == trace;
  }

  /** A cell changes only while no other task holds its lock, so the other tasks stay in order. */
  lemma {:induction false} CellUpdate(h: Hub, t: TaskId, w: Task, c: Cell)
    requires Inv(h) && w.cell < |h.cells| && CellOk(c)
    requires forall u :: u in h.tasks && u != t ==> !(h.tasks[u].Holding? && h.tasks[u].cell == w.cell)
    ensures var cells := h.cells[w.cell := c];
      && (forall i :: 0 <= i < |cells| ==> CellOk(cells[i]))
      && (forall u :: u in h.tasks && u != t ==> TaskOk(cells, h.tasks[u]))
  {
    var cells := h.cells[w.cell := c];
    forall u | u in h.tasks && u != t ensures TaskOk(cells, h.tasks[u]) {
      assert TaskOk(h.cells, h.tasks[u]);
    }
  }

  lemma {:induction false} AcquireKeepsInv(h: Hub, t: TaskId)
    requires Inv(h) && Next(h, Acquire(t)).Some?
    ensures Inv(Next(h, Acquire(t)).value)
  {
    var w := h.tasks[t];
    var c := h.cells[w.cell];
    assert CellOk(c);
    if c.completion && w.event.ExecutionStopped? {
      TraceSnoc(c.trace, Delivered(if c.outcome.Some? then c.outcome.value else Failed));
      CellUpdate(h, t, w, Delivery(c));
    }
  }

  lemma {:induction false} AppendKeepsInv(h: Hub, t: TaskId)
    requires Inv(h) && Next(h, Append(t)).Some?
    ensures Inv(Next(h, Append(t)).value)
  {
    var w := h.tasks[t];
    var c := h.cells[w.cell];
    assert CellOk(c) && TaskOk(h.cells, w);
    TraceSnoc(c.trace, Appended(w.event.events));
    CellUpdate(h, t, w, c.(trace := c.trace + [Appended(w.event.events)]));
  }

  lemma {:induction false} ConcludeKeepsInv(h: Hub, t: TaskId, ok: bool)
    requires Inv(h) && Next(h, Conclude(t, ok)).Some?
    ensures Inv(Next(h, Conclude(t, ok)).value)
  {
    var w := h.tasks[t];
    var c := h.cells[w.cell];
    assert CellOk(c) && TaskOk(h.cells, w);
    if w.event.TurnFinished? {
      TraceSnoc(c.trace, Finished(w.event.outcome, ok));
      CellUpdate(h, t, w, Concluded(h, t, w, ok).cells[w.cell]);
    }
  }

  lemma {:induction false} RouteKeepsInv(h: Hub, step: Step)
    requires Inv(h) && Next(h, step).Some? && !step.Acquire? && !step.Append? && !step.Conclude?
    ensures Inv(Next(h, step).value)
  {
    var n := Next(h, step).value;
    forall u | u in n.tasks ensures TaskOk(n.cells, n.tasks[u]) {
      if u in h.tasks {
        assert TaskOk(h.cells, h.tasks[u]);
      }
    }
  }

  lemma {:induction false} StepKeepsInv(h: Hub, step: Step)
    requires Inv(h) && Next(h, step).Some?
    ensures Inv(Next(h, step).value)
  {
    match step {
      case Acquire(task) => AcquireKeepsInv(h, task);
      case Append(task) => AppendKeepsInv(h, task);
      case Conclude(task, ok) => ConcludeKeepsInv(h, task, ok);
      case _ => RouteKeepsInv(h, step);
    }
  }

  lemma {:induction false} RunKeepsInv(steps: seq<Step>)
    requires Run(IDLE, steps).Some?
    ensures Inv(Run(IDLE, steps).value)
  {
    RunInvFrom(IDLE, steps);
  }

  // ----- Reading a trace -----

  function Result(requested: Outcome, appendOk: bool): Outcome {
    if appendOk then requested else Failed
  }

  lemma {:induction false} PhaseTellsFinish(trace: seq<Mark>)
    requires PhaseOf(trace) != Bad
    ensures PhaseOf(trace).Live? ==> forall m :: 0 <= m < |trace| ==> !trace[m].Finished?
    ensures PhaseOf(trace).Done? ==>
      && trace[|trace| - 1].Finished?
      && PhaseOf(trace).outcome == if trace[|trace| - 1].appendOk then trace[|trace| - 1].requested else Failed
    ensures PhaseOf(trace).Over? ==> Verdict(trace, PhaseOf(trace).outcome)
  {
    if trace != [] {
      PhaseTellsFinish(trace[..|trace| - 1]);
      if PhaseOf(trace).Over? && PhaseOf(trace[..|trace| - 1]).Done? {
        MarkSealsTrace(trace[..|trace| - 1], |trace| - 2);
        forall m | 0 <= m < |trace| && trace[m].Finished? ensures m == |trace| - 2 {
          MarkSealsTrace(trace[..|trace| - 1], m);
        }
      }
    }
  }

  /** Every finish of the registration gives this outcome, and without a finish it is a failure. */
  ghost predicate Verdict(trace: seq<Mark>, outcome: Outcome) {
    && (forall m :: 0 <= m < |trace| && trace[m].Finished? ==>
          outcome == if trace[m].appendOk then trace[m].requested else Failed)
    && ((forall m :: 0 <= m < |trace| ==> !trace[m].Finished?) ==> outcome == Failed)
  }

  /** What a proper trace may hold after a finish or a delivery: at most the delivery. */
  ghost predicate Sealed(trace: seq<Mark>, i: nat)
    requires i < |trace|
  {
    && (trace[i].Delivered? ==> i == |trace| - 1)
    && (trace[i].Finished? ==> forall j :: i < j < |trace| ==> j == i + 1 && trace[j].Delivered?)
  }

  lemma {:induction false} MarkSealsTrace(trace: seq<Mark>, i: nat)
    requires PhaseOf(trace) != Bad && i < |trace|
    ensures Sealed(trace, i)
    ensures trace[i].Finished? ==> !PhaseOf(trace).Live? && (PhaseOf(trace).Done? ==> i == |trace| - 1)
    ensures trace[i].Delivered? ==> PhaseOf(trace).Over?
    ensures PhaseOf(trace).Over? ==> trace[|trace| - 1] == Delivered(PhaseOf(trace).outcome)
    decreases |trace|
  {
    var init := trace[..|trace| - 1];
    if i < |init| {
      MarkSealsTrace(init, i);
      assert Sealed(init, i) && init[i] == trace[i];
      assert forall j :: i < j < |init| ==> init[j] == trace[j];
    }
  }

  /**
   For every interleaving of lookups, lock acquisitions, appends, finishes, stops and dropped tasks:
   a registration delivers at most one outcome and nothing happens to it afterwards; the outcome is
   the one its only finish asked for, or a failure when that finish could not append or there was
   none; and no batch of events is appended once the turn has finished.
   */
  lemma {:induction false} SingleOutcome(steps: seq<Step>, cell: nat, i: nat)
    requires Run(IDLE, steps).Some? && cell < |Run(IDLE, steps).value.cells|
    requires i < |Run(IDLE, steps).value.cells[cell].trace|
    ensures var trace := Run(IDLE, steps).value.cells[cell].trace;
      && (trace[i].Delivered? ==> i == |trace| - 1)
      && (trace[i].Delivered? ==> forall m :: 0 <= m < |trace| && trace[m].Finished? ==>
            m == i - 1 && trace[i].outcome == if trace[m].appendOk then trace[m].requested else Failed)
      && (trace[i].Delivered? && (forall m :: 0 <= m < |trace| ==> !trace[m].Finished?) ==> trace[i].outcome == Failed)
      && (trace[i].Finished? ==> forall j :: i < j < |trace| ==> j == i + 1 && trace[j].Delivered?)
  {
    RunKeepsInv(steps);
    var trace := Run(IDLE, steps).value.cells[cell].trace;
    assert CellOk(Run(IDLE, steps).value.cells[cell]);
    MarkSealsTrace(trace, i);
    PhaseTellsFinish(trace);
    forall m | 0 <= m < |trace| && trace[m].Finished? && trace[i].Delivered? ensures m == i - 1 {
      MarkSealsTrace(trace, m);
    }
  }

  /** The sender is present exactly until the outcome has been delivered. */
  lemma {:induction false} DeliveredOnceSenderUsed(steps: seq<Step>, cell: nat)
    requires Run(IDLE, steps).Some? && cell < |Run(IDLE, steps).value.cells|
    ensures var c := Run(IDLE, steps).value.cells[cell];
      !c.completion <==> c.trace != [] && c.trace[|c.trace| - 1].Delivered?
  {
    RunKeepsInv(steps);
    var c := Run(IDLE, steps).value.cells[cell];
    assert CellOk(c);
    if c.trace != [] {
      MarkSealsTrace(c.trace, |c.trace| - 1);
    }
  }

  // ----- What an emit achieves -----

  /** A finish that ends its append records the outcome it was sent with, on its own registration only. */
  lemma {:induction false} FinishRecorded(h: Hub, t: TaskId, ok: bool)
    requires Next(h, Conclude(t, ok)).Some? && h.tasks[t].event.TurnFinished?
    ensures var w, cells := h.tasks[t], Next(h, Conclude(t, ok)).value.cells;
      && cells[w.cell].trace == h.cells[w.cell].trace + [Finished(w.event.outcome, ok)]
      && forall i :: 0 <= i < |cells| && i != w.cell ==> cells[i] == h.cells[i]
  {
  }

  lemma {:induction false} RunSnoc(h: Hub, steps: seq<Step>, mid: Hub, step: Step)
    requires Run(h, steps) == Some(mid)
    ensures Run(h, steps + [step]) == Next(mid, step)
  {
    assert (steps + [step])[..|steps|] == steps;
  }

  /** The hub with one more registration. */
  function With(h: Hub, key: Key, c: Cell): Hub {
    h.(routes := h.routes[key := |h.cells|], cells := h.cells + [c])
  }

  /** One task emits an event and nobody disturbs it. */
  function EmitSteps(t: TaskId, key: Key, event: HarnessEvent, ok: bool): seq<Step> {
    if event.ExecutionStopped? then [Lookup(t, key, event), Acquire(t)]
    else if event.events == [] || !ok then [Lookup(t, key, event), Acquire(t), Conclude(t, ok)]
    else [Lookup(t, key, event), Acquire(t), Append(t), Conclude(t, ok)]
  }

  /** What that does to a live registration: the batch, then the verdict, or the delivery. */
  function Emitted(c: Cell, event: HarnessEvent, ok: bool): Cell {
    match event
    case ExecutionStopped =>
      var outcome := if c.outcome.Some? then c.outcome.value else Failed;
      Cell(None, false, c.trace + [Delivered(outcome)])
    case TurnEvents(events) => c.(trace := c.trace + if events == [] || !ok then [] else [Appended(events)])
    case TurnFinished(outcome, events) =>
      var trace := c.trace + (if events == [] || !ok then [] else [Appended(events)]) + [Finished(outcome, ok)];
      Cell(Some(if ok then outcome else Failed), c.completion, trace)
  }

  /** The registration is live, and the task is new to it. */
  ghost predicate Ready(h: Hub, t: TaskId, key: Key, event: HarnessEvent) {
    && Inv(h) && t !in h.tasks && key in h.routes && LockFree(h, h.routes[key])
    && h.cells[h.routes[key]].completion && (event.ExecutionStopped? || h.cells[h.routes[key]].outcome.None?)
  }

  lemma {:induction false} LookedUp(h: Hub, t: TaskId, key: Key, event: HarnessEvent)
    requires Ready(h, t, key, event)
    ensures var waiting := h.(tasks := h.tasks[t := Waiting(key, h.routes[key], event)]);
      && Run(h, [Lookup(t, key, event)]) == Some(waiting)
      && Run(h, [Lookup(t, key, event), Acquire(t)]) == Some(Acquired(waiting, t, waiting.tasks[t]))
  {
    var waiting := h.(tasks := h.tasks[t := Waiting(key, h.routes[key], event)]);
    assert Run(h, []) == Some(h) && [] + [Lookup(t, key, event)] == [Lookup(t, key, event)];
    RunSnoc(h, [], h, Lookup(t, key, event));
    RunSnoc(h, [Lookup(t, key, event)], waiting, Acquire(t));
    assert [Lookup(t, key, event)] + [Acquire(t)] == [Lookup(t, key, event), Acquire(t)];
  }

  lemma {:induction false} HoldingRuns(h: Hub, t: TaskId, key: Key, event: HarnessEvent)
    requires Ready(h, t, key, event) && !event.ExecutionStopped?
    ensures Run(h, [Lookup(t, key, event), Acquire(t)]) ==
      Some(h.(tasks := h.tasks[t := Holding(key, h.routes[key], event, false)]))
  {
    LookedUp(h, t, key, event);
    var holding := Holding(key, h.routes[key], event, false);
    assert h.tasks[t := Waiting(key, h.routes[key], event)][t := holding] == h.tasks[t := holding];
  }

  lemma {:induction false} ShortEmitRuns(h: Hub, t: TaskId, key: Key, event: HarnessEvent, ok: bool)
    requires Ready(h, t, key, event) && !event.ExecutionStopped? && (event.events == [] || !ok)
    ensures Run(h, EmitSteps(t, key, event, ok)) ==
      Some(h.(cells := h.cells[h.routes[key] := Emitted(h.cells[h.routes[key]], event, ok)]))
  {
    var i, steps := h.routes[key], EmitSteps(t, key, event, ok);
    var c, s2 := h.cells[i], h.(tasks := h.tasks[t := Holding(key, i, event, false)]);
    HoldingRuns(h, t, key, event);
    RunSnoc(h, [Lookup(t, key, event), Acquire(t)], s2, Conclude(t, ok));
    assert steps == [Lookup(t, key, event), Acquire(t)] + [Conclude(t, ok)];
    assert s2.tasks - {t} == h.tasks && c.trace + [] == c.trace;
    assert event.TurnEvents? ==> h.cells[i := c] == h.cells;
  }

  lemma {:induction false} LongEmitRuns(h: Hub, t: TaskId, key: Key, event: HarnessEvent)
    requires Ready(h, t, key, event) && !event.ExecutionStopped? && event.events != []
    ensures Run(h, EmitSteps(t, key, event, true)) ==
      Some(h.(cells := h.cells[h.routes[key] := Emitted(h.cells[h.routes[key]], event, true)]))
  {
    var i, steps := h.routes[key], EmitSteps(t, key, event, true);
    var c, holding := h.cells[i], Holding(key, i, event, false);
    var s2 := h.(tasks := h.tasks[t := holding]);
    HoldingRuns(h, t, key, event);
    var appended := c.(trace := c.trace + [Appended(event.events)]);
    var s3 := h.(cells := h.cells[i := appended], tasks := h.tasks[t := holding.(appended := true)]);
    assert s2.tasks[t := holding.(appended := true)] == s3.tasks && s3.tasks - {t} == h.tasks;
    RunSnoc(h, [Lookup(t, key, event), Acquire(t)], s2, Append(t));
    assert steps[..3] == [Lookup(t, key, event), Acquire(t)] + [Append(t)] && steps == steps[..3] + [Conclude(t, true)];
    RunSnoc(h, steps[..3], s3, Conclude(t, true));
    assert s3.cells[i := Emitted(c, event, true)] == h.cells[i := Emitted(c, event, true)];
  }

  lemma {:induction false} EmitRuns(h: Hub, t: TaskId, key: Key, event: HarnessEvent, ok: bool)
    requires Ready(h, t, key, event)
    ensures var i := h.routes[key];
      Run(h, EmitSteps(t, key, event, ok)) ==
        Some(h.(cells := h.cells[i := Emitted(h.cells[i], event, ok)],
                routes := if event.ExecutionStopped? then h.routes - {key} else h.routes))
  {
    if event.ExecutionStopped? {
      LookedUp(h, t, key, event);
      assert h.tasks[t := Waiting(key, h.routes[key], event)] - {t} == h.tasks;
    } else if event.events == [] || !ok {
      ShortEmitRuns(h, t, key, event, ok);
    } else {
      LongEmitRuns(h, t, key, event);
    }
  }

  lemma {:induction false} RunConcat(h: Hub, x: seq<Step>, y: seq<Step>)
    ensures Run(h, x + y) == match Run(h, x) case None => None case Some(mid) => Run(mid, y)
  {
    if y == [] {
      assert x + y == x;
    } else {
      assert (x + y)[..|x + y| - 1] == x + y[..|y| - 1];
      RunConcat(h, x, y[..|y| - 1]);
    }
  }

  lemma {:induction false} EmitOnNew(h: Hub, t: TaskId, key: Key, c: Cell, event: HarnessEvent, ok: bool)
    requires Inv(h) && Inv(With(h, key, c)) && t !in h.tasks && key !in h.routes
    requires c.completion && (event.ExecutionStopped? || c.outcome.None?)
    ensures var after := Emitted(c, event, ok);
      Run(With(h, key, c), EmitSteps(t, key, event, ok)) ==
        Some(if event.ExecutionStopped? then h.(cells := h.cells + [after]) else With(h, key, after))
  {
    var h0, i, after := With(h, key, c), |h.cells|, Emitted(c, event, ok);
    forall u | u in h.tasks ensures h.tasks[u].cell != i {
      assert TaskOk(h.cells, h.tasks[u]);
    }
    EmitRuns(h0, t, key, event, ok);
    assert h0.cells[i := after] == h.cells + [after] && h0.routes - {key} == h.routes;
  }

  /**
   A registered turn whose events are appended, that finishes and then stops delivers exactly the
   outcome it asked for when its last append succeeded, and a failure otherwise.
   */
  lemma {:induction false} OutcomeDelivered(h: Hub, t: TaskId, key: Key, batch: seq<Payload>, outcome: Outcome,
      last: seq<Payload>, ok: bool)
    requires Inv(h) && t !in h.tasks && key !in h.routes && batch != []
    ensures var steps := EmitSteps(t, key, TurnEvents(batch), true) + EmitSteps(t, key, TurnFinished(outcome, last), ok)
                         + EmitSteps(t, key, ExecutionStopped, true);
      var saved := if last == [] || !ok then [] else [Appended(last)];
      var trace := [Appended(batch)] + saved + [Finished(outcome, ok)] + [Delivered(if ok then outcome else Failed)];
      && Next(h, Register(key)).Some?
      && Run(Next(h, Register(key)).value, steps) == Some(h.(cells := h.cells + [Cell(None, false, trace)]))
  {
    var first, second := TurnEvents(batch), TurnFinished(outcome, last);
    var c0 := Cell(None, true, []);
    var c1 := Emitted(c0, first, true);
    var c2 := Emitted(c1, second, ok);
    RouteKeepsInv(h, Register(key));
    EmitOnNew(h, t, key, c0, first, true);
    RunInvFrom(With(h, key, c0), EmitSteps(t, key, first, true));
    EmitOnNew(h, t, key, c1, second, ok);
    RunInvFrom(With(h, key, c1), EmitSteps(t, key, second, ok));
    EmitOnNew(h, t, key, c2, ExecutionStopped, true);
    var x, y := EmitSteps(t, key, first, true), EmitSteps(t, key, second, ok);
    var z := EmitSteps(t, key, ExecutionStopped, true);
    RunConcat(With(h, key, c0), x, y);
    RunConcat(With(h, key, c0), x + y, z);
    assert c1.trace == [Appended(batch)];
  }

  lemma {:induction false} RunInvFrom(h: Hub, steps: seq<Step>)
    requires Inv(h) && Run(h, steps).Some?
    ensures Inv(Run(h, steps).value)
  {
    if steps != [] {
      RunInvFrom(h, steps[..|steps| - 1]);
      StepKeepsInv(Run(h, steps[..|steps| - 1]).value, steps[|steps| - 1]);
    }
  }
}
