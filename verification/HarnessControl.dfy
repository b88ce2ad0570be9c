/**
 Stop reasons of running turns and the loop that obeys them (crates/executor/src/harness_adapter.rs).
 `ActiveTurns` is the table the commands update under its mutex; a turn's task watches its own entry.
 */
module HarnessControl {
  import opened Wrappers
  import opened HarnessEvents

  datatype StopReason = Cancel | Suspend | Shutdown

  type Reason = Option<StopReason>

  datatype Command = StartTurn(key: Key) | CancelTurn(key: Key) | SuspendTurn(key: Key) | ResumeTurn(key: Key)

  datatype SubmitError = ShuttingDown | AlreadyActive

  datatype Controls = Controls(stopping: bool, turns: map<Key, Reason>)

  /** Everything that touches the table, in the order the mutex admits it. */
  datatype Action = Submitted(command: Command) | ShutdownBegins | TurnLeaves(key: Key)

  predicate Final(r: Reason) { r == Some(Cancel) || r == Some(Shutdown) }

  function Wanted(command: Command): Reason {
    match command
    case CancelTurn(_) => Some(Cancel)
    case SuspendTurn(_) => Some(Suspend)
    case _ => None
  }

  function Replaced(was: Reason, wanted: Reason): Reason { if Final(was) then was else wanted }

  function Stopped(was: Reason): Reason { if was == Some(Cancel) then was else Some(Shutdown) }

  function Admission(c: Controls, key: Key): Result<(), SubmitError> {
    if c.stopping then Failure(ShuttingDown) else if key in c.turns then Failure(AlreadyActive) else Success(())
  }

  function After(c: Controls, action: Action): Controls {
    match action
    case Submitted(StartTurn(key)) => if Admission(c, key).Success? then c.(turns := c.turns[key := None]) else c
    case Submitted(command) =>
      if command.key in c.turns
      then c.(turns := c.turns[command.key := Replaced(c.turns[command.key], Wanted(command))])
      else c
    case ShutdownBegins => Controls(true, map k | k in c.turns :: Stopped(c.turns[k]))
    case TurnLeaves(key) => c.(turns := c.turns - {key})
  }

  class ActiveTurns {
    var stopping: bool
    var turns: map<Key, Reason>

    ghost function Value(): Controls
      reads this
    {
      Controls(stopping, turns)
    }

    constructor ()
      ensures Value() == Controls(false, map[])
    {
      stopping, turns := false, map[];
    }

    method Submit(command: Command) returns (r: Result<(), SubmitError>)
      modifies this
      ensures Value() == After(old(Value()), Submitted(command))
      ensures r == Failure(ShuttingDown) <==> command.StartTurn? && old(stopping)
      ensures r == Failure(AlreadyActive) <==> command.StartTurn? && !old(stopping) && command.key in old(turns)
      ensures r.Success? && command.StartTurn? ==> command.key in turns && turns[command.key] == None
    {
      if !command.StartTurn? {
        if command.key in turns && !Final(turns[command.key]) {
          turns := turns[command.key := Wanted(command)];
        }
        return Success(());
      }
      if stopping { return Failure(ShuttingDown); }
      if command.key in turns { return Failure(AlreadyActive); }
      turns := turns[command.key := None];
      r := Success(());
    }

    /** The keys are visited in no particular order. */
    method BeginShutdown()
      modifies this
      ensures Value() == After(old(Value()), ShutdownBegins)
    {
      stopping := true;
      var rest := turns.Keys;
      while rest != {}
        invariant stopping && rest <= turns.Keys && turns.Keys == old(turns).Keys
        invariant forall k :: k in turns ==> turns[k] == if k in rest then old(turns)[k] else Stopped(old(turns)[k])
        decreases |rest|
      {
        var k :| k in rest;
        if turns[k] != Some(Cancel) {
          turns := turns[k := Some(Shutdown)];
        }
        rest := rest - {k};
      }
    }

    method Leave(key: Key)
      modifies this
      ensures Value() == After(old(Value()), TurnLeaves(key))
    {
      turns := turns - {key};
    }
  }

  // ----- Over all runs -----

  function RunAll(c: Controls, actions: seq<Action>): Controls {
    if actions == [] then c else After(RunAll(c, actions[..|actions| - 1]), actions[|actions| - 1])
  }

  const EMPTY := Controls(false, map[])

  /** A turn in Cancel stays in Cancel and a turn in Shutdown stays in Shutdown until it leaves the table. */
  lemma {:induction false} FinalReasonStays(c: Controls, actions: seq<Action>, key: Key)
    requires key in c.turns && Final(c.turns[key]) && TurnLeaves(key) !in actions
    ensures key in RunAll(c, actions).turns && RunAll(c, actions).turns[key] == c.turns[key]
  {
    if actions != [] {
      FinalReasonStays(c, actions[..|actions| - 1], key);
      assert actions[|actions| - 1] in actions;
    }
  }

  /** Once shutdown has begun it is never undone, no turn enters the table, and every turn in it is being stopped. */
  lemma {:induction false} ShutdownOnlyDrains(c: Controls, actions: seq<Action>)
    requires c.stopping && forall k :: k in c.turns ==> Final(c.turns[k])
    ensures var after := RunAll(c, actions);
      && after.stopping && after.turns.Keys <= c.turns.Keys
      && (forall k :: k in after.turns ==> Final(after.turns[k]))
      && forall k :: k in after.turns ==> TurnLeaves(k) !in actions
  {
    if actions != [] {
      var init, last := actions[..|actions| - 1], actions[|actions| - 1];
      ShutdownOnlyDrains(c, init);
      assert actions == init + [last];
    }
  }

  lemma {:induction false} StoppingMeansFinal(actions: seq<Action>)
    ensures RunAll(EMPTY, actions).stopping <==> ShutdownBegins in actions
    ensures RunAll(EMPTY, actions).stopping ==>
      forall k :: k in RunAll(EMPTY, actions).turns ==> Final(RunAll(EMPTY, actions).turns[k])
  {
    if actions != [] {
      StoppingMeansFinal(actions[..|actions| - 1]);
      assert actions == actions[..|actions| - 1] + [actions[|actions| - 1]];
    }
  }

  // ----- Which reason a turn has -----

  /** What was asked of a turn since it was admitted, oldest first; nothing while it is not active. */
  function Asked(actions: seq<Action>, key: Key): Option<seq<Reason>> {
    if actions == [] then None
    else
      var earlier := Asked(actions[..|actions| - 1], key);
      match actions[|actions| - 1]
      case TurnLeaves(k) => if k == key then None else earlier
      case ShutdownBegins => if earlier.None? then None else Some(earlier.value + [Some(Shutdown)])
      case Submitted(StartTurn(k)) =>
        if k == key && earlier.None? && ShutdownBegins !in actions then Some([]) else earlier
      case Submitted(CancelTurn(k)) =>
        if k == key && earlier.Some? then Some(earlier.value + [Some(Cancel)]) else earlier
      case Submitted(SuspendTurn(k)) =>
        if k == key && earlier.Some? then Some(earlier.value + [Some(Suspend)]) else earlier
      case Submitted(ResumeTurn(k)) =>
        if k == key && earlier.Some? then Some(earlier.value + [None]) else earlier
  }

  /** The first cancel or shutdown decides; without one, the last suspend or resume does. */
  function Verdict(asked: seq<Reason>): Reason {
    if asked == [] then None
    else if asked[0] == Some(Cancel) || asked[0] == Some(Shutdown) || |asked| == 1 then asked[0]
    else Verdict(asked[1..])
  }

  lemma {:induction false} VerdictSnoc(asked: seq<Reason>, r: Reason)
    ensures Verdict(asked + [r]) == Replaced(Verdict(asked), r)
  {
    if asked != [] && !Final(asked[0]) {
      assert (asked + [r])[1..] == asked[1..] + [r];
      if |asked| > 1 {
        VerdictSnoc(asked[1..], r);
      }
    }
  }

  /** In every run, a turn's stop reason is the verdict over everything asked of it since it was admitted. */
  lemma {:induction false} ReasonIsVerdict(actions: seq<Action>, key: Key)
    ensures key in RunAll(EMPTY, actions).turns <==> Asked(actions, key).Some?
    ensures key in RunAll(EMPTY, actions).turns ==>
      RunAll(EMPTY, actions).turns[key] == Verdict(Asked(actions, key).value)
  {
    if actions != [] {
      var init, last := actions[..|actions| - 1], actions[|actions| - 1];
      ReasonIsVerdict(init, key);
      StoppingMeansFinal(init);
      assert actions == init + [last];
      if Asked(init, key).Some? {
        var asked := Asked(init, key).value;
        VerdictSnoc(asked, Some(Shutdown));
        if last.Submitted? {
          VerdictSnoc(asked, Wanted(last.command));
        }
      }
    }
  }

  // ----- The loop that runs a turn -----

  /**
   What the loop wakes up for: a new stop reason, a closed channel, the suspension boundary, the end
   of the execution.
   */
  datatype Wake = Changed(reason: Reason) | Closed | Boundary | Ended(ok: bool)

  function Seen(w: Wake): Reason { if w.Changed? then w.reason else Some(Cancel) }

  /** The last stop reason among the first wakes, as the loop reads them. */
  function LastSeen(wakes: seq<Wake>): Reason {
    if wakes == [] then None
    else if wakes[|wakes| - 1].Changed? || wakes[|wakes| - 1].Closed? then Seen(wakes[|wakes| - 1])
    else LastSeen(wakes[..|wakes| - 1])
  }

  /**
   The outcome of the last wake, judged by the last stop reason read. A cancel or a shutdown stops
   the turn; a suspension does when the turn can be suspended, at the boundary unless the executor
   reconciles tools itself; otherwise the turn goes on until its execution ends.
   */
  function StopsAt(wakes: seq<Wake>, resumable: bool, reconciles: bool): Option<Outcome> {
    if wakes == [] then None
    else match wakes[|wakes| - 1]
      case Ended(ok) => Some(if ok then Completed else Failed)
      case Boundary => if LastSeen(wakes) == Some(Suspend) && resumable then Some(Suspended) else None
      case _ =>
        match LastSeen(wakes)
        case Some(Shutdown) => Some(Interrupted)
        case Some(Cancel) => Some(Cancelled)
        case Some(Suspend) => if resumable && reconciles then Some(Suspended) else None
        case None => None
  }

  /** The loop stops at the first wake that calls for it, and goes on when none does. */
  method SelectLoop(wakes: seq<Wake>, resumable: bool, reconciles: bool) returns (outcome: Option<Outcome>, used: nat)
    ensures used <= |wakes| && outcome == StopsAt(wakes[..used], resumable, reconciles)
    ensures outcome.None? ==> used == |wakes|
    ensures forall i :: 0 <= i < used ==> StopsAt(wakes[..i], resumable, reconciles).None?
  {
    var suspending := false;
    used := 0;
    while used < |wakes|
      invariant used <= |wakes|
      invariant forall i :: 0 <= i <= used ==> StopsAt(wakes[..i], resumable, reconciles).None?
      invariant suspending == (LastSeen(wakes[..used]) == Some(Suspend) && resumable)
      invariant suspending ==> !reconciles
    {
      var w := wakes[used];
      assert wakes[..used + 1][..used] == wakes[..used];
      used := used + 1;
      match w {
        case Boundary => if suspending { return Some(Suspended), used; }
        case Ended(ok) => return Some(if ok then Completed else Failed), used;
        case _ =>
          match Seen(w) {
            case Some(Shutdown) => return Some(Interrupted), used;
            case Some(Cancel) => return Some(Cancelled), used;
            case Some(Suspend) =>
              if resumable && reconciles { return Some(Suspended), used; }
              if resumable { suspending := true; }
            case None => suspending := false;
          }
      }
    }
    outcome := None;
  }

  // ----- What the loop obeys, by the position of the wakes -----

  /** The latest change before this wake asked for a suspension. */
  ghost predicate SuspendAsked(wakes: seq<Wake>, i: nat) {
    exists j :: 0 <= j < i <= |wakes| && wakes[j] == Changed(Some(Suspend))
                && forall k :: j < k < i ==> !wakes[k].Changed?
  }

  ghost predicate CallsForStop(wakes: seq<Wake>, i: nat, resumable: bool, reconciles: bool)
    requires i < |wakes|
  {
    match wakes[i]
    case Ended(_) => true
    case Closed => true
    case Boundary => resumable && SuspendAsked(wakes, i)
    case Changed(None) => false
    case Changed(Some(reason)) => reason == Suspend ==> resumable && reconciles
  }

  /** What a wake that calls for a stop makes of the turn. */
  function Stopping(w: Wake): Outcome {
    match w
    case Ended(ok) => if ok then Completed else Failed
    case Changed(Some(Shutdown)) => Interrupted
    case Changed(Some(Suspend)) => Suspended
    case Boundary => Suspended
    case _ => Cancelled
  }

  /**
   The loop stops at a wake exactly when that wake calls for it: at the end of the execution, with its
   result; at a cancel, a shutdown or a closed channel; at a suspension when the executor reconciles
   tools itself, and otherwise at the next boundary at which the suspension still stands.
   */
  lemma {:induction false} StopsExactly(wakes: seq<Wake>, i: nat, resumable: bool, reconciles: bool)
    requires i < |wakes| && forall k :: 0 <= k <= i ==> StopsAt(wakes[..k], resumable, reconciles).None?
    ensures StopsAt(wakes[..i + 1], resumable, reconciles) ==
      if CallsForStop(wakes, i, resumable, reconciles) then Some(Stopping(wakes[i])) else None
  {
    var all := wakes[..i + 1];
    assert all[..i] == wakes[..i] && all[|all| - 1] == wakes[i];
    assert forall k :: 0 <= k < |all| ==> all[..k] == wakes[..k];
    NothingFinalSeen(wakes[..i], resumable, reconciles, all);
    NeverClosed(wakes, i, resumable, reconciles);
    LastSeenAsked(wakes, i);
  }

  lemma {:induction false} LastSeenAsked(wakes: seq<Wake>, i: nat)
    requires i <= |wakes| && forall k :: 0 <= k < i ==> !wakes[k].Closed?
    ensures LastSeen(wakes[..i]) == Some(Suspend) <==> SuspendAsked(wakes, i)
  {
    if i > 0 {
      assert wakes[..i][..i - 1] == wakes[..i - 1];
      LastSeenAsked(wakes, i - 1);
      if SuspendAsked(wakes, i - 1) && !wakes[i - 1].Changed? {
        var j :| 0 <= j < i - 1 && wakes[j] == Changed(Some(Suspend))
                 && forall k :: j < k < i - 1 ==> !wakes[k].Changed?;
        assert forall k :: j < k < i ==> !wakes[k].Changed?;
      }
      if SuspendAsked(wakes, i) && !wakes[i - 1].Changed? {
        var j :| 0 <= j < i && wakes[j] == Changed(Some(Suspend)) && forall k :: j < k < i ==> !wakes[k].Changed?;
        assert j < i - 1;
      }
    }
  }

  lemma {:induction false} NeverClosed(wakes: seq<Wake>, i: nat, resumable: bool, reconciles: bool)
    requires i < |wakes| && forall k :: 0 <= k <= i ==> StopsAt(wakes[..k], resumable, reconciles).None?
    ensures forall k :: 0 <= k < i ==> !wakes[k].Closed?
  {
    forall k | 0 <= k < i ensures !wakes[k].Closed? {
      assert StopsAt(wakes[..k + 1], resumable, reconciles).None? && wakes[..k + 1][k] == wakes[k];
    }
  }

  /** A turn whose loop stopped because of a stop reason stopped because of the last one it read. */
  lemma {:induction false} OutcomeObeysReason(wakes: seq<Wake>, resumable: bool, reconciles: bool)
    requires wakes != [] && StopsAt(wakes, resumable, reconciles).Some?
    requires forall i :: 0 <= i < |wakes| ==> StopsAt(wakes[..i], resumable, reconciles).None?
    ensures StopsAt(wakes, resumable, reconciles) == Some(Cancelled) <==> LastSeen(wakes) == Some(Cancel)
    ensures StopsAt(wakes, resumable, reconciles) == Some(Interrupted) <==> LastSeen(wakes) == Some(Shutdown)
    ensures StopsAt(wakes, resumable, reconciles) == Some(Suspended) ==> LastSeen(wakes) == Some(Suspend) && resumable
    ensures StopsAt(wakes, resumable, reconciles) == Some(Completed) <==> wakes[|wakes| - 1] == Ended(true)
    ensures StopsAt(wakes, resumable, reconciles) == Some(Failed) <==> wakes[|wakes| - 1] == Ended(false)
  {
    NothingFinalSeen(wakes[..|wakes| - 1], resumable, reconciles, wakes);
  }

  lemma {:induction false} NothingFinalSeen(wakes: seq<Wake>, resumable: bool, reconciles: bool, all: seq<Wake>)
    requires |wakes| < |all| && wakes == all[..|wakes|]
    requires forall i :: 0 <= i < |all| ==> StopsAt(all[..i], resumable, reconciles).None?
    ensures !Final(LastSeen(wakes))
  {
    if wakes != [] {
      assert wakes[..|wakes| - 1] == all[..|wakes| - 1];
      NothingFinalSeen(wakes[..|wakes| - 1], resumable, reconciles, all);
      assert StopsAt(all[..|wakes|], resumable, reconciles).None?;
    }
  }
}
