/**
 Approvals of every turn of a run, over the thread's whole log: a response that arrives late, while
 another turn runs, is still the only one to its approval.
 */
module TurnAnswers {
  import opened Wrappers
  import opened Events
  import opened TurnProtocol
  import opened TurnEngine
  import opened TurnInvariant
  import opened TurnSteps
  import opened TurnHistory

  predicate Answers(e: Event, turn: TurnId) { e.turn == Some(turn) && e.data.ApprovalResponded? }

  /** The approvals of a turn that have a response in the thread, in log order. */
  function AnsweredIn(thread: seq<Event>, turn: TurnId): seq<ApprovalId> {
    if thread == [] then []
    else
      var earlier, e := AnsweredIn(thread[..|thread| - 1], turn), thread[|thread| - 1];
      if Answers(e, turn) then earlier + [e.data.response.approval] else earlier
  }

  /** The same for the log of one turn. */
  function Answered(log: seq<EventData>): seq<ApprovalId> {
    if log == [] then []
    else
      var earlier, e := Answered(log[..|log| - 1]), log[|log| - 1];
      if e.ApprovalResponded? then earlier + [e.response.approval] else earlier
  }

  ghost predicate Distinct(ids: seq<ApprovalId>) {
    forall i, j :: 0 <= i < j < |ids| ==> ids[i] != ids[j]
  }

  // ----- Reading the answers -----

  lemma {:induction false} AnsweredConcat(x: seq<Event>, y: seq<Event>, turn: TurnId)
    ensures AnsweredIn(x + y, turn) == AnsweredIn(x, turn) + AnsweredIn(y, turn)
  {
    if y == [] {
      assert x + y == x;
    } else {
      assert (x + y)[..|x + y| - 1] == x + y[..|y| - 1];
      AnsweredConcat(x, y[..|y| - 1], turn);
    }
  }

  lemma {:induction false} NoAnswers(thread: seq<Event>, turn: TurnId)
    requires forall i :: 0 <= i < |thread| ==> !Answers(thread[i], turn)
    ensures AnsweredIn(thread, turn) == []
  {
    if thread != [] {
      NoAnswers(thread[..|thread| - 1], turn);
    }
  }

  lemma {:induction false} StampedAnswers(session: SessionId, turn: TurnId, first: EventId, data: seq<EventData>)
    ensures AnsweredIn(Stamp(session, turn, first, data), turn) == Answered(data)
  {
    if data != [] {
      var init := data[..|data| - 1];
      StampedAnswers(session, turn, first, init);
      assert Stamp(session, turn, first, data)[..|init|] == Stamp(session, turn, first, init);
    }
  }

  lemma {:induction false} AnsweredLogConcat(x: seq<EventData>, y: seq<EventData>)
    ensures Answered(x + y) == Answered(x) + Answered(y)
  {
    if y == [] {
      assert x + y == x;
    } else {
      assert (x + y)[..|x + y| - 1] == x + y[..|y| - 1];
      AnsweredLogConcat(x, y[..|y| - 1]);
    }
  }

  /** A legal log answers every approval at most once, and the digest knows which. */
  lemma {:induction false} LegalAnswers(limit: Option<nat>, log: seq<EventData>)
    requires WellFormed(limit, log)
    ensures Distinct(Answered(log))
    ensures forall i :: 0 <= i < |Answered(log)| ==> Answered(log)[i] in DigestOf(log).answers
  {
    if log != [] {
      LegalAnswers(limit, log[..|log| - 1]);
      assert Legal(limit, DigestOf(log[..|log| - 1]), log[|log| - 1]);
    }
  }

  lemma {:induction false} AnswerListed(thread: seq<Event>, turn: TurnId, i: nat)
    requires i < |thread| && Answers(thread[i], turn)
    ensures thread[i].data.response.approval in AnsweredIn(thread, turn)
  {
    var init := thread[..|thread| - 1];
    if i < |init| {
      AnswerListed(init, turn, i);
    }
  }

  lemma {:induction false} DistinctRead(thread: seq<Event>, turn: TurnId, i: nat, j: nat)
    requires Distinct(AnsweredIn(thread, turn))
    requires i < j < |thread| && Answers(thread[i], turn) && Answers(thread[j], turn)
    ensures thread[i].data.response.approval != thread[j].data.response.approval
  {
    var init, all := thread[..|thread| - 1], AnsweredIn(thread, turn);
    var earlier := AnsweredIn(init, turn);
    assert earlier <= all;
    if j < |init| {
      DistinctRead(init, turn, i, j);
    } else {
      AnswerListed(init, turn, i);
      var m :| 0 <= m < |earlier| && earlier[m] == thread[i].data.response.approval;
      assert all[m] == earlier[m] && all[|earlier|] == thread[j].data.response.approval;
    }
  }

  // ----- The invariant -----

  /** No approval of a turn begun in the run has two answers, nor will a late response give it a second one. */
  ghost predicate AnswersOk(begun: set<TurnId>, turn: TurnId, thread: seq<Event>, log: seq<EventData>,
      late: Option<Late>)
  {
    && turn in begun && AnsweredIn(thread, turn) == Answered(log)
    && (forall t :: t in begun ==> Distinct(AnsweredIn(thread, t)))
    && (late.Some? ==> late.value.turn in begun
                       && late.value.response.approval !in AnsweredIn(thread, late.value.turn))
  }

  ghost predicate AnswersInv(begun: set<TurnId>, s: Engine) {
    AnswersOk(begun, s.turn, s.thread, s.log, s.late)
  }

  lemma {:induction false} AppendKeepsAnswers(limit: Option<nat>, begun: set<TurnId>, s: Engine, batch: seq<EventData>)
    requires AnswersInv(begun, s) && ThreadInv(s) && WellFormed(limit, s.log + batch)
    ensures AnswersInv(begun, Appended(s, batch))
  {
    var stamped := Stamp(s.session, s.turn, NextId(s.thread), batch);
    AnsweredConcat(s.thread, stamped, s.turn);
    StampedAnswers(s.session, s.turn, NextId(s.thread), batch);
    AnsweredLogConcat(s.log, batch);
    LegalAnswers(limit, s.log + batch);
    forall t | t in begun && t != s.turn
      ensures AnsweredIn(s.thread + stamped, t) == AnsweredIn(s.thread, t)
    {
      OthersUntouched(s.thread, stamped, t);
    }
  }

  lemma {:induction false} OthersUntouched(thread: seq<Event>, more: seq<Event>, turn: TurnId)
    requires forall i :: 0 <= i < |more| ==> !Answers(more[i], turn)
    ensures AnsweredIn(thread + more, turn) == AnsweredIn(thread, turn)
  {
    AnsweredConcat(thread, more, turn);
    NoAnswers(more, turn);
    assert AnsweredIn(thread, turn) + [] == AnsweredIn(thread, turn);
  }

  lemma {:induction false} LateKeepsAnswers(begun: set<TurnId>, s: Engine)
    requires AnswersInv(begun, s) && ThreadInv(s) && s.late.Some?
    ensures AnswersInv(begun, s.(thread := WithLate(s.thread, s.late.value), late := None))
  {
    var late := s.late.value;
    var stamped := Stamp(late.session, late.turn, NextId(s.thread), [ApprovalResponded(late.response)]);
    AnsweredConcat(s.thread, stamped, late.turn);
    assert stamped[..0] == [] && AnsweredIn(stamped, late.turn) == [late.response.approval];
    forall t | t in begun && t != late.turn
      ensures AnsweredIn(s.thread + stamped, t) == AnsweredIn(s.thread, t)
    {
      OthersUntouched(s.thread, stamped, t);
    }
  }

  /** Between turns nobody else answers a turn of this run. */
  ghost predicate GapOk(begun: set<TurnId>, gap: seq<Event>) {
    forall i, t :: 0 <= i < |gap| && t in begun ==> !Answers(gap[i], t)
  }

  lemma {:induction false} BeginKeepsAnswers(begun: set<TurnId>, s: Engine, gap: seq<Event>, session: SessionId,
      turn: TurnId, input: seq<Message>, t: TurnId)
    requires GapOk(begun, gap) && (t in begun || t == turn) && turn !in begun
    requires forall e :: e in s.thread + gap ==> e.turn != Some(turn)
    ensures AnsweredIn(Extended(session, turn, s.thread + gap, BeginEvents(input)), t) ==
      if t == turn then [] else AnsweredIn(s.thread, t)
  {
    var before := s.thread + gap;
    var stamped := Stamp(session, turn, NextId(before), BeginEvents(input));
    OthersUntouched(before, stamped, t);
    if t == turn {
      forall i | 0 <= i < |before| ensures !Answers(before[i], t) {
        assert before[i] in before;
      }
      NoAnswers(before, t);
    } else {
      OthersUntouched(s.thread, gap, t);
    }
  }

  lemma {:induction false} NoAnswersYet(input: seq<Message>)
    ensures Answered(BeginEvents(input)) == []
  {
    var data := BeginEvents(input);
    assert data[..2][..1] == data[..1] && data[..1][..0] == [];
    assert Answered(data[..1]) == [];
    assert Answered(data[..2]) == [];
  }

  /** A response checked for the turn that ends is not in the thread yet. */
  lemma {:induction false} ResponderFresh(limit: Option<nat>, begun: set<TurnId>, s: Engine)
    requires Inv(limit, s) && AnswersInv(begun, s) && s.responder.Some?
    ensures s.responder.value.approval !in AnsweredIn(s.thread, s.turn)
  {
    LegalAnswers(limit, s.log);
    assert ResponderOk(DigestOf(s.log), s.responder);
  }

  lemma {:induction false} TurnKeepsAnswers(limit: Option<nat>, begun: set<TurnId>, s: Engine, control: Control)
    requires Inv(limit, s) && ThreadInv(s) && AnswersInv(begun, s)
    requires control.NextTurn? && GapOk(begun, control.gap) && control.turn !in begun && AfterControl(s, control).Some?
    ensures AnswersInv(begun + {control.turn}, AfterControl(s, control).value)
  {
    var NextTurn(gap, session, turn, input) := control;
    NoAnswersYet(input);
    forall t | t in begun + {turn}
      ensures AnsweredIn(Extended(session, turn, s.thread + gap, BeginEvents(input)), t) ==
        if t == turn then [] else AnsweredIn(s.thread, t)
    {
      BeginKeepsAnswers(begun, s, gap, session, turn, input, t);
    }
    if s.responder.Some? {
      ResponderFresh(limit, begun, s);
    }
  }

  // ----- Runs -----

  /** The turns begun by a run. */
  function BegunBy(start: Engine, steps: seq<Step>): set<TurnId> {
    if steps == [] then {start.turn}
    else
      var earlier, step := BegunBy(start, steps[..|steps| - 1]), steps[|steps| - 1];
      if step.Controlling? && step.control.NextTurn? then earlier + {step.control.turn} else earlier
  }

  /** Whatever is appended between turns answers none of the run's turns. */
  ghost predicate QuietGaps(start: Engine, steps: seq<Step>) {
    steps != [] ==>
      var init, step := steps[..|steps| - 1], steps[|steps| - 1];
      && QuietGaps(start, init)
      && (step.Controlling? && step.control.NextTurn? ==> GapOk(BegunBy(start, init), step.control.gap))
  }

  ghost predicate AllMentioned(begun: set<TurnId>, thread: seq<Event>) {
    forall t :: t in begun ==> Mentions(thread, t)
  }

  lemma {:induction false} StepKeepsAnswers(limit: Option<nat>, begun: set<TurnId>, s: Engine, step: Step)
    requires Inv(limit, s) && ThreadInv(s) && AnswersInv(begun, s) && Next(limit, s, step).Some?
    requires !(step.Controlling? && step.control.NextTurn?)
    ensures AnswersInv(begun, Next(limit, s, step).value)
  {
    StepKeepsInv(limit, s, step);
    if step.Replying? && step.outside.AppendLate? {
      LateKeepsAnswers(begun, s);
    } else {
      var batch := AppendedBy(limit, s, step);
      AppendKeepsAnswers(limit, begun, s, batch);
    }
  }

  lemma {:induction false} StepKeepsMentions(limit: Option<nat>, s: Engine, step: Step, t: TurnId)
    requires Next(limit, s, step).Some? && Mentions(s.thread, t)
    ensures Mentions(Next(limit, s, step).value.thread, t)
  {
    if step.Controlling? && step.control.NextTurn? {
      var NextTurn(gap, session, turn, input) := step.control;
      MentionsKept(s.thread, gap);
      MentionsKept(s.thread + gap, Stamp(session, turn, NextId(s.thread + gap), BeginEvents(input)));
    } else if step.Replying? && step.outside.AppendLate? {
      var late := s.late.value;
      MentionsKept(s.thread, Stamp(late.session, late.turn, NextId(s.thread), [ApprovalResponded(late.response)]));
    } else {
      var batch := AppendedBy(limit, s, step);
      MentionsKept(s.thread, Stamp(s.session, s.turn, NextId(s.thread), batch));
    }
  }

  lemma {:induction false} RunKeepsAnswers(limit: Option<nat>, start: Engine, steps: seq<Step>)
    requires Initial(start) && Run(limit, start, steps).Some? && QuietGaps(start, steps)
    ensures var s, begun := Run(limit, start, steps).value, BegunBy(start, steps);
      Inv(limit, s) && ThreadInv(s) && AnswersInv(begun, s) && AllMentioned(begun, s.thread)
  {
    if steps == [] {
      StartAnswers(limit, start);
    } else {
      var init, step := steps[..|steps| - 1], steps[|steps| - 1];
      RunKeepsAnswers(limit, start, init);
      OneMoreStep(limit, BegunBy(start, init), Run(limit, start, init).value, step);
    }
  }

  lemma {:induction false} OneMoreStep(limit: Option<nat>, begun: set<TurnId>, s: Engine, step: Step)
    requires Inv(limit, s) && ThreadInv(s) && AnswersInv(begun, s) && AllMentioned(begun, s.thread)
    requires Next(limit, s, step).Some?
    requires step.Controlling? && step.control.NextTurn? ==> GapOk(begun, step.control.gap)
    ensures var s' := Next(limit, s, step).value;
      var begun' := if step.Controlling? && step.control.NextTurn? then begun + {step.control.turn} else begun;
      Inv(limit, s') && ThreadInv(s') && AnswersInv(begun', s') && AllMentioned(begun', s'.thread)
  {
    StepKeepsInv(limit, s, step);
    StepKeepsThread(limit, s, step);
    forall t | t in begun ensures Mentions(Next(limit, s, step).value.thread, t) {
      StepKeepsMentions(limit, s, step, t);
    }
    if step.Controlling? && step.control.NextTurn? {
      NewTurnIsNew(begun, s, step.control);
      TurnKeepsAnswers(limit, begun, s, step.control);
    } else {
      StepKeepsAnswers(limit, begun, s, step);
    }
  }

  lemma {:induction false} NewTurnIsNew(begun: set<TurnId>, s: Engine, control: Control)
    requires control.NextTurn? && AfterControl(s, control).Some? && AllMentioned(begun, s.thread)
    ensures control.turn !in begun
  {
    forall t | t in begun ensures t != control.turn {
      assert Mentions(s.thread, t);
      var e :| e in s.thread && e.turn == Some(t);
      assert e in s.thread + control.gap;
    }
  }

  lemma {:induction false} StartAnswers(limit: Option<nat>, s: Engine)
    requires Initial(s)
    ensures Inv(limit, s) && ThreadInv(s) && AnswersInv({s.turn}, s) && AllMentioned({s.turn}, s.thread)
  {
    InitialInv(limit, s);
    var before, input :| StartsWith(s, before, input);
    BeginThread(s.session, s.turn, before, input);
    StartUnanswered(s, before, input);
    NoAnswersYet(input);
  }

  lemma {:induction false} StartUnanswered(s: Engine, before: seq<Event>, input: seq<Message>)
    requires StartsWith(s, before, input)
    ensures AnsweredIn(s.thread, s.turn) == []
  {
    forall i | 0 <= i < |s.thread| ensures !Answers(s.thread[i], s.turn) {
      assert i < |before| ==> before[i] in before;
    }
    NoAnswers(s.thread, s.turn);
  }

  /**
   For every turn begun in a run, over the thread's whole log and whatever turn runs now: two
   responses never answer the same approval, however late the second one arrives.
   */
  lemma {:induction false} AnsweredOnceInThread(limit: Option<nat>, start: Engine, steps: seq<Step>, turn: TurnId,
      i: nat, j: nat)
    requires Initial(start) && Run(limit, start, steps).Some?
    requires QuietGaps(start, steps) && turn in BegunBy(start, steps)
    requires var thread := Run(limit, start, steps).value.thread;
      i < j < |thread| && Answers(thread[i], turn) && Answers(thread[j], turn)
    ensures var thread := Run(limit, start, steps).value.thread;
      thread[i].data.response.approval != thread[j].data.response.approval
  {
    RunKeepsAnswers(limit, start, steps);
    DistinctRead(Run(limit, start, steps).value.thread, turn, i, j);
  }
}
