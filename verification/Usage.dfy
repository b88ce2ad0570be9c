/**
 The incremental usage accountant (crates/cli/src/turn_display.rs). The tracker reads the message
 events of a conversation page by page, keeps partial sums per turn and per model, and merges the
 turns' sums in whatever order its map yields them.
 */
module Usage {
  import opened Wrappers

  type Id = nat
  type Model = nat

  datatype Record = Record(model: Model, prompt: Option<int>, cached: Option<int>, completion: Option<int>,
      cost: Option<real>)

  /** A message event: its turn, the usage recorded with it, and what its messages are. */
  datatype MessageEvent = MessageEvent(id: Id, turn: Option<Id>, usage: Option<Record>, empty: bool, assistant: bool)

  datatype Totals = Totals(records: nat, prompt: Option<int>, cached: Option<int>, completion: Option<int>,
      cost: Option<real>)

  datatype Group = Group(totals: Totals, unmetered: bool, separate: bool)

  const ZERO := Totals(0, None, None, None, None)

  /** The record of a turn whose usage is unknown. */
  const UNKNOWN := Record(0, None, None, None, None)

  function PlusInt(a: Option<int>, b: Option<int>): Option<int> {
    if a.Some? && b.Some? then Some(a.value + b.value) else None
  }

  function PlusReal(a: Option<real>, b: Option<real>): Option<real> {
    if a.Some? && b.Some? then Some(a.value + b.value) else None
  }

  function Merge(a: Totals, b: Totals): Totals {
    if b.records == 0 then a
    else if a.records == 0 then b
    else Totals(a.records + b.records, PlusInt(a.prompt, b.prompt), PlusInt(a.cached, b.cached),
                PlusInt(a.completion, b.completion), PlusReal(a.cost, b.cost))
  }

  function One(r: Record): Totals { Totals(1, r.prompt, r.cached, r.completion, r.cost) }

  function Add(t: Totals, r: Record): Totals { Merge(t, One(r)) }

  function Finish(g: Group): Totals {
    if g.unmetered && !g.separate then Add(g.totals, UNKNOWN) else g.totals
  }

  // ----- One pass over the events -----

  function GroupOf(e: MessageEvent): Id { if e.turn.Some? then e.turn.value else e.id }

  function Groups(events: seq<MessageEvent>): set<Id> { set e | e in events :: GroupOf(e) }

  /** Everything recorded for the given turns, in log order. */
  function Metered(events: seq<MessageEvent>, turns: set<Id>): seq<Record> {
    if events == [] then []
    else
      var earlier, e := Metered(events[..|events| - 1], turns), events[|events| - 1];
      if e.usage.Some? && GroupOf(e) in turns then earlier + [e.usage.value] else earlier
  }

  function OfModel(events: seq<MessageEvent>, model: Model): seq<Record> {
    if events == [] then []
    else
      var earlier, e := OfModel(events[..|events| - 1], model), events[|events| - 1];
      if e.usage.Some? && e.usage.value.model == model then earlier + [e.usage.value] else earlier
  }

  predicate UnmeteredText(events: seq<MessageEvent>, turn: Id) {
    exists e :: e in events && GroupOf(e) == turn && e.usage.None? && e.assistant
  }

  predicate SeparateUsage(events: seq<MessageEvent>, turn: Id) {
    exists e :: e in events && GroupOf(e) == turn && e.usage.Some? && e.empty
  }

  /** Turns that hold assistant text without usage and no separate usage event. */
  function Unmetered(events: seq<MessageEvent>, turns: set<Id>): set<Id> {
    set g | g in turns && UnmeteredText(events, g) && !SeparateUsage(events, g)
  }

  function Tally(records: seq<Record>): Totals {
    if records == [] then ZERO else Add(Tally(records[..|records| - 1]), records[|records| - 1])
  }

  function Blanks(n: nat): Totals { if n == 0 then ZERO else Totals(n, None, None, None, None) }

  /** The sum for a set of turns, in one pass over the events. */
  function Expected(events: seq<MessageEvent>, turns: set<Id>): Totals {
    Merge(Tally(Metered(events, turns)), Blanks(|Unmetered(events, turns)|))
  }

  // ----- Partial sums form a commutative monoid -----

  predicate Normal(t: Totals) { t.records == 0 ==> t == ZERO }

  lemma {:induction false} MergeLaws(a: Totals, b: Totals, c: Totals)
    requires Normal(a) && Normal(b) && Normal(c)
    ensures Merge(a, b) == Merge(b, a) && Normal(Merge(a, b))
    ensures Merge(Merge(a, b), c) == Merge(a, Merge(b, c))
    ensures Merge(a, ZERO) == a && Merge(ZERO, a) == a
  {
  }

  lemma {:induction false} TallySnoc(records: seq<Record>, r: Record)
    ensures Tally(records + [r]) == Add(Tally(records), r)
  {
    assert (records + [r])[..|records|] == records;
  }

  lemma {:induction false} TallyNormal(records: seq<Record>)
    ensures Normal(Tally(records)) && Tally(records).records == |records|
  {
    if records != [] {
      TallyNormal(records[..|records| - 1]);
    }
  }

  lemma {:induction false} MergeExchange(a: Totals, b: Totals, x: Totals, y: Totals)
    requires Normal(a) && Normal(b) && Normal(x) && Normal(y)
    ensures Merge(Merge(a, b), Merge(x, y)) == Merge(Merge(a, x), Merge(b, y))
  {
    MergeLaws(a, b, Merge(x, y));
    MergeLaws(b, x, y);
    MergeLaws(x, b, y);
    MergeLaws(a, x, Merge(b, y));
    MergeLaws(x, y, y);
    MergeLaws(b, y, y);
  }

  /** What one event adds to the sum of the given turns. */
  function Due(e: MessageEvent, turns: set<Id>): Totals {
    if e.usage.Some? && GroupOf(e) in turns then One(e.usage.value) else ZERO
  }

  lemma {:induction false} MeteredSnoc(events: seq<MessageEvent>, e: MessageEvent, turns: set<Id>)
    ensures Tally(Metered(events + [e], turns)) == Merge(Tally(Metered(events, turns)), Due(e, turns))
  {
    assert (events + [e])[..|events|] == events;
    if e.usage.Some? {
      TallySnoc(Metered(events, turns), e.usage.value);
    }
  }

  /** Turns can be summed separately, although their events are interleaved in the log. */
  lemma {:induction false} TurnsSumSeparately(events: seq<MessageEvent>, turns: set<Id>, g: Id)
    requires g !in turns
    ensures Tally(Metered(events, turns + {g})) == Merge(Tally(Metered(events, turns)), Tally(Metered(events, {g})))
  {
    if events != [] {
      var init, e := events[..|events| - 1], events[|events| - 1];
      assert events == init + [e];
      TurnsSumSeparately(init, turns, g);
      MeteredSnoc(init, e, turns);
      MeteredSnoc(init, e, {g});
      MeteredSnoc(init, e, turns + {g});
      TallyNormal(Metered(init, turns));
      TallyNormal(Metered(init, {g}));
      MergeExchange(Tally(Metered(init, turns)), Tally(Metered(init, {g})), Due(e, turns), Due(e, {g}));
      assert Due(e, turns + {g}) == Merge(Due(e, turns), Due(e, {g}));
    }
  }

  lemma {:induction false} BlanksMerge(m: nat, n: nat)
    ensures Merge(Blanks(m), Blanks(n)) == Blanks(m + n)
  {
  }

  lemma {:induction false} UnmeteredSplits(events: seq<MessageEvent>, turns: set<Id>, g: Id)
    requires g !in turns
    ensures |Unmetered(events, turns + {g})| == |Unmetered(events, turns)| + |Unmetered(events, {g})|
  {
    assert Unmetered(events, turns + {g}) == Unmetered(events, turns) + Unmetered(events, {g});
    assert Unmetered(events, turns) !! Unmetered(events, {g});
  }

  lemma {:induction false} ExpectedSplits(events: seq<MessageEvent>, turns: set<Id>, g: Id)
    requires g !in turns
    ensures Expected(events, turns + {g}) == Merge(Expected(events, turns), Expected(events, {g}))
  {
    TurnsSumSeparately(events, turns, g);
    TallyNormal(Metered(events, turns));
    TallyNormal(Metered(events, {g}));
    UnmeteredSplits(events, turns, g);
    var m, n := |Unmetered(events, turns)|, |Unmetered(events, {g})|;
    BlanksMerge(m, n);
    MergeExchange(Tally(Metered(events, turns)), Tally(Metered(events, {g})), Blanks(m), Blanks(n));
  }

  lemma {:induction false} ExpectedEmpty(events: seq<MessageEvent>)
    ensures Expected(events, {}) == ZERO
  {
    NothingMetered(events, {});
    assert Unmetered(events, {}) == {};
  }

  lemma {:induction false} NothingMetered(events: seq<MessageEvent>, turns: set<Id>)
    requires Groups(events) !! turns
    ensures Metered(events, turns) == []
  {
    if events != [] {
      assert events[|events| - 1] in events;
      assert GroupOf(events[|events| - 1]) in Groups(events);
      NothingMetered(events[..|events| - 1], turns);
    }
  }

  lemma {:induction false} AbsentTurn(events: seq<MessageEvent>, g: Id)
    requires g !in Groups(events)
    ensures Expected(events, {g}) == ZERO
  {
    NothingMetered(events, {g});
    assert Unmetered(events, {g}) == {};
  }

  // ----- What the maps mean -----

  ghost predicate GroupMeans(group: Group, events: seq<MessageEvent>, g: Id) {
    && group.totals == Tally(Metered(events, {g}))
    && group.unmetered == UnmeteredText(events, g)
    && group.separate == SeparateUsage(events, g)
  }

  function WithEvent(group: Group, e: MessageEvent): Group {
    if e.usage.Some? then Group(Add(group.totals, e.usage.value), group.unmetered, group.separate || e.empty)
    else Group(group.totals, group.unmetered || e.assistant, group.separate)
  }

  /** A turn's group, from its events in log order. */
  function GroupFrom(events: seq<MessageEvent>, g: Id): Group {
    if events == [] then Group(ZERO, false, false)
    else
      var earlier, e := GroupFrom(events[..|events| - 1], g), events[|events| - 1];
      if GroupOf(e) == g then WithEvent(earlier, e) else earlier
  }

  ghost predicate GroupsMean(groups: map<Id, Group>, events: seq<MessageEvent>) {
    groups.Keys == Groups(events) && forall g :: g in groups ==> groups[g] == GroupFrom(events, g)
  }

  ghost predicate ModelMeans(models: map<Model, Totals>, records: seq<Record>, m: Model) {
    if records == [] then m !in models else m in models && models[m] == Tally(records)
  }

  ghost predicate ModelsMean(models: map<Model, Totals>, events: seq<MessageEvent>) {
    forall m :: ModelMeans(models, OfModel(events, m), m)
  }

  lemma {:induction false} GroupFromMeans(events: seq<MessageEvent>, g: Id)
    ensures GroupMeans(GroupFrom(events, g), events, g)
  {
    if events != [] {
      var init, e := events[..|events| - 1], events[|events| - 1];
      GroupFromMeans(init, g);
      GroupStep(GroupFrom(init, g), init, e, g);
      assert events == init + [e];
    }
  }

  lemma {:induction false} NoEvents(events: seq<MessageEvent>, g: Id)
    requires g !in Groups(events)
    ensures GroupFrom(events, g) == Group(ZERO, false, false)
  {
    if events != [] {
      assert events[|events| - 1] in events;
      assert GroupOf(events[|events| - 1]) in Groups(events);
      NoEvents(events[..|events| - 1], g);
    }
  }

  lemma {:induction false} FinishMeans(events: seq<MessageEvent>, g: Id)
    ensures Finish(GroupFrom(events, g)) == Expected(events, {g})
  {
    GroupFromMeans(events, g);
    TallyNormal(Metered(events, {g}));
    if UnmeteredText(events, g) && !SeparateUsage(events, g) {
      assert Unmetered(events, {g}) == {g};
    } else {
      assert Unmetered(events, {g}) == {};
    }
  }

  // ----- Reading pages -----

  datatype Reply = Failed | Page(events: seq<MessageEvent>, more: bool)

  datatype UsageError = StorageFailed | CursorStuck

  datatype Reading = Reading(events: seq<MessageEvent>, error: Option<UsageError>)

  function LastId(events: seq<MessageEvent>): Option<Id> {
    if events == [] then None else Some(events[|events| - 1].id)
  }

  predicate Advances(cursor: Option<Id>, events: seq<MessageEvent>)
    requires events != []
  {
    cursor.None? || events[|events| - 1].id > cursor.value
  }

  /** What one refresh takes in, given the replies of the storage; a missing reply is a failure. */
  function Consumed(cursor: Option<Id>, replies: seq<Reply>): Reading
    decreases |replies|
  {
    if replies == [] || replies[0].Failed? then Reading([], Some(StorageFailed))
    else if replies[0].events == [] then Reading([], None)
    else if !Advances(cursor, replies[0].events) then Reading([], Some(CursorStuck))
    else if !replies[0].more then Reading(replies[0].events, None)
    else
      var rest := Consumed(LastId(replies[0].events), replies[1..]);
      Reading(replies[0].events + rest.events, rest.error)
  }

  // ----- The tracker -----

  class UsageTracker {
    var cursor: Option<Id>
    var groups: map<Id, Group>
    var models: map<Model, Totals>
    var total: Totals
    ghost var events: seq<MessageEvent>

    ghost predicate Valid()
      reads this
    {
      cursor == LastId(events) && GroupsMean(groups, events) && ModelsMean(models, events)
    }

    constructor ()
      ensures Valid() && events == [] && total == ZERO
    {
      cursor, groups, models, total, events := None, map[], map[], ZERO, [];
    }

    method Absorb(e: MessageEvent)
      requires Valid()
      modifies this
      ensures Valid() && events == old(events) + [e] && total == old(total)
    {
      var g := GroupOf(e);
      var group := if g in groups then groups[g] else Group(ZERO, false, false);
      OneMoreGroup(groups, events, e, group);
      OneMoreModel(models, events, e);
      if e.usage.Some? {
        var usage := e.usage.value;
        models := models[usage.model := Add(if usage.model in models then models[usage.model] else ZERO, usage)];
        group := Group(Add(group.totals, usage), group.unmetered, group.separate || e.empty);
      } else {
        group := Group(group.totals, group.unmetered || e.assistant, group.separate);
      }
      groups := groups[g := group];
      cursor := Some(e.id);
      events := events + [e];
    }

    /** Read the replies; what was read before a failure is kept. */
    method ReadPages(replies: seq<Reply>) returns (error: Option<UsageError>)
      requires Valid()
      modifies this
      ensures Valid() && total == old(total)
      ensures events == old(events) + Consumed(old(cursor), replies).events
      ensures error == Consumed(old(cursor), replies).error
    {
      var i := 0;
      while true
        invariant i <= |replies| && Valid() && total == old(total)
        invariant old(events) + Consumed(old(cursor), replies).events == events + Consumed(cursor, replies[i..]).events
        invariant Consumed(old(cursor), replies).error == Consumed(cursor, replies[i..]).error
        decreases |replies| - i
      {
        if i == |replies| || replies[i].Failed? { return Some(StorageFailed); }
        var page := replies[i];
        if page.events == [] { return None; }
        if !Advances(cursor, page.events) { return Some(CursorStuck); }
        ghost var before := events;
        for k := 0 to |page.events|
          invariant Valid() && total == old(total) && events == before + page.events[..k]
        {
          Absorb(page.events[k]);
          assert page.events[..k + 1] == page.events[..k] + [page.events[k]];
        }
        assert page.events[..|page.events|] == page.events;
        assert replies[i..][1..] == replies[i + 1..];
        if !page.more { return None; }
        i := i + 1;
      }
    }

    /**
     After a refresh that succeeds, the total is the one-pass sum over everything read so far, and the
     result is the one-pass sum of the asked turn, in whatever order the turns are visited.
     */
    method Refresh(replies: seq<Reply>, turn: Option<Id>) returns (r: Result<Totals, UsageError>)
      requires Valid()
      modifies this
      ensures Valid() && events == old(events) + Consumed(old(cursor), replies).events
      ensures r.Success? <==> Consumed(old(cursor), replies).error.None?
      ensures r.Failure? ==> total == old(total) && Consumed(old(cursor), replies).error == Some(r.error)
      ensures r.Success? ==> total == Expected(events, Groups(events))
      ensures r.Success? ==> r.value == if turn.Some? then Expected(events, {turn.value}) else ZERO
    {
      var error := ReadPages(replies);
      if error.Some? { return Failure(error.value); }
      var result;
      total, result := SumGroups(groups, turn, events);
      if turn.Some? { TurnMeans(groups, events, turn); }
      r := Success(result);
    }
  }

  lemma {:induction false} OneMoreTurn(groups: map<Id, Group>, events: seq<MessageEvent>, done: set<Id>, id: Id)
    requires GroupsMean(groups, events) && id in groups && id !in done
    ensures Merge(Expected(events, done), Finish(groups[id])) == Expected(events, done + {id})
  {
    FinishMeans(events, id);
    ExpectedSplits(events, done, id);
  }

  lemma {:induction false} TurnMeans(groups: map<Id, Group>, events: seq<MessageEvent>, turn: Option<Id>)
    requires GroupsMean(groups, events) && turn.Some?
    ensures Expected(events, {turn.value}) == if turn.value in groups then Finish(groups[turn.value]) else ZERO
  {
    if turn.value in groups {
      FinishMeans(events, turn.value);
    } else {
      AbsentTurn(events, turn.value);
    }
  }

  /** Merge the turns in no particular order. */
  method SumGroups(groups: map<Id, Group>, turn: Option<Id>, ghost events: seq<MessageEvent>)
    returns (sum: Totals, result: Totals)
    requires GroupsMean(groups, events)
    ensures sum == Expected(events, groups.Keys)
    ensures result == if turn.Some? && turn.value in groups then Finish(groups[turn.value]) else ZERO
  {
    result, sum := ZERO, ZERO;
    var rest, done := groups.Keys, {};
    ExpectedEmpty(events);
    while rest != {}
      invariant rest == groups.Keys - done && done <= groups.Keys
      invariant sum == Expected(events, done)
      invariant result == if turn.Some? && turn.value in done then Finish(groups[turn.value]) else ZERO
      decreases |rest|
    {
      var id :| id in rest;
      OneMoreTurn(groups, events, done, id);
      var totals := Finish(groups[id]);
      sum := Merge(sum, totals);
      if turn == Some(id) { result := totals; }
      rest, done := rest - {id}, done + {id};
    }
    assert done == groups.Keys;
  }

  lemma {:induction false} SnocFacts(events: seq<MessageEvent>, e: MessageEvent, g: Id)
    ensures UnmeteredText(events + [e], g) <==>
      UnmeteredText(events, g) || (GroupOf(e) == g && e.usage.None? && e.assistant)
    ensures SeparateUsage(events + [e], g) <==>
      SeparateUsage(events, g) || (GroupOf(e) == g && e.usage.Some? && e.empty)
  {
    assert (events + [e])[..|events|] == events;
    assert forall x :: x in events + [e] <==> x in events || x == e;
  }

  lemma {:induction false} GroupStep(group: Group, events: seq<MessageEvent>, e: MessageEvent, g: Id)
    requires GroupMeans(group, events, g)
    ensures GroupMeans(if g == GroupOf(e) then WithEvent(group, e) else group, events + [e], g)
  {
    SnocFacts(events, e, g);
    MeteredSnoc(events, e, {g});
    TallyNormal(Metered(events, {g}));
  }

  lemma {:induction false} GroupsSnoc(events: seq<MessageEvent>, e: MessageEvent)
    ensures Groups(events + [e]) == Groups(events) + {GroupOf(e)}
  {
    assert forall x :: x in events + [e] <==> x in events || x == e;
  }

  lemma {:induction false} OneMoreGroup(groups: map<Id, Group>, events: seq<MessageEvent>, e: MessageEvent,
      group: Group)
    requires GroupsMean(groups, events)
    requires group == if GroupOf(e) in groups then groups[GroupOf(e)] else Group(ZERO, false, false)
    ensures GroupsMean(groups[GroupOf(e) := WithEvent(group, e)], events + [e])
  {
    assert (events + [e])[..|events|] == events;
    GroupsSnoc(events, e);
    if GroupOf(e) !in groups {
      NoEvents(events, GroupOf(e));
    }
  }

  lemma {:induction false} OneMoreModel(models: map<Model, Totals>, events: seq<MessageEvent>, e: MessageEvent)
    requires ModelsMean(models, events)
    ensures e.usage.None? ==> ModelsMean(models, events + [e])
    ensures e.usage.Some? ==>
      var m := e.usage.value.model;
      ModelsMean(models[m := Add(if m in models then models[m] else ZERO, e.usage.value)], events + [e])
  {
    assert (events + [e])[..|events|] == events;
    if e.usage.Some? {
      var r := e.usage.value;
      TallySnoc(OfModel(events, r.model), r);
      var after := models[r.model := Add(if r.model in models then models[r.model] else ZERO, r)];
      forall m ensures ModelMeans(after, OfModel(events + [e], m), m) {
        assert ModelMeans(models, OfModel(events, m), m);
      }
    } else {
      forall m ensures ModelMeans(models, OfModel(events + [e], m), m) {
        assert ModelMeans(models, OfModel(events, m), m);
      }
    }
  }

  // ----- What a total means -----

  function SumInt(values: seq<Option<int>>): int {
    if values == [] then 0
    else SumInt(values[..|values| - 1]) + if values[|values| - 1].Some? then values[|values| - 1].value else 0
  }

  function SumReal(values: seq<Option<real>>): real {
    if values == [] then 0.0
    else SumReal(values[..|values| - 1]) + if values[|values| - 1].Some? then values[|values| - 1].value else 0.0
  }

  function Column<T>(records: seq<Record>, field: Record -> Option<T>): seq<Option<T>> {
    seq(|records|, i requires 0 <= i < |records| => field(records[i]))
  }

  /** A field is known when there is a record and every record has it, and then it is their sum. */
  ghost predicate IntMeans(field: Option<int>, values: seq<Option<int>>) {
    && (field.Some? <==> values != [] && forall i :: 0 <= i < |values| ==> values[i].Some?)
    && (field.Some? ==> field.value == SumInt(values))
  }

  ghost predicate RealMeans(field: Option<real>, values: seq<Option<real>>) {
    && (field.Some? <==> values != [] && forall i :: 0 <= i < |values| ==> values[i].Some?)
    && (field.Some? ==> field.value == SumReal(values))
  }

  ghost predicate TotalsMean(t: Totals, records: seq<Record>) {
    && t.records == |records|
    && IntMeans(t.prompt, Column(records, (r: Record) => r.prompt))
    && IntMeans(t.cached, Column(records, (r: Record) => r.cached))
    && IntMeans(t.completion, Column(records, (r: Record) => r.completion))
    && RealMeans(t.cost, Column(records, (r: Record) => r.cost))
  }

  lemma {:induction false} IntMeansSnoc(field: Option<int>, records: seq<Record>, r: Record, f: Record -> Option<int>)
    requires IntMeans(field, Column(records, f))
    ensures IntMeans(if records == [] then f(r) else PlusInt(field, f(r)), Column(records + [r], f))
  {
    var values := Column(records + [r], f);
    assert values[..|records|] == Column(records, f);
    assert values[|records|] == f(r);
    assert forall i :: 0 <= i < |records| ==> values[i] == Column(records, f)[i];
  }

  lemma {:induction false} RealMeansSnoc(field: Option<real>, records: seq<Record>, r: Record,
      f: Record -> Option<real>)
    requires RealMeans(field, Column(records, f))
    ensures RealMeans(if records == [] then f(r) else PlusReal(field, f(r)), Column(records + [r], f))
  {
    var values := Column(records + [r], f);
    assert values[..|records|] == Column(records, f);
    assert values[|records|] == f(r);
    assert forall i :: 0 <= i < |records| ==> values[i] == Column(records, f)[i];
  }

  lemma {:induction false} TallyMeans(records: seq<Record>)
    ensures TotalsMean(Tally(records), records)
  {
    if records != [] {
      var init, r := records[..|records| - 1], records[|records| - 1];
      TallyMeans(init);
      TallyNormal(init);
      var t := Tally(init);
      assert records == init + [r];
      IntMeansSnoc(t.prompt, init, r, (r: Record) => r.prompt);
      IntMeansSnoc(t.cached, init, r, (r: Record) => r.cached);
      IntMeansSnoc(t.completion, init, r, (r: Record) => r.completion);
      RealMeansSnoc(t.cost, init, r, (r: Record) => r.cost);
    }
  }

  // ----- The totals, read off the events alone -----

  /** The event belongs to this turn; an event without a turn stands for itself. */
  predicate Belongs(e: MessageEvent, t: Id) { e.turn == Some(t) || (e.turn.None? && e.id == t) }

  function TurnsOf(events: seq<MessageEvent>): set<Id> {
    (set e | e in events && e.turn.Some? :: e.turn.value) + (set e | e in events && e.turn.None? :: e.id)
  }

  /** The turn holds assistant text without usage, and no event that carries only usage. */
  predicate HoleAt(events: seq<MessageEvent>, t: Id) {
    && (exists e :: e in events && Belongs(e, t) && e.usage.None? && e.assistant)
    && !(exists e :: e in events && Belongs(e, t) && e.usage.Some? && e.empty)
  }

  function Holes(events: seq<MessageEvent>): set<Id> { set t | t in TurnsOf(events) && HoleAt(events, t) }

  /** The usage recorded for one turn, in log order. */
  function TurnUsage(events: seq<MessageEvent>, t: Id): seq<Record> {
    if events == [] then []
    else
      var earlier, e := TurnUsage(events[..|events| - 1], t), events[|events| - 1];
      if e.usage.Some? && Belongs(e, t) then earlier + [e.usage.value] else earlier
  }

  lemma {:induction false} GroupOfMeans(e: MessageEvent, t: Id)
    ensures GroupOf(e) == t <==> Belongs(e, t)
  {
  }

  lemma {:induction false} HolesAreUnmetered(events: seq<MessageEvent>)
    ensures Groups(events) == TurnsOf(events) && Unmetered(events, Groups(events)) == Holes(events)
    ensures forall t :: UnmeteredText(events, t) && !SeparateUsage(events, t) <==> HoleAt(events, t)
  {
    forall e: MessageEvent, t: Id ensures GroupOf(e) == t <==> Belongs(e, t) {
      GroupOfMeans(e, t);
    }
  }

  lemma {:induction false} TurnUsageIsMetered(events: seq<MessageEvent>, t: Id)
    ensures Metered(events, {t}) == TurnUsage(events, t)
  {
    if events != [] {
      TurnUsageIsMetered(events[..|events| - 1], t);
      GroupOfMeans(events[|events| - 1], t);
    }
  }

  /** Every field is unknown. */
  predicate AllUnknown(t: Totals) { t.prompt.None? && t.cached.None? && t.completion.None? && t.cost.None? }

  /**
   The total after a refresh: it counts every record and every hole; its fields are known exactly
   when there is no hole and every record, of which there is at least one, has the field.
   */
  lemma {:induction false} TotalMeans(events: seq<MessageEvent>)
    ensures var t, all, holes := Expected(events, Groups(events)), AllMetered(events), Holes(events);
      && t.records == |all| + |holes|
      && (if holes == {} then TotalsMean(t, all) else AllUnknown(t))
  {
    HolesAreUnmetered(events);
    EveryTurn(events, Groups(events));
    TallyMeans(AllMetered(events));
    TallyNormal(AllMetered(events));
    if Holes(events) != {} {
      assert |Holes(events)| > 0;
    }
  }

  /** What a refresh returns for one turn: its own records, and an unknown one when the turn is a hole. */
  lemma {:induction false} TurnResultMeans(events: seq<MessageEvent>, t: Id)
    ensures var r, own := Expected(events, {t}), TurnUsage(events, t);
      if HoleAt(events, t) then r.records == |own| + 1 && AllUnknown(r) else TotalsMean(r, own)
  {
    HolesAreUnmetered(events);
    TurnUsageIsMetered(events, t);
    TallyMeans(TurnUsage(events, t));
    TallyNormal(TurnUsage(events, t));
    assert Unmetered(events, {t}) == if HoleAt(events, t) then {t} else {};
  }

  function AllMetered(events: seq<MessageEvent>): seq<Record> {
    if events == [] then []
    else
      var earlier, e := AllMetered(events[..|events| - 1]), events[|events| - 1];
      if e.usage.Some? then earlier + [e.usage.value] else earlier
  }

  lemma {:induction false} EveryTurn(events: seq<MessageEvent>, turns: set<Id>)
    requires Groups(events) <= turns
    ensures Metered(events, turns) == AllMetered(events)
  {
    if events != [] {
      var init, e := events[..|events| - 1], events[|events| - 1];
      assert e in events;
      assert GroupOf(e) in Groups(events);
      assert forall x :: x in init ==> x in events;
      EveryTurn(init, turns);
    }
  }

  // ----- Any split into refreshes and pages -----

  ghost predicate Increasing(log: seq<MessageEvent>) {
    forall i, j :: 0 <= i < j < |log| ==> log[i].id < log[j].id
  }

  /** The pages hold, one after the other, the events of the log after its first `n`. */
  ghost predicate PagesOf(log: seq<MessageEvent>, n: nat, replies: seq<Reply>)
    decreases |replies|
  {
    replies != [] && replies[0].Page? ==>
      && n + |replies[0].events| <= |log|
      && replies[0].events == log[n..n + |replies[0].events|]
      && PagesOf(log, n + |replies[0].events|, replies[1..])
  }

  lemma {:induction false} PagesContinue(log: seq<MessageEvent>, n: nat, replies: seq<Reply>)
    requires Increasing(log) && n <= |log| && PagesOf(log, n, replies)
    ensures var r := Consumed(LastId(log[..n]), replies);
      n + |r.events| <= |log| && r.events == log[n..n + |r.events|] && r.error != Some(CursorStuck)
    decreases |replies|
  {
    if replies != [] && replies[0].Page? && replies[0].events != [] {
      var m := n + |replies[0].events|;
      assert log[n..m][m - n - 1] == log[m - 1] == log[..m][m - 1];
      assert LastId(log[..m]) == LastId(replies[0].events);
      if replies[0].more {
        PagesContinue(log, m, replies[1..]);
        var rest := Consumed(LastId(replies[0].events), replies[1..]);
        assert log[n..m] + log[m..m + |rest.events|] == log[n..m + |rest.events|];
      }
    }
  }

  /** Everything read by a series of refreshes, whether they fail or not. */
  function ReadBy(refreshes: seq<seq<Reply>>): seq<MessageEvent> {
    if refreshes == [] then []
    else
      var before := ReadBy(refreshes[..|refreshes| - 1]);
      before + Consumed(LastId(before), refreshes[|refreshes| - 1]).events
  }

  /** The storage answers every refresh from the log, starting behind what has been read. */
  ghost predicate ServedFrom(log: seq<MessageEvent>, refreshes: seq<seq<Reply>>) {
    refreshes != [] ==>
      && ServedFrom(log, refreshes[..|refreshes| - 1])
      && PagesOf(log, |ReadBy(refreshes[..|refreshes| - 1])|, refreshes[|refreshes| - 1])
  }

  /**
   However the log is split into refreshes and pages, and wherever a refresh fails, a prefix of the
   log has been read once.
   */
  lemma {:induction false} SplitsAgree(log: seq<MessageEvent>, refreshes: seq<seq<Reply>>)
    requires Increasing(log) && ServedFrom(log, refreshes)
    ensures |ReadBy(refreshes)| <= |log| && ReadBy(refreshes) == log[..|ReadBy(refreshes)|]
  {
    if refreshes != [] {
      var init := refreshes[..|refreshes| - 1];
      SplitsAgree(log, init);
      var n := |ReadBy(init)|;
      PagesContinue(log, n, refreshes[|refreshes| - 1]);
      var read := Consumed(LastId(log[..n]), refreshes[|refreshes| - 1]).events;
      assert log[..n] + log[n..n + |read|] == log[..n + |read|];
    }
  }

  // ----- What a refresh takes in -----

  function Flat(replies: seq<Reply>): seq<MessageEvent> {
    if replies == [] then []
    else
      var earlier := Flat(replies[..|replies| - 1]);
      match replies[|replies| - 1] case Page(events, _) => earlier + events case Failed => earlier
  }

  lemma {:induction false} FlatCons(replies: seq<Reply>)
    requires replies != [] && replies[0].Page?
    ensures Flat(replies) == replies[0].events + Flat(replies[1..])
  {
    if |replies| == 1 {
      assert replies[..0] == [] && replies[1..] == [];
    } else {
      var init := replies[..|replies| - 1];
      FlatCons(init);
      assert init[1..] == replies[1..][..|replies| - 2];
      assert replies[1..][|replies| - 2] == replies[|replies| - 1];
    }
  }

  /** The page was read: it holds events, and the last of them is newer than everything read before. */
  ghost predicate Taken(cursor: Option<Id>, replies: seq<Reply>, i: nat)
    requires i < |replies|
  {
    && replies[i].Page? && replies[i].events != []
    && Newer(if i == 0 then cursor else LastOf(replies[i - 1]), replies[i].events[|replies[i].events| - 1].id)
  }

  predicate Newer(cursor: Option<Id>, id: Id) { cursor.None? || cursor.value < id }

  function LastOf(r: Reply): Option<Id> {
    if r.Page? && r.events != [] then Some(r.events[|r.events| - 1].id) else None
  }

  /** Why reading stops after `n` pages: no reply or a failure, an empty or last page, or a page that does not go on. */
  ghost predicate StopsAfter(cursor: Option<Id>, replies: seq<Reply>, n: nat, error: Option<UsageError>)
    requires n <= |replies|
  {
    if n > 0 && replies[n - 1].Page? && !replies[n - 1].more then error == None
    else if n == |replies| || replies[n].Failed? then error == Some(StorageFailed)
    else if replies[n].events == [] then error == None
    else error == Some(CursorStuck) && !Taken(cursor, replies, n)
  }

  /** The first `n` pages were read, each but the last saying that there is more. */
  ghost predicate Reads(cursor: Option<Id>, replies: seq<Reply>, n: nat)
    requires n <= |replies|
  {
    forall i :: 0 <= i < n ==> Taken(cursor, replies, i) && (i < n - 1 ==> replies[i].more)
  }

  lemma {:induction false} ReadsShift(cursor: Option<Id>, replies: seq<Reply>, m: nat)
    requires m < |replies| && Taken(cursor, replies, 0) && replies[0].more && Reads(LastOf(replies[0]), replies[1..], m)
    ensures Reads(cursor, replies, m + 1)
  {
    forall i | 0 <= i < m + 1 ensures Taken(cursor, replies, i) && (i < m ==> replies[i].more) {
      if i > 0 {
        assert Taken(LastOf(replies[0]), replies[1..], i - 1);
        assert replies[1..][i - 1] == replies[i];
      }
    }
  }

  lemma {:induction false} StopsShift(cursor: Option<Id>, replies: seq<Reply>, m: nat, error: Option<UsageError>)
    requires m < |replies| && Taken(cursor, replies, 0) && replies[0].more
    requires StopsAfter(LastOf(replies[0]), replies[1..], m, error)
    ensures StopsAfter(cursor, replies, m + 1, error)
  {
    assert m + 1 < |replies| ==> replies[1..][m] == replies[m + 1];
    assert m > 0 ==> replies[1..][m - 1] == replies[m];
  }

  /** A refresh takes in whole pages, one after the other, as long as each says that there is more. */
  lemma {:induction false} ConsumedExact(cursor: Option<Id>, replies: seq<Reply>) returns (n: nat)
    ensures n <= |replies| && Consumed(cursor, replies).events == Flat(replies[..n])
    ensures Reads(cursor, replies, n) && StopsAfter(cursor, replies, n, Consumed(cursor, replies).error)
    decreases |replies|
  {
    n := 0;
    if replies != [] && replies[0].Page? && replies[0].events != [] && Advances(cursor, replies[0].events) {
      if replies[0].more {
        var m := ConsumedExact(LastOf(replies[0]), replies[1..]);
        n := m + 1;
        ReadsShift(cursor, replies, m);
        StopsShift(cursor, replies, m, Consumed(cursor, replies).error);
        FlatCons(replies[..n]);
        assert replies[..n][1..] == replies[1..][..m];
      } else {
        n := 1;
        FlatCons(replies[..1]);
        assert replies[..1][1..] == [];
      }
    }
  }
}
