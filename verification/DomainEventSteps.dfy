/**
 What each step of saving, dispatching and handling does, and how steps follow on one another: an exception ends
 everything that it runs in, and what comes before it stands.
 */
module DomainEventSteps {
  import opened DomainEvents
  import opened DomainEventProofs

  // ---------- Single steps ----------

  /** A save whose commit fails throws, and leaves lists and histories as they were. */
  lemma FailingSaveThrows(s: State)
    ensures Saved(s, false).threw
    ensures var r := Saved(s, false).state;
            r.pending == s.pending && r.registered == s.registered && r.published == s.published && r.cutOff == s.cutOff
  {
  }

  /** Nothing of a handler is carried out after a save that fails, or after a throw of its own. */
  lemma HandlerEndsAtException(s: State, rest: seq<Action>)
    ensures Handled(s, [Save(false)] + rest) == Outcome(s, true)
    ensures Handled(s, [Throw] + rest) == Outcome(s, true)
  {
  }

  /** A handler that registers an event appends it to the list of the entity, if the context tracks that. */
  lemma RegisteringAppends(s: State, k: nat, e: Event)
    ensures !Handled(s, [Register(k, e)]).threw
    ensures var r := Handled(s, [Register(k, e)]).state;
            && r.published == s.published && r.cutOff == s.cutOff && |r.pending| == |s.pending|
            && (k >= |s.pending| ==> r == s)
            && (k < |s.pending| ==>
                  && r.pending[k] == s.pending[k] + [e] && r.registered == s.registered + [Occurrence(k, e)]
                  && forall j | 0 <= j < |s.pending| && j != k :: r.pending[j] == s.pending[j])
  {
    assert [Register(k, e)][1..] == [];
  }

  /** A handler that saves does what a save does, exception included. */
  lemma SavingIsASave(s: State, commits: bool)
    ensures Handled(s, [Save(commits)]) == Saved(s, commits)
  {
    assert [Save(commits)][1..] == [];
  }

  /** An event is published before its handlers run, and ends as they do. */
  lemma PublishingRunsHandlers(s: State, k: nat, e: Event)
    ensures PublishedAll(s, k, [e]) ==
            Handled(State(s.pending, s.registered, s.published + [Occurrence(k, e)], s.cutOff), e.handler)
  {
    var s1 := s.(published := s.published + [Occurrence(k, e)]);
    var o := Handled(s1, e.handler);
    assert [e][1..] == [] && s1 == State(s.pending, s.registered, s.published + [Occurrence(k, e)], s.cutOff);
    assert o.state.cutOff + Occurrences(k, []) == o.state.cutOff;
  }

  /** Dispatching to one entity empties its list first, and publishes what stood there. */
  lemma DispatchingEmptiesTheList(s: State, k: nat)
    requires k < |s.pending|
    ensures Dispatched(s, [k]) ==
            PublishedAll(State(s.pending[k := []], s.registered, s.published, s.cutOff), k, s.pending[k])
  {
    assert [k][1..] == [];
    PendingSizeUpdate(s.pending, k, []);
  }

  /** A save that commits dispatches to the entities that have events at that moment, in tracker order. */
  lemma CommittedSaveDispatches(s: State, entities: seq<nat>)
    requires Ascending(entities)
    requires forall k: nat :: k in entities <==> k < |s.pending| && s.pending[k] != []
    ensures forall i | 0 <= i < |entities| :: entities[i] < |s.pending|
    ensures Saved(s, true) == Dispatched(s, entities)
  {
    forall i | 0 <= i < |entities| ensures entities[i] < |s.pending| { assert entities[i] in entities; }
    WithEventsAscend(s.pending);
    SameAscending(entities, WithEvents(s.pending));
  }

  lemma {:induction false} SameAscending(a: seq<nat>, b: seq<nat>)
    requires Ascending(a) && Ascending(b) && forall k: nat :: k in a <==> k in b
    ensures a == b
    decreases |a|
  {
    assert (a != [] ==> a[0] in b) && (b != [] ==> b[0] in a);
    if a != [] {
      LastIsSame(a, b);
      var (c, d) := (a[..|a| - 1], b[..|b| - 1]);
      forall k: nat ensures k in c <==> k in d { InInit(a, k); InInit(b, k); }
      SameAscending(c, d);
    }
  }

  lemma LastIsSame(a: seq<nat>, b: seq<nat>)
    requires Ascending(a) && Ascending(b) && a != [] && b != [] && forall k: nat :: k in a <==> k in b
    ensures a[|a| - 1] == b[|b| - 1]
  {
    var (x, y) := (a[|a| - 1], b[|b| - 1]);
    assert x in a && y in b;
    var i :| 0 <= i < |a| && a[i] == y;
    var j :| 0 <= j < |b| && b[j] == x;
  }

  lemma InInit(a: seq<nat>, k: nat)
    requires Ascending(a) && a != []
    ensures k in a[..|a| - 1] <==> k in a && k != a[|a| - 1]
  {
    if k in a && k != a[|a| - 1] {
      var i :| 0 <= i < |a| && a[i] == k;
      assert a[..|a| - 1][i] == k;
    }
  }

  // ---------- One after the other ----------

  /** Two parts of a handler run one after the other, the second one only if the first did not throw. */
  lemma {:induction false} HandledInTurn(s: State, a: seq<Action>, b: seq<Action>)
    ensures var o := Handled(s, a); Handled(s, a + b) == if o.threw then o else Handled(o.state, b)
    decreases |a|
  {
    if a == [] {
      assert a + b == b;
    } else {
      assert (a + b)[0] == a[0] && (a + b)[1..] == a[1..] + b;
      match a[0]
      case Register(entity, e) => HandledInTurn(Registered(s, entity, e), a[1..], b);
      case Save(commits) =>
        var o := Saved(s, commits);
        if !o.threw { HandledInTurn(o.state, a[1..], b); }
      case Throw =>
    }
  }

  lemma CutOffMore(s: State, k: nat, a: seq<Event>, b: seq<Event>)
    ensures CutOff(CutOff(s, k, a), k, b) == CutOff(s, k, a + b)
  {
    assert Occurrences(k, a) + Occurrences(k, b) == Occurrences(k, a + b);
    assert s.cutOff + Occurrences(k, a) + Occurrences(k, b) == s.cutOff + Occurrences(k, a + b);
  }

  /** The copied events of an entity are published one after the other; once a handler has thrown, the others are not
      published at all. */
  lemma {:induction false} PublishedInTurn(s: State, k: nat, a: seq<Event>, b: seq<Event>)
    ensures var o := PublishedAll(s, k, a);
            PublishedAll(s, k, a + b) ==
              if o.threw then Outcome(CutOff(o.state, k, b), true) else PublishedAll(o.state, k, b)
    decreases |a|
  {
    if a == [] {
      assert a + b == b;
    } else {
      assert (a + b)[0] == a[0] && (a + b)[1..] == a[1..] + b;
      var o := Handled(s.(published := s.published + [Occurrence(k, a[0])]), a[0].handler);
      if o.threw { CutOffMore(o.state, k, a[1..], b); } else { PublishedInTurn(o.state, k, a[1..], b); }
    }
  }

  /** So are the entities: once a handler has thrown, the events of the others are left in their lists. */
  lemma {:induction false} DispatchedInTurn(s: State, a: seq<nat>, b: seq<nat>)
    requires forall i | 0 <= i < |a + b| :: (a + b)[i] < |s.pending|
    ensures (forall i | 0 <= i < |a| :: a[i] < |s.pending|) && (forall i | 0 <= i < |b| :: b[i] < |s.pending|)
    ensures var o := Dispatched(s, a); Dispatched(s, a + b) == if o.threw then o else Dispatched(o.state, b)
    decreases |a|
  {
    forall i | 0 <= i < |a| ensures a[i] < |s.pending| { assert (a + b)[i] == a[i]; }
    forall i | 0 <= i < |b| ensures b[i] < |s.pending| { assert (a + b)[|a| + i] == b[i]; }
    if a == [] {
      assert a + b == b;
    } else {
      assert (a + b)[0] == a[0] && (a + b)[1..] == a[1..] + b;
      var k := a[0];
      PendingSizeUpdate(s.pending, k, []);
      var o := PublishedAll(s.(pending := s.pending[k := []]), k, s.pending[k]);
      if !o.threw { DispatchedInTurn(o.state, a[1..], b); }
    }
  }

  // ---------- Handlers that do nothing ----------

  /** The events of these entities, entity by entity. */
  function EventsOf(pending: seq<seq<Event>>, entities: seq<nat>): seq<Occurrence>
    requires forall i | 0 <= i < |entities| :: entities[i] < |pending|
  {
    if entities == [] then []
    else Occurrences(entities[0], pending[entities[0]]) + EventsOf(pending, entities[1..])
  }

  lemma IdlePublishingOne(s: State, k: nat, events: seq<Event>)
    requires events != [] && events[0].handler == []
    ensures PublishedAll(s, k, events) ==
            PublishedAll(s.(published := s.published + [Occurrence(k, events[0])]), k, events[1..])
  {
  }

  lemma FirstOfOccurrences(history: seq<Occurrence>, k: nat, events: seq<Event>)
    requires events != []
    ensures history + [Occurrence(k, events[0])] + Occurrences(k, events[1..]) == history + Occurrences(k, events)
  {
    assert Occurrences(k, events) == [Occurrence(k, events[0])] + Occurrences(k, events[1..]);
  }

  lemma {:induction false} IdlePublishing(s: State, k: nat, events: seq<Event>)
    requires forall i | 0 <= i < |events| :: events[i].handler == []
    ensures PublishedAll(s, k, events) == Outcome(s.(published := s.published + Occurrences(k, events)), false)
    decreases |events|
  {
    if events == [] {
      assert s.published + Occurrences(k, events) == s.published;
    } else {
      IdlePublishingOne(s, k, events);
      IdlePublishing(s.(published := s.published + [Occurrence(k, events[0])]), k, events[1..]);
      FirstOfOccurrences(s.published, k, events);
    }
  }

  lemma {:induction false} EventsOfOthers(pending: seq<seq<Event>>, k: nat, entities: seq<nat>)
    requires k < |pending| && k !in entities && forall i | 0 <= i < |entities| :: entities[i] < |pending|
    ensures EventsOf(pending[k := []], entities) == EventsOf(pending, entities)
  {
    if entities != [] {
      assert entities[0] in entities;
      EventsOfOthers(pending, k, entities[1..]);
    }
  }

  predicate AllIdle(pending: seq<seq<Event>>) {
    forall k, i | 0 <= k < |pending| && 0 <= i < |pending[k]| :: pending[k][i].handler == []
  }

  /** The lists of these entities are empty, and the others as before. */
  predicate Emptied(before: seq<seq<Event>>, after: seq<seq<Event>>, entities: seq<nat>) {
    |after| == |before| && forall k | 0 <= k < |before| :: after[k] == if k in entities then [] else before[k]
  }

  lemma IdleDispatchingOne(s: State, entities: seq<nat>)
    requires entities != [] && forall i | 0 <= i < |entities| :: entities[i] < |s.pending|
    requires AllIdle(s.pending)
    ensures var k := entities[0];
            var r := s.(pending := s.pending[k := []], published := s.published + Occurrences(k, s.pending[k]));
            Dispatched(s, entities) == Dispatched(r, entities[1..]) && AllIdle(r.pending)
  {
    var k := entities[0];
    PendingSizeUpdate(s.pending, k, []);
    IdlePublishing(s.(pending := s.pending[k := []]), k, s.pending[k]);
  }

  predicate Dispatches(s: State, o: Outcome, entities: seq<nat>, events: seq<Occurrence>) {
    && !o.threw && o.state.published == s.published + events
    && o.state.registered == s.registered && o.state.cutOff == s.cutOff
    && Emptied(s.pending, o.state.pending, entities)
  }

  lemma {:induction false} IdleDispatching(s: State, entities: seq<nat>)
    requires Ascending(entities) && forall i | 0 <= i < |entities| :: entities[i] < |s.pending|
    requires AllIdle(s.pending)
    ensures Dispatches(s, Dispatched(s, entities), entities, EventsOf(s.pending, entities))
    decreases |entities|
  {
    if entities == [] {
      assert s.published + [] == s.published;
    } else {
      var k := entities[0];
      var r := s.(pending := s.pending[k := []], published := s.published + Occurrences(k, s.pending[k]));
      IdleDispatchingOne(s, entities);
      IdleDispatching(r, entities[1..]);
      EventsOfOthers(s.pending, k, entities[1..]);
      DispatchesFirst(s, Dispatched(s, entities), entities, Occurrences(k, s.pending[k]),
                      EventsOf(s.pending, entities[1..]));
    }
  }

  lemma DispatchesFirst(s: State, o: Outcome, entities: seq<nat>, first: seq<Occurrence>, rest: seq<Occurrence>)
    requires entities != [] && entities[0] < |s.pending|
    requires Dispatches(s.(pending := s.pending[entities[0] := []], published := s.published + first), o, entities[1..],
                        rest)
    ensures Dispatches(s, o, entities, first + rest)
  {
    EmptiedFirst(s.pending, o.state.pending, entities);
    assert s.published + first + rest == s.published + (first + rest);
  }

  lemma EmptiedFirst(before: seq<seq<Event>>, after: seq<seq<Event>>, entities: seq<nat>)
    requires entities != [] && entities[0] < |before| && Emptied(before[entities[0] := []], after, entities[1..])
    ensures Emptied(before, after, entities)
  {
    assert entities == [entities[0]] + entities[1..];
  }

  /** When the pending events' handlers do nothing, a save that commits publishes all of them, entity by entity in
      tracker order, and empties all lists. */
  lemma {:induction false} IdleSave(s: State, entities: seq<nat>)
    requires AllIdle(s.pending)
    requires Ascending(entities) && forall k: nat :: k in entities <==> k < |s.pending| && s.pending[k] != []
    ensures forall i | 0 <= i < |entities| :: entities[i] < |s.pending|
    ensures var o := Saved(s, true);
            && !o.threw && o.state.published == s.published + EventsOf(s.pending, entities)
            && o.state.registered == s.registered && o.state.cutOff == s.cutOff
            && forall k | 0 <= k < |s.pending| :: o.state.pending[k] == []
  {
    CommittedSaveDispatches(s, entities);
    IdleDispatching(s, entities);
  }
}
