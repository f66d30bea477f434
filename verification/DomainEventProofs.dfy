/** What re-entrant dispatching conserves, and that it publishes nothing twice. */
module DomainEventProofs {
  import opened DomainEvents

  // ---------- Conservation ----------

  /** How often the occurrence stands in the entity's live list. */
  function InLists(pending: seq<seq<Event>>, o: Occurrence): nat {
    if o.entity < |pending| then multiset(pending[o.entity])[o.event] else 0
  }

  /** What was registered and is not accounted for: neither published, nor pending, nor cut off. */
  function Missing(s: State, o: Occurrence): int {
    multiset(s.registered)[o] - multiset(s.published)[o] - InLists(s.pending, o) - multiset(s.cutOff)[o]
  }

  /** How often the occurrence stands in a copied list. */
  function Held(entity: nat, events: seq<Event>, o: Occurrence): nat {
    if o.entity == entity then multiset(events)[o.event] else 0
  }

  lemma CountCons<T>(xs: seq<T>, x: T)
    requires xs != []
    ensures multiset(xs)[x] == multiset(xs[1..])[x] + if xs[0] == x then 1 else 0
  {
    assert xs == [xs[0]] + xs[1..];
  }

  lemma {:induction false} OccurrencesHeld(entity: nat, events: seq<Event>, o: Occurrence)
    ensures multiset(Occurrences(entity, events))[o] == Held(entity, events, o)
  {
    if events != [] {
      OccurrencesHeld(entity, events[1..], o);
      CountCons(events, o.event);
      CountCons(Occurrences(entity, events), o);
      assert Occurrences(entity, events)[1..] == Occurrences(entity, events[1..]);
    }
  }

  lemma SavedConserves(s: State, commits: bool, o: Occurrence)
    ensures Missing(Saved(s, commits).state, o) == Missing(s, o)
    decreases PendingSize(s.pending), 2, 0
  {
    if commits { DispatchedConserves(s, WithEvents(s.pending), o); }
  }

  lemma {:induction false} DispatchedConserves(s: State, entities: seq<nat>, o: Occurrence)
    requires forall i | 0 <= i < |entities| :: entities[i] < |s.pending|
    ensures Missing(Dispatched(s, entities).state, o) == Missing(s, o)
    decreases PendingSize(s.pending), 1, |entities|
  {
    if entities != [] {
      var k := entities[0];
      PendingSizeUpdate(s.pending, k, []);
      var cleared := s.(pending := s.pending[k := []]);
      assert Missing(cleared, o) == Missing(s, o) + Held(k, s.pending[k], o);
      PublishedAllConserves(cleared, k, s.pending[k], o);
      var out := PublishedAll(cleared, k, s.pending[k]);
      if !out.threw { DispatchedConserves(out.state, entities[1..], o); }
    }
  }

  lemma PublishedAllConserves(s: State, entity: nat, events: seq<Event>, o: Occurrence)
    ensures Missing(PublishedAll(s, entity, events).state, o) == Missing(s, o) - Held(entity, events, o)
    decreases PendingSize(s.pending) + EventsSize(events), 0, |events|
  {
    if events != [] {
      assert events == [events[0]] + events[1..];
      OccurrencesHeld(entity, events[1..], o);
      var s1 := s.(published := s.published + [Occurrence(entity, events[0])]);
      HandledConserves(s1, events[0].handler, o);
      var out := Handled(s1, events[0].handler);
      if !out.threw { PublishedAllConserves(out.state, entity, events[1..], o); }
    }
  }

  lemma RegisteredConserves(s: State, entity: nat, e: Event, o: Occurrence)
    ensures Missing(Registered(s, entity, e), o) == Missing(s, o)
  {
  }

  lemma HandledConserves(s: State, actions: seq<Action>, o: Occurrence)
    ensures Missing(Handled(s, actions).state, o) == Missing(s, o)
    decreases PendingSize(s.pending) + ActionsSize(actions), 0, |actions|
  {
    if actions != [] {
      assert ActionsSize(actions) == ActionSize(actions[0]) + ActionsSize(actions[1..]);
      match actions[0]
      case Register(entity, e) =>
        RegisteredConserves(s, entity, e, o);
        HandledConserves(Registered(s, entity, e), actions[1..], o);
      case Save(commits) =>
        SavedConserves(s, commits, o);
        var out := Saved(s, commits);
        if !out.threw { HandledConserves(out.state, actions[1..], o); }
      case Throw =>
    }
  }

  /** The whole life of a context: the actions of the program around it, each of which may throw and be
      caught. */
  function Life(s: State, actions: seq<Action>): State {
    if actions == [] then s
    else Handled(Life(s, actions[..|actions| - 1]), [actions[|actions| - 1]]).state
  }

  function NewContext(tracked: nat): State {
    State(seq(tracked, _ => []), [], [], [])
  }

  /** In every state of a context's life, to whatever depth handlers register and save: each registered
      occurrence is published, pending, or cut off by a throw, and none of these more often than it was
      registered. */
  lemma {:induction false} EventsAreConserved(tracked: nat, actions: seq<Action>, o: Occurrence)
    ensures var s := Life(NewContext(tracked), actions);
            multiset(s.registered)[o] == multiset(s.published)[o] + InLists(s.pending, o) + multiset(s.cutOff)[o]
  {
    if actions != [] {
      var (before, last) := (actions[..|actions| - 1], actions[|actions| - 1]);
      EventsAreConserved(tracked, before, o);
      HandledConserves(Life(NewContext(tracked), before), [last], o);
    }
  }

  // ---------- No occurrence is published twice ----------

  function EventCount(e: Event, id: nat): nat
    decreases e
  {
    (if e.id == id then 1 else 0) + ActionsCount(e.handler, id)
  }

  /** How often the occurrence `id` stands anywhere in the trees. */
  function ActionsCount(actions: seq<Action>, id: nat): nat
    decreases actions
  {
    if actions == [] then 0 else ActionCount(actions[0], id) + ActionsCount(actions[1..], id)
  }

  function ActionCount(action: Action, id: nat): nat
    decreases action
  {
    match action
    case Register(_, e) => EventCount(e, id)
    case Save(_) => 0
    case Throw => 0
  }

  function EventsCount(events: seq<Event>, id: nat): nat {
    if events == [] then 0 else EventCount(events[0], id) + EventsCount(events[1..], id)
  }

  function PendingCount(pending: seq<seq<Event>>, id: nat): nat {
    if pending == [] then 0 else EventsCount(pending[0], id) + PendingCount(pending[1..], id)
  }

  function PublishedCount(published: seq<Occurrence>, id: nat): nat {
    if published == [] then 0
    else PublishedCount(published[..|published| - 1], id) + if published[|published| - 1].event.id == id then 1 else 0
  }

  lemma {:induction false} EventsCountSnoc(events: seq<Event>, e: Event, id: nat)
    ensures EventsCount(events + [e], id) == EventsCount(events, id) + EventCount(e, id)
  {
    if events == [] {
      assert [] + [e] == [e];
    } else {
      EventsCountSnoc(events[1..], e, id);
      assert (events + [e])[1..] == events[1..] + [e];
    }
  }

  lemma {:induction false} PendingCountUpdate(pending: seq<seq<Event>>, k: nat, events: seq<Event>, id: nat)
    requires k < |pending|
    ensures PendingCount(pending[k := events], id) ==
            PendingCount(pending, id) - EventsCount(pending[k], id) + EventsCount(events, id)
  {
    if k > 0 {
      PendingCountUpdate(pending[1..], k - 1, events, id);
      assert pending[k := events][1..] == pending[1..][k - 1 := events];
    } else {
      assert pending[k := events][1..] == pending[1..];
    }
  }

  /** Publications of `id`, done or still possible. */
  function Chances(s: State, id: nat): nat {
    PublishedCount(s.published, id) + PendingCount(s.pending, id)
  }

  lemma SavedSpends(s: State, commits: bool, id: nat)
    ensures Chances(Saved(s, commits).state, id) <= Chances(s, id)
    decreases PendingSize(s.pending), 2, 0
  {
    if commits { DispatchedSpends(s, WithEvents(s.pending), id); }
  }

  lemma {:induction false} DispatchedSpends(s: State, entities: seq<nat>, id: nat)
    requires forall i | 0 <= i < |entities| :: entities[i] < |s.pending|
    ensures Chances(Dispatched(s, entities).state, id) <= Chances(s, id)
    decreases PendingSize(s.pending), 1, |entities|
  {
    if entities != [] {
      var k := entities[0];
      PendingSizeUpdate(s.pending, k, []);
      PendingCountUpdate(s.pending, k, [], id);
      var cleared := s.(pending := s.pending[k := []]);
      PublishedAllSpends(cleared, k, s.pending[k], id);
      var o := PublishedAll(cleared, k, s.pending[k]);
      if !o.threw { DispatchedSpends(o.state, entities[1..], id); }
    }
  }

  lemma PublishedAllSpends(s: State, entity: nat, events: seq<Event>, id: nat)
    ensures Chances(PublishedAll(s, entity, events).state, id) <= Chances(s, id) + EventsCount(events, id)
    decreases PendingSize(s.pending) + EventsSize(events), 0, |events|
  {
    if events != [] {
      var s1 := s.(published := s.published + [Occurrence(entity, events[0])]);
      assert s1.published[..|s.published|] == s.published;
      HandledSpends(s1, events[0].handler, id);
      var o := Handled(s1, events[0].handler);
      if !o.threw { PublishedAllSpends(o.state, entity, events[1..], id); }
    }
  }

  lemma HandledSpends(s: State, actions: seq<Action>, id: nat)
    ensures Chances(Handled(s, actions).state, id) <= Chances(s, id) + ActionsCount(actions, id)
    decreases PendingSize(s.pending) + ActionsSize(actions), 0, |actions|
  {
    if actions != [] {
      assert ActionsSize(actions) == ActionSize(actions[0]) + ActionsSize(actions[1..]);
      assert ActionsCount(actions, id) == ActionCount(actions[0], id) + ActionsCount(actions[1..], id);
      match actions[0]
      case Register(entity, e) =>
        if entity < |s.pending| {
          EventsCountSnoc(s.pending[entity], e, id);
          PendingCountUpdate(s.pending, entity, s.pending[entity] + [e], id);
        }
        HandledSpends(Registered(s, entity, e), actions[1..], id);
      case Save(commits) =>
        SavedSpends(s, commits, id);
        var o := Saved(s, commits);
        if !o.threw { HandledSpends(o.state, actions[1..], id); }
      case Throw =>
    }
  }

  lemma {:induction false} LifeSpends(s: State, actions: seq<Action>, id: nat)
    ensures Chances(Life(s, actions), id) <= Chances(s, id) + ActionsCount(actions, id)
  {
    if actions != [] {
      var (before, last) := (actions[..|actions| - 1], actions[|actions| - 1]);
      LifeSpends(s, before, id);
      HandledSpends(Life(s, before), [last], id);
      ActionsCountSnoc(before, last, id);
      assert actions == before + [last];
      assert ActionsCount([last], id) == ActionCount(last, id) + ActionsCount([], id);
    }
  }

  lemma {:induction false} ActionsCountSnoc(actions: seq<Action>, a: Action, id: nat)
    ensures ActionsCount(actions + [a], id) == ActionsCount(actions, id) + ActionCount(a, id)
  {
    if actions == [] {
      assert [] + [a] == [a];
      assert ActionsCount([a], id) == ActionCount(a, id) + ActionsCount([], id);
    } else {
      ActionsCountSnoc(actions[1..], a, id);
      assert (actions + [a])[1..] == actions[1..] + [a];
    }
  }

  lemma {:induction false} NoChanceYet(tracked: nat, id: nat)
    ensures PendingCount(NewContext(tracked).pending, id) == 0
  {
    if tracked > 0 {
      NoChanceYet(tracked - 1, id);
      assert NewContext(tracked).pending[1..] == NewContext(tracked - 1).pending;
    }
  }

  /** An occurrence is published at most as often as it stands in the actions of the context's life: once,
      when every occurrence is its own. */
  lemma NotPublishedTwice(tracked: nat, actions: seq<Action>, id: nat)
    ensures PublishedCount(Life(NewContext(tracked), actions).published, id) <= ActionsCount(actions, id)
  {
    LifeSpends(NewContext(tracked), actions, id);
    NoChanceYet(tracked, id);
  }

  // ---------- Saving again ----------

  predicate Ascending(entities: seq<nat>) {
    forall i, j | 0 <= i < j < |entities| :: entities[i] < entities[j]
  }

  lemma {:induction false} WithEventsAscend(pending: seq<seq<Event>>)
    ensures Ascending(WithEvents(pending))
    ensures forall k: nat :: k in WithEvents(pending) <==> k < |pending| && pending[k] != []
  {
    if pending != [] {
      WithEventsAscend(pending[..|pending| - 1]);
    }
  }

  /** Nothing was registered, and lists have at most been emptied. */
  predicate Quiet(s: State, r: State) {
    && |r.pending| == |s.pending|
    && |s.registered| <= |r.registered|
    && (|r.registered| == |s.registered| ==>
          forall k | 0 <= k < |s.pending| :: r.pending[k] == s.pending[k] || r.pending[k] == [])
  }

  lemma SavedQuiet(s: State, commits: bool)
    ensures Quiet(s, Saved(s, commits).state)
    decreases PendingSize(s.pending), 2, 0
  {
    if commits { DispatchedQuiet(s, WithEvents(s.pending)); }
  }

  lemma DispatchedQuiet(s: State, entities: seq<nat>)
    requires forall i | 0 <= i < |entities| :: entities[i] < |s.pending|
    ensures var o := Dispatched(s, entities);
            && Quiet(s, o.state)
            && (!o.threw && |o.state.registered| == |s.registered| ==>
                  forall i | 0 <= i < |entities| :: o.state.pending[entities[i]] == [])
    decreases PendingSize(s.pending), 1, |entities|
  {
    if entities != [] {
      var k := entities[0];
      PendingSizeUpdate(s.pending, k, []);
      var cleared := s.(pending := s.pending[k := []]);
      PublishedAllQuiet(cleared, k, s.pending[k]);
      var o := PublishedAll(cleared, k, s.pending[k]);
      if !o.threw { DispatchedQuiet(o.state, entities[1..]); }
    }
  }

  lemma PublishedAllQuiet(s: State, entity: nat, events: seq<Event>)
    ensures Quiet(s, PublishedAll(s, entity, events).state)
    decreases PendingSize(s.pending) + EventsSize(events), 0, |events|
  {
    if events != [] {
      var s1 := s.(published := s.published + [Occurrence(entity, events[0])]);
      HandledQuiet(s1, events[0].handler);
      var o := Handled(s1, events[0].handler);
      if !o.threw { PublishedAllQuiet(o.state, entity, events[1..]); }
    }
  }

  lemma HandledQuiet(s: State, actions: seq<Action>)
    ensures Quiet(s, Handled(s, actions).state)
    decreases PendingSize(s.pending) + ActionsSize(actions), 0, |actions|
  {
    if actions != [] {
      assert ActionsSize(actions) == ActionSize(actions[0]) + ActionsSize(actions[1..]);
      match actions[0]
      case Register(entity, e) =>
        HandledQuiet(Registered(s, entity, e), actions[1..]);
      case Save(commits) =>
        SavedQuiet(s, commits);
        var o := Saved(s, commits);
        if !o.threw { HandledQuiet(o.state, actions[1..]); }
      case Throw =>
    }
  }

  /** After a save that did not throw and during which nothing was registered, saving the same context again
      changes nothing and publishes nothing. */
  lemma SavingAgainPublishesNothing(s: State)
    requires var o := Saved(s, true); !o.threw && |o.state.registered| == |s.registered|
    ensures Saved(Saved(s, true).state, true) == Outcome(Saved(s, true).state, false)
  {
    var r := Saved(s, true).state;
    WithEventsAscend(s.pending);
    DispatchedQuiet(s, WithEvents(s.pending));
    WithEventsAscend(r.pending);
    forall k | 0 <= k < |r.pending| ensures r.pending[k] == [] {
      if s.pending[k] != [] {
        assert k in WithEvents(s.pending);
      }
    }
    if WithEvents(r.pending) != [] { assert WithEvents(r.pending)[0] in WithEvents(r.pending); }
  }
}
