/**
 The dispatcher over live objects: an entity's event list is read, cleared and appended to in place while
 the copies taken from it are being published. Proved against `DomainEvents`.
 */
module DomainEventDispatcher {
  import opened DomainEvents

  /** An entity with domain events; `place` is its place in the context's tracker. */
  class Entity {
    ghost const place: nat
    var domainEvents: seq<Event>

    constructor (ghost place: nat)
      ensures this.place == place && domainEvents == []
    {
      this.place := place;
      domainEvents := [];
    }

    method RegisterDomainEvent(e: Event)
      modifies this
      ensures domainEvents == old(domainEvents) + [e]
    {
      domainEvents := domainEvents + [e];
    }

    method ClearDomainEvents()
      modifies this
      ensures domainEvents == []
    {
      domainEvents := [];
    }
  }

  /** The specification of one turn of the inner loop. */
  lemma PublishedNext(s: State, entity: nat, events: seq<Event>, j: nat)
    requires j < |events|
    ensures EventsSize(events[j..]) == EventSize(events[j]) + EventsSize(events[j + 1..])
    ensures var o := Handled(s.(published := s.published + [Occurrence(entity, events[j])]), events[j].handler);
            PublishedAll(s, entity, events[j..]) ==
              if o.threw then Outcome(CutOff(o.state, entity, events[j + 1..]), true)
              else PublishedAll(o.state, entity, events[j + 1..])
  {
    assert events[j..][0] == events[j] && events[j..][1..] == events[j + 1..];
  }

  /** The specification of one turn of the outer loop. */
  lemma DispatchedNext(s: State, places: seq<nat>, i: nat)
    requires i < |places| && forall j | 0 <= j < |places| :: places[j] < |s.pending|
    ensures var (k, cleared) := (places[i], s.(pending := s.pending[places[i] := []]));
            && PendingSize(cleared.pending) + EventsSize(s.pending[k]) == PendingSize(s.pending)
            && var o := PublishedAll(cleared, k, s.pending[k]);
               Dispatched(s, places[i..]) == if o.threw then o else Dispatched(o.state, places[i + 1..])
  {
    PendingSizeUpdate(s.pending, places[i], []);
    assert places[i..][0] == places[i] && places[i..][1..] == places[i + 1..];
  }

  /** The specification of one turn of a handler. */
  lemma HandledNext(s: State, actions: seq<Action>, j: nat)
    requires j < |actions|
    ensures ActionsSize(actions[j..]) == ActionSize(actions[j]) + ActionsSize(actions[j + 1..])
    ensures var (a, rest) := (actions[j], actions[j + 1..]);
            && (a.Register? ==> Handled(s, actions[j..]) == Handled(Registered(s, a.entity, a.event), rest))
            && (a.Save? ==>
                  var o := Saved(s, a.commits);
                  Handled(s, actions[j..]) == if o.threw then o else Handled(o.state, rest))
            && (a.Throw? ==> Handled(s, actions[j..]) == Outcome(s, true))
  {
    assert actions[j..][0] == actions[j] && actions[j..][1..] == actions[j + 1..];
  }

  class Context {
    const tracker: seq<Entity>
    ghost var registered: seq<Occurrence>
    ghost var published: seq<Occurrence>
    ghost var cutOff: seq<Occurrence>

    ghost predicate Valid() {
      forall i | 0 <= i < |tracker| :: tracker[i].place == i
    }

    ghost function Lists(): (lists: seq<seq<Event>>)
      reads tracker
      ensures |lists| == |tracker| && forall i | 0 <= i < |lists| :: lists[i] == tracker[i].domainEvents
    {
      seq(|tracker|, i requires 0 <= i < |tracker| reads tracker => tracker[i].domainEvents)
    }

    ghost function View(): State
      reads this, tracker
    {
      State(Lists(), registered, published, cutOff)
    }

    constructor (tracker: seq<Entity>)
      requires forall i | 0 <= i < |tracker| :: tracker[i].place == i && tracker[i].domainEvents == []
      ensures Valid() && this.tracker == tracker && View() == State(seq(|tracker|, _ => []), [], [], [])
    {
      this.tracker := tracker;
      registered, published, cutOff := [], [], [];
      new;
      assert Lists() == seq(|tracker|, _ => []);
    }

    ghost function Places(entities: seq<Entity>): (places: seq<nat>)
      ensures |places| == |entities| && forall i | 0 <= i < |places| :: places[i] == entities[i].place
    {
      seq(|entities|, i requires 0 <= i < |entities| => entities[i].place)
    }

    ghost predicate Tracked(entities: seq<Entity>) {
      forall i | 0 <= i < |entities| :: entities[i].place < |tracker| && tracker[entities[i].place] == entities[i]
    }

    /** The tracked entities that have events when the save has succeeded. */
    method EntitiesWithEvents() returns (entities: seq<Entity>)
      requires Valid()
      ensures Tracked(entities)
      ensures Places(entities) == WithEvents(Lists())
    {
      entities := [];
      for i := 0 to |tracker|
        invariant Tracked(entities)
        invariant Places(entities) == WithEvents(Lists()[..i])
      {
        assert Lists()[..i + 1][..i] == Lists()[..i];
        if tracker[i].domainEvents != [] {
          assert Places(entities + [tracker[i]]) == Places(entities) + [i];
          entities := entities + [tracker[i]];
        }
      }
      assert Lists()[..|tracker|] == Lists();
    }

    /** `SaveChangesAsync`; `commits` is whether the database accepts the changes. */
    method SaveChanges(commits: bool) returns (threw: bool)
      requires Valid()
      modifies this, tracker
      ensures Outcome(View(), threw) == Saved(old(View()), commits)
      decreases PendingSize(Lists()), 2
    {
      if !commits {
        return true;
      }
      var entities := EntitiesWithEvents();
      threw := DispatchAndClearEvents(entities);
    }

    method DispatchAndClearEvents(entities: seq<Entity>) returns (threw: bool)
      requires Valid() && Tracked(entities)
      modifies this, tracker
      ensures Outcome(View(), threw) == Dispatched(old(View()), Places(entities))
      decreases PendingSize(Lists()), 1
    {
      ghost var (s, size) := (View(), PendingSize(Lists()));
      for i := 0 to |entities|
        invariant PendingSize(Lists()) <= size
        invariant Dispatched(s, Places(entities)) == Dispatched(View(), Places(entities)[i..])
      {
        var entity := entities[i];
        var events := entity.domainEvents;
        ghost var before := View();
        DispatchedNext(before, Places(entities), i);
        entity.ClearDomainEvents();
        assert Lists() == before.pending[entity.place := []];
        assert View() == before.(pending := before.pending[entity.place := []]);
        threw := PublishAll(entity, events);
        if threw {
          return;
        }
      }
      threw := false;
    }

    /** The inner loop of the dispatcher, over the copy of one entity's list. */
    method PublishAll(entity: Entity, events: seq<Event>) returns (threw: bool)
      requires Valid() && entity.place < |tracker| && tracker[entity.place] == entity
      modifies this, tracker
      ensures Outcome(View(), threw) == PublishedAll(old(View()), entity.place, events)
      decreases PendingSize(Lists()) + EventsSize(events), 0
    {
      ghost var (s, size) := (View(), PendingSize(Lists()) + EventsSize(events));
      for j := 0 to |events|
        invariant PendingSize(Lists()) + EventsSize(events[j..]) <= size
        invariant PublishedAll(s, entity.place, events) == PublishedAll(View(), entity.place, events[j..])
      {
        ghost var before := View();
        PublishedNext(before, entity.place, events, j);
        published := published + [Occurrence(entity.place, events[j])];
        assert View() == before.(published := before.published + [Occurrence(entity.place, events[j])]);
        threw := Publish(events[j]);
        if threw {
          cutOff := cutOff + Occurrences(entity.place, events[j + 1..]);
          return;
        }
      }
      threw := false;
    }

    /** A handler registers an event, on an entity that the context tracks or on another one. */
    method Register(place: nat, event: Event)
      requires Valid()
      modifies this`registered, tracker
      ensures View() == Registered(old(View()), place, event)
    {
      if place < |tracker| {
        ghost var before := Lists();
        tracker[place].RegisterDomainEvent(event);
        registered := registered + [Occurrence(place, event)];
        assert Lists() == before[place := before[place] + [event]];
      }
    }

    /** `Publish`: the mediator runs the event's handlers. */
    method Publish(e: Event) returns (threw: bool)
      requires Valid()
      modifies this, tracker
      ensures Outcome(View(), threw) == Handled(old(View()), e.handler)
      decreases PendingSize(Lists()) + ActionsSize(e.handler), 0
    {
      var actions := e.handler;
      ghost var (s, size) := (View(), PendingSize(Lists()) + ActionsSize(actions));
      for j := 0 to |actions|
        invariant PendingSize(Lists()) + ActionsSize(actions[j..]) <= size
        invariant Handled(s, actions) == Handled(View(), actions[j..])
      {
        HandledNext(View(), actions, j);
        match actions[j]
        case Register(place, event) =>
          Register(place, event);
        case Save(commits) =>
          threw := SaveChanges(commits);
          if threw {
            return;
          }
        case Throw =>
          return true;
      }
      threw := false;
    }
  }
}
