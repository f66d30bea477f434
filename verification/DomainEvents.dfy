/**
 Saving a context and dispatching its domain events, when the handlers of an event may register further
 events on tracked entities, save the same context again, or throw. A handler is the finite tree of what
 it does: an event occurrence carries the actions its handlers perform once it is published.
 */
module DomainEvents {
  datatype Event = Event(id: nat, handler: seq<Action>)

  /** `Save(false)` is a save whose database commit fails, which throws before any dispatch. */
  datatype Action = Register(entity: nat, event: Event) | Save(commits: bool) | Throw

  /** An event occurrence together with the entity it was registered on, by its place in the tracker. */
  datatype Occurrence = Occurrence(entity: nat, event: Event)

  /** `pending` are the tracked entities' live event lists, in tracker order. The other parts record
      history: what was registered, what was published, and what a throwing handler cut off after it had
      been copied out of its list and before it was published. */
  datatype State = State(
    pending: seq<seq<Event>>,
    registered: seq<Occurrence>,
    published: seq<Occurrence>,
    cutOff: seq<Occurrence>)

  datatype Outcome = Outcome(state: State, threw: bool)

  // ---------- A size that dispatching consumes ----------

  function EventSize(e: Event): nat
    decreases e
  {
    1 + ActionsSize(e.handler)
  }

  function ActionsSize(actions: seq<Action>): nat
    decreases actions
  {
    if actions == [] then 0 else ActionSize(actions[0]) + ActionsSize(actions[1..])
  }

  function ActionSize(action: Action): nat
    decreases action
  {
    1 + match action
        case Register(_, e) => EventSize(e)
        case Save(_) => 0
        case Throw => 0
  }

  function EventsSize(events: seq<Event>): nat {
    if events == [] then 0 else EventSize(events[0]) + EventsSize(events[1..])
  }

  function PendingSize(pending: seq<seq<Event>>): nat {
    if pending == [] then 0 else EventsSize(pending[0]) + PendingSize(pending[1..])
  }

  lemma {:induction false} EventsSizeSnoc(events: seq<Event>, e: Event)
    ensures EventsSize(events + [e]) == EventsSize(events) + EventSize(e)
  {
    if events == [] {
      assert [] + [e] == [e];
    } else {
      EventsSizeSnoc(events[1..], e);
      assert (events + [e])[1..] == events[1..] + [e];
    }
  }

  lemma {:induction false} PendingSizeUpdate(pending: seq<seq<Event>>, k: nat, events: seq<Event>)
    requires k < |pending|
    ensures PendingSize(pending[k := events]) == PendingSize(pending) - EventsSize(pending[k]) + EventsSize(events)
  {
    if k > 0 {
      PendingSizeUpdate(pending[1..], k - 1, events);
      assert pending[k := events][1..] == pending[1..][k - 1 := events];
    } else {
      assert pending[k := events][1..] == pending[1..];
    }
  }

  // ---------- What a save does ----------

  /** `RegisterDomainEvent` on a tracked entity; the context does not see others. */
  function Registered(s: State, entity: nat, e: Event): (r: State)
    ensures |r.pending| == |s.pending|
    ensures PendingSize(r.pending) <= PendingSize(s.pending) + EventSize(e)
  {
    if entity >= |s.pending| then s
    else
      EventsSizeSnoc(s.pending[entity], e);
      PendingSizeUpdate(s.pending, entity, s.pending[entity] + [e]);
      s.(pending := s.pending[entity := s.pending[entity] + [e]],
         registered := s.registered + [Occurrence(entity, e)])
  }

  /** The tracked entities that have events, in tracker order. */
  function WithEvents(pending: seq<seq<Event>>): (entities: seq<nat>)
    ensures forall i | 0 <= i < |entities| :: entities[i] < |pending|
  {
    if pending == [] then []
    else
      var k := |pending| - 1;
      WithEvents(pending[..k]) + if pending[k] != [] then [k] else []
  }

  /** `SaveChangesAsync`: commit, and then dispatch to the entities that have events at that moment. */
  function Saved(s: State, commits: bool): (o: Outcome)
    ensures |o.state.pending| == |s.pending|
    ensures PendingSize(o.state.pending) <= PendingSize(s.pending)
    decreases PendingSize(s.pending), 2, 0
  {
    if commits then Dispatched(s, WithEvents(s.pending)) else Outcome(s, true)
  }

  /** `DispatchAndClearEventsAsync`: for each entity, copy its list, clear it, publish the copy. */
  function Dispatched(s: State, entities: seq<nat>): (o: Outcome)
    requires forall i | 0 <= i < |entities| :: entities[i] < |s.pending|
    ensures |o.state.pending| == |s.pending|
    ensures PendingSize(o.state.pending) <= PendingSize(s.pending)
    decreases PendingSize(s.pending), 1, |entities|
  {
    if entities == [] then Outcome(s, false)
    else
      var k := entities[0];
      PendingSizeUpdate(s.pending, k, []);
      var o := PublishedAll(s.(pending := s.pending[k := []]), k, s.pending[k]);
      if o.threw then o else Dispatched(o.state, entities[1..])
  }

  /** Publishing the copied events of one entity, one after the other. */
  function PublishedAll(s: State, entity: nat, events: seq<Event>): (o: Outcome)
    ensures |o.state.pending| == |s.pending|
    ensures PendingSize(o.state.pending) <= PendingSize(s.pending) + EventsSize(events)
    decreases PendingSize(s.pending) + EventsSize(events), 0, |events|
  {
    if events == [] then Outcome(s, false)
    else
      var o := Handled(s.(published := s.published + [Occurrence(entity, events[0])]), events[0].handler);
      if o.threw then Outcome(CutOff(o.state, entity, events[1..]), true)
      else PublishedAll(o.state, entity, events[1..])
  }

  function CutOff(s: State, entity: nat, events: seq<Event>): (r: State)
    ensures r.pending == s.pending
  {
    s.(cutOff := s.cutOff + Occurrences(entity, events))
  }

  function Occurrences(entity: nat, events: seq<Event>): (os: seq<Occurrence>)
    ensures |os| == |events| && forall i | 0 <= i < |os| :: os[i] == Occurrence(entity, events[i])
  {
    seq(|events|, i requires 0 <= i < |events| => Occurrence(entity, events[i]))
  }

  /** Running the handlers of one published event. */
  function Handled(s: State, actions: seq<Action>): (o: Outcome)
    ensures |o.state.pending| == |s.pending|
    ensures PendingSize(o.state.pending) <= PendingSize(s.pending) + ActionsSize(actions)
    decreases PendingSize(s.pending) + ActionsSize(actions), 0, |actions|
  {
    if actions == [] then Outcome(s, false)
    else
      assert ActionsSize(actions) == ActionSize(actions[0]) + ActionsSize(actions[1..]);
      match actions[0]
      case Register(entity, e) => Handled(Registered(s, entity, e), actions[1..])
      case Save(commits) =>
        var o := Saved(s, commits);
        if o.threw then o else Handled(o.state, actions[1..])
      case Throw => Outcome(s, true)
  }
}
