/** The order in which events are published when no handler saves, whatever handlers register and throw. */
module DomainEventOrder {
  import opened DomainEvents
  import opened DomainEventProofs

  // ---------- Subsequences ----------

  predicate IsSubsequence<T(==)>(a: seq<T>, b: seq<T>)
    decreases |b|
  {
    a == [] ||
    (b != [] &&
     var (init, last) := (b[..|b| - 1], b[|b| - 1]);
     if a[|a| - 1] == last then IsSubsequence(a[..|a| - 1], init) else IsSubsequence(a, init))
  }

  lemma {:induction false} ShorterSub<T>(a: seq<T>, b: seq<T>)
    requires a != [] && IsSubsequence(a, b)
    ensures IsSubsequence(a[..|a| - 1], b)
    decreases |b|, 0
  {
    var (init, last) := (b[..|b| - 1], b[|b| - 1]);
    assert init + [last] == b;
    if a[|a| - 1] != last { ShorterSub(a, init); }
    LongerSub(a[..|a| - 1], init, last);
  }

  lemma {:induction false} LongerSub<T>(a: seq<T>, b: seq<T>, x: T)
    requires IsSubsequence(a, b)
    ensures IsSubsequence(a, b + [x])
    decreases |b|, 1
  {
    assert (b + [x])[..|b|] == b;
    if a != [] && a[|a| - 1] == x { ShorterSub(a, b); }
  }

  lemma BothLonger<T>(a: seq<T>, b: seq<T>, x: T)
    requires IsSubsequence(a, b)
    ensures IsSubsequence(a + [x], b + [x])
  {
    assert (a + [x])[..|a|] == a && (b + [x])[..|b|] == b;
  }

  lemma {:induction false} MuchLongerSub<T>(a: seq<T>, b: seq<T>, c: seq<T>)
    requires IsSubsequence(a, b)
    ensures IsSubsequence(a, b + c)
  {
    if c == [] {
      assert b + c == b;
    } else {
      MuchLongerSub(a, b, c[..|c| - 1]);
      LongerSub(a, b + c[..|c| - 1], c[|c| - 1]);
      assert b + c == b + c[..|c| - 1] + [c[|c| - 1]];
    }
  }

  lemma {:induction false} SubOfItself<T>(a: seq<T>)
    ensures IsSubsequence(a, a)
  {
    if a != [] { SubOfItself(a[..|a| - 1]); }
  }

  // ---------- Handlers that do not save ----------

  predicate Saveless(e: Event)
    decreases e
  {
    SavelessActions(e.handler)
  }

  /** No handler in these trees saves the context again. */
  predicate SavelessActions(actions: seq<Action>)
    decreases actions
  {
    actions == [] || (SavelessAction(actions[0]) && SavelessActions(actions[1..]))
  }

  predicate SavelessAction(action: Action)
    decreases action
  {
    match action
    case Register(_, e) => Saveless(e)
    case Save(_) => false
    case Throw => true
  }

  predicate SavelessPending(pending: seq<seq<Event>>) {
    forall k, i | 0 <= k < |pending| && 0 <= i < |pending[k]| :: Saveless(pending[k][i])
  }

  /** The events that a history holds for one entity, in order. */
  function On(history: seq<Occurrence>, k: nat): seq<Event> {
    if history == [] then []
    else
      var (init, last) := (history[..|history| - 1], history[|history| - 1]);
      if last.entity == k then On(init, k) + [last.event] else On(init, k)
  }

  lemma OnSnoc(history: seq<Occurrence>, o: Occurrence, k: nat)
    ensures On(history + [o], k) == if o.entity == k then On(history, k) + [o.event] else On(history, k)
  {
    assert (history + [o])[..|history + [o]| - 1] == history;
  }

  /** The events of entity `k` that were registered before those that stand in a copy or in the list. */
  function Earlier(s: State, held: seq<Event>, k: nat): seq<Event>
    requires k < |s.pending| && |held| + |s.pending[k]| <= |On(s.registered, k)|
  {
    var all := On(s.registered, k);
    all[..|all| - |held| - |s.pending[k]|]
  }

  /** On entity `k`: the last events that were registered are those `held` in a copy of the list and then those
      in the list, and what has been published of it is a subsequence of what was registered before. */
  predicate InOrder(s: State, held: seq<Event>, k: nat) {
    k < |s.pending| ==>
      && |held| + |s.pending[k]| <= |On(s.registered, k)|
      && On(s.registered, k) == Earlier(s, held, k) + held + s.pending[k]
      && IsSubsequence(On(s.published, k), Earlier(s, held, k))
  }

  lemma OneRegistered(s: State, entity: nat, e: Event, held: seq<Event>, k: nat)
    requires InOrder(s, held, k)
    ensures InOrder(Registered(s, entity, e), held, k)
  {
    var r := Registered(s, entity, e);
    OnSnoc(s.registered, Occurrence(entity, e), k);
    if k < |s.pending| && entity == k {
      assert On(r.registered, k) == On(s.registered, k) + [e];
      assert Earlier(r, held, k) == Earlier(s, held, k);
    }
  }

  /** The first of the held events moves to the earlier ones. */
  lemma MoveOn(all: seq<Event>, earlier: seq<Event>, e: Event, rest: seq<Event>, list: seq<Event>)
    requires all == earlier + ([e] + rest) + list
    ensures |rest| + |list| <= |all| && all[..|all| - |rest| - |list|] == earlier + [e]
    ensures all == earlier + [e] + rest + list
  {
  }

  lemma OnePublished(s: State, entity: nat, e: Event, rest: seq<Event>, k: nat)
    requires InOrder(s, if k == entity then [e] + rest else [], k)
    ensures InOrder(s.(published := s.published + [Occurrence(entity, e)]), if k == entity then rest else [], k)
  {
    var t := s.(published := s.published + [Occurrence(entity, e)]);
    OnSnoc(s.published, Occurrence(entity, e), k);
    if k < |s.pending| && k == entity {
      var (all, earlier, list) := (On(s.registered, k), Earlier(s, [e] + rest, k), s.pending[k]);
      assert all == earlier + ([e] + rest) + list;
      MoveOn(all, earlier, e, rest, list);
      BothLonger(On(s.published, k), earlier, e);
      assert Earlier(t, rest, k) == earlier + [e];
    }
  }

  lemma RestCutOff(s: State, entity: nat, rest: seq<Event>, k: nat)
    requires InOrder(s, if k == entity then rest else [], k)
    ensures InOrder(CutOff(s, entity, rest), [], k)
  {
    if k < |s.pending| && entity == k {
      var earlier := Earlier(s, rest, k);
      MuchLongerSub(On(s.published, k), earlier, rest);
      assert Earlier(CutOff(s, entity, rest), [], k) == earlier + rest;
    }
  }

  lemma Cleared(s: State, e: nat, k: nat)
    requires e < |s.pending| && InOrder(s, [], k)
    ensures InOrder(s.(pending := s.pending[e := []]), if k == e then s.pending[e] else [], k)
  {
    if k < |s.pending| && k == e {
      var r := s.(pending := s.pending[e := []]);
      assert Earlier(r, s.pending[e], k) == Earlier(s, [], k);
    }
  }

  predicate SavelessEvents(events: seq<Event>) {
    forall i | 0 <= i < |events| :: Saveless(events[i])
  }

  /** Handlers that do not save only append to the lists. */
  lemma {:induction false} HandledInOrder(s: State, actions: seq<Action>, held: seq<Event>, k: nat)
    requires SavelessActions(actions) && SavelessPending(s.pending) && InOrder(s, held, k)
    ensures var r := Handled(s, actions).state;
            InOrder(r, held, k) && SavelessPending(r.pending) && r.published == s.published
    decreases |actions|
  {
    if actions != [] {
      match actions[0]
      case Register(entity, e) =>
        assert SavelessAction(actions[0]);
        OneRegistered(s, entity, e, held, k);
        HandledInOrder(Registered(s, entity, e), actions[1..], held, k);
      case Throw =>
    }
  }

  lemma {:induction false} PublishedAllInOrder(s: State, entity: nat, events: seq<Event>, k: nat)
    requires SavelessEvents(events) && SavelessPending(s.pending)
    requires InOrder(s, if k == entity then events else [], k)
    ensures var r := PublishedAll(s, entity, events).state; SavelessPending(r.pending) && InOrder(r, [], k)
    decreases |events|
  {
    if events != [] {
      var s1 := s.(published := s.published + [Occurrence(entity, events[0])]);
      assert events == [events[0]] + events[1..];
      OnePublished(s, entity, events[0], events[1..], k);
      HandledInOrder(s1, events[0].handler, if k == entity then events[1..] else [], k);
      var o := Handled(s1, events[0].handler);
      if o.threw { RestCutOff(o.state, entity, events[1..], k); }
      else { PublishedAllInOrder(o.state, entity, events[1..], k); }
    }
  }

  lemma {:induction false} DispatchedInOrder(s: State, entities: seq<nat>, k: nat)
    requires forall i | 0 <= i < |entities| :: entities[i] < |s.pending|
    requires SavelessPending(s.pending) && InOrder(s, [], k)
    ensures var r := Dispatched(s, entities).state; SavelessPending(r.pending) && InOrder(r, [], k)
    decreases |entities|
  {
    if entities != [] {
      var e := entities[0];
      var cleared := s.(pending := s.pending[e := []]);
      Cleared(s, e, k);
      PublishedAllInOrder(cleared, e, s.pending[e], k);
      var o := PublishedAll(cleared, e, s.pending[e]);
      if !o.threw { DispatchedInOrder(o.state, entities[1..], k); }
    }
  }

  /** The program around a context registers events whose handlers do not save; it saves as it likes. */
  predicate SavelessLife(actions: seq<Action>) {
    forall i | 0 <= i < |actions| && actions[i].Register? :: Saveless(actions[i].event)
  }

  lemma OneActionInOrder(s: State, a: Action, k: nat)
    requires a.Register? ==> Saveless(a.event)
    requires SavelessPending(s.pending) && InOrder(s, [], k)
    ensures var r := Handled(s, [a]).state; SavelessPending(r.pending) && InOrder(r, [], k)
  {
    assert [a][1..] == [];
    match a
    case Register(entity, e) => OneRegistered(s, entity, e, [], k);
    case Save(commits) => if commits { DispatchedInOrder(s, WithEvents(s.pending), k); }
    case Throw =>
  }

  lemma {:induction false} LifeInOrder(tracked: nat, actions: seq<Action>, k: nat)
    requires SavelessLife(actions)
    ensures var s := Life(NewContext(tracked), actions);
            |s.pending| == tracked && SavelessPending(s.pending) && InOrder(s, [], k)
  {
    if actions == [] {
      assert k < tracked ==> Earlier(NewContext(tracked), [], k) == [];
    } else {
      var (before, last) := (actions[..|actions| - 1], actions[|actions| - 1]);
      LifeInOrder(tracked, before, k);
      OneActionInOrder(Life(NewContext(tracked), before), last, k);
    }
  }

  /** When no handler saves, then in every state of a context's life, after throws too, the events of each entity
      have been published in the order in which they were registered. */
  lemma {:induction false} PublishedInOrder(tracked: nat, actions: seq<Action>, k: nat)
    requires SavelessLife(actions) && k < tracked
    ensures var s := Life(NewContext(tracked), actions); IsSubsequence(On(s.published, k), On(s.registered, k))
  {
    LifeInOrder(tracked, actions, k);
    var s := Life(NewContext(tracked), actions);
    MuchLongerSub(On(s.published, k), Earlier(s, [], k), s.pending[k]);
  }

  // ---------- Entities in tracker order ----------

  /** The history has grown at its end by publications on one entity. */
  predicate GrownOn(before: seq<Occurrence>, after: seq<Occurrence>, entity: nat) {
    before <= after && forall i | |before| <= i < |after| :: after[i].entity == entity
  }

  lemma PublishedAllGrows(s: State, entity: nat, events: seq<Event>)
    requires SavelessEvents(events) && SavelessPending(s.pending)
    ensures var o := PublishedAll(s, entity, events);
            SavelessPending(o.state.pending) && GrownOn(s.published, o.state.published, entity)
    decreases |events|
  {
    if events != [] {
      var s1 := s.(published := s.published + [Occurrence(entity, events[0])]);
      HandledInOrder(s1, events[0].handler, [], |s.pending|);
      var o := Handled(s1, events[0].handler);
      if !o.threw { PublishedAllGrows(o.state, entity, events[1..]); }
    }
  }

  /** The history has grown at its end by publications on the given entities, in that order. */
  predicate GrownAlong(before: seq<Occurrence>, after: seq<Occurrence>, entities: seq<nat>) {
    && before <= after
    && (forall i | |before| <= i < |after| :: after[i].entity in entities)
    && (forall i, j | |before| <= i < j < |after| :: after[i].entity <= after[j].entity)
  }

  lemma GrownFirst(before: seq<Occurrence>, middle: seq<Occurrence>, after: seq<Occurrence>, entities: seq<nat>)
    requires entities != [] && Ascending(entities)
    requires GrownOn(before, middle, entities[0]) && GrownAlong(middle, after, entities[1..])
    ensures GrownAlong(before, after, entities)
  {
    forall i | |before| <= i < |after| ensures after[i].entity in entities && entities[0] <= after[i].entity {
      if i < |middle| { assert after[i] == middle[i]; } else { assert after[i].entity in entities[1..]; }
    }
    forall i, j | |before| <= i < j < |after| ensures after[i].entity <= after[j].entity {
      if i < |middle| { assert after[i] == middle[i]; }
    }
  }

  lemma {:induction false} DispatchedGrows(s: State, entities: seq<nat>)
    requires forall i | 0 <= i < |entities| :: entities[i] < |s.pending|
    requires Ascending(entities) && SavelessPending(s.pending)
    ensures GrownAlong(s.published, Dispatched(s, entities).state.published, entities)
    decreases |entities|
  {
    if entities != [] {
      var e := entities[0];
      var cleared := s.(pending := s.pending[e := []]);
      PublishedAllGrows(cleared, e, s.pending[e]);
      var o := PublishedAll(cleared, e, s.pending[e]);
      if !o.threw {
        DispatchedGrows(o.state, entities[1..]);
        GrownFirst(s.published, o.state.published, Dispatched(o.state, entities[1..]).state.published, entities);
      }
    }
  }

  /** One such save publishes entities in tracker order. */
  lemma {:induction false} SaveAlongTracker(s: State)
    requires SavelessPending(s.pending)
    ensures var r := Saved(s, true).state;
            && s.published <= r.published
            && forall i, j | |s.published| <= i < j < |r.published| :: r.published[i].entity <= r.published[j].entity
  {
    WithEventsAscend(s.pending);
    DispatchedGrows(s, WithEvents(s.pending));
  }
}
