/** Exactly when handlers that save again upset the order of publication. */
module DomainEventReentry {
  import opened Prelude
  import opened DomainEvents
  import opened DomainEventProofs
  import opened DomainEventOrder

  // ---------- The condition ----------

  /** No save, nested at any depth, is made while one of the `busy` entities, those that have copied events still
      to be published, also has pending ones. */
  predicate OrderlySave(s: State, commits: bool, busy: set<nat>)
    decreases PendingSize(s.pending), 2, 0
  {
    commits ==>
      && (forall k | k in busy && k < |s.pending| :: s.pending[k] == [])
      && OrderlyDispatch(s, WithEvents(s.pending), busy)
  }

  predicate OrderlyDispatch(s: State, entities: seq<nat>, busy: set<nat>)
    requires forall i | 0 <= i < |entities| :: entities[i] < |s.pending|
    decreases PendingSize(s.pending), 1, |entities|
  {
    entities == [] ||
    (var k := entities[0];
     PendingSizeUpdate(s.pending, k, []);
     var cleared := s.(pending := s.pending[k := []]);
     var o := PublishedAll(cleared, k, s.pending[k]);
     OrderlyPublish(cleared, k, s.pending[k], busy) && (o.threw || OrderlyDispatch(o.state, entities[1..], busy)))
  }

  /** While the handlers of the first of these events run, the entity has copied ones if there is a second. */
  predicate OrderlyPublish(s: State, entity: nat, events: seq<Event>, busy: set<nat>)
    decreases PendingSize(s.pending) + EventsSize(events), 0, |events|
  {
    events == [] ||
    (var s1 := s.(published := s.published + [Occurrence(entity, events[0])]);
     var o := Handled(s1, events[0].handler);
     && OrderlyHandle(s1, events[0].handler, if |events| > 1 then busy + {entity} else busy)
     && (o.threw || OrderlyPublish(o.state, entity, events[1..], busy)))
  }

  predicate OrderlyHandle(s: State, actions: seq<Action>, busy: set<nat>)
    decreases PendingSize(s.pending) + ActionsSize(actions), 0, |actions|
  {
    actions == [] ||
    (assert ActionsSize(actions) == ActionSize(actions[0]) + ActionsSize(actions[1..]);
     match actions[0]
     case Register(entity, e) => OrderlyHandle(Registered(s, entity, e), actions[1..], busy)
     case Save(commits) =>
       var o := Saved(s, commits);
       OrderlySave(s, commits, busy) && (o.threw || OrderlyHandle(o.state, actions[1..], busy))
     case Throw => true)
  }

  /** The same of a context's whole life. */
  predicate OrderlyLife(s: State, actions: seq<Action>) {
    actions == [] ||
    (var (before, last) := (actions[..|actions| - 1], actions[|actions| - 1]);
     OrderlyLife(s, before) && OrderlyHandle(Life(s, before), [last], {}))
  }

  /** No handler throws; the program around may. */
  predicate Calm(s: State, actions: seq<Action>) {
    actions == [] ||
    (var (before, last) := (actions[..|actions| - 1], actions[|actions| - 1]);
     Calm(s, before) && (Handled(Life(s, before), [last]).threw ==> last == Throw || last == Save(false)))
  }

  // ---------- Histories grow ----------

  predicate Grown(s: State, r: State) {
    s.published <= r.published && s.registered <= r.registered && |r.pending| == |s.pending|
  }

  lemma SavedGrows(s: State, commits: bool)
    ensures Grown(s, Saved(s, commits).state)
    decreases PendingSize(s.pending), 2, 0
  {
    if commits { DispatchedGrown(s, WithEvents(s.pending)); }
  }

  lemma {:induction false} DispatchedGrown(s: State, entities: seq<nat>)
    requires forall i | 0 <= i < |entities| :: entities[i] < |s.pending|
    ensures Grown(s, Dispatched(s, entities).state)
    decreases PendingSize(s.pending), 1, |entities|
  {
    if entities != [] {
      var k := entities[0];
      PendingSizeUpdate(s.pending, k, []);
      var cleared := s.(pending := s.pending[k := []]);
      PublishedAllGrown(cleared, k, s.pending[k]);
      var o := PublishedAll(cleared, k, s.pending[k]);
      if !o.threw { DispatchedGrown(o.state, entities[1..]); }
    }
  }

  lemma {:induction false} PublishedAllGrown(s: State, entity: nat, events: seq<Event>)
    ensures Grown(s, PublishedAll(s, entity, events).state)
    decreases PendingSize(s.pending) + EventsSize(events), 0, |events|
  {
    if events != [] {
      var s1 := s.(published := s.published + [Occurrence(entity, events[0])]);
      HandledGrown(s1, events[0].handler);
      var o := Handled(s1, events[0].handler);
      if !o.threw { PublishedAllGrown(o.state, entity, events[1..]); }
    }
  }

  lemma {:induction false} HandledGrown(s: State, actions: seq<Action>)
    ensures Grown(s, Handled(s, actions).state)
    decreases PendingSize(s.pending) + ActionsSize(actions), 0, |actions|
  {
    if actions != [] {
      assert ActionsSize(actions) == ActionSize(actions[0]) + ActionsSize(actions[1..]);
      match actions[0]
      case Register(entity, e) => HandledGrown(Registered(s, entity, e), actions[1..]);
      case Save(commits) =>
        SavedGrows(s, commits);
        var o := Saved(s, commits);
        if !o.threw { HandledGrown(o.state, actions[1..]); }
      case Throw =>
    }
  }

  lemma {:induction false} OnPrefix(xs: seq<Occurrence>, ys: seq<Occurrence>, k: nat)
    requires xs <= ys
    ensures On(xs, k) <= On(ys, k)
  {
    if |xs| < |ys| {
      var init := ys[..|ys| - 1];
      OnPrefix(xs, init, k);
      OnSnoc(init, ys[|ys| - 1], k);
      assert init + [ys[|ys| - 1]] == ys;
    } else {
      assert xs == ys;
    }
  }

  // ---------- What is pending gets published ----------

  /** The event has been published on the entity since there were `n` publications. */
  predicate PublishedSince(n: nat, r: State, k: nat, e: Event) {
    exists i :: n <= i < |r.published| && r.published[i] == Occurrence(k, e)
  }

  lemma StillPublished(n: nat, m: nat, s: State, r: State, k: nat, e: Event)
    requires m <= n && Grown(s, r) && PublishedSince(n, s, k, e)
    ensures PublishedSince(m, r, k, e)
  {
    var i :| n <= i < |s.published| && s.published[i] == Occurrence(k, e);
    assert r.published[i] == Occurrence(k, e);
  }

  lemma SavedPublishes(s: State, k: nat, e: Event)
    requires k < |s.pending| && e in s.pending[k] && !Saved(s, true).threw
    ensures PublishedSince(|s.published|, Saved(s, true).state, k, e)
    decreases PendingSize(s.pending), 2, 0
  {
    WithEventsAscend(s.pending);
    DispatchedPublishes(s, WithEvents(s.pending), k, e);
  }

  lemma {:induction false} DispatchedPublishes(s: State, entities: seq<nat>, k: nat, e: Event)
    requires forall i | 0 <= i < |entities| :: entities[i] < |s.pending|
    requires k < |s.pending| && e in s.pending[k] && !Dispatched(s, entities).threw
    ensures var r := Dispatched(s, entities).state;
            PublishedSince(|s.published|, r, k, e) || (k !in entities && e in r.pending[k])
    decreases PendingSize(s.pending), 1, |entities|
  {
    if entities != [] {
      var j := entities[0];
      PendingSizeUpdate(s.pending, j, []);
      var cleared := s.(pending := s.pending[j := []]);
      var o := PublishedAll(cleared, j, s.pending[j]);
      PublishedAllGrown(cleared, j, s.pending[j]);
      DispatchedGrown(o.state, entities[1..]);
      if k == j {
        PublishedAllPublishes(cleared, j, s.pending[j], e);
        StillPublished(|s.published|, |s.published|, o.state, Dispatched(s, entities).state, k, e);
      } else {
        PublishedAllKeeps(cleared, j, s.pending[j], k, e);
        if PublishedSince(|s.published|, o.state, k, e) {
          StillPublished(|s.published|, |s.published|, o.state, Dispatched(s, entities).state, k, e);
        } else {
          DispatchedPublishes(o.state, entities[1..], k, e);
          if PublishedSince(|o.state.published|, Dispatched(s, entities).state, k, e) {
            SincePublished(|o.state.published|, |s.published|, Dispatched(s, entities).state, k, e);
          }
        }
      }
    }
  }

  lemma SincePublished(n: nat, m: nat, r: State, k: nat, e: Event)
    requires m <= n && PublishedSince(n, r, k, e)
    ensures PublishedSince(m, r, k, e)
  {
    var i :| n <= i < |r.published| && r.published[i] == Occurrence(k, e);
  }

  /** All the copied events are published. */
  lemma {:induction false} PublishedAllPublishes(s: State, entity: nat, events: seq<Event>, e: Event)
    requires e in events && !PublishedAll(s, entity, events).threw
    ensures PublishedSince(|s.published|, PublishedAll(s, entity, events).state, entity, e)
    decreases |events|
  {
    var s1 := s.(published := s.published + [Occurrence(entity, events[0])]);
    var o := Handled(s1, events[0].handler);
    HandledGrown(s1, events[0].handler);
    PublishedAllGrown(o.state, entity, events[1..]);
    if e == events[0] {
      assert s1.published[|s.published|] == Occurrence(entity, e);
      assert PublishedSince(|s.published|, s1, entity, e);
      StillPublished(|s.published|, |s.published|, s1, o.state, entity, e);
      StillPublished(|s.published|, |s.published|, o.state, PublishedAll(s, entity, events).state, entity, e);
    } else {
      assert e in events[1..];
      PublishedAllPublishes(o.state, entity, events[1..], e);
      SincePublished(|o.state.published|, |s.published|, PublishedAll(s, entity, events).state, entity, e);
    }
  }

  /** A pending event stays pending until it is published. */
  lemma {:induction false} PublishedAllKeeps(s: State, entity: nat, events: seq<Event>, k: nat, e: Event)
    requires k < |s.pending| && e in s.pending[k] && !PublishedAll(s, entity, events).threw
    ensures var r := PublishedAll(s, entity, events).state; e in r.pending[k] || PublishedSince(|s.published|, r, k, e)
    decreases PendingSize(s.pending) + EventsSize(events), 0, |events|
  {
    if events != [] {
      var s1 := s.(published := s.published + [Occurrence(entity, events[0])]);
      var o := Handled(s1, events[0].handler);
      HandledKeeps(s1, events[0].handler, k, e);
      HandledGrown(s1, events[0].handler);
      PublishedAllGrown(o.state, entity, events[1..]);
      if PublishedSince(|s1.published|, o.state, k, e) {
        StillPublished(|s1.published|, |s.published|, o.state, PublishedAll(s, entity, events).state, k, e);
      } else {
        PublishedAllKeeps(o.state, entity, events[1..], k, e);
        if PublishedSince(|o.state.published|, PublishedAll(s, entity, events).state, k, e) {
          SincePublished(|o.state.published|, |s.published|, PublishedAll(s, entity, events).state, k, e);
        }
      }
    }
  }

  lemma {:induction false} HandledKeeps(s: State, actions: seq<Action>, k: nat, e: Event)
    requires k < |s.pending| && e in s.pending[k] && !Handled(s, actions).threw
    ensures var r := Handled(s, actions).state; e in r.pending[k] || PublishedSince(|s.published|, r, k, e)
    decreases PendingSize(s.pending) + ActionsSize(actions), 0, |actions|
  {
    if actions != [] {
      assert ActionsSize(actions) == ActionSize(actions[0]) + ActionsSize(actions[1..]);
      match actions[0]
      case Register(entity, f) =>
        HandledKeeps(Registered(s, entity, f), actions[1..], k, e);
      case Save(commits) =>
        var o := Saved(s, commits);
        SavedPublishes(s, k, e);
        HandledGrown(o.state, actions[1..]);
        StillPublished(|s.published|, |s.published|, o.state, Handled(s, actions).state, k, e);
    }
  }

  // ---------- Order kept, and order broken ----------

  /** Two events of the entity have been published against the order of their registration. */
  ghost predicate Inverted(r: State, k: nat) {
    && k < |r.pending|
    && exists i, j :: 0 <= i < j < |r.published| && r.published[i].entity == k && r.published[j].entity == k
                      && Before(On(r.registered, k), r.published[j].event, r.published[i].event)
  }

  /** Since there were `n` publications, an event of the entity has been published that was registered after `h`. */
  ghost predicate Passed(n: nat, r: State, k: nat, h: Event) {
    && k < |r.pending|
    && exists i :: n <= i < |r.published| && r.published[i].entity == k
                   && Before(On(r.registered, k), h, r.published[i].event)
  }

  /** The events copied from each entity's list and not yet published. */
  type Copies = map<nat, seq<Event>>

  const NONE: Copies := map[]

  function HeldOf(held: Copies, k: nat): seq<Event> {
    if k in held then held[k] else []
  }

  /** Registration order so far: published, then copied, then pending. */
  predicate Exact(s: State, held: seq<Event>, k: nat) {
    k < |s.pending| ==> On(s.registered, k) == On(s.published, k) + held + s.pending[k]
  }

  ghost predicate AllExact(s: State, held: Copies, busy: set<nat>) {
    && (forall k :: k in busy <==> HeldOf(held, k) != [])
    && (forall k: nat :: Exact(s, HeldOf(held, k), k))
  }

  ghost predicate Broken(n: nat, r: State, held: Copies) {
    || (exists k :: Inverted(r, k))
    || (exists k, h :: h in HeldOf(held, k) && Passed(n, r, k, h))
  }

  ghost predicate Outcomes(n: nat, r: State, held: Copies, busy: set<nat>, orderly: bool) {
    if orderly then AllExact(r, held, busy) else Broken(n, r, held)
  }

  lemma StillBefore<T>(xs: seq<T>, ys: seq<T>, a: T, b: T)
    requires xs <= ys && Before(xs, a, b)
    ensures Before(ys, a, b)
  {
    var i, j :| 0 <= i < j < |xs| && xs[i] == a && xs[j] == b;
    assert ys[i] == a && ys[j] == b;
  }

  lemma StillInverted(s: State, r: State, k: nat)
    requires Grown(s, r) && Inverted(s, k)
    ensures Inverted(r, k)
  {
    var i, j :| 0 <= i < j < |s.published| && s.published[i].entity == k && s.published[j].entity == k
                && Before(On(s.registered, k), s.published[j].event, s.published[i].event);
    OnPrefix(s.registered, r.registered, k);
    StillBefore(On(s.registered, k), On(r.registered, k), s.published[j].event, s.published[i].event);
    assert r.published[i] == s.published[i] && r.published[j] == s.published[j];
  }

  lemma StillPassed(n: nat, m: nat, s: State, r: State, k: nat, h: Event)
    requires m <= n && Grown(s, r) && Passed(n, s, k, h)
    ensures Passed(m, r, k, h)
  {
    var i :| n <= i < |s.published| && s.published[i].entity == k &&
        Before(On(s.registered, k), h, s.published[i].event);
    OnPrefix(s.registered, r.registered, k);
    StillBefore(On(s.registered, k), On(r.registered, k), h, s.published[i].event);
    assert r.published[i] == s.published[i];
  }

  lemma StillBroken(n: nat, m: nat, s: State, r: State, held: Copies)
    requires m <= n && Grown(s, r) && Broken(n, s, held)
    ensures Broken(m, r, held)
  {
    if k :| Inverted(s, k) {
      StillInverted(s, r, k);
    } else {
      var k, h :| h in HeldOf(held, k) && Passed(n, s, k, h);
      StillPassed(n, m, s, r, k, h);
    }
  }

  /** An event that was copied and is published after a later one. */
  lemma PassedThenPublished(n: nat, s: State, r: State, k: nat, h: Event)
    requires Grown(s, r) && Passed(n, s, k, h) && PublishedSince(|s.published|, r, k, h)
    ensures Inverted(r, k)
  {
    var i :| n <= i < |s.published| && s.published[i].entity == k &&
        Before(On(s.registered, k), h, s.published[i].event);
    var j :| |s.published| <= j < |r.published| && r.published[j] == Occurrence(k, h);
    OnPrefix(s.registered, r.registered, k);
    StillBefore(On(s.registered, k), On(r.registered, k), h, s.published[i].event);
    assert r.published[i] == s.published[i];
  }

  // ---------- The induction ----------

  lemma {:induction false} SavedOrder(s: State, held: Copies, busy: set<nat>)
    requires AllExact(s, held, busy) && !Saved(s, true).threw
    ensures Outcomes(|s.published|, Saved(s, true).state, held, busy, OrderlySave(s, true, busy))
    decreases PendingSize(s.pending), 2, 0
  {
    if k :| k in busy && k < |s.pending| && s.pending[k] != [] {
      DisorderlySave(s, held, k);
    } else {
      WithEventsAscend(s.pending);
      DispatchedOrder(s, WithEvents(s.pending), held, busy);
    }
  }

  /** The save publishes what is pending, ahead of what has been copied. */
  lemma DisorderlySave(s: State, held: Copies, k: nat)
    requires k < |s.pending| && s.pending[k] != [] && HeldOf(held, k) != [] && Exact(s, HeldOf(held, k), k)
    requires !Saved(s, true).threw
    ensures Broken(|s.published|, Saved(s, true).state, held)
  {
    var (r, h, e) := (Saved(s, true).state, HeldOf(held, k)[0], s.pending[k][0]);
    SavedPublishes(s, k, e);
    SavedGrows(s, true);
    var (all, n) := (On(s.registered, k), |On(s.published, k)|);
    assert all[n] == h && all[n + |HeldOf(held, k)|] == e;
    assert Before(all, h, e);
    OnPrefix(s.registered, r.registered, k);
    StillBefore(all, On(r.registered, k), h, e);
    assert Passed(|s.published|, r, k, h);
  }

  lemma {:induction false} DispatchedOrder(s: State, entities: seq<nat>, held: Copies, busy: set<nat>)
    requires forall i | 0 <= i < |entities| :: entities[i] < |s.pending|
    requires forall k | k in entities :: k !in busy
    requires AllExact(s, held, busy) && !Dispatched(s, entities).threw
    ensures Outcomes(|s.published|, Dispatched(s, entities).state, held, busy, OrderlyDispatch(s, entities, busy))
    decreases PendingSize(s.pending), 1, |entities|
  {
    if entities != [] {
      var k := entities[0];
      PendingSizeUpdate(s.pending, k, []);
      var cleared := s.(pending := s.pending[k := []]);
      ClearedExact(s, k, held, busy);
      PublishedAllOrder(cleared, k, s.pending[k], held, busy);
      var o := PublishedAll(cleared, k, s.pending[k]);
      PublishedAllGrown(cleared, k, s.pending[k]);
      DispatchedGrown(o.state, entities[1..]);
      if OrderlyPublish(cleared, k, s.pending[k], busy) {
        DispatchedOrder(o.state, entities[1..], held, busy);
        if !OrderlyDispatch(o.state, entities[1..], busy) {
          StillBroken(|o.state.published|, |s.published|, Dispatched(s, entities).state,
              Dispatched(s, entities).state, held);
        }
      } else {
        StillBroken(|s.published|, |s.published|, o.state, Dispatched(s, entities).state, held);
      }
    }
  }

  /** The state while the events of one entity are being published: the rest of them is copied. */
  ghost predicate PublishingExact(s: State, entity: nat, events: seq<Event>, held: Copies, busy: set<nat>) {
    && (forall k :: k in busy <==> HeldOf(held, k) != [])
    && entity !in busy
    && (forall k: nat :: Exact(s, if k == entity then events else HeldOf(held, k), k))
  }

  lemma ClearedExact(s: State, k: nat, held: Copies, busy: set<nat>)
    requires k < |s.pending| && k !in busy && AllExact(s, held, busy)
    ensures PublishingExact(s.(pending := s.pending[k := []]), k, s.pending[k], held, busy)
  {
    assert HeldOf(held, k) == [] && Exact(s, [], k);
    var cleared := s.(pending := s.pending[k := []]);
    assert On(s.published, k) + [] + s.pending[k] == On(s.published, k) + s.pending[k] + [];
    forall j: nat ensures Exact(cleared, if j == k then s.pending[k] else HeldOf(held, j), j) {
      assert Exact(s, HeldOf(held, j), j);
    }
  }

  lemma NothingLeftExact(s: State, entity: nat, held: Copies, busy: set<nat>)
    requires PublishingExact(s, entity, [], held, busy)
    ensures AllExact(s, held, busy)
  {
    forall k: nat ensures Exact(s, HeldOf(held, k), k) {
      assert Exact(s, if k == entity then [] else HeldOf(held, k), k);
    }
  }

  function WithCopy(held: Copies, entity: nat, rest: seq<Event>): Copies {
    if rest == [] then held else held[entity := rest]
  }

  /** One more publication: the handlers run with the rest copied. */
  lemma NextExact(s: State, entity: nat, events: seq<Event>, held: Copies, busy: set<nat>)
    requires events != [] && PublishingExact(s, entity, events, held, busy)
    ensures var s1 := s.(published := s.published + [Occurrence(entity, events[0])]);
            AllExact(s1, WithCopy(held, entity, events[1..]), if |events| > 1 then busy + {entity} else busy)
  {
    var s1 := s.(published := s.published + [Occurrence(entity, events[0])]);
    var (rest, held1) := (events[1..], WithCopy(held, entity, events[1..]));
    assert HeldOf(held1, entity) == rest && forall k | k != entity :: HeldOf(held1, k) == HeldOf(held, k);
    forall k: nat ensures Exact(s1, HeldOf(held1, k), k) {
      assert Exact(s, if k == entity then events else HeldOf(held, k), k);
      OneMorePublished(s, entity, events, if k == entity then events else HeldOf(held, k), k);
    }
  }

  lemma OneMorePublished(s: State, entity: nat, events: seq<Event>, held: seq<Event>, k: nat)
    requires events != [] && Exact(s, held, k) && (k == entity ==> held == events)
    ensures Exact(s.(published := s.published + [Occurrence(entity, events[0])]),
                  if k == entity then events[1..] else held, k)
  {
    OnSnoc(s.published, Occurrence(entity, events[0]), k);
    if k < |s.pending| && k == entity {
      assert On(s.published, k) + events + s.pending[k] ==
          On(s.published, k) + [events[0]] + events[1..] + s.pending[k];
    }
  }

  lemma RestExact(s: State, entity: nat, rest: seq<Event>, held: Copies, busy: set<nat>)
    requires (forall k :: k in busy <==> HeldOf(held, k) != []) && entity !in busy
    requires AllExact(s, WithCopy(held, entity, rest), if rest != [] then busy + {entity} else busy)
    ensures PublishingExact(s, entity, rest, held, busy)
  {
    forall k: nat ensures Exact(s, if k == entity then rest else HeldOf(held, k), k) {
      assert Exact(s, HeldOf(WithCopy(held, entity, rest), k), k);
    }
  }

  lemma {:induction false} PublishedAllOrder(s: State, entity: nat, events: seq<Event>, held: Copies, busy: set<nat>)
    requires PublishingExact(s, entity, events, held, busy) && !PublishedAll(s, entity, events).threw
    ensures Outcomes(|s.published|, PublishedAll(s, entity, events).state, held, busy,
                     OrderlyPublish(s, entity, events, busy))
    decreases PendingSize(s.pending) + EventsSize(events), 0, |events|
  {
    if events == [] {
      NothingLeftExact(s, entity, held, busy);
    } else {
      var (rest, s1) := (events[1..], s.(published := s.published + [Occurrence(entity, events[0])]));
      var (held1, busy1) := (WithCopy(held, entity, rest), if |events| > 1 then busy + {entity} else busy);
      NextExact(s, entity, events, held, busy);
      HandledOrder(s1, events[0].handler, held1, busy1);
      var (o, r) := (Handled(s1, events[0].handler), PublishedAll(s, entity, events).state);
      HandledGrown(s1, events[0].handler);
      PublishedAllGrown(o.state, entity, rest);
      if OrderlyHandle(s1, events[0].handler, busy1) {
        RestExact(o.state, entity, rest, held, busy);
        PublishedAllOrder(o.state, entity, rest, held, busy);
        if !OrderlyPublish(o.state, entity, rest, busy) {
          StillBroken(|o.state.published|, |s.published|, r, r, held);
        }
      } else {
        BrokenStays(|s1.published|, |s.published|, o.state, entity, rest, held);
      }
    }
  }

  /** A break while the handlers of an event run is one for good, since the rest of the copied events follows. */
  lemma BrokenStays(n: nat, m: nat, s: State, entity: nat, rest: seq<Event>, held: Copies)
    requires m <= n && Broken(n, s, WithCopy(held, entity, rest)) && !PublishedAll(s, entity, rest).threw
    ensures Broken(m, PublishedAll(s, entity, rest).state, held)
  {
    var r := PublishedAll(s, entity, rest).state;
    PublishedAllGrown(s, entity, rest);
    if k :| Inverted(s, k) {
      StillInverted(s, r, k);
    } else {
      var k, h :| h in HeldOf(WithCopy(held, entity, rest), k) && Passed(n, s, k, h);
      if k == entity && h in rest {
        PublishedAllPublishes(s, entity, rest, h);
        PassedThenPublished(n, s, r, k, h);
      } else {
        StillPassed(n, m, s, r, k, h);
      }
    }
  }

  lemma RegisteredExact(s: State, entity: nat, e: Event, held: Copies, busy: set<nat>)
    requires AllExact(s, held, busy)
    ensures AllExact(Registered(s, entity, e), held, busy)
  {
    forall k: nat ensures Exact(Registered(s, entity, e), HeldOf(held, k), k) {
      assert Exact(s, HeldOf(held, k), k);
      OnSnoc(s.registered, Occurrence(entity, e), k);
    }
  }

  lemma {:induction false} HandledOrder(s: State, actions: seq<Action>, held: Copies, busy: set<nat>)
    requires AllExact(s, held, busy) && !Handled(s, actions).threw
    ensures Outcomes(|s.published|, Handled(s, actions).state, held, busy, OrderlyHandle(s, actions, busy))
    decreases PendingSize(s.pending) + ActionsSize(actions), 0, |actions|
  {
    if actions != [] {
      assert ActionsSize(actions) == ActionSize(actions[0]) + ActionsSize(actions[1..]);
      match actions[0]
      case Register(entity, e) =>
        RegisteredExact(s, entity, e, held, busy);
        HandledOrder(Registered(s, entity, e), actions[1..], held, busy);
      case Save(commits) =>
        var (o, r) := (Saved(s, commits), Handled(s, actions).state);
        SavedOrder(s, held, busy);
        SavedGrows(s, commits);
        HandledGrown(o.state, actions[1..]);
        if OrderlySave(s, commits, busy) {
          HandledOrder(o.state, actions[1..], held, busy);
          if !OrderlyHandle(o.state, actions[1..], busy) {
            StillBroken(|o.state.published|, |s.published|, r, r, held);
          }
        } else {
          StillBroken(|s.published|, |s.published|, o.state, r, held);
        }
    }
  }

  // ---------- Whole lives ----------

  lemma OneActionOrder(s: State, a: Action)
    requires AllExact(s, NONE, {})
    requires Handled(s, [a]).threw ==> a == Throw || a == Save(false)
    ensures var r := Handled(s, [a]).state;
            if OrderlyHandle(s, [a], {}) then AllExact(r, NONE, {}) else exists k :: Inverted(r, k)
  {
    if Handled(s, [a]).threw {
      assert OrderlySave(s, false, {});
      assert Handled(s, [a]).state == s && OrderlyHandle(s, [a], {});
    } else {
      HandledOrder(s, [a], NONE, {});
      BrokenIsInverted(|s.published|, Handled(s, [a]).state);
    }
  }

  lemma BrokenIsInverted(n: nat, r: State)
    ensures Broken(n, r, NONE) ==> exists k :: Inverted(r, k)
  {
    forall k ensures HeldOf(NONE, k) == [] {}
  }

  lemma NewIsExact(tracked: nat)
    ensures AllExact(NewContext(tracked), NONE, {})
  {
    forall k: nat ensures Exact(NewContext(tracked), HeldOf(NONE, k), k) {}
  }

  lemma {:induction false} LifeOrder(tracked: nat, actions: seq<Action>)
    requires Calm(NewContext(tracked), actions)
    ensures var s := Life(NewContext(tracked), actions);
            if OrderlyLife(NewContext(tracked), actions) then AllExact(s, NONE, {}) else exists k :: Inverted(s, k)
  {
    if actions == [] {
      NewIsExact(tracked);
    } else {
      var (before, last) := (actions[..|actions| - 1], actions[|actions| - 1]);
      var s := Life(NewContext(tracked), before);
      var r := Handled(s, [last]).state;
      assert Life(NewContext(tracked), actions) == r;
      LifeOrder(tracked, before);
      if OrderlyLife(NewContext(tracked), before) {
        OneActionOrder(s, last);
        assert OrderlyLife(NewContext(tracked), actions) == OrderlyHandle(s, [last], {});
      } else {
        var k :| Inverted(s, k);
        HandledGrown(s, [last]);
        StillInverted(s, r, k);
        assert !OrderlyLife(NewContext(tracked), actions) && Inverted(r, k);
      }
    }
  }

  // ---------- An inversion is no subsequence ----------

  lemma {:induction false} SubMember<T>(a: seq<T>, b: seq<T>, i: nat)
    requires IsSubsequence(a, b) && i < |a|
    ensures a[i] in b
    decreases |b|
  {
    var (init, last) := (b[..|b| - 1], b[|b| - 1]);
    if a[|a| - 1] != last {
      SubMember(a, init, i);
    } else if i < |a| - 1 {
      SubMember(a[..|a| - 1], init, i);
    }
  }

  lemma {:induction false} SubOrder<T>(a: seq<T>, b: seq<T>, i: nat, j: nat, p: nat, q: nat)
    requires IsSubsequence(a, b) && NoDuplicates(b)
    requires i < j < |a| && p < |b| && q < |b| && b[p] == a[i] && b[q] == a[j]
    ensures p < q
    decreases |b|
  {
    var (init, last) := (b[..|b| - 1], b[|b| - 1]);
    if a[|a| - 1] != last {
      SubMember(a, init, i);
      SubMember(a, init, j);
      SubOrder(a, init, i, j, p, q);
    } else {
      SubMember(a[..|a| - 1], init, i);
      if j < |a| - 1 {
        SubMember(a[..|a| - 1], init, j);
        SubOrder(a[..|a| - 1], init, i, j, p, q);
      }
    }
  }

  /** Where a publication stands among those of its entity. */
  lemma {:induction false} OnAt(xs: seq<Occurrence>, i: nat, k: nat)
    requires i < |xs| && xs[i].entity == k
    ensures |On(xs[..i], k)| < |On(xs, k)| && On(xs, k)[|On(xs[..i], k)|] == xs[i].event
  {
    var init := xs[..|xs| - 1];
    OnSnoc(init, xs[|xs| - 1], k);
    assert init + [xs[|xs| - 1]] == xs;
    if i < |init| {
      OnAt(init, i, k);
      assert init[..i] == xs[..i];
    } else {
      assert xs[..i] == init;
    }
  }

  lemma InvertedIsNoSub(s: State, k: nat)
    requires Inverted(s, k) && NoDuplicates(On(s.registered, k))
    ensures !IsSubsequence(On(s.published, k), On(s.registered, k))
  {
    var (all, out) := (On(s.registered, k), On(s.published, k));
    var i, j :| 0 <= i < j < |s.published| && s.published[i].entity == k && s.published[j].entity == k
                && Before(all, s.published[j].event, s.published[i].event);
    OnAt(s.published, i, k);
    OnAt(s.published, j, k);
    OnAt(s.published[..j], i, k);
    assert s.published[..j][..i] == s.published[..i];
    var p, q :| 0 <= p < q < |all| && all[p] == s.published[j].event && all[q] == s.published[i].event;
    if IsSubsequence(out, all) {
      SubOrder(out, all, |On(s.published[..i], k)|, |On(s.published[..j], k)|, q, p);
    }
  }

  lemma {:induction false} LifeTracks(tracked: nat, actions: seq<Action>)
    ensures |Life(NewContext(tracked), actions).pending| == tracked
  {
    if actions != [] { LifeTracks(tracked, actions[..|actions| - 1]); }
  }

  /** Handlers may save again, to any depth. As long as none throws, and no entity has the same event registered
      twice, every entity's events are published in the order of their registration if and only if no save is
      made while an entity has both copied events still to be published and pending ones. */
  lemma {:induction false} InOrderIffOrderly(tracked: nat, actions: seq<Action>)
    requires Calm(NewContext(tracked), actions)
    requires forall k | 0 <= k < tracked :: NoDuplicates(On(Life(NewContext(tracked), actions).registered, k))
    ensures var s := Life(NewContext(tracked), actions);
            OrderlyLife(NewContext(tracked), actions) <==>
              forall k | 0 <= k < tracked :: IsSubsequence(On(s.published, k), On(s.registered, k))
  {
    var s := Life(NewContext(tracked), actions);
    LifeOrder(tracked, actions);
    LifeTracks(tracked, actions);
    if OrderlyLife(NewContext(tracked), actions) {
      forall k | 0 <= k < tracked ensures IsSubsequence(On(s.published, k), On(s.registered, k)) {
        assert Exact(s, HeldOf(NONE, k), k);
        assert On(s.published, k) + HeldOf(NONE, k) == On(s.published, k);
        SubOfItself(On(s.published, k));
        MuchLongerSub(On(s.published, k), On(s.published, k), s.pending[k]);
      }
    } else {
      var k :| Inverted(s, k);
      InvertedIsNoSub(s, k);
    }
  }

  // ---------- A handler that upsets the order ----------

  lemma OnePublication(s: State, e: Event)
    requires s.pending == [[]] && e.handler == []
    ensures PublishedAll(s, 0, [e]) == Outcome(s.(published := s.published + [Occurrence(0, e)]), false)
  {
    assert [e][1..] == [];
  }

  /** One entity with one event whose handlers do nothing. */
  lemma OneSave(s: State, e: Event)
    requires s.pending == [[e]] && e.handler == []
    ensures Saved(s, true) == Outcome(s.(pending := [[]], published := s.published + [Occurrence(0, e)]), false)
  {
    assert [[e]][..0] == [] && WithEvents([[e]]) == [0] && [0][1..] == [];
    var cleared := s.(pending := [[]]);
    assert s.pending[0 := []] == [[]];
    OnePublication(cleared, e);
    var r := PublishedAll(cleared, 0, [e]).state;
    assert Dispatched(s, [0]) == Dispatched(r, []);
  }

  lemma RegisteringAndSaving(s: State, c: Event)
    requires s.pending == [[]] && c.handler == []
    ensures Handled(s, [Register(0, c), Save(true)]) ==
            Outcome(s.(registered := s.registered + [Occurrence(0, c)],
                       published := s.published + [Occurrence(0, c)]), false)
  {
    var actions := [Register(0, c), Save(true)];
    var s1 := s.(pending := [[c]], registered := s.registered + [Occurrence(0, c)]);
    assert [] + [c] == [c] && Registered(s, 0, c) == s1;
    OneSave(s1, c);
    assert actions[1..] == [Save(true)] && [Save(true)][1..] == [];
    assert Handled(s1, [Save(true)]) == Saved(s1, true);
  }

  /** A handler that saves again breaks the order: of two pending events A and B, where A's handler registers
      C and saves, C is published before B, which was registered before it. */
  lemma SavingAgainReorders(a: Event, b: Event, c: Event)
    requires a.handler == [Register(0, c), Save(true)] && b.handler == [] && c.handler == []
    ensures var s := State([[a, b]], [Occurrence(0, a), Occurrence(0, b)], [], []);
            Saved(s, true) ==
              Outcome(State([[]],
                            [Occurrence(0, a), Occurrence(0, b), Occurrence(0, c)],
                            [Occurrence(0, a), Occurrence(0, c), Occurrence(0, b)],
                            []), false)
  {
    var s := State([[a, b]], [Occurrence(0, a), Occurrence(0, b)], [], []);
    var cleared := s.(pending := [[]]);
    assert [[a, b]][..0] == [] && WithEvents([[a, b]]) == [0] && [0][1..] == [];
    assert s.pending[0 := []] == [[]];
    var s1 := cleared.(published := [] + [Occurrence(0, a)]);
    RegisteringAndSaving(s1, c);
    var s2 := Handled(s1, a.handler).state;
    OnePublication(s2, b);
    assert [a, b][1..] == [b];
    assert PublishedAll(cleared, 0, [a, b]) == PublishedAll(s2, 0, [b]);
    var r := PublishedAll(s2, 0, [b]).state;
    assert Dispatched(s, [0]) == Dispatched(r, []);
    assert r.published == [Occurrence(0, a), Occurrence(0, c), Occurrence(0, b)];
  }
}
