/** Orderly saves keep the order of publication whatever handlers throw. */
module DomainEventThrows {
  import opened DomainEvents
  import opened DomainEventProofs
  import opened DomainEventOrder
  import opened DomainEventReentry

  /** On every entity: what has been copied and not been published was registered after all that has been
      published, and before what is pending. */
  ghost predicate AllInOrder(s: State, held: Copies, busy: set<nat>) {
    && (forall k :: k in busy <==> HeldOf(held, k) != [])
    && (forall k: nat :: InOrder(s, HeldOf(held, k), k))
  }

  /** The same while the events of one entity are being published. */
  ghost predicate PublishingInOrder(s: State, entity: nat, events: seq<Event>, held: Copies, busy: set<nat>) {
    && (forall k :: k in busy <==> HeldOf(held, k) != [])
    && entity !in busy
    && (forall k: nat :: InOrder(s, if k == entity then events else HeldOf(held, k), k))
  }

  /** Only the histories and lists of the entity itself matter. */
  lemma SameOn(s: State, r: State, held: seq<Event>, k: nat)
    requires InOrder(s, held, k) && |r.pending| == |s.pending| && (k < |s.pending| ==> r.pending[k] == s.pending[k])
    requires On(r.registered, k) == On(s.registered, k) && On(r.published, k) == On(s.published, k)
    ensures InOrder(r, held, k)
  {
  }

  // ---------- One publication ----------

  lemma ClearedInOrder(s: State, e: nat, held: Copies, busy: set<nat>)
    requires e < |s.pending| && e !in busy && AllInOrder(s, held, busy)
    ensures PublishingInOrder(s.(pending := s.pending[e := []]), e, s.pending[e], held, busy)
  {
    var r := s.(pending := s.pending[e := []]);
    forall k: nat ensures InOrder(r, if k == e then s.pending[e] else HeldOf(held, k), k) {
      assert InOrder(s, HeldOf(held, k), k);
      if k == e { Cleared(s, e, k); } else { SameOn(s, r, HeldOf(held, k), k); }
    }
  }

  lemma PublicationInOrderOn(s: State, entity: nat, events: seq<Event>, held: seq<Event>, k: nat)
    requires events != [] && InOrder(s, held, k) && (k == entity ==> held == events)
    ensures InOrder(s.(published := s.published + [Occurrence(entity, events[0])]),
                    if k == entity then events[1..] else held, k)
  {
    if k == entity {
      assert events == [events[0]] + events[1..];
      OnePublished(s, entity, events[0], events[1..], k);
    } else {
      OnSnoc(s.published, Occurrence(entity, events[0]), k);
      SameOn(s, s.(published := s.published + [Occurrence(entity, events[0])]), held, k);
    }
  }

  lemma PublicationInOrder(s: State, entity: nat, events: seq<Event>, held: Copies, busy: set<nat>)
    requires events != [] && PublishingInOrder(s, entity, events, held, busy)
    ensures AllInOrder(s.(published := s.published + [Occurrence(entity, events[0])]),
                       WithCopy(held, entity, events[1..]), if |events| > 1 then busy + {entity} else busy)
  {
    var r := s.(published := s.published + [Occurrence(entity, events[0])]);
    var held1 := WithCopy(held, entity, events[1..]);
    assert HeldOf(held1, entity) == events[1..] && forall k | k != entity :: HeldOf(held1, k) == HeldOf(held, k);
    forall k: nat ensures InOrder(r, HeldOf(held1, k), k) {
      PublicationInOrderOn(s, entity, events, if k == entity then events else HeldOf(held, k), k);
    }
  }

  lemma RestInOrder(s: State, entity: nat, rest: seq<Event>, held: Copies, busy: set<nat>)
    requires (forall k :: k in busy <==> HeldOf(held, k) != []) && entity !in busy
    requires AllInOrder(s, WithCopy(held, entity, rest), if rest != [] then busy + {entity} else busy)
    ensures PublishingInOrder(s, entity, rest, held, busy)
  {
    forall k: nat ensures InOrder(s, if k == entity then rest else HeldOf(held, k), k) {
      assert InOrder(s, HeldOf(WithCopy(held, entity, rest), k), k);
    }
  }

  lemma NothingLeftInOrder(s: State, entity: nat, held: Copies, busy: set<nat>)
    requires PublishingInOrder(s, entity, [], held, busy)
    ensures AllInOrder(s, held, busy)
  {
    forall k: nat ensures InOrder(s, HeldOf(held, k), k) {
      assert InOrder(s, if k == entity then [] else HeldOf(held, k), k);
    }
  }

  /** A throw drops the rest of the copied events. */
  lemma DroppedInOrder(s: State, entity: nat, rest: seq<Event>, held: Copies, busy: set<nat>)
    requires PublishingInOrder(s, entity, rest, held, busy)
    ensures AllInOrder(CutOff(s, entity, rest), held, busy)
  {
    forall k: nat ensures InOrder(CutOff(s, entity, rest), HeldOf(held, k), k) {
      assert InOrder(s, if k == entity then rest else HeldOf(held, k), k);
      if k == entity { RestCutOff(s, entity, rest, k); }
      else { SameOn(s, CutOff(s, entity, rest), HeldOf(held, k), k); }
    }
  }

  lemma RegistrationInOrder(s: State, entity: nat, e: Event, held: Copies, busy: set<nat>)
    requires AllInOrder(s, held, busy)
    ensures AllInOrder(Registered(s, entity, e), held, busy)
  {
    forall k: nat ensures InOrder(Registered(s, entity, e), HeldOf(held, k), k) {
      OneRegistered(s, entity, e, HeldOf(held, k), k);
    }
  }

  // ---------- The induction ----------

  lemma {:induction false} SavedInOrder(s: State, commits: bool, held: Copies, busy: set<nat>)
    requires AllInOrder(s, held, busy) && OrderlySave(s, commits, busy)
    ensures AllInOrder(Saved(s, commits).state, held, busy)
    decreases PendingSize(s.pending), 2, 0
  {
    if commits {
      WithEventsAscend(s.pending);
      DispatchedAllInOrder(s, WithEvents(s.pending), held, busy);
    }
  }

  lemma {:induction false} DispatchedAllInOrder(s: State, entities: seq<nat>, held: Copies, busy: set<nat>)
    requires forall i | 0 <= i < |entities| :: entities[i] < |s.pending|
    requires forall k | k in entities :: k !in busy
    requires AllInOrder(s, held, busy) && OrderlyDispatch(s, entities, busy)
    ensures AllInOrder(Dispatched(s, entities).state, held, busy)
    decreases PendingSize(s.pending), 1, |entities|
  {
    if entities != [] {
      var k := entities[0];
      PendingSizeUpdate(s.pending, k, []);
      var cleared := s.(pending := s.pending[k := []]);
      ClearedInOrder(s, k, held, busy);
      PublishedAllAlong(cleared, k, s.pending[k], held, busy);
      var o := PublishedAll(cleared, k, s.pending[k]);
      if !o.threw { DispatchedAllInOrder(o.state, entities[1..], held, busy); }
    }
  }

  lemma {:induction false} PublishedAllAlong(s: State, entity: nat, events: seq<Event>, held: Copies, busy: set<nat>)
    requires PublishingInOrder(s, entity, events, held, busy) && OrderlyPublish(s, entity, events, busy)
    ensures AllInOrder(PublishedAll(s, entity, events).state, held, busy)
    decreases PendingSize(s.pending) + EventsSize(events), 0, |events|
  {
    if events == [] {
      NothingLeftInOrder(s, entity, held, busy);
    } else {
      var (rest, s1) := (events[1..], s.(published := s.published + [Occurrence(entity, events[0])]));
      var (held1, busy1) := (WithCopy(held, entity, rest), if |events| > 1 then busy + {entity} else busy);
      PublicationInOrder(s, entity, events, held, busy);
      HandledAllInOrder(s1, events[0].handler, held1, busy1);
      var o := Handled(s1, events[0].handler);
      RestInOrder(o.state, entity, rest, held, busy);
      if o.threw { DroppedInOrder(o.state, entity, rest, held, busy); }
      else { PublishedAllAlong(o.state, entity, rest, held, busy); }
    }
  }

  lemma {:induction false} HandledAllInOrder(s: State, actions: seq<Action>, held: Copies, busy: set<nat>)
    requires AllInOrder(s, held, busy) && OrderlyHandle(s, actions, busy)
    ensures AllInOrder(Handled(s, actions).state, held, busy)
    decreases PendingSize(s.pending) + ActionsSize(actions), 0, |actions|
  {
    if actions != [] {
      assert ActionsSize(actions) == ActionSize(actions[0]) + ActionsSize(actions[1..]);
      match actions[0]
      case Register(entity, e) =>
        RegistrationInOrder(s, entity, e, held, busy);
        HandledAllInOrder(Registered(s, entity, e), actions[1..], held, busy);
      case Save(commits) =>
        SavedInOrder(s, commits, held, busy);
        var o := Saved(s, commits);
        if !o.threw { HandledAllInOrder(o.state, actions[1..], held, busy); }
      case Throw =>
    }
  }

  // ---------- Whole lives ----------

  lemma NewIsInOrder(tracked: nat)
    ensures AllInOrder(NewContext(tracked), NONE, {})
  {
    forall k: nat ensures InOrder(NewContext(tracked), HeldOf(NONE, k), k) {}
  }

  lemma {:induction false} LifeAllInOrder(tracked: nat, actions: seq<Action>)
    requires OrderlyLife(NewContext(tracked), actions)
    ensures AllInOrder(Life(NewContext(tracked), actions), NONE, {})
  {
    if actions == [] {
      NewIsInOrder(tracked);
    } else {
      var (before, last) := (actions[..|actions| - 1], actions[|actions| - 1]);
      LifeAllInOrder(tracked, before);
      HandledAllInOrder(Life(NewContext(tracked), before), [last], NONE, {});
    }
  }

  /** Whatever handlers register, save and throw, to any depth: as long as no save is made while an entity has both
      copied events still to be published and pending ones, every entity's events are published in the order of
      their registration, in every state of the context's life. */
  lemma {:induction false} OrderlyIsInOrder(tracked: nat, actions: seq<Action>, k: nat)
    requires OrderlyLife(NewContext(tracked), actions) && k < tracked
    ensures var s := Life(NewContext(tracked), actions); IsSubsequence(On(s.published, k), On(s.registered, k))
  {
    LifeAllInOrder(tracked, actions);
    LifeTracks(tracked, actions);
    var s := Life(NewContext(tracked), actions);
    assert InOrder(s, HeldOf(NONE, k), k);
    MuchLongerSub(On(s.published, k), Earlier(s, [], k), s.pending[k]);
  }

  // ---------- What a throw may hide ----------

  lemma RegisteringSavingAndThrowing(s: State, c: Event)
    requires s.pending == [[]] && c.handler == []
    ensures Handled(s, [Register(0, c), Save(true), Throw]) ==
            Outcome(s.(registered := s.registered + [Occurrence(0, c)],
                       published := s.published + [Occurrence(0, c)]), true)
    ensures !OrderlyHandle(s, [Register(0, c), Save(true), Throw], {0})
  {
    var actions := [Register(0, c), Save(true), Throw];
    var s1 := s.(pending := [[c]], registered := s.registered + [Occurrence(0, c)]);
    assert [] + [c] == [c] && Registered(s, 0, c) == s1;
    OneSave(s1, c);
    assert actions[1..] == [Save(true), Throw] && actions[1..][1..] == [Throw];
    assert Handled(s1, actions[1..]) == Handled(Saved(s1, true).state, [Throw]);
    assert 0 in {0} && s1.pending[0] != [] && !OrderlySave(s1, true, {0});
  }

  /** With throws the converse fails: of two pending events A and B, where the handler of A registers C, saves and
      throws, A and C are published in order, since B, which the save has passed, is cut off. */
  lemma ThrowHidesDisorder(a: Event, b: Event, c: Event)
    requires a.handler == [Register(0, c), Save(true), Throw] && b.handler == [] && c.handler == []
    ensures var s := State([[a, b]], [Occurrence(0, a), Occurrence(0, b)], [], []);
            && !OrderlySave(s, true, {})
            && Saved(s, true) ==
               Outcome(State([[]],
                             [Occurrence(0, a), Occurrence(0, b), Occurrence(0, c)],
                             [Occurrence(0, a), Occurrence(0, c)],
                             [Occurrence(0, b)]), true)
  {
    var s := State([[a, b]], [Occurrence(0, a), Occurrence(0, b)], [], []);
    var cleared := s.(pending := [[]]);
    assert [[a, b]][..0] == [] && WithEvents([[a, b]]) == [0];
    assert s.pending[0 := []] == [[]];
    var s1 := cleared.(published := [] + [Occurrence(0, a)]);
    RegisteringSavingAndThrowing(s1, c);
    assert {} + {0} == {0};
    assert [a, b][1..] == [b] && !OrderlyPublish(cleared, 0, [a, b], {});
    assert Occurrences(0, [b]) == [Occurrence(0, b)];
    var s2 := Handled(s1, a.handler).state;
    assert PublishedAll(cleared, 0, [a, b]) == Outcome(CutOff(s2, 0, [b]), true);
    assert s2.cutOff + [Occurrence(0, b)] == [Occurrence(0, b)];
    assert Saved(s, true) == Dispatched(s, [0]);
    assert s2.published == [Occurrence(0, a), Occurrence(0, c)];
  }
}
