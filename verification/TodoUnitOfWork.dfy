/**
 The unit of work over live objects: the entity, the change tracker with its two interceptors, and the
 handlers' uninterrupted sections. Each is proved against its part of the transition system in `Todos`.
 */
module TodoUnitOfWork {
  import opened Prelude
  import opened AuditTrail
  import opened Todos

  class TodoEntity {
    const id: nat
    var name: string
    var done: bool
    var tenantId: Option<string>
    var createdBy: Option<string>
    var createdAt: nat
    var modifiedBy: Option<string>
    var modifiedAt: Option<nat>
    var domainEvents: seq<nat>

    function View(): Todo
      reads this
    {
      Todo(id, name, done, tenantId, createdBy, createdAt, modifiedBy, modifiedAt)
    }

    /** An entity with the given values: one that a query materializes, or a new one. */
    constructor (values: Todo)
      ensures View() == values && domainEvents == []
    {
      id, name, done, tenantId := values.id, values.name, values.done, values.tenant;
      createdBy, createdAt, modifiedBy, modifiedAt :=
          values.createdBy, values.createdAt, values.modifiedBy, values.modifiedAt;
      domainEvents := [];
    }

    static method CreateNew(id: nat, name: string, now: nat) returns (entity: TodoEntity?)
      ensures entity == null <==> IsBlank(name)
      ensures entity != null ==> fresh(entity) && entity.View() == NewTodo(id, name, now) && entity.domainEvents == []
    {
      if IsBlank(name) {
        return null;
      }
      entity := new TodoEntity(Todo(id, name, false, None, None, now, None, None));
    }

    method SetDone() returns (conflict: bool)
      modifies this
      ensures conflict <==> old(done)
      ensures conflict ==> View() == old(View()) && domainEvents == old(domainEvents)
      ensures !conflict ==> View() == old(View()).(done := true) && domainEvents == old(domainEvents) + [id]
    {
      if done {
        return true;
      }
      done := true;
      domainEvents := domainEvents + [id];
      conflict := false;
    }

    method SetTenantId(tenant: Option<string>)
      modifies this
      ensures View() == old(View()).(tenant := tenant) && domainEvents == old(domainEvents)
    {
      tenantId := tenant;
    }

    method UpdateCreatedBy(user: Option<string>)
      modifies this
      ensures View() == old(View()).(createdBy := user) && domainEvents == old(domainEvents)
    {
      createdBy := user;
    }

    method UpdateModified(user: Option<string>, now: nat)
      modifies this
      ensures View() == old(View()).(modifiedBy := user, modifiedAt := Some(now)) && domainEvents == old(domainEvents)
    {
      modifiedBy, modifiedAt := user, Some(now);
    }

    method ClearDomainEvents()
      modifies this
      ensures View() == old(View()) && domainEvents == []
    {
      domainEvents := [];
    }
  }

  /** The shared database; one call of `Execute` is one transaction. */
  class Database {
    var rows: map<nat, Todo>
    var audit: seq<Batch>

    ghost function View(): Db
      reads this
    {
      Db(rows, audit)
    }

    /** Runs the statements of a save one after the other; the first one that the database refuses rolls all
        of them back. The audit rows come last and need the user's address. `reachable` is whether nothing else
        gets in the way. */
    method Execute(changes: seq<Tracked>, request: Request, batches: seq<Batch>, reachable: bool) returns (ok: bool)
      requires DistinctIds(changes)
      modifies this
      ensures ok <==> reachable && request.user.Some? && AllAccept(old(rows), changes)
      ensures !ok ==> View() == old(View())
      ensures ok ==> rows == old(rows) + Writes(old(rows), changes) && audit == old(audit) + batches
    {
      var table := rows;
      for i := 0 to |changes|
        invariant View() == old(View())
        invariant table == rows + Writes(rows, changes[..i])
        invariant forall j | 0 <= j < i :: Accepts(rows, changes[j].current.id, changes[j])
      {
        var t := changes[i];
        var id := t.current.id;
        assert changes[..i + 1][..i] == changes[..i];
        UntouchedSoFar(rows, changes, i);
        if !Accepts(table, id, t) {
          return false;
        }
        if StateOf(t) != Unchanged {
          table := table[id := Written(table, id, t)];
        }
      }
      assert changes[..|changes|] == changes;
      if request.user.None? || !reachable {
        return false;
      }
      rows, audit := table, audit + batches;
      ok := true;
    }
  }

  ghost predicate AllAccept(rows: map<nat, Todo>, changes: seq<Tracked>) {
    forall i | 0 <= i < |changes| :: Accepts(rows, changes[i].current.id, changes[i])
  }

  /** What the statements write, by id. */
  ghost function Writes(rows: map<nat, Todo>, changes: seq<Tracked>): map<nat, Todo> {
    if changes == [] then map[]
    else
      var (init, t) := (changes[..|changes| - 1], changes[|changes| - 1]);
      if StateOf(t) == Unchanged then Writes(rows, init)
          else Writes(rows, init)[t.current.id := Written(rows, t.current.id, t)]
  }

  lemma {:induction false} WritesAt(rows: map<nat, Todo>, changes: seq<Tracked>, id: nat)
    requires DistinctIds(changes)
    ensures id in Writes(rows, changes) <==>
              exists i :: 0 <= i < |changes| && changes[i].current.id == id && StateOf(changes[i]) != Unchanged
    ensures forall i | 0 <= i < |changes| && changes[i].current.id == id && StateOf(changes[i]) != Unchanged ::
              id in Writes(rows, changes) && Writes(rows, changes)[id] == Written(rows, id, changes[i])
  {
    if changes != [] {
      var init := changes[..|changes| - 1];
      WritesAt(rows, init, id);
      if id in Writes(rows, init) {
        var i :| 0 <= i < |init| && init[i].current.id == id && StateOf(init[i]) != Unchanged;
        assert changes[i] == init[i];
      }
    }
  }

  /** Statements on other ids have not touched the row of the next one. */
  lemma UntouchedSoFar(rows: map<nat, Todo>, changes: seq<Tracked>, i: nat)
    requires DistinctIds(changes) && i < |changes|
    ensures changes[i].current.id !in Writes(rows, changes[..i])
  {
    WritesAt(rows, changes[..i], changes[i].current.id);
  }

  /** The tracker's record of one entity: `state` and `flags` are what the last detection found. */
  datatype Entry = Entry(entity: TodoEntity, original: Todo, added: bool, state: EntryState, flags: set<Column>)

  ghost function ViewOf(e: Entry): Tracked
    reads e.entity
  {
    Tracked(e.original, e.entity.View(), e.added, e.entity.domainEvents)
  }

  /** The properties flagged as modified: those of a modified entity that differ from the original values. */
  function FlagsOf(state: EntryState, original: Todo, current: Todo): set<Column> {
    set c | c in COLUMNS && state == Modified && ValueOf(original, c) != ValueOf(current, c)
  }

  ghost predicate DistinctIds(views: seq<Tracked>) {
    forall i, j | 0 <= i < j < |views| :: views[i].current.id != views[j].current.id
  }

  /** The tracker as a map from ids. */
  ghost function TrackerOf(views: seq<Tracked>): map<nat, Tracked>
    requires DistinctIds(views)
  {
    map i | 0 <= i < |views| :: views[i].current.id := views[i]
  }

  ghost function Each(views: seq<Tracked>, f: Tracked -> Tracked): (r: seq<Tracked>)
    ensures |r| == |views| && forall i | 0 <= i < |views| :: r[i] == f(views[i])
  {
    seq(|views|, i requires 0 <= i < |views| => f(views[i]))
  }

  class TodosDbContext {
    const request: Request
    var entries: seq<Entry>
    /** The audit entities that have been added and not been inserted. */
    var unsaved: seq<Batch>

    ghost function Entities(): set<TodoEntity>
      reads this
    {
      set i | 0 <= i < |entries| :: entries[i].entity
    }

    ghost function Views(): (views: seq<Tracked>)
      reads this, Entities()
      ensures |views| == |entries| && forall i | 0 <= i < |views| :: views[i] == ViewOf(entries[i])
    {
      seq(|entries|, i requires 0 <= i < |entries| reads this, Entities() => ViewOf(entries[i]))
    }

    /** No two entries track the same entity, nor two entities of one id. */
    ghost predicate Valid()
      reads this
    {
      forall i, j | 0 <= i < j < |entries| ::
        entries[i].entity != entries[j].entity && entries[i].entity.id != entries[j].entity.id
    }

    constructor (request: Request)
      ensures Valid() && this.request == request && entries == [] && unsaved == []
    {
      this.request, entries, unsaved := request, [], [];
    }

    /** The entries as they were, but for what the last detection found. */
    twostate predicate SameEntries()
      reads this
    {
      && |entries| == |old(entries)|
      && forall i | 0 <= i < |entries| ::
           && entries[i].entity == old(entries)[i].entity
           && entries[i].original == old(entries)[i].original
           && entries[i].added == old(entries)[i].added
    }

    ghost function Tracker(): map<nat, Tracked>
      requires Valid()
      reads this, Entities()
    {
      TrackerOf(Views())
    }

    /** The session that the context stands for. */
    ghost function SessionIn(phase: Phase): Session
      requires Valid()
      reads this, Entities()
    {
      Session(Tracker(), unsaved, phase)
    }

    /** An entity that the context tracks, with the values it has there. */
    ghost predicate Tracks(entity: TodoEntity)
      requires Valid()
      reads this, Entities(), entity
    {
      && entity in Entities() && entity.id in Tracker()
      && Tracker()[entity.id].current == entity.View() && Tracker()[entity.id].events == entity.domainEvents
    }

    lemma OthersAre(i: nat)
      requires Valid() && i < |entries|
      ensures forall j | 0 <= j < |entries| && j != i :: entries[j].entity != entries[i].entity
    {
    }

    lemma OneViewChanged(views: seq<Tracked>, i: nat, t: Tracked)
      requires i < |views| == |entries| && ViewOf(entries[i]) == t
      requires forall j | 0 <= j < |views| && j != i :: ViewOf(entries[j]) == views[j]
      ensures Views() == views[i := t]
      ensures t == views[i] ==> Views() == views
    {
    }

    /** The entity of an id, if it is tracked. */
    method Find(id: nat) returns (entity: TodoEntity?)
      requires Valid()
      ensures entity == null <==> id !in Tracker()
      ensures entity != null ==> Tracks(entity) && entity.id == id
    {
      TrackedIff(Views(), id);
      for i := 0 to |entries|
        invariant forall j | 0 <= j < i :: entries[j].entity.id != id
      {
        if entries[i].entity.id == id {
          FoundIsTracked(this, i);
          return entries[i].entity;
        }
      }
      return null;
    }

    /** Tracks one more entity, as an added one or as one that a query has materialized. */
    method Track(entity: TodoEntity, added: bool)
      requires Valid() && entity.id !in Tracker()
      modifies this`entries
      ensures Valid() && Tracks(entity)
      ensures Tracker() ==
                old(Tracker())[entity.id := Tracked(entity.View(), entity.View(), added, entity.domainEvents)]
    {
      var values := entity.View();
      ghost var views := Views();
      TrackedIff(views, entity.id);
      entries := entries + [Entry(entity, values, added, Unchanged, {})];
      var t := Tracked(entity.View(), entity.View(), added, entity.domainEvents);
      assert Views() == views + [t];
      TrackerSnoc(views, t);
      FoundIsTracked(this, |entries| - 1);
    }

    /** Makes and tracks the entity of a row that is not tracked yet. */
    method Materialize(row: Todo) returns (entity: TodoEntity)
      requires Valid() && row.id !in Tracker()
      modifies this`entries
      ensures Valid() && Tracks(entity) && entity.id == row.id
      ensures Tracker() == old(Tracker())[row.id := Tracked(row, row, false, [])]
    {
      ghost var views := Views();
      entity := new TodoEntity(row);
      assert Views() == views;
      Track(entity, false);
    }

    /** `Todos.FirstOrDefault(x => x.Id == id)`: the filtered query, with its result tracked; an entity that is
        tracked already is returned as it is. */
    method FirstOrDefault(db: Database, id: nat) returns (entity: TodoEntity?)
      requires Valid() && KeyedById(db.rows)
      modifies this`entries
      ensures Valid()
      ensures entity == null <==> !Sees(db.View(), request, id)
      ensures entity == null ==> Tracker() == old(Tracker())
      ensures entity != null ==>
                && Tracks(entity) && entity.id == id
                && Tracker() == old(Tracker())[id := Attached(old(Tracker()), id, db.rows[id])]
    {
      if request.tenant.None? || id !in db.rows || db.rows[id].tenant != request.tenant {
        return null;
      }
      ghost var views := Views();
      entity := Find(id);
      assert Views() == views;
      if entity == null {
        entity := Materialize(db.rows[id]);
      } else {
        SameValue(Tracker(), id);
      }
    }

    /** The detection of changes that enumerating the tracker's entries sets off. */
    method DetectChanges()
      requires Valid()
      modifies this`entries
      ensures Valid() && SameEntries() && Views() == old(Views())
      ensures forall i | 0 <= i < |entries| ::
                && entries[i].state == StateOf(Views()[i])
                && entries[i].flags == FlagsOf(StateOf(Views()[i]), Views()[i].original, Views()[i].current)
    {
      ghost var (was, views) := (entries, Views());
      for i := 0 to |entries|
        invariant |entries| == |was|
        invariant forall j | 0 <= j < |was| ::
                    entries[j].entity == was[j].entity && entries[j].original == was[j].original &&
                        entries[j].added == was[j].added
        invariant forall j | 0 <= j < i ::
                    && entries[j].state == StateOf(views[j])
                    && entries[j].flags == FlagsOf(StateOf(views[j]), views[j].original, views[j].current)
      {
        var e := entries[i];
        var current := e.entity.View();
        var state := if e.added then Added else if e.original != current then Modified else Unchanged;
        entries := entries[i := e.(state := state, flags := FlagsOf(state, e.original, current))];
      }
      assert Views() == views;
    }

    /** `SetTenantIdInterceptor`. */
    method SetTenantIds()
      requires Valid()
      modifies this`entries, Entities()
      ensures Valid() && SameEntries()
      ensures Views() == Each(old(Views()), (t: Tracked) => WithTenant(t, request))
    {
      DetectChanges();
      ghost var (detected, views) := (entries, Views());
      for i := 0 to |entries|
        invariant entries == detected
        invariant forall j | 0 <= j < i :: ViewOf(entries[j]) == WithTenant(views[j], request)
        invariant forall j | i <= j < |entries| :: ViewOf(entries[j]) == views[j]
      {
        var e := entries[i];
        assert e.entity == old(entries)[i].entity && e.entity in old(Entities());
        if e.state == Added {
          if e.entity.tenantId.Some? {
            continue;
          }
          e.entity.SetTenantId(request.tenant);
        }
      }
    }

    /** The property entries of one entity as the audit pass reads them: the flags of the last detection, the
        values of the moment. */
    method PropertyEntries(e: Entry) returns (ps: seq<Property<Column, Value>>)
      ensures |ps| == |COLUMNS|
      ensures forall i | 0 <= i < |ps| ::
                ps[i] == Property(COLUMNS[i], COLUMNS[i] == Id, false, COLUMNS[i] in e.flags,
                                  ValueOf(e.original, COLUMNS[i]), ValueOf(e.entity.View(), COLUMNS[i]))
    {
      var current := e.entity.View();
      ps := seq(|COLUMNS|, i requires 0 <= i < |COLUMNS| =>
        Property(COLUMNS[i], COLUMNS[i] == Id, false, COLUMNS[i] in e.flags,
                 ValueOf(e.original, COLUMNS[i]), ValueOf(current, COLUMNS[i])));
    }

    /** One round of `UpdateAuditableEntitiesInterceptor`: stamp the entity, then build its audit row. */
    method StampAndAudit(e: Entry, ghost t: Tracked, now: nat) returns (row: AuditRow)
      requires t == ViewOf(e) && e.state == StateOf(t) && e.flags == FlagsOf(StateOf(t), t.original, t.current)
      modifies e.entity
      ensures ViewOf(e) == WithAuthor(t, request, now)
      ensures row == AuditRowOf(t, ViewOf(e).current)
    {
      match e.state {
        case Added => e.entity.UpdateCreatedBy(request.user);
        case Modified => e.entity.UpdateModified(request.user, now);
        case _ =>
      }
      var ps := PropertyEntries(e);
      assert ps == Properties(t, e.entity.View());
      row := ToEntity(e.state, ps);
    }

    /** `UpdateAuditableEntitiesInterceptor`: every tracked entity is stamped and gets one audit row. */
    method StampAndAuditAll(now: nat) returns (rows: seq<AuditRow>)
      requires Valid()
      modifies this`entries, Entities()
      ensures Valid() && SameEntries()
      ensures Views() == Each(old(Views()), (t: Tracked) => WithAuthor(t, request, now))
      ensures |rows| == |entries|
      ensures forall i | 0 <= i < |rows| :: rows[i] == AuditRowOf(old(Views())[i], Views()[i].current)
    {
      DetectChanges();
      ghost var (detected, views) := (entries, Views());
      rows := [];
      for i := 0 to |entries|
        invariant entries == detected && |rows| == i
        invariant forall j | 0 <= j < i :: ViewOf(entries[j]) == WithAuthor(views[j], request, now)
        invariant forall j | i <= j < |entries| :: ViewOf(entries[j]) == views[j]
        invariant forall j | 0 <= j < i :: rows[j] == AuditRowOf(views[j], ViewOf(entries[j]).current)
      {
        var e := entries[i];
        assert e.entity == old(entries)[i].entity && e.entity in old(Entities());
        var row := StampAndAudit(e, views[i], now);
        rows := rows + [row];
      }
    }

    /** The values a save sends to the database. */
    method Snapshot() returns (views: seq<Tracked>)
      ensures views == Views()
    {
      views := seq(|entries|, i requires 0 <= i < |entries| reads this, Entities() =>
        var e := entries[i];
        Tracked(e.original,
                e.entity.View(),
                e.added, e.entity.domainEvents));
    }

    /** The saved values become the original ones, and nothing is left to insert. */
    method AcceptAllChanges()
      requires Valid()
      modifies this`entries, this`unsaved
      ensures Valid() && SameEntities() && unsaved == [] && AcceptedFrom(old(Views()), Views())
    {
      ghost var was := entries;
      for i := 0 to |entries|
        invariant |entries| == |was| && forall j | 0 <= j < |was| :: entries[j].entity == was[j].entity
        invariant forall j | i <= j < |entries| :: entries[j] == was[j]
        invariant forall j | 0 <= j < i :: entries[j].original == was[j].entity.View() && !entries[j].added
      {
        var e := entries[i];
        var current := e.entity.View();
        entries := entries[i := e.(original := current, added := false)];
      }
      unsaved := [];
    }

    /** The entities that have events, in tracker order, for the dispatcher. */
    method EntitiesWithEvents() returns (waiting: seq<TodoEntity>)
      requires Valid()
      ensures forall e | e in waiting :: e in Entities()
      ensures InTrackerOrder(waiting, Views()) && NoDuplicates(waiting) && Ids(waiting) == Holding(Tracker())
    {
      waiting := [];
      for i := 0 to |entries|
        invariant forall e | e in waiting :: e in Entities()
        invariant InTrackerOrder(waiting, Views()[..i])
      {
        var entity := entries[i].entity;
        assert Views()[..i + 1][..i] == Views()[..i];
        if entity.domainEvents != [] {
          InTrackerOrderSnoc(waiting, entity, Views()[..i], Views()[i]);
          assert Views()[..i] + [Views()[i]] == Views()[..i + 1];
          waiting := waiting + [entity];
        }
      }
      assert Views()[..|entries|] == Views();
      IdsInOrder(waiting, Views());
      HoldingOf(Views());
    }

    twostate predicate SameEntities()
      reads this
    {
      |entries| == |old(entries)| && forall i | 0 <= i < |entries| :: entries[i].entity == old(entries)[i].entity
    }

    /** Both interceptors, in the order the context adds them. The second one adds the audit rows to the context,
        where they stay until a save inserts them. */
    method Intercept(now: nat) returns (changes: seq<Tracked>)
      requires Valid()
      modifies this`entries, this`unsaved, Entities()
      ensures Valid() && SameEntities() && changes == Views()
      ensures StampedFrom(old(Views()), changes, request, now)
      ensures unsaved == old(unsaved) + [BatchOf(old(Tracker()), request, now)]
    {
      ghost var views := Views();
      SetTenantIds();
      assert old(Entities()) == Entities();
      var rows := StampAndAuditAll(now);
      changes := Snapshot();
      SameIds(views, changes, request, now);
      ghost var batch := BatchOf(TrackerOf(views), request, now);
      BatchAsSpecified(views, changes, rows, request, now, RowsById(changes, rows), batch.rows);
      unsaved := unsaved + [Batch(request, RowsById(changes, rows))];
      assert Views() == changes;
    }

    /** What follows a commit in the tracker. */
    method Accept()
      requires Valid()
      modifies this`entries, this`unsaved
      ensures Valid() && SameEntities() && unsaved == [] && Tracker() == AcceptedAll(old(Tracker()))
    {
      ghost var views := Views();
      AcceptAllChanges();
      AcceptedTracker(views, Views());
    }

    /** `base.SaveChangesAsync`, up to where it knows whether the transaction has committed. */
    method Transact(db: Database, now: nat, reachable: bool) returns (ok: bool)
      requires Valid()
      modifies this`entries, this`unsaved, Entities(), db
      ensures Valid() && SameEntities() && Tracker() == StampedAll(old(Tracker()), request, now)
      ensures unsaved == old(unsaved) + [BatchOf(old(Tracker()), request, now)]
      ensures ok <==> reachable && Commits(old(db.View()), old(Tracker()), request, now)
      ensures db.View() ==
              if ok then Committed(old(db.View()), old(SessionIn(Idle)), request, now) else old(db.View())
    {
      ghost var (views, was, before) := (Views(), db.View(), unsaved);
      var changes := Intercept(now);
      assert db.View() == was;
      SavedAsSpecified(was, views, changes, request, now);
      StampedTracker(views, changes, request, now);
      ok := db.Execute(changes, request, unsaved, reachable);
      assert Views() == changes;
      assert was.audit + unsaved == was.audit + before + [BatchOf(TrackerOf(views), request, now)];
    }

    /** `SaveChangesAsync` up to the dispatch: what it hands over to it, or the failure. */
    method SaveChanges(db: Database, now: nat, reachable: bool) returns (ok: bool, waiting: seq<TodoEntity>)
      requires Valid()
      modifies this`entries, this`unsaved, Entities(), db
      ensures Valid() && SameEntities()
      ensures ok <==> reachable && Commits(old(db.View()), old(Tracker()), request, now)
      ensures db.View() ==
              if ok then Committed(old(db.View()), old(SessionIn(Idle)), request, now) else old(db.View())
      ensures !ok ==> SessionIn(Idle) == FailedSession(old(SessionIn(Idle)), request, now)
      ensures ok ==> Tracker() == AcceptedAll(StampedAll(old(Tracker()), request, now)) && unsaved == []
      ensures ok ==> Ids(waiting) == Holding(old(Tracker())) && forall e | e in waiting :: e in Entities()
      ensures ok ==> InTrackerOrder(waiting, Views()) && NoDuplicates(waiting)
    {
      ghost var tracker := Tracker();
      ok := Transact(db, now, reachable);
      waiting := [];
      if ok {
        Accept();
        HoldingKept(tracker, request, now);
        ghost var views := Views();
        waiting := EntitiesWithEvents();
        assert Views() == views;
      }
    }
  }

  function Ids(entities: seq<TodoEntity>): set<nat> {
    set i | 0 <= i < |entities| :: entities[i].id
  }

  /** The ids of those of the entries that have events, in the order of the tracker. */
  function HoldingIn(views: seq<Tracked>): seq<nat> {
    if views == [] then []
    else
      var (init, last) := (views[..|views| - 1], views[|views| - 1]);
      if last.events != [] then HoldingIn(init) + [last.current.id] else HoldingIn(init)
  }

  /** The entities are those that have events, each once, in the order of the tracker. */
  predicate InTrackerOrder(entities: seq<TodoEntity>, views: seq<Tracked>) {
    |entities| == |HoldingIn(views)| && forall i | 0 <= i < |entities| :: entities[i].id == HoldingIn(views)[i]
  }

  lemma InTrackerOrderSnoc(entities: seq<TodoEntity>, e: TodoEntity, views: seq<Tracked>, t: Tracked)
    requires InTrackerOrder(entities, views) && t.events != [] && t.current.id == e.id
    ensures InTrackerOrder(entities + [e], views + [t])
  {
    assert (views + [t])[..|views|] == views;
  }

  lemma {:induction false} HoldingInAre(views: seq<Tracked>)
    ensures forall id :: id in HoldingIn(views) <==> id in IdsHolding(views)
  {
    if views != [] {
      HoldingInAre(views[..|views| - 1]);
      IdsHoldingSnoc(views, |views| - 1);
      assert views[..|views|] == views;
    }
  }

  /** None of them stands there twice. */
  lemma {:induction false} HoldingInOnce(views: seq<Tracked>)
    requires DistinctIds(views)
    ensures NoDuplicates(HoldingIn(views))
  {
    if views != [] {
      var (init, last) := (views[..|views| - 1], views[|views| - 1]);
      HoldingInOnce(init);
      HoldingInAre(init);
      forall i | 0 <= i < |init| ensures init[i].current.id != last.current.id { assert views[i] == init[i]; }
      assert last.current.id !in IdsHolding(init);
    }
  }

  lemma IdsInOrder(entities: seq<TodoEntity>, views: seq<Tracked>)
    requires InTrackerOrder(entities, views)
    ensures Ids(entities) == IdsHolding(views)
    ensures DistinctIds(views) ==> NoDuplicates(entities)
  {
    HoldingInAre(views);
    forall id ensures id in Ids(entities) <==> id in IdsHolding(views) {
      if id in IdsHolding(views) {
        var i :| 0 <= i < |HoldingIn(views)| && HoldingIn(views)[i] == id;
        assert entities[i].id == id;
      }
      if id in Ids(entities) {
        var i :| 0 <= i < |entities| && entities[i].id == id;
        assert HoldingIn(views)[i] == id;
      }
    }
    if DistinctIds(views) { HoldingInOnce(views); }
  }

  ghost function IdsHolding(views: seq<Tracked>): set<nat> {
    set i | 0 <= i < |views| && views[i].events != [] :: views[i].current.id
  }

  lemma IdsHoldingSnoc(views: seq<Tracked>, i: nat)
    requires i < |views|
    ensures IdsHolding(views[..i + 1]) ==
              if views[i].events != [] then IdsHolding(views[..i]) + {views[i].current.id} else IdsHolding(views[..i])
  {
    var (init, more) := (views[..i], views[..i + 1]);
    forall id
      ensures id in IdsHolding(more) <==>
                id in IdsHolding(init) || (views[i].events != [] && id == views[i].current.id)
    {
      if id in IdsHolding(init) {
        var j :| 0 <= j < i && init[j].events != [] && init[j].current.id == id;
        assert more[j] == init[j];
      }
      if views[i].events != [] && id == views[i].current.id { assert more[i] == views[i]; }
    }
  }

  lemma HoldingOf(views: seq<Tracked>)
    requires DistinctIds(views)
    ensures Holding(TrackerOf(views)) == IdsHolding(views)
  {
    forall id ensures id in Holding(TrackerOf(views)) <==> id in IdsHolding(views) {
      if id in TrackerOf(views) { var i := TrackerIndex(views, id); }
      if id in IdsHolding(views) {
        var i :| 0 <= i < |views| && views[i].events != [] && views[i].current.id == id;
        TrackerAt(views, i);
      }
    }
  }

  lemma HoldingKept(tracker: map<nat, Tracked>, r: Request, now: nat)
    ensures Holding(AcceptedAll(StampedAll(tracker, r, now))) == Holding(tracker)
  {
  }

  function RowsById(changes: seq<Tracked>, rows: seq<AuditRow>): map<nat, AuditRow>
    requires |rows| == |changes| && DistinctIds(changes)
  {
    map i | 0 <= i < |changes| :: changes[i].current.id := rows[i]
  }

  ghost predicate StampedFrom(views: seq<Tracked>, changes: seq<Tracked>, r: Request, now: nat) {
    |changes| == |views| && forall i | 0 <= i < |views| :: changes[i] == Stamped(views[i], r, now)
  }

  ghost predicate AcceptedFrom(views: seq<Tracked>, saved: seq<Tracked>) {
    |saved| == |views| && forall i | 0 <= i < |views| :: saved[i] == Accepted(views[i])
  }

  ghost predicate AuditedFrom(views: seq<Tracked>, changes: seq<Tracked>, rows: seq<AuditRow>, r: Request) {
    && |rows| == |changes| == |views|
    && forall i | 0 <= i < |views| :: rows[i] == AuditRowOf(WithTenant(views[i], r), changes[i].current)
  }

  lemma TrackerAt(views: seq<Tracked>, i: nat)
    requires DistinctIds(views) && i < |views|
    ensures views[i].current.id in TrackerOf(views) && TrackerOf(views)[views[i].current.id] == views[i]
  {
  }

  lemma TrackerIndex(views: seq<Tracked>, id: nat) returns (i: nat)
    requires DistinctIds(views) && id in TrackerOf(views)
    ensures i < |views| && views[i].current.id == id && TrackerOf(views)[id] == views[i]
  {
    i :| 0 <= i < |views| && views[i].current.id == id;
  }

  lemma SameIds(views: seq<Tracked>, changes: seq<Tracked>, r: Request, now: nat)
    requires DistinctIds(views) && StampedFrom(views, changes, r, now)
    ensures forall i | 0 <= i < |views| :: changes[i].current.id == views[i].current.id
    ensures DistinctIds(changes)
  {
  }

  lemma MappedAt(views: seq<Tracked>, changes: seq<Tracked>, f: Tracked -> Tracked, id: nat)
    requires DistinctIds(views) && DistinctIds(changes) && |changes| == |views|
    requires forall i | 0 <= i < |views| :: changes[i] == f(views[i]) && changes[i].current.id == views[i].current.id
    ensures id in TrackerOf(changes) <==> id in TrackerOf(views)
    ensures id in TrackerOf(views) ==> TrackerOf(changes)[id] == f(TrackerOf(views)[id])
  {
    if id in TrackerOf(views) {
      var i := TrackerIndex(views, id);
      TrackerAt(changes, i);
    }
    if id in TrackerOf(changes) {
      var i := TrackerIndex(changes, id);
      TrackerAt(views, i);
    }
  }

  lemma {:induction false} StampedTracker(views: seq<Tracked>, changes: seq<Tracked>, r: Request, now: nat)
    requires DistinctIds(views) && DistinctIds(changes) && StampedFrom(views, changes, r, now)
    ensures TrackerOf(changes) == StampedAll(TrackerOf(views), r, now)
  {
    SameIds(views, changes, r, now);
    var (a, b) := (TrackerOf(changes), StampedAll(TrackerOf(views), r, now));
    forall id ensures (id in a <==> id in b) && (id in b ==> a[id] == b[id]) {
      MappedAt(views, changes, (t: Tracked) => Stamped(t, r, now), id);
    }
    SameMap(a, b);
  }

  lemma AcceptedTracker(views: seq<Tracked>, saved: seq<Tracked>)
    requires DistinctIds(views) && DistinctIds(saved) && AcceptedFrom(views, saved)
    ensures TrackerOf(saved) == AcceptedAll(TrackerOf(views))
  {
    var (a, b) := (TrackerOf(saved), AcceptedAll(TrackerOf(views)));
    forall id ensures (id in a <==> id in b) && (id in b ==> a[id] == b[id]) {
      MappedAt(views, saved, Accepted, id);
    }
    SameMap(a, b);
  }

  lemma AcceptsAsSpecified(rows: map<nat, Todo>, changes: seq<Tracked>)
    requires DistinctIds(changes)
    ensures AllAccept(rows, changes) <==> AllAccepted(rows, TrackerOf(changes))
  {
    var tracker := TrackerOf(changes);
    if AllAccepted(rows, tracker) {
      forall i | 0 <= i < |changes| ensures Accepts(rows, changes[i].current.id, changes[i]) { TrackerAt(changes, i); }
    }
    if AllAccept(rows, changes) {
      forall id | id in tracker ensures Accepts(rows, id, tracker[id]) { var i := TrackerIndex(changes, id); }
    }
  }

  lemma {:induction false} WritesAsSpecified(rows: map<nat, Todo>, changes: seq<Tracked>)
    requires DistinctIds(changes)
    ensures Writes(rows, changes) == WritesOf(rows, TrackerOf(changes))
  {
    var (a, b) := (Writes(rows, changes), WritesOf(rows, TrackerOf(changes)));
    forall id ensures (id in a <==> id in b) && (id in b ==> a[id] == b[id]) { WriteAsSpecified(rows, changes, id); }
    SameMap(a, b);
  }

  lemma WriteAsSpecified(rows: map<nat, Todo>, changes: seq<Tracked>, id: nat)
    requires DistinctIds(changes)
    ensures var (a, b) := (Writes(rows, changes), WritesOf(rows, TrackerOf(changes)));
            (id in a <==> id in b) && (id in b ==> a[id] == b[id])
  {
    WritesAt(rows, changes, id);
    if id in TrackerOf(changes) { var i := TrackerIndex(changes, id); }
    if id in Writes(rows, changes) {
      var i :| 0 <= i < |changes| && changes[i].current.id == id && StateOf(changes[i]) != Unchanged;
      TrackerAt(changes, i);
    }
  }

  lemma RowsByIdAt(changes: seq<Tracked>, rows: seq<AuditRow>, i: nat)
    requires |rows| == |changes| && DistinctIds(changes) && i < |changes|
    ensures changes[i].current.id in RowsById(changes, rows) &&
              RowsById(changes, rows)[changes[i].current.id] == rows[i]
  {
  }

  lemma RowsByIdKey(changes: seq<Tracked>, rows: seq<AuditRow>, id: nat) returns (i: nat)
    requires |rows| == |changes| && DistinctIds(changes) && id in RowsById(changes, rows)
    ensures i < |changes| && changes[i].current.id == id
  {
    i :| 0 <= i < |changes| && changes[i].current.id == id;
  }

  lemma AuditRowsAt(views: seq<Tracked>, changes: seq<Tracked>, auditRows: seq<AuditRow>, r: Request, now: nat, i: nat)
    requires StampedFrom(views, changes, r, now) && AuditedFrom(views, changes, auditRows, r) && i < |views|
    ensures auditRows[i] == AuditOf(views[i], r, now)
  {
  }

  lemma {:induction false} AuditById(views: seq<Tracked>, changes: seq<Tracked>, auditRows: seq<AuditRow>, r: Request,
      now: nat, id: nat, rows: map<nat, AuditRow>, batch: map<nat, AuditRow>)
    requires DistinctIds(views) && DistinctIds(changes) && StampedFrom(views, changes, r, now)
    requires AuditedFrom(views, changes, auditRows, r)
    requires rows == RowsById(changes, auditRows) && batch == BatchOf(TrackerOf(views), r, now).rows
    ensures (id in rows <==> id in batch) && (id in batch ==> rows[id] == batch[id])
  {
    SameIds(views, changes, r, now);
    if id in TrackerOf(views) {
      var i := TrackerIndex(views, id);
      RowsByIdAt(changes, auditRows, i);
      AuditRowsAt(views, changes, auditRows, r, now, i);
    }
    if id in RowsById(changes, auditRows) {
      var i := RowsByIdKey(changes, auditRows, id);
      TrackerAt(views, i);
    }
  }

  lemma {:induction false} BatchAsSpecified(views: seq<Tracked>, changes: seq<Tracked>, auditRows: seq<AuditRow>,
      r: Request, now: nat,
                         rows: map<nat, AuditRow>, batch: map<nat, AuditRow>)
    requires DistinctIds(views) && DistinctIds(changes) && StampedFrom(views, changes, r, now)
    requires AuditedFrom(views, changes, auditRows, r)
    requires rows == RowsById(changes, auditRows) && batch == BatchOf(TrackerOf(views), r, now).rows
    ensures rows == batch
  {
    forall id ensures (id in rows <==> id in batch) && (id in batch ==> rows[id] == batch[id]) {
      AuditById(views, changes, auditRows, r, now, id, rows, batch);
    }
    SameMap(rows, batch);
  }

  /** The statements that the loop runs are those of the specification. */
  lemma {:induction false} SavedAsSpecified(db: Db, views: seq<Tracked>, changes: seq<Tracked>, r: Request, now: nat)
    requires DistinctIds(views) && StampedFrom(views, changes, r, now)
    ensures DistinctIds(changes)
    ensures r.user.Some? && AllAccept(db.rows, changes) <==> Commits(db, TrackerOf(views), r, now)
    ensures Writes(db.rows, changes) == WritesOf(db.rows, StampedAll(TrackerOf(views), r, now))
  {
    SameIds(views, changes, r, now);
    StampedTracker(views, changes, r, now);
    AcceptsAsSpecified(db.rows, changes);
    WritesAsSpecified(db.rows, changes);
  }

  lemma SameValue(tracker: map<nat, Tracked>, id: nat)
    requires id in tracker
    ensures tracker[id := tracker[id]] == tracker
  {
  }

  predicate KeyedById(rows: map<nat, Todo>) {
    forall id | id in rows :: rows[id].id == id
  }

  lemma TrackedIff(views: seq<Tracked>, id: nat)
    requires DistinctIds(views)
    ensures id in TrackerOf(views) <==> exists i :: 0 <= i < |views| && views[i].current.id == id
  {
  }

  lemma TrackerSnoc(views: seq<Tracked>, t: Tracked)
    requires DistinctIds(views + [t])
    ensures DistinctIds(views) && TrackerOf(views + [t]) == TrackerOf(views)[t.current.id := t]
  {
    forall i, j | 0 <= i < j < |views| ensures views[i].current.id != views[j].current.id {
      assert (views + [t])[i] == views[i] && (views + [t])[j] == views[j];
    }
    var (a, b) := (TrackerOf(views + [t]), TrackerOf(views)[t.current.id := t]);
    forall id | id in a ensures id in b && a[id] == b[id] {
      var i := TrackerIndex(views + [t], id);
      if i < |views| {
        assert (views + [t])[i] == views[i] && (views + [t])[|views|] == t;
        TrackerAt(views, i);
      }
    }
    forall id | id in b ensures id in a {
      if id == t.current.id { TrackerAt(views + [t], |views|); }
      else { var i := TrackerIndex(views, id); TrackerAt(views + [t], i); }
    }
  }

  lemma TrackerUpdateAt(views: seq<Tracked>, t: Tracked, i: nat, now: seq<Tracked>, id: nat)
    requires DistinctIds(views) && i < |views| && t.current.id == views[i].current.id
    requires now == views[i := t] && DistinctIds(now)
    ensures id in TrackerOf(now) <==> id in TrackerOf(views)
    ensures id in TrackerOf(now) ==> TrackerOf(now)[id] == if id == t.current.id then t else TrackerOf(views)[id]
  {
    if id in TrackerOf(now) {
      var j := TrackerIndex(now, id);
      TrackerAt(views, j);
    }
    if id in TrackerOf(views) {
      var j := TrackerIndex(views, id);
      TrackerAt(now, j);
    }
  }

  lemma UpdateKeepsIds(views: seq<Tracked>, t: Tracked, i: nat)
    requires DistinctIds(views) && i < |views| && t.current.id == views[i].current.id
    ensures DistinctIds(views[i := t])
  {
  }

  lemma TrackerUpdate(views: seq<Tracked>, t: Tracked, i: nat)
    requires DistinctIds(views) && i < |views| && t.current.id == views[i].current.id
    ensures DistinctIds(views[i := t]) && TrackerOf(views[i := t]) == TrackerOf(views)[t.current.id := t]
  {
    UpdateKeepsIds(views, t, i);
    TrackerAt(views, i);
    forall id
      ensures id in TrackerOf(views[i := t]) <==> id in TrackerOf(views)
      ensures id in TrackerOf(views) ==> TrackerOf(views[i := t])[id] == if id == t.current.id then t
                else TrackerOf(views)[id]
    {
      TrackerUpdateAt(views, t, i, views[i := t], id);
    }
    SameMap(TrackerOf(views[i := t]), TrackerOf(views)[t.current.id := t]);
  }

  lemma FoundIsTracked(context: TodosDbContext, i: nat)
    requires context.Valid() && i < |context.entries|
    ensures var (entity, tracker) := (context.entries[i].entity, TrackerOf(context.Views()));
            && entity in context.Entities() && entity.id in tracker
            && tracker[entity.id].current == entity.View() && tracker[entity.id].events == entity.domainEvents
  {
    TrackerAt(context.Views(), i);
  }
}
