/**
 The command handlers, cut into the sections between their database round trips and publications. Each
 section does to the live objects what its specification in `Todos` does to a session; other requests run
 between two sections. The phase a section leaves its request in is a result, and the entity that
 `SetTodoDoneHandler` holds between its query and its save is passed on as its local variable is.
 */
module TodoHandlers {
  import opened Prelude
  import opened Todos
  import opened TodoInvariant
  import opened TodoUnitOfWork

  /** `CreateTodoHandler.Handle`, up to the save. */
  method Create(context: TodosDbContext, db: Database, id: nat, name: string, now: nat)
    returns (reply: Option<Result>, phase: Phase)
    requires context.Valid()
    modifies context`entries
    ensures context.Valid()
    ensures Outcome(db.View(), context.SessionIn(phase), reply, None) ==
            Creating(old(db.View()), old(context.SessionIn(Idle)), id, name, now)
  {
    ghost var views := context.Views();
    var created := TodoEntity.CreateNew(id, name, now);
    assert context.Views() == views;
    if created == null {
      return Some(Invalid), Idle;
    }
    var tracked := context.Find(id);
    assert context.Views() == views;
    if tracked != null {
      return Some(Failed), Idle;
    }
    context.Track(created, true);
    return None, Saving(id, true);
  }

  /** `GetTodoHandler.Handle`. */
  method Get(context: TodosDbContext, db: Database, id: nat) returns (reply: Option<Result>)
    requires context.Valid() && KeyedById(db.rows)
    modifies context`entries
    ensures context.Valid()
    ensures Outcome(db.View(), context.SessionIn(Idle), reply, None) ==
            Getting(old(db.View()), old(context.SessionIn(Idle)), context.request, id)
  {
    var found := context.FirstOrDefault(db, id);
    if found == null {
      return Some(NotFound);
    }
    reply := Some(Found(found.View()));
  }

  /** `SetTodoDoneHandler.Handle`, its query. */
  method Load(context: TodosDbContext, db: Database, id: nat)
    returns (reply: Option<Result>, phase: Phase, entity: TodoEntity?)
    requires context.Valid() && KeyedById(db.rows)
    modifies context`entries
    ensures context.Valid()
    ensures Outcome(db.View(), context.SessionIn(phase), reply, None) ==
            Loading(old(db.View()), old(context.SessionIn(Idle)), context.request, id)
    ensures phase == Loaded(id) ==> entity != null && context.Tracks(entity) && entity.id == id
  {
    entity := context.FirstOrDefault(db, id);
    if entity == null {
      return Some(NotFound), Idle, null;
    }
    return None, Loaded(id), entity;
  }

  /** `SetTodoDoneHandler.Handle`, the change in memory. */
  method SetDone(context: TodosDbContext, ghost db: Database, entity: TodoEntity)
    returns (reply: Option<Result>, phase: Phase)
    requires context.Valid() && context.Tracks(entity)
    modifies entity
    ensures context.Valid()
    ensures Outcome(db.View(), context.SessionIn(phase), reply, None) ==
            Completing(old(db.View()), old(context.SessionIn(Loaded(entity.id))), entity.id)
  {
    ghost var i: nat :| i < |context.entries| && context.entries[i].entity == entity;
    ghost var (was, views, unsaved) := (db.View(), context.Views(), context.unsaved);
    context.OthersAre(i);
    TrackerAt(views, i);
    var conflict := entity.SetDone();
    assert ViewOf(context.entries[i]) == if conflict then views[i] else MarkedDone(views[i]);
    forall j | 0 <= j < |views| && j != i ensures ViewOf(context.entries[j]) == views[j] {}
    context.OneViewChanged(views, i, ViewOf(context.entries[i]));
    assert db.View() == was;
    CompletingAt(was, views, unsaved, i, context.Views());
    if conflict {
      return Some(Conflict), Idle;
    }
    return None, Saving(entity.id, false);
  }

  /** What the change in memory does to the tracker of an entity that stands at place `i`. */
  lemma CompletingAt(db: Db, views: seq<Tracked>, unsaved: seq<Batch>, i: nat, now: seq<Tracked>)
    requires DistinctIds(views) && i < |views|
    requires now == if views[i].current.done then views else views[i := MarkedDone(views[i])]
    ensures DistinctIds(now)
    ensures var id := views[i].current.id;
            Completing(db, Session(TrackerOf(views), unsaved, Loaded(id)), id) ==
              if views[i].current.done
              then Outcome(db, Session(TrackerOf(now), unsaved, Idle), Some(Conflict), None)
              else Outcome(db, Session(TrackerOf(now), unsaved, Saving(id, false)), None, None)
  {
    TrackerAt(views, i);
    TrackerUpdate(views, MarkedDone(views[i]), i);
  }

  /** The save of either command: `created` says of which. It may also fail for reasons that the database's
      state does not show; `reachable` is whether it does not. */
  method Save(context: TodosDbContext, db: Database, id: nat, created: bool, now: nat, reachable: bool)
    returns (reply: Option<Result>, phase: Phase, waiting: seq<TodoEntity>)
    requires context.Valid()
    modifies context`entries, context`unsaved, context.Entities(), db
    ensures context.Valid() && forall e | e in waiting :: e in context.Entities()
    ensures phase.Publishing? ==> Ids(waiting) == phase.waiting
    ensures Outcome(db.View(), context.SessionIn(phase), reply, None) ==
            var x := old(context.SessionIn(Saving(id, created)));
            if reachable then Saved(old(db.View()), x, context.request, now)
            else Outcome(old(db.View()), FailedSession(x, context.request, now), Some(Failed), None)
  {
    ghost var (was, x) := (db.View(), context.SessionIn(Saving(id, created)));
    var ok;
    ok, waiting := context.SaveChanges(db, now, reachable);
    PhaseDoesNotMatter(was, x, context.request, now);
    if !ok {
      return Some(Failed), Idle, [];
    }
    return None, Publishing(id, created, Ids(waiting), [], false), waiting;
  }

  lemma PhaseDoesNotMatter(db: Db, x: Session, r: Request, now: nat)
    ensures Committed(db, x.(phase := Idle), r, now) == Committed(db, x, r, now)
    ensures FailedSession(x.(phase := Idle), r, now) == FailedSession(x, r, now)
  {
  }

  /** The dispatcher turns to an entity: it copies its events and clears them. */
  method Dispatch(context: TodosDbContext, ghost db: Database, entity: TodoEntity, phase: Phase)
    returns (next: Phase)
    requires context.Valid() && entity in context.Entities()
    requires phase.Publishing? && phase.queue == [] && entity.id in phase.waiting
    modifies entity
    ensures context.Valid()
    ensures Outcome(db.View(), context.SessionIn(next), None, None) ==
            Dispatching(old(db.View()), old(context.SessionIn(phase)), entity.id)
  {
    ghost var i: nat :| i < |context.entries| && context.entries[i].entity == entity;
    ghost var (was, views, unsaved) := (db.View(), context.Views(), context.unsaved);
    context.OthersAre(i);
    TrackerAt(views, i);
    DispatchingAt(was, views, unsaved, phase, i);
    var events := entity.domainEvents;
    entity.ClearDomainEvents();
    forall j | 0 <= j < |views| && j != i ensures ViewOf(context.entries[j]) == views[j] {}
    context.OneViewChanged(views, i, ViewOf(context.entries[i]));
    assert db.View() == was;
    next := phase.(waiting := phase.waiting - {entity.id}, queue := DoneEvents(events), handling := false);
  }

  lemma DispatchingAt(db: Db, views: seq<Tracked>, unsaved: seq<Batch>, phase: Phase, i: nat)
    requires DistinctIds(views) && i < |views|
    requires phase.Publishing? && phase.queue == [] && views[i].current.id in phase.waiting
    ensures var (id, x) := (views[i].current.id, Session(TrackerOf(views), unsaved, phase));
            && DistinctIds(views[i := views[i].(events := [])])
            && Dispatching(db, x, id) ==
                 Outcome(db,
                         Session(TrackerOf(views[i := views[i].(events := [])]), unsaved,
                                 phase.(waiting := phase.waiting - {id}, queue := DoneEvents(views[i].events),
                                        handling := false)),
                         None, None)
  {
    TrackerAt(views, i);
    TrackerUpdate(views, views[i].(events := []), i);
  }

  /** What the sections ask of the objects holds in every state that a run reaches. */
  lemma {:induction false} ReachedStatesAreReady(run: seq<(Request, Action)>, r: Request)
    ensures var (s, x) := (Run(run), SessionOf(Run(run), r));
            && KeyedById(s.db.rows)
            && (x.phase.Loaded? || x.phase.Saving? || x.phase.Publishing? ==> x.phase.id in x.tracker)
            && (x.phase.Publishing? ==> x.phase.waiting <= x.tracker.Keys)
  {
    RunKeepsStateInv(run);
    assert SessionInv(Run(run).db.rows, r, SessionOf(Run(run), r));
  }
}
