/** The interleaved system refines a map from tenant and id to todo, changed one operation at a time. */
module TodoStore {
  import opened Prelude
  import opened AuditTrail
  import opened Todos
  import opened TodoInvariant

  // ---------- The atomic store ----------

  type Store = map<(string, nat), Todo>

  datatype Op =
    | CreateOp(id: nat, name: string, now: nat)
    | GetOp(id: nat)
    | GetAllOp
    | SetDoneOp(id: nat, now: nat)
    | CheckOp(id: nat)

  function Look(store: Store, tenant: Option<string>, id: nat): Option<Todo> {
    if tenant.Some? && (tenant.value, id) in store then Some(store[(tenant.value, id)]) else None
  }

  function OwnTodos(store: Store, tenant: Option<string>): map<nat, Todo> {
    map key | key in store && tenant == Some(key.0) :: key.1 := store[key]
  }

  /** One operation at once, by a principal's claims. `CheckOp` asks whether a todo can be completed: completing
      one begins with it, and ends with it where that answers NotFound or Conflict. */
  function Atomic(store: Store, r: Request, op: Op): (Store, Result) {
    match op
    case CreateOp(id, name, now) =>
      if IsBlank(name) then (store, Invalid)
      else if r.tenant.None? || r.user.None? then (store, Failed)
      else
        var todo := Todo(id, name, false, r.tenant, r.user, now, None, None);
        (store[(r.tenant.value, id) := todo], Created(todo))
    case GetOp(id) =>
      var found := Look(store, r.tenant, id);
      (store, if found.Some? then Found(found.value) else NotFound)
    case GetAllOp =>
      (store, Listed(OwnTodos(store, r.tenant)))
    case SetDoneOp(id, now) =>
      var found := Look(store, r.tenant, id);
      if found.None? then (store, NotFound)
      else if found.value.done then (store, Conflict)
      else
        var todo := found.value.(done := true, modifiedBy := r.user, modifiedAt := Some(now));
        (store[(r.tenant.value, id) := todo], Completed(todo))
    case CheckOp(id) =>
      var found := Look(store, r.tenant, id);
      (store, if found.None? then NotFound else if found.value.done then Conflict else Found(found.value))
  }

  /** The store that a table stands for. */
  function StoreOf(rows: map<nat, Todo>): Store {
    map id | id in rows && rows[id].tenant.Some? :: (rows[id].tenant.value, id) := rows[id]
  }

  // ---------- Where operations take effect ----------

  /** An operation that has taken effect, and its result; `told` unless the request was told before that it had
      failed. */
  datatype Effect = Effect(op: Op, result: Result, told: bool)

  /** The operation that a save commits for one changed entity. */
  function SavedOp(x: Session, r: Request, now: nat, id: nat): Effect
    requires id in x.tracker
  {
    var (t, todo) := (x.tracker[id], Stamped(x.tracker[id], r, now).current);
    var told := x.phase.Saving? && x.phase.id == id;
    if t.added then Effect(CreateOp(id, t.current.name, t.current.createdAt), Created(todo), told)
    else Effect(SetDoneOp(id, now), Completed(todo), told)
  }

  /** The operations that a save commits: that of its command, and those of earlier commands whose saves had
      failed; in the order of the ids, up to a bound. */
  function SavedOps(x: Session, r: Request, now: nat, n: nat): seq<Effect> {
    if n == 0 then []
    else if n - 1 in x.tracker && StateOf(x.tracker[n - 1]) != Unchanged
    then SavedOps(x, r, now, n - 1) + [SavedOp(x, r, now, n - 1)]
    else SavedOps(x, r, now, n - 1)
  }

  /** A number above all of these. */
  ghost function Bound(ids: set<nat>): (n: nat)
    ensures forall id | id in ids :: id < n
  {
    if ids == {} then 0
    else
      var id :| id in ids;
      var n := Bound(ids - {id});
      assert forall other | other in ids :: other == id || other in ids - {id};
      if id < n then n else id + 1
  }

  /** The operations that an action completes, with their results: writes at their commit, an error result or a
      query at the action that answers it. A save that fails completes none. */
  ghost function Effects(db: Db, x: Session, r: Request, a: Action): seq<Effect> {
    var reply := Act(db, x, r, a).reply;
    match (a, x.phase)
    case (Create(id, name, now), Idle) =>
      if reply == Some(Invalid) then [Effect(CreateOp(id, name, now), Invalid, true)] else []
    case (Get(id), Idle) => if reply.Some? then [Effect(GetOp(id), reply.value, true)] else []
    case (GetAll, Idle) => if reply.Some? then [Effect(GetAllOp, reply.value, true)] else []
    case (Load(id), Idle) => if reply.Some? then [Effect(CheckOp(id), reply.value, true)] else []
    case (SetDone, Loaded(id)) => if reply.Some? then [Effect(CheckOp(id), reply.value, true)] else []
    case (Commit(now), Saving(_, _)) =>
      if Commits(db, x.tracker, r, now) then SavedOps(x, r, now, Bound(x.tracker.Keys)) else []
    case _ => []
  }

  /** The store after some operations of a request, one at a time. */
  function StoreWith(store: Store, r: Request, effects: seq<Effect>): Store {
    if effects == [] then store
        else Atomic(StoreWith(store, r, effects[..|effects| - 1]), r, effects[|effects| - 1].op).0
  }

  /** Each of them has the result it has on the store at its place. */
  predicate AllAtomic(store: Store, r: Request, effects: seq<Effect>) {
    effects == [] ||
    (var (init, last) := (effects[..|effects| - 1], effects[|effects| - 1]);
     AllAtomic(store, r, init) && Atomic(StoreWith(store, r, init), r, last.op).1 == last.result)
  }

  lemma EffectsSnoc(store: Store, r: Request, effects: seq<Effect>, e: Effect)
    ensures StoreWith(store, r, effects + [e]) == Atomic(StoreWith(store, r, effects), r, e.op).0
    ensures AllAtomic(store, r, effects + [e]) <==>
              AllAtomic(store, r, effects) && Atomic(StoreWith(store, r, effects), r, e.op).1 == e.result
  {
    assert (effects + [e])[..|effects|] == effects;
  }

  lemma OneEffect(store: Store, r: Request, e: Effect)
    ensures StoreWith(store, r, [e]) == Atomic(store, r, e.op).0
    ensures AllAtomic(store, r, [e]) <==> Atomic(store, r, e.op).1 == e.result
  {
    assert [e][..0] == [];
  }

  // ---------- The store and the table ----------

  lemma LookIsOwned(rows: map<nat, Todo>, r: Request, id: nat)
    requires RowsInv(rows)
    ensures Look(StoreOf(rows), r.tenant, id) == if Owned(rows, r, id) then Some(rows[id]) else None
  {
    if r.tenant.Some? && (r.tenant.value, id) in StoreOf(rows) { assert id in rows; }
  }

  lemma OwnTodosAreSeen(db: Db, r: Request)
    requires RowsInv(db.rows)
    ensures OwnTodos(StoreOf(db.rows), r.tenant) == map id | id in db.rows && Sees(db, r, id) :: db.rows[id]
  {
    var own := OwnTodos(StoreOf(db.rows), r.tenant);
    forall id ensures id in own <==> id in db.rows && Sees(db, r, id) {
      if id in db.rows && Sees(db, r, id) {
        assert (db.rows[id].tenant.value, id) in StoreOf(db.rows);
      }
    }
  }

  lemma StoreUpdated(rows: map<nat, Todo>, id: nat, row: Todo)
    requires row.tenant.Some? && (id in rows ==> rows[id].tenant == row.tenant)
    ensures StoreOf(rows[id := row]) == StoreOf(rows)[(row.tenant.value, id) := row]
  {
    var (a, b) := (StoreOf(rows[id := row]), StoreOf(rows)[(row.tenant.value, id) := row]);
    forall key ensures (key in a <==> key in b) && (key in b ==> a[key] == b[key]) {
      StoreUpdatedAt(rows, id, row, key);
    }
    SameMap(a, b);
  }

  lemma StoreUpdatedAt(rows: map<nat, Todo>, id: nat, row: Todo, key: (string, nat))
    requires row.tenant.Some? && (id in rows ==> rows[id].tenant == row.tenant)
    ensures var (a, b) := (StoreOf(rows[id := row]), StoreOf(rows)[(row.tenant.value, id) := row]);
            (key in a <==> key in b) && (key in b ==> a[key] == b[key])
  {
    if key in StoreOf(rows) { assert key.1 in rows; }
  }

  // ---------- Commits ----------

  lemma CreationIsAtomic(rows: map<nat, Todo>, r: Request, id: nat, t: Tracked, now: nat)
    requires NewCopy(r, id, t) && r.user.Some? && r.tenant.Some? && id !in rows
    ensures Atomic(StoreOf(rows), r, CreateOp(id, t.current.name, t.current.createdAt)) ==
            (StoreOf(rows[id := NewRow(t, r, now)]), Created(NewRow(t, r, now)))
  {
    StoreUpdated(rows, id, NewRow(t, r, now));
  }

  lemma CompletionIsAtomic(rows: map<nat, Todo>, r: Request, id: nat, t: Tracked, now: nat)
    requires RowsInv(rows) && DoneCopy(rows, r, id, t) && !rows[id].done
    ensures Atomic(StoreOf(rows), r, SetDoneOp(id, now)) ==
            (StoreOf(rows[id := NewRow(t, r, now)]), Completed(NewRow(t, r, now)))
  {
    LookIsOwned(rows, r, id);
    StoreUpdated(rows, id, NewRow(t, r, now));
  }

  /** What the save commits for one changed entity is one atomic operation with its result. */
  lemma SavedOpIsAtomic(rows: map<nat, Todo>, x: Session, r: Request, now: nat, id: nat)
    requires RowsInv(rows) && id in x.tracker && Copy(rows, r, id, x.tracker[id]) && r.user.Some?
    requires Free(rows, id, x.tracker[id], r) && StateOf(x.tracker[id]) != Unchanged
    ensures var d := SavedOp(x, r, now, id);
            Atomic(StoreOf(rows), r, d.op) == (StoreOf(rows[id := NewRow(x.tracker[id], r, now)]), d.result)
  {
    var t := x.tracker[id];
    OnlyChangesAreStamped(rows, r, id, t, now);
    if t.added { CreationIsAtomic(rows, r, id, t, now); } else { CompletionIsAtomic(rows, r, id, t, now); }
  }

  predicate Changed(tracker: map<nat, Tracked>, id: nat) {
    id in tracker && StateOf(tracker[id]) != Unchanged
  }

  /** The table after the changed entities with ids below `n` have been saved, one after the other. */
  function SavedBelow(rows: map<nat, Todo>, x: Session, r: Request, now: nat, n: nat): map<nat, Todo> {
    if n == 0 then rows
    else if Changed(x.tracker, n - 1)
    then SavedBelow(rows, x, r, now, n - 1)[n - 1 := NewRow(x.tracker[n - 1], r, now)]
    else SavedBelow(rows, x, r, now, n - 1)
  }

  lemma {:induction false} SavedBelowAt(rows: map<nat, Todo>, x: Session, r: Request, now: nat, n: nat, id: nat)
    ensures var below := SavedBelow(rows, x, r, now, n);
            if Changed(x.tracker, id) && id < n then id in below && below[id] == NewRow(x.tracker[id], r, now)
            else (id in below <==> id in rows) && (id in rows ==> below[id] == rows[id])
  {
    if n > 0 { SavedBelowAt(rows, x, r, now, n - 1, id); }
  }

  lemma SavedBelowInv(rows: map<nat, Todo>, x: Session, r: Request, now: nat, n: nat)
    requires RowsInv(rows) && Copies(rows, r, x.tracker) && Savable(rows, x.tracker, r)
    ensures RowsInv(SavedBelow(rows, x, r, now, n))
  {
    var below := SavedBelow(rows, x, r, now, n);
    forall id | id in below ensures RowInv(id, below[id]) {
      SavedBelowAt(rows, x, r, now, n, id);
      if Changed(x.tracker, id) && id < n { WrittenRow(rows, r, id, x.tracker[id], now); }
    }
  }

  lemma SameCopy(rows: map<nat, Todo>, below: map<nat, Todo>, r: Request, id: nat, t: Tracked)
    requires (id in below <==> id in rows) && (id in rows ==> below[id] == rows[id])
    ensures Copy(below, r, id, t) == Copy(rows, r, id, t) && Free(below, id, t, r) == Free(rows, id, t, r)
  {
  }

  /** The operation for one entity, if it was changed, leads from one store to the next with its result. */
  predicate StepIsAtomic(x: Session, r: Request, now: nat, id: nat, before: Store, after: Store) {
    if Changed(x.tracker, id)
    then Atomic(before, r, SavedOp(x, r, now, id).op) == (after, SavedOp(x, r, now, id).result)
    else after == before
  }

  ghost predicate StepAt(x: Session, r: Request, now: nat, stores: nat -> Store, id: nat) {
    StepIsAtomic(x, r, now, id, stores(id), stores(id + 1))
  }

  lemma {:induction false} SavedOpsGive(x: Session, r: Request, now: nat, n: nat, stores: nat -> Store)
    requires forall id: nat :: StepAt(x, r, now, stores, id)
    ensures Gives(stores(0), r, SavedOps(x, r, now, n), stores(n))
  {
    if n > 0 {
      var id := n - 1;
      SavedOpsGive(x, r, now, id, stores);
      assert StepAt(x, r, now, stores, id);
      if Changed(x.tracker, id) {
        OneMoreGives(stores(0), r, SavedOps(x, r, now, id), stores(id), SavedOp(x, r, now, id), stores(n));
      }
    }
  }

  lemma SavedOpsAreAtomic(rows: map<nat, Todo>, x: Session, r: Request, now: nat, n: nat)
    requires RowsInv(rows) && Copies(rows, r, x.tracker) && Savable(rows, x.tracker, r)
    ensures Gives(StoreOf(rows), r, SavedOps(x, r, now, n), StoreOf(SavedBelow(rows, x, r, now, n)))
  {
    var stores := (k: nat) => StoreOf(SavedBelow(rows, x, r, now, k));
    forall id: nat ensures StepAt(x, r, now, stores, id) {
      NextSavedOp(rows, x, r, now, id);
    }
    SavedOpsGive(x, r, now, n, stores);
  }

  /** The operations lead from one store to the other, each with its atomic result. */
  predicate Gives(store: Store, r: Request, effects: seq<Effect>, after: Store) {
    StoreWith(store, r, effects) == after && AllAtomic(store, r, effects)
  }

  lemma OneMoreGives(store: Store, r: Request, effects: seq<Effect>, before: Store, e: Effect, after: Store)
    requires Gives(store, r, effects, before) && Atomic(before, r, e.op) == (after, e.result)
    ensures Gives(store, r, effects + [e], after)
  {
    EffectsSnoc(store, r, effects, e);
  }

  lemma NextSavedOp(rows: map<nat, Todo>, x: Session, r: Request, now: nat, id: nat)
    requires RowsInv(rows) && Copies(rows, r, x.tracker) && Savable(rows, x.tracker, r)
    ensures StepIsAtomic(x, r, now, id, StoreOf(SavedBelow(rows, x, r, now, id)),
                         StoreOf(SavedBelow(rows, x, r, now, id + 1)))
  {
    if Changed(x.tracker, id) {
      var below := SavedBelow(rows, x, r, now, id);
      SavedBelowInv(rows, x, r, now, id);
      SavedBelowAt(rows, x, r, now, id, id);
      SameCopy(rows, below, r, id, x.tracker[id]);
      SavedOpIsAtomic(below, x, r, now, id);
    }
  }

  lemma AllSavesAreBelow(rows: map<nat, Todo>, x: Session, r: Request, now: nat)
    ensures SavedBelow(rows, x, r, now, Bound(x.tracker.Keys)) == rows + Saves(x.tracker, r, now)
  {
    var (n, saves) := (Bound(x.tracker.Keys), Saves(x.tracker, r, now));
    var below := SavedBelow(rows, x, r, now, n);
    forall id ensures (id in below <==> id in rows + saves) &&
        (id in rows + saves ==> below[id] == (rows + saves)[id]) {
      SavedBelowAt(rows, x, r, now, n, id);
    }
    SameMap(below, rows + saves);
  }

  // ---------- One action ----------

  /** What the action does to the stored map is what the operations it completes do. */
  ghost predicate Refines(db: Db, x: Session, r: Request, a: Action) {
    StoreOf(Act(db, x, r, a).db.rows) == StoreWith(StoreOf(db.rows), r, Effects(db, x, r, a))
  }

  ghost predicate ResultsAreAtomic(db: Db, x: Session, r: Request, a: Action) {
    AllAtomic(StoreOf(db.rows), r, Effects(db, x, r, a))
  }

  ghost predicate Ready(db: Db, x: Session, r: Request) {
    RowsInv(db.rows) && SessionInv(db.rows, r, x)
  }

  lemma CommitEffects(db: Db, x: Session, r: Request, now: nat)
    requires x.phase.Saving?
    ensures Act(db, x, r, Commit(now)).db == if Commits(db, x.tracker, r, now) then Committed(db, x, r, now) else db
    ensures Effects(db, x, r, Commit(now)) ==
              if Commits(db, x.tracker, r, now) then SavedOps(x, r, now, Bound(x.tracker.Keys)) else []
  {
  }

  /** A commit is one atomic operation after the other, of all that the context had changed; an abort is none. */
  lemma {:induction false} CommitRefines(db: Db, x: Session, r: Request, now: nat)
    requires Ready(db, x, r) && x.phase.Saving?
    ensures Refines(db, x, r, Commit(now)) && ResultsAreAtomic(db, x, r, Commit(now))
  {
    CommitEffects(db, x, r, now);
    if Commits(db, x.tracker, r, now) {
      CommitsIff(db, x, r, now);
      CommittedRows(db, x, r, now);
      SavedOpsAreAtomic(db.rows, x, r, now, Bound(x.tracker.Keys));
      AllSavesAreBelow(db.rows, x, r, now);
    }
  }

  /** The copies that a query shows, or that a check is made on, are as stored. */
  predicate CopiesFresh(db: Db, x: Session, r: Request, a: Action) {
    && (x.phase.Idle? && a.Get? && Sees(db, r, a.id) && a.id in x.tracker ==> x.tracker[a.id].current == db.rows[a.id])
    && (x.phase.Idle? && a.GetAll? ==> forall id | id in db.rows && Sees(db, r, id) && id in x.tracker ::
                                         x.tracker[id].current == db.rows[id])
    && (x.phase.Loaded? && a.SetDone? && x.phase.id in x.tracker && x.tracker[x.phase.id].current.done ==>
          x.phase.id in db.rows && db.rows[x.phase.id].done)
  }

  lemma {:induction false} GetRefines(db: Db, x: Session, r: Request, id: nat)
    requires Ready(db, x, r)
    ensures Refines(db, x, r, Get(id)) && (ResultsAreAtomic(db, x, r, Get(id)) <==> CopiesFresh(db, x, r, Get(id)))
  {
    LookIsOwned(db.rows, r, id);
    if x.phase.Idle? {
      OneEffect(StoreOf(db.rows), r, Effect(GetOp(id), Act(db, x, r, Get(id)).reply.value, true));
    }
  }

  lemma LoadEffects(db: Db, x: Session, r: Request, id: nat)
    ensures Act(db, x, r, Load(id)).db == db
    ensures Effects(db, x, r, Load(id)) ==
              if x.phase.Idle? && !Sees(db, r, id) then [Effect(CheckOp(id), NotFound, true)] else []
  {
  }

  lemma {:induction false} LoadRefines(db: Db, x: Session, r: Request, id: nat)
    requires Ready(db, x, r)
    ensures Refines(db, x, r, Load(id)) && ResultsAreAtomic(db, x, r, Load(id))
  {
    LoadEffects(db, x, r, id);
    LookIsOwned(db.rows, r, id);
    OneEffect(StoreOf(db.rows), r, Effect(CheckOp(id), NotFound, true));
  }

  lemma SetDoneEffects(db: Db, x: Session, r: Request)
    ensures Act(db, x, r, SetDone).db == db
    ensures Effects(db, x, r, SetDone) ==
              if x.phase.Loaded? && x.phase.id in x.tracker && x.tracker[x.phase.id].current.done
              then [Effect(CheckOp(x.phase.id), Conflict, true)] else []
  {
  }

  lemma {:induction false} SetDoneRefines(db: Db, x: Session, r: Request)
    requires Ready(db, x, r)
    ensures Refines(db, x, r, SetDone) && (ResultsAreAtomic(db, x, r, SetDone) <==> CopiesFresh(db, x, r, SetDone))
  {
    SetDoneEffects(db, x, r);
    if x.phase.Loaded? {
      LookIsOwned(db.rows, r, x.phase.id);
      OneEffect(StoreOf(db.rows), r, Effect(CheckOp(x.phase.id), Conflict, true));
      ConflictIsAtomicIff(db, x, r);
    }
  }

  lemma ConflictIsAtomicIff(db: Db, x: Session, r: Request)
    requires Ready(db, x, r) && x.phase.Loaded?
    ensures var (id, store) := (x.phase.id, StoreOf(db.rows));
            && (Atomic(store, r, CheckOp(id)).1 == Conflict <==> db.rows[id].done)
            && Atomic(store, r, CheckOp(id)).0 == store
  {
    LookIsOwned(db.rows, r, x.phase.id);
  }

  lemma SameTodosIff(a: map<nat, Todo>, b: map<nat, Todo>)
    requires a.Keys == b.Keys
    ensures a == b <==> forall id | id in b :: a[id] == b[id]
  {
  }

  lemma ShownIsOwnIff(db: Db, x: Session, r: Request, own: map<nat, Todo>)
    requires x.phase.Idle? && own == map id | id in db.rows && Sees(db, r, id) :: db.rows[id]
    ensures Values(Seen(db, x.tracker, r)) == own <==> CopiesFresh(db, x, r, GetAll)
  {
    var shown := Values(Seen(db, x.tracker, r));
    assert shown.Keys == own.Keys;
    forall id | id in own ensures shown[id] == if id in x.tracker then x.tracker[id].current else own[id] {}
    SameTodosIff(shown, own);
  }

  lemma GetAllEffects(db: Db, x: Session, r: Request)
    ensures Act(db, x, r, GetAll).db == db
    ensures Effects(db, x, r, GetAll) ==
              if x.phase.Idle? then [Effect(GetAllOp, Listed(Values(Seen(db, x.tracker, r))), true)] else []
  {
  }

  lemma ListedIsAtomicIff(store: Store, r: Request, shown: map<nat, Todo>)
    ensures StoreWith(store, r, [Effect(GetAllOp, Listed(shown), true)]) == store
    ensures AllAtomic(store, r, [Effect(GetAllOp, Listed(shown), true)]) <==> shown == OwnTodos(store, r.tenant)
  {
    OneEffect(store, r, Effect(GetAllOp, Listed(shown), true));
  }

  lemma {:induction false} GetAllRefines(db: Db, x: Session, r: Request)
    requires Ready(db, x, r)
    ensures Refines(db, x, r, GetAll) && (ResultsAreAtomic(db, x, r, GetAll) <==> CopiesFresh(db, x, r, GetAll))
  {
    GetAllEffects(db, x, r);
    OwnTodosAreSeen(db, r);
    if x.phase.Idle? { ShownIsOwnIff(db, x, r, OwnTodos(StoreOf(db.rows), r.tenant)); }
    ListedIsAtomicIff(StoreOf(db.rows), r, Values(Seen(db, x.tracker, r)));
  }

  lemma {:induction false} CreateRefines(db: Db, x: Session, r: Request, id: nat, name: string, now: nat)
    ensures var a := Action.Create(id, name, now); Refines(db, x, r, a) && ResultsAreAtomic(db, x, r, a)
  {
    var a := Action.Create(id, name, now);
    assert Act(db, x, r, a).db == db;
    assert Effects(db, x, r, a) ==
           if x.phase.Idle? && IsBlank(name) then [Effect(CreateOp(id, name, now), Invalid, true)] else [];
    OneEffect(StoreOf(db.rows), r, Effect(CreateOp(id, name, now), Invalid, true));
  }

  predicate MayComplete(x: Session, a: Action) {
    a.Create? || a.Get? || a.GetAll? || a.Load? || a.SetDone? || (a.Commit? && x.phase.Saving?)
  }

  /** The remaining actions complete no operation: their requests have done so already, or never will. */
  lemma OthersComplete(db: Db, x: Session, r: Request, a: Action)
    requires !MayComplete(x, a)
    ensures Act(db, x, r, a).db == db && Effects(db, x, r, a) == []
  {
  }

  lemma {:induction false} ActRefines(db: Db, x: Session, r: Request, a: Action)
    requires Ready(db, x, r)
    ensures Refines(db, x, r, a)
    ensures ResultsAreAtomic(db, x, r, a) <==> CopiesFresh(db, x, r, a)
  {
    if a.Get? {
      GetRefines(db, x, r, a.id);
    } else if a.GetAll? {
      GetAllRefines(db, x, r);
    } else if a.SetDone? {
      SetDoneRefines(db, x, r);
    } else {
      assert CopiesFresh(db, x, r, a);
      UpdateRefines(db, x, r, a);
    }
  }

  lemma {:induction false} UpdateRefines(db: Db, x: Session, r: Request, a: Action)
    requires Ready(db, x, r) && !a.Get? && !a.GetAll? && !a.SetDone?
    ensures Refines(db, x, r, a) && ResultsAreAtomic(db, x, r, a)
  {
    if a.Create? {
      CreateRefines(db, x, r, a.id, a.name, a.now);
    } else if a.Load? {
      LoadRefines(db, x, r, a.id);
    } else if a.Commit? && x.phase.Saving? {
      CommitRefines(db, x, r, a.now);
    } else {
      OthersComplete(db, x, r, a);
    }
  }
}
