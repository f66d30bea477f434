/** What every interleaving of requests keeps. */
module TodoInvariant {
  import opened Prelude
  import opened AuditTrail
  import opened Todos

  // ---------- Rows and the copies contexts hold of them ----------

  /** A stored row: it is done exactly when its `ModifiedAt` is set, and unmodified until then. */
  predicate RowInv(id: nat, row: Todo) {
    && row.id == id && NotNull(row)
    && (row.done <==> row.modifiedAt.Some?)
    && (!row.done ==> row.modifiedBy.None?)
  }

  predicate RowsInv(rows: map<nat, Todo>) {
    forall id | id in rows :: RowInv(id, rows[id])
  }

  /** The one change a row can undergo, undone. */
  function Undone(row: Todo): Todo {
    row.(done := false, modifiedBy := None, modifiedAt := None)
  }

  predicate Owned(rows: map<nat, Todo>, r: Request, id: nat) {
    id in rows && r.tenant.Some? && rows[id].tenant == r.tenant
  }

  /** `values` are those of the stored row, now or before it was completed. */
  predicate Snapshot(rows: map<nat, Todo>, r: Request, id: nat, values: Todo) {
    && Owned(rows, r, id)
    && (values == rows[id] || (rows[id].done && values == Undone(rows[id])))
  }

  /** An unchanged entity. Its event is still there if the dispatch of its completion ended before its turn. */
  predicate Clean(rows: map<nat, Todo>, r: Request, id: nat, t: Tracked) {
    && !t.added && t.original == t.current && Snapshot(rows, r, id, t.original)
    && (t.events == [] || (t.events == [id] && t.original.done))
  }

  /** The tenant of an added entity, before and after the first save that stamps it. */
  predicate MayStamp(t: Tracked, r: Request) {
    t.current.tenant.None? || t.current.tenant == r.tenant
  }

  /** A new entity; after a failed save it is stamped. */
  predicate NewCopy(r: Request, id: nat, t: Tracked) {
    && t.added && t.events == [] && !IsBlank(t.current.name) && MayStamp(t, r)
    && t.current == NewTodo(id, t.current.name, t.current.createdAt).(tenant := t.current.tenant,
                                                                      createdBy := t.current.createdBy)
  }

  /** A new entity whose key a row of the tenant's own has taken, and which was then completed by that key. */
  predicate BlockedCopy(rows: map<nat, Todo>, r: Request, id: nat, t: Tracked) {
    && t.added && t.events == [id] && t.current.done && t.current.modifiedAt.None?
    && MayStamp(t, r) && Owned(rows, r, id)
  }

  /** An entity completed in memory; after a failed save it is stamped. */
  predicate DoneCopy(rows: map<nat, Todo>, r: Request, id: nat, t: Tracked) {
    && !t.added && t.events == [id]
    && Snapshot(rows, r, id, t.original) && !t.original.done
    && t.current == t.original.(done := true, modifiedBy := t.current.modifiedBy, modifiedAt := t.current.modifiedAt)
  }

  predicate Copy(rows: map<nat, Todo>, r: Request, id: nat, t: Tracked) {
    Clean(rows, r, id, t) || NewCopy(r, id, t) || BlockedCopy(rows, r, id, t) || DoneCopy(rows, r, id, t)
  }

  predicate Copies(rows: map<nat, Todo>, r: Request, tracker: map<nat, Tracked>) {
    forall id | id in tracker :: Copy(rows, r, id, tracker[id])
  }

  predicate AllClean(rows: map<nat, Todo>, r: Request, tracker: map<nat, Tracked>) {
    forall id | id in tracker :: Clean(rows, r, id, tracker[id])
  }

  /** A changed entity that no save has stamped yet. */
  predicate Plain(id: nat, t: Tracked) {
    if t.added then t.current == NewTodo(id, t.current.name, t.current.createdAt)
    else t.current == t.original.(done := true)
  }

  /** A context none of whose saves has failed since the last one that committed has changed at most the entity
      that it is about to save. */
  predicate Unfailed(rows: map<nat, Todo>, r: Request, x: Session) {
    forall id | id in x.tracker ::
      if x.phase.Saving? && x.phase.id == id then Plain(id, x.tracker[id]) else Clean(rows, r, id, x.tracker[id])
  }

  /** What has been taken and not yet published: one message, of an entity that is stored as done. */
  predicate QueueInv(tracker: map<nat, Tracked>, queue: seq<Message>) {
    || queue == []
    || (|queue| == 1 && queue[0].id in tracker
        && tracker[queue[0].id].events == [] && tracker[queue[0].id].original.done)
  }

  predicate PhaseInv(rows: map<nat, Todo>, r: Request, x: Session) {
    match x.phase
    case Idle => true
    case Loaded(id) => id in x.tracker && Owned(rows, r, id)
    case Saving(id, created) =>
      && id in x.tracker
      && (if created then NewCopy(r, id, x.tracker[id])
          else DoneCopy(rows, r, id, x.tracker[id]) || BlockedCopy(rows, r, id, x.tracker[id]))
    case Publishing(id, created, waiting, queue, _) =>
      && AllClean(rows, r, x.tracker) && waiting == Holding(x.tracker) && QueueInv(x.tracker, queue)
      && id in x.tracker
      && (!created ==> rows[id].done && x.tracker[id].current == rows[id])
  }

  predicate SessionInv(rows: map<nat, Todo>, r: Request, x: Session) {
    && Copies(rows, r, x.tracker)
    && (forall b | b in x.unsaved :: b.request == r)
    && (x.unsaved == [] ==> Unfailed(rows, r, x))
    && PhaseInv(rows, r, x)
  }

  /** How a table may change: rows are added, or completed once; nothing else. */
  predicate Evolves(before: map<nat, Todo>, after: map<nat, Todo>) {
    forall id | id in before ::
      && id in after
      && (after[id] == before[id] || (!before[id].done && after[id].done && before[id] == Undone(after[id])))
  }

  lemma CopyEvolves(before: map<nat, Todo>, after: map<nat, Todo>, r: Request, id: nat, t: Tracked)
    requires Evolves(before, after)
    ensures Clean(before, r, id, t) ==> Clean(after, r, id, t)
    ensures Copy(before, r, id, t) ==> Copy(after, r, id, t)
    ensures BlockedCopy(before, r, id, t) ==> BlockedCopy(after, r, id, t)
    ensures DoneCopy(before, r, id, t) ==> DoneCopy(after, r, id, t)
  {
  }

  lemma SessionInvEvolves(before: map<nat, Todo>, after: map<nat, Todo>, r: Request, x: Session)
    requires Evolves(before, after) && SessionInv(before, r, x)
    ensures SessionInv(after, r, x)
  {
    forall id | id in x.tracker
      ensures Copy(after, r, id, x.tracker[id])
      ensures Clean(before, r, id, x.tracker[id]) ==> Clean(after, r, id, x.tracker[id])
    {
      CopyEvolves(before, after, r, id, x.tracker[id]);
    }
    if x.phase.Saving? { CopyEvolves(before, after, r, x.phase.id, x.tracker[x.phase.id]); }
    if x.phase.Publishing? { assert Clean(before, r, x.phase.id, x.tracker[x.phase.id]); }
  }

  // ---------- The save ----------

  /** What a save writes for a changed entity. */
  function NewRow(t: Tracked, r: Request, now: nat): Todo {
    if t.added then t.current.(tenant := r.tenant, createdBy := r.user)
    else t.current.(modifiedBy := r.user, modifiedAt := Some(now))
  }

  /** What the database demands of an entity: for a new one a free key and a tenant, for a completed one a row
      that is not done yet. */
  predicate Free(rows: map<nat, Todo>, id: nat, t: Tracked, r: Request) {
    match StateOf(t)
    case Added => id !in rows && r.tenant.Some?
    case Modified => id in rows && !rows[id].done
    case _ => true
  }

  /** What it demands of a save: that of every entity, and a user for the audit rows. */
  predicate Savable(rows: map<nat, Todo>, tracker: map<nat, Tracked>, r: Request) {
    r.user.Some? && forall id | id in tracker :: Free(rows, id, tracker[id], r)
  }

  /** What a save writes. */
  function Saves(tracker: map<nat, Tracked>, r: Request, now: nat): map<nat, Todo> {
    map id | id in tracker && StateOf(tracker[id]) != Unchanged :: NewRow(tracker[id], r, now)
  }

  /** What both interceptors do to an entity, whatever it is: an added one gets the request's tenant, unless it has
      one, and its user as author; a changed one gets the user and the time; and nothing else is touched. */
  lemma StampIs(t: Tracked, r: Request, now: nat)
    ensures var u := Stamped(t, r, now);
            && u.original == t.original && u.added == t.added && u.events == t.events
            && (t.added ==>
                  u.current == Todo(t.current.id, t.current.name, t.current.done,
                                    if t.current.tenant.None? then r.tenant else t.current.tenant,
                                    r.user, t.current.createdAt, t.current.modifiedBy, t.current.modifiedAt))
            && (!t.added && t.original != t.current ==>
                  u.current == Todo(t.current.id, t.current.name, t.current.done, t.current.tenant,
                                    t.current.createdBy, t.current.createdAt, r.user, Some(now)))
            && (!t.added && t.original == t.current ==> u.current == t.current)
  {
  }

  /** An UPDATE of the row that was read stores the entity as it is, and one of an entity that was not changed leaves
      the row as it is. */
  lemma UpdateIs(row: Todo, original: Todo, current: Todo)
    ensures row == original ==> Updated(row, original, current) == current.(id := row.id)
    ensures current == original ==> Updated(row, original, current) == row
  {
  }

  /** Stamping touches the changed entities alone. */
  lemma OnlyChangesAreStamped(rows: map<nat, Todo>, r: Request, id: nat, t: Tracked, now: nat)
    requires Copy(rows, r, id, t)
    ensures Stamped(t, r, now) == if StateOf(t) == Unchanged then t else t.(current := NewRow(t, r, now))
    ensures StateOf(Stamped(t, r, now)) == StateOf(t)
    ensures Copy(rows, r, id, Stamped(t, r, now))
    ensures StateOf(t) == Unchanged <==> Clean(rows, r, id, t)
  {
  }

  lemma AcceptsIff(rows: map<nat, Todo>, r: Request, id: nat, t: Tracked, now: nat)
    requires RowsInv(rows) && Copy(rows, r, id, t) && r.user.Some?
    ensures Accepts(rows, id, Stamped(t, r, now)) <==> Free(rows, id, t, r)
  {
    OnlyChangesAreStamped(rows, r, id, t, now);
  }

  /** The save commits exactly then: whether a copy was stale shows in its concurrency tokens. */
  lemma CommitsIff(db: Db, x: Session, r: Request, now: nat)
    requires RowsInv(db.rows) && SessionInv(db.rows, r, x)
    ensures Commits(db, x.tracker, r, now) <==> Savable(db.rows, x.tracker, r)
  {
    var stamped := StampedAll(x.tracker, r, now);
    if r.user.Some? {
      forall id | id in x.tracker ensures Accepts(db.rows, id, stamped[id]) <==> Free(db.rows, id, x.tracker[id], r) {
        AcceptsIff(db.rows, r, id, x.tracker[id], now);
      }
      if AllAccepted(db.rows, stamped) {
        forall id | id in x.tracker ensures Free(db.rows, id, x.tracker[id], r) {
          assert Accepts(db.rows, id, stamped[id]);
        }
      }
    }
  }

  lemma WrittenRow(rows: map<nat, Todo>, r: Request, id: nat, t: Tracked, now: nat)
    requires RowsInv(rows) && Copy(rows, r, id, t) && Free(rows, id, t, r) && r.user.Some? && StateOf(t) != Unchanged
    ensures Written(rows, id, Stamped(t, r, now)) == NewRow(t, r, now)
    ensures RowInv(id, NewRow(t, r, now)) && NewRow(t, r, now).tenant == r.tenant
    ensures id in rows ==> NewRow(t, r, now).done && !rows[id].done && rows[id] == Undone(NewRow(t, r, now))
  {
    OnlyChangesAreStamped(rows, r, id, t, now);
  }

  lemma WritesAreSaves(rows: map<nat, Todo>, tracker: map<nat, Tracked>, r: Request, now: nat)
    requires RowsInv(rows) && Copies(rows, r, tracker) && Savable(rows, tracker, r)
    ensures WritesOf(rows, StampedAll(tracker, r, now)) == Saves(tracker, r, now)
  {
    var (writes, saves) := (WritesOf(rows, StampedAll(tracker, r, now)), Saves(tracker, r, now));
    forall id ensures (id in writes <==> id in saves) && (id in saves ==> writes[id] == saves[id]) {
      if id in tracker {
        OnlyChangesAreStamped(rows, r, id, tracker[id], now);
        if StateOf(tracker[id]) != Unchanged { WrittenRow(rows, r, id, tracker[id], now); }
      }
    }
    SameMap(writes, saves);
  }

  /** A committed save writes the rows of the entities that were changed, and nothing else. */
  lemma CommittedRows(db: Db, x: Session, r: Request, now: nat)
    requires RowsInv(db.rows) && SessionInv(db.rows, r, x) && Commits(db, x.tracker, r, now)
    ensures Committed(db, x, r, now).rows == db.rows + Saves(x.tracker, r, now)
    ensures RowsInv(Committed(db, x, r, now).rows) && Evolves(db.rows, Committed(db, x, r, now).rows)
  {
    CommitsIff(db, x, r, now);
    WritesAreSaves(db.rows, x.tracker, r, now);
    SavesEvolve(db.rows, x.tracker, r, now);
  }

  lemma SavesEvolve(rows: map<nat, Todo>, tracker: map<nat, Tracked>, r: Request, now: nat)
    requires RowsInv(rows) && Copies(rows, r, tracker) && Savable(rows, tracker, r)
    ensures RowsInv(rows + Saves(tracker, r, now)) && Evolves(rows, rows + Saves(tracker, r, now))
  {
    forall id | id in Saves(tracker, r, now)
      ensures RowInv(id, NewRow(tracker[id], r, now))
      ensures id in rows ==>
                NewRow(tracker[id], r, now).done && !rows[id].done && rows[id] == Undone(NewRow(tracker[id], r, now))
    {
      WrittenRow(rows, r, id, tracker[id], now);
    }
  }

  /** The entities of a saved context are clean copies of what is now stored, and those that were completed
      have their event. */
  lemma AcceptedIsClean(rows: map<nat, Todo>, tracker: map<nat, Tracked>, r: Request, now: nat, id: nat)
    requires RowsInv(rows) && Copies(rows, r, tracker) && Savable(rows, tracker, r) && id in tracker
    ensures var after := rows + Saves(tracker, r, now);
            && Clean(after, r, id, Accepted(Stamped(tracker[id], r, now)))
            && (StateOf(tracker[id]) != Unchanged ==> Stamped(tracker[id], r, now).current == after[id])
  {
    OnlyChangesAreStamped(rows, r, id, tracker[id], now);
    if StateOf(tracker[id]) != Unchanged { WrittenRow(rows, r, id, tracker[id], now); }
  }

  lemma SavedSessionKept(rows: map<nat, Todo>, x: Session, r: Request, now: nat)
    requires RowsInv(rows) && SessionInv(rows, r, x) && x.phase.Saving? && Savable(rows, x.tracker, r)
    ensures SessionInv(rows + Saves(x.tracker, r, now), r, SavedSession(x, r, now))
  {
    var (y, after) := (SavedSession(x, r, now), rows + Saves(x.tracker, r, now));
    SavedTrackerIsClean(rows, x.tracker, r, now);
    DirtyIsSaved(rows, x, r, now);
    CleanSessionInv(after, r, y);
  }

  lemma SavedTrackerIsClean(rows: map<nat, Todo>, tracker: map<nat, Tracked>, r: Request, now: nat)
    requires RowsInv(rows) && Copies(rows, r, tracker) && Savable(rows, tracker, r)
    ensures var saved := AcceptedAll(StampedAll(tracker, r, now));
            AllClean(rows + Saves(tracker, r, now), r, saved) && Holding(saved) == Holding(tracker)
  {
    var saved := AcceptedAll(StampedAll(tracker, r, now));
    forall id | id in saved
      ensures Clean(rows + Saves(tracker, r, now), r, id, saved[id]) && saved[id].events == tracker[id].events
    {
      AcceptedIsClean(rows, tracker, r, now, id);
    }
  }

  /** The entity that the command is about has been written. */
  lemma DirtyIsSaved(rows: map<nat, Todo>, x: Session, r: Request, now: nat)
    requires RowsInv(rows) && SessionInv(rows, r, x) && x.phase.Saving? && Savable(rows, x.tracker, r)
    ensures var (id, after) := (x.phase.id, rows + Saves(x.tracker, r, now));
            && id in after && after[id] == Stamped(x.tracker[id], r, now).current
            && (!x.phase.created ==> after[id].done)
  {
    var id := x.phase.id;
    assert Free(rows, id, x.tracker[id], r);
    AcceptedIsClean(rows, x.tracker, r, now, id);
  }

  lemma CleanSessionInv(rows: map<nat, Todo>, r: Request, y: Session)
    requires y.phase.Publishing? && y.unsaved == [] && PhaseInv(rows, r, y)
    ensures SessionInv(rows, r, y)
  {
  }

  lemma FailedSessionKept(rows: map<nat, Todo>, x: Session, r: Request, now: nat)
    requires SessionInv(rows, r, x)
    ensures SessionInv(rows, r, FailedSession(x, r, now))
  {
    forall id | id in x.tracker ensures Copy(rows, r, id, Stamped(x.tracker[id], r, now)) {
      OnlyChangesAreStamped(rows, r, id, x.tracker[id], now);
    }
  }

  /** What an action of a request keeps. */
  ghost predicate Kept(db: Db, r: Request, o: Outcome) {
    SessionInv(o.db.rows, r, o.session) && RowsInv(o.db.rows) && Evolves(db.rows, o.db.rows)
  }

  lemma SavedKeepsSession(db: Db, x: Session, r: Request, now: nat)
    requires RowsInv(db.rows) && SessionInv(db.rows, r, x) && x.phase.Saving?
    ensures Kept(db, r, Saved(db, x, r, now))
  {
    if Commits(db, x.tracker, r, now) {
      CommitsIff(db, x, r, now);
      CommittedRows(db, x, r, now);
      SavedSessionKept(db.rows, x, r, now);
    } else {
      FailedSessionKept(db.rows, x, r, now);
    }
  }

  // ---------- One action ----------

  /** No action but a save writes to the database. */
  lemma OnlySavesWrite(db: Db, x: Session, r: Request, a: Action)
    requires !(a.Commit? && x.phase.Saving?)
    ensures Act(db, x, r, a).db == db
  {
  }

  lemma CommitIsSaved(db: Db, x: Session, r: Request, now: nat)
    requires x.phase.Saving?
    ensures Act(db, x, r, Commit(now)) == Saved(db, x, r, now)
  {
  }

  lemma ActKeepsSession(db: Db, x: Session, r: Request, a: Action)
    requires RowsInv(db.rows) && SessionInv(db.rows, r, x)
    ensures Kept(db, r, Act(db, x, r, a))
  {
    if a.Commit? && x.phase.Saving? {
      CommitIsSaved(db, x, r, a.now);
      SavedKeepsSession(db, x, r, a.now);
    } else {
      OnlySavesWrite(db, x, r, a);
      OtherActKeepsSession(db, x, r, a);
    }
  }

  lemma OtherActKeepsSession(db: Db, x: Session, r: Request, a: Action)
    requires RowsInv(db.rows) && SessionInv(db.rows, r, x) && !(a.Commit? && x.phase.Saving?)
    ensures SessionInv(db.rows, r, Act(db, x, r, a).session)
  {
    if x.phase.Saving? {
      if a.SaveFails? { FailedSessionKept(db.rows, x, r, a.now); }
    } else if x.phase.Loaded? {
      if a.SetDone? { CompletingKeepsSession(db, x, r); }
    } else if x.phase.Publishing? {
      PublishingKeepsSession(db, x, r, a);
    } else {
      IdleKeepsSession(db, x, r, a);
    }
  }

  lemma IdleKeepsSession(db: Db, x: Session, r: Request, a: Action)
    requires RowsInv(db.rows) && SessionInv(db.rows, r, x) && x.phase.Idle?
    ensures SessionInv(db.rows, r, Act(db, x, r, a).session)
  {
    match a
    case Create(id, name, now) =>
    case Get(id) =>
    case GetAll => ListingKeepsSession(db, x, r);
    case Load(id) =>
    case _ =>
  }

  lemma ListingKeepsSession(db: Db, x: Session, r: Request)
    requires RowsInv(db.rows) && SessionInv(db.rows, r, x) && x.phase.Idle?
    ensures SessionInv(db.rows, r, Listing(db, x, r).session)
  {
    var y := Listing(db, x, r).session;
    forall id | id in y.tracker
      ensures Copy(db.rows, r, id, y.tracker[id])
      ensures x.unsaved == [] ==> Clean(db.rows, r, id, y.tracker[id])
    {
      if id in x.tracker { assert y.tracker[id] == x.tracker[id]; }
    }
  }

  lemma CompletingKeepsSession(db: Db, x: Session, r: Request)
    requires RowsInv(db.rows) && SessionInv(db.rows, r, x) && x.phase.Loaded?
    ensures SessionInv(db.rows, r, Completing(db, x, x.phase.id).session)
  {
    var id := x.phase.id;
    var t := x.tracker[id];
    assert Copy(db.rows, r, id, t);
    assert [] + [id] == [id];
  }

  lemma PublishingKeepsSession(db: Db, x: Session, r: Request, a: Action)
    requires RowsInv(db.rows) && SessionInv(db.rows, r, x) && x.phase.Publishing?
    ensures SessionInv(db.rows, r, Act(db, x, r, a).session)
  {
    match a
    case Dispatch(id) => DispatchingKeepsSession(db, x, r, id);
    case Publish => PublishingNextKeepsSession(db, x, r);
    case _ =>
  }

  lemma DispatchingKeepsSession(db: Db, x: Session, r: Request, id: nat)
    requires RowsInv(db.rows) && SessionInv(db.rows, r, x) && x.phase.Publishing?
    ensures SessionInv(db.rows, r, Dispatching(db, x, id).session)
  {
    if x.phase.queue == [] && id in x.phase.waiting && id in x.tracker {
      assert Clean(db.rows, r, id, x.tracker[id]);
      assert DoneEvents([id]) == [DoneEvent(id)];
      var y := Dispatching(db, x, id).session;
      assert Holding(y.tracker) == Holding(x.tracker) - {id};
    }
  }

  lemma PublishingNextKeepsSession(db: Db, x: Session, r: Request)
    requires RowsInv(db.rows) && SessionInv(db.rows, r, x) && x.phase.Publishing?
    ensures SessionInv(db.rows, r, PublishingNext(db, x).session)
  {
    var queue := x.phase.queue;
    if queue != [] {
      assert queue[1..] == [];
      assert HandlerOutput(queue[0]) + [] == HandlerOutput(queue[0]);
    }
  }

  // ---------- All requests ----------

  ghost predicate StateInv(s: State) {
    && RowsInv(s.db.rows)
    && forall r | r in s.sessions :: SessionInv(s.db.rows, r, s.sessions[r])
  }

  lemma StepKeepsStateInv(s: State, r: Request, a: Action)
    requires StateInv(s)
    ensures StateInv(Step(s, r, a)) && Evolves(s.db.rows, Step(s, r, a).db.rows)
    ensures SessionInv(s.db.rows, r, SessionOf(s, r))
  {
    ActKeepsSession(s.db, SessionOf(s, r), r, a);
    var t := Step(s, r, a);
    forall q | q in t.sessions ensures SessionInv(t.db.rows, q, t.sessions[q]) {
      if q != r { SessionInvEvolves(s.db.rows, t.db.rows, q, s.sessions[q]); }
    }
  }

  lemma {:induction false} RunKeepsStateInv(run: seq<(Request, Action)>)
    ensures StateInv(Run(run))
  {
    if run != [] {
      RunKeepsStateInv(run[..|run| - 1]);
      StepKeepsStateInv(Run(run[..|run| - 1]), run[|run| - 1].0, run[|run| - 1].1);
    }
  }

  lemma OneStep(run: seq<(Request, Action)>, n: nat)
    requires n < |run|
    ensures Run(run[..n + 1]) == Step(Run(run[..n]), run[n].0, run[n].1)
  {
    assert run[..n + 1][..n] == run[..n];
  }

  lemma SaveStep(s: State, r: Request, now: nat)
    requires SessionOf(s, r).phase.Saving?
    ensures var (x, t) := (SessionOf(s, r), Step(s, r, Commit(now)));
            && r in t.sessions
            && if Commits(s.db, x.tracker, r, now)
               then t.db == Committed(s.db, x, r, now) && t.sessions[r] == SavedSession(x, r, now)
               else t.db == s.db && t.sessions[r] == FailedSession(x, r, now)
  {
  }
}
