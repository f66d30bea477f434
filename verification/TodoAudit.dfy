/** The audit trail under concurrency: folding it reproduces the stored rows, whatever saves fail on the way. */
module TodoAudit {
  import opened Prelude
  import opened AuditTrail
  import opened Todos
  import opened TodoInvariant
  import opened TodoSafety
  import opened TodoGuarantees

  // ---------- The audit row of a todo ----------

  function Place(c: Column): (i: nat)
    ensures i < |COLUMNS| && COLUMNS[i] == c
  {
    match c
    case Id => 0
    case CreatedAt => 1
    case CreatedBy => 2
    case Done => 3
    case ModifiedAt => 4
    case ModifiedBy => 5
    case Name => 6
    case TenantId => 7
  }

  /** The value of each column that an audit row of this entry records as new. */
  predicate Records(t: Tracked, c: Column) {
    c != Id && (t.added || (StateOf(t) == Modified && ValueOf(t.original, c) != ValueOf(t.current, c)))
  }

  /** What the audit pass records of a todo, column by column. */
  lemma AuditOfColumn(t: Tracked, r: Request, now: nat, c: Column)
    ensures var row := AuditOf(t, r, now);
            && row.trail == TrailOf(StateOf(t))
            && (c in row.newValues <==> Records(t, c))
            && (c in row.oldValues <==> Records(t, c) && !t.added)
            && (c in row.affected <==> Records(t, c) && !t.added)
            && (c in row.key <==> c == Id)
            && (c in row.newValues ==> row.newValues[c] == ValueOf(Stamped(t, r, now).current, c))
            && (c in row.oldValues ==> row.oldValues[c] == ValueOf(t.original, c))
            && (c in row.key ==> row.key[c] == ValueOf(Stamped(t, r, now).current, c))
  {
    var ps := Properties(WithTenant(t, r), Stamped(t, r, now).current);
    assert UniqueNames(ps) by {
      forall i, j | 0 <= i < j < |ps| ensures ps[i].name != ps[j].name {
        assert Place(COLUMNS[i]) == i && Place(COLUMNS[j]) == j;
      }
    }
    TrailIsOfState(StateOf(t), ps);
    RowIsExact(StateOf(t), ps, Place(c));
  }

  // ---------- Replay ----------

  /** Folding one audit row: a creation starts over, anything else overwrites the columns it records. */
  function Folded(state: Option<map<Column, Value>>, row: AuditRow): Option<map<Column, Value>> {
    if row.trail == Trail.Create then Some(row.newValues)
    else if state.Some? then Some(state.value + row.newValues)
    else None
  }

  /** Folding the rows that the trail holds for one todo, in commit order. */
  function Replay(audit: seq<Batch>, id: nat): Option<map<Column, Value>> {
    if audit == [] then None
    else
      var (init, last) := (audit[..|audit| - 1], audit[|audit| - 1]);
      if id in last.rows then Folded(Replay(init, id), last.rows[id]) else Replay(init, id)
  }

  /** How many rows of one kind the trail holds for one todo. */
  function RowCount(audit: seq<Batch>, id: nat, trail: Trail): nat {
    if audit == [] then 0
    else
      var (init, last) := (audit[..|audit| - 1], audit[|audit| - 1]);
      RowCount(init, id, trail) + if id in last.rows && last.rows[id].trail == trail then 1 else 0
  }

  /** The columns of a row other than its key. */
  function Columns(row: Todo): map<Column, Value> {
    map c: Column | c != Id :: ValueOf(row, c)
  }

  /** A row as it would be had nobody modified it: the modifier columns are stamped only after the flags that
      the audit pass looks at were set, so an edit never records them. */
  function Unsigned(row: Todo): Todo {
    row.(modifiedBy := None, modifiedAt := None)
  }

  /** What the trail says of one todo, against what is stored. */
  predicate Faithful(db: Db, id: nat) {
    && Replay(db.audit, id) == (if id in db.rows then Some(Columns(Unsigned(db.rows[id]))) else None)
    && RowCount(db.audit, id, Trail.Create) == (if id in db.rows then 1 else 0)
    && RowCount(db.audit, id, Trail.Edit) == (if id in db.rows && db.rows[id].done then 1 else 0)
  }

  /** An edit names one and the same columns three times, and its old values are the replayed state just
      before it; an undefined row records nothing. */
  predicate Chained(before: Option<map<Column, Value>>, row: AuditRow) {
    && (row.trail == Trail.Edit ==>
          && before.Some?
          && row.oldValues.Keys == row.newValues.Keys == row.affected
          && forall c | c in row.oldValues :: c in before.value && before.value[c] == row.oldValues[c])
    && (row.trail == Undefined ==> row.newValues == map[])
  }

  predicate ChainInv(audit: seq<Batch>, id: nat) {
    forall n | 0 <= n < |audit| && id in audit[n].rows :: Chained(Replay(audit[..n], id), audit[n].rows[id])
  }

  // ---------- One audit row ----------

  /** The row of a new todo, stamped by a failed save already or not, records what a save would store. */
  lemma AuditOfNew(r: Request, t: Tracked, now: nat)
    requires t.added && MayStamp(t, r)
    ensures AuditOf(t, r, now).trail == Trail.Create
    ensures AuditOf(t, r, now).newValues == Columns(NewRow(t, r, now))
  {
    assert Stamped(t, r, now).current == NewRow(t, r, now);
    forall c: Column
      ensures c in AuditOf(t, r, now).newValues <==> c != Id
      ensures c != Id ==> AuditOf(t, r, now).newValues[c] == ValueOf(NewRow(t, r, now), c)
    {
      AuditOfColumn(t, r, now, c);
    }
    AuditOfColumn(t, r, now, Id);
  }

  /** The columns that the row of a completion records: `Done`, and the modifier columns of the last save that
      failed, if there was one. */
  function Edited(t: Tracked): set<Column> {
    set c | c in {Done, ModifiedBy, ModifiedAt} && ValueOf(t.original, c) != ValueOf(t.current, c)
  }

  lemma AuditOfDone(rows: map<nat, Todo>, r: Request, t: Tracked, now: nat, id: nat)
    requires DoneCopy(rows, r, id, t)
    ensures var row := AuditOf(t, r, now);
            && row.trail == Trail.Edit
            && row.affected == row.oldValues.Keys == row.newValues.Keys == Edited(t) && Done in Edited(t)
            && (forall c | c in Edited(t) :: row.oldValues[c] == ValueOf(t.original, c))
            && (forall c | c in Edited(t) :: row.newValues[c] == ValueOf(NewRow(t, r, now), c))
    ensures Plain(id, t) ==> Edited(t) == {Done}
  {
    assert Stamped(t, r, now).current == NewRow(t, r, now);
    forall c: Column
      ensures var row := AuditOf(t, r, now);
              && (c in row.newValues <==> c in Edited(t)) && (c in row.oldValues <==> c in Edited(t))
              && (c in row.affected <==> c in Edited(t))
              && (c in Edited(t) ==> row.oldValues[c] == ValueOf(t.original, c))
              && (c in Edited(t) ==> row.newValues[c] == ValueOf(NewRow(t, r, now), c))
    {
      AuditOfColumn(t, r, now, c);
    }
    AuditOfColumn(t, r, now, Done);
  }

  lemma AuditOfClean(rows: map<nat, Todo>, r: Request, t: Tracked, now: nat, id: nat)
    requires Clean(rows, r, id, t)
    ensures AuditOf(t, r, now).trail == Undefined && AuditOf(t, r, now).newValues == map[]
  {
    forall c: Column ensures c !in AuditOf(t, r, now).newValues {
      AuditOfColumn(t, r, now, c);
    }
    AuditOfColumn(t, r, now, Id);
  }

  lemma BatchHas(tracker: map<nat, Tracked>, r: Request, now: nat, id: nat)
    ensures id in BatchOf(tracker, r, now).rows <==> id in tracker
    ensures id in tracker ==> BatchOf(tracker, r, now).rows[id] == AuditOf(tracker[id], r, now)
  {
  }

  lemma TrailOfRow(t: Tracked, r: Request, now: nat)
    ensures AuditOf(t, r, now).trail == TrailOf(StateOf(t))
  {
    AuditOfColumn(t, r, now, Id);
  }

  // ---------- Failed saves leave their audit rows behind ----------

  /** The batches hold a row of this kind for the todo. */
  predicate Tells(batches: seq<Batch>, id: nat, trail: Trail) {
    exists b :: b in batches && id in b.rows && b.rows[id].trail == trail
  }

  predicate IsNoOp(row: AuditRow) {
    row.trail == Undefined && row.newValues == map[]
  }

  /** A row that says `Done`, and perhaps who did it and when. */
  predicate IsCompletion(row: AuditRow) {
    && row.trail == Trail.Edit && row.newValues.Keys <= {Done, ModifiedBy, ModifiedAt}
    && Done in row.newValues && row.newValues[Done] == Flag(true)
  }

  /** What a row that a failed save has left behind says of an entity, which keeps its change until a save of the
      context commits. A new entity that is done by now can no more be saved. */
  predicate LeftoverRow(t: Tracked, r: Request, row: AuditRow) {
    || IsNoOp(row)
    || (row.trail == Trail.Create && t.added &&
        (t.current.done || row.newValues == Columns(t.current.(tenant := r.tenant, createdBy := r.user))))
    || (IsCompletion(row) && StateOf(t) == Modified && t.current.done
        && t.current.modifiedBy == r.user && t.current.modifiedAt.Some?)
  }

  predicate LeftoverRows(x: Session, r: Request) {
    forall b, id | b in x.unsaved && id in b.rows :: id in x.tracker && LeftoverRow(x.tracker[id], r, b.rows[id])
  }

  /** A changed entity is told of in the rows left behind, or no save has stamped it yet and one is about to. */
  predicate AccountedFor(x: Session, id: nat)
    requires id in x.tracker
  {
    var t := x.tracker[id];
    || StateOf(t) == Unchanged
    || Tells(x.unsaved, id, TrailOf(StateOf(t)))
    || (Plain(id, t) && x.phase.Saving? && x.phase.id == id)
  }

  predicate Changes(b: Batch, id: nat) {
    id in b.rows && b.rows[id].trail in {Trail.Create, Trail.Edit}
  }

  ghost predicate LeftoverInv(x: Session, r: Request) {
    && LeftoverRows(x, r)
    && (forall id | id in x.tracker :: AccountedFor(x, id))
    && (forall b | b in x.unsaved :: exists id :: Changes(b, id))
  }

  lemma RowOfFailedSave(rows: map<nat, Todo>, r: Request, t: Tracked, now: nat, id: nat)
    requires Copy(rows, r, id, t)
    ensures LeftoverRow(Stamped(t, r, now), r, AuditOf(t, r, now))
  {
    OnlyChangesAreStamped(rows, r, id, t, now);
    if Clean(rows, r, id, t) {
      AuditOfClean(rows, r, t, now, id);
    } else if t.added {
      AuditOfNew(r, t, now);
    } else {
      AuditOfDone(rows, r, t, now, id);
    }
  }

  lemma StampedKeepsLeftover(rows: map<nat, Todo>, r: Request, t: Tracked, now: nat, id: nat, row: AuditRow)
    requires Copy(rows, r, id, t) && LeftoverRow(t, r, row)
    ensures LeftoverRow(Stamped(t, r, now), r, row)
  {
    OnlyChangesAreStamped(rows, r, id, t, now);
  }

  lemma FailedSaveLeavesRow(rows: map<nat, Todo>, x: Session, r: Request, now: nat, b: Batch, id: nat)
    requires Copies(rows, r, x.tracker) && LeftoverRows(x, r) && id in b.rows
    requires b in x.unsaved || b == BatchOf(x.tracker, r, now)
    ensures id in x.tracker && LeftoverRow(Stamped(x.tracker[id], r, now), r, b.rows[id])
  {
    if b in x.unsaved {
      StampedKeepsLeftover(rows, r, x.tracker[id], now, id, b.rows[id]);
    } else {
      BatchHas(x.tracker, r, now, id);
      RowOfFailedSave(rows, r, x.tracker[id], now, id);
    }
  }

  lemma FailedSaveLeavesRows(rows: map<nat, Todo>, x: Session, r: Request, now: nat, y: Session)
    requires Copies(rows, r, x.tracker) && LeftoverRows(x, r)
    requires y.unsaved == x.unsaved + [BatchOf(x.tracker, r, now)]
    requires forall id | id in x.tracker :: id in y.tracker && y.tracker[id] == Stamped(x.tracker[id], r, now)
    ensures LeftoverRows(y, r)
  {
    forall b, id | b in y.unsaved && id in b.rows ensures id in y.tracker && LeftoverRow(y.tracker[id], r, b.rows[id]) {
      FailedSaveLeavesRow(rows, x, r, now, b, id);
    }
  }

  lemma TellsOfBatch(batches: seq<Batch>, b: Batch, id: nat, trail: Trail)
    ensures Tells(batches + [b], id, trail) <==>
              Tells(batches, id, trail) || (id in b.rows && b.rows[id].trail == trail)
  {
    if id in b.rows && b.rows[id].trail == trail { assert b in batches + [b]; }
    if Tells(batches, id, trail) {
      var c :| c in batches && id in c.rows && c.rows[id].trail == trail;
      assert c in batches + [b];
    }
  }

  lemma FailedSaveAccounts(rows: map<nat, Todo>, x: Session, r: Request, now: nat, id: nat)
    requires Copies(rows, r, x.tracker) && id in x.tracker
    ensures AccountedFor(FailedSession(x, r, now), id)
  {
    OnlyChangesAreStamped(rows, r, id, x.tracker[id], now);
    TrailOfRow(x.tracker[id], r, now);
    BatchHas(x.tracker, r, now, id);
    TellsOfBatch(x.unsaved, BatchOf(x.tracker, r, now), id, TrailOf(StateOf(x.tracker[id])));
  }

  lemma FailedSaveChanges(x: Session, r: Request, now: nat, id: nat)
    requires id in x.tracker && StateOf(x.tracker[id]) in {Added, Modified}
    ensures Changes(BatchOf(x.tracker, r, now), id)
  {
    TrailOfRow(x.tracker[id], r, now);
    BatchHas(x.tracker, r, now, id);
  }

  lemma FailedKeepsLeftovers(rows: map<nat, Todo>, x: Session, r: Request, now: nat, y: Session, b: Batch)
    requires Copies(rows, r, x.tracker) && LeftoverInv(x, r) && y == FailedSession(x, r, now)
    requires b == BatchOf(x.tracker, r, now) && x.phase.Saving? && Changes(b, x.phase.id)
    ensures LeftoverInv(y, r)
  {
    FailedSaveLeavesRows(rows, x, r, now, y);
    forall id | id in y.tracker ensures AccountedFor(y, id) { FailedSaveAccounts(rows, x, r, now, id); }
    EachChanges(x.unsaved, b, x.phase.id);
  }

  lemma EachChanges(unsaved: seq<Batch>, b: Batch, id: nat)
    requires (forall c | c in unsaved :: exists k :: Changes(c, k)) && Changes(b, id)
    ensures forall c | c in unsaved + [b] :: exists k :: Changes(c, k)
  {
    forall c | c in unsaved + [b] ensures exists k :: Changes(c, k) {
      if c == b { assert Changes(c, id); } else { assert c in unsaved; }
    }
  }

  lemma SavingIsChanged(rows: map<nat, Todo>, x: Session, r: Request)
    requires SessionInv(rows, r, x) && x.phase.Saving?
    ensures x.phase.id in x.tracker && StateOf(x.tracker[x.phase.id]) in {Added, Modified}
  {
  }

  /** What an action that is no save does to an entity that is tracked already. */
  lemma OtherActOnTracked(db: Db, x: Session, r: Request, a: Action, id: nat)
    requires !(x.phase.Saving? && (a.Commit? || a.SaveFails?)) && id in x.tracker
    ensures var (t, y) := (x.tracker[id], Act(db, x, r, a).session);
            && y.unsaved == x.unsaved && id in y.tracker
            && (|| y.tracker[id] == t || y.tracker[id] == t.(events := [])
                || (x.phase == Loaded(id) && y.phase == Saving(id, false) && !t.current.done
                    && y.tracker[id] == MarkedDone(t)))
            && (x.phase.Saving? ==> y == x)
  {
  }

  lemma NewlyTracked(db: Db, x: Session, r: Request, a: Action, id: nat)
    requires id !in x.tracker && id in Act(db, x, r, a).session.tracker
    ensures AccountedFor(Act(db, x, r, a).session, id)
  {
  }

  lemma OtherActAccounts(db: Db, x: Session, r: Request, a: Action, id: nat)
    requires !(x.phase.Saving? && (a.Commit? || a.SaveFails?)) && SessionInv(db.rows, r, x) && id in x.tracker
    requires AccountedFor(x, id)
    ensures id in Act(db, x, r, a).session.tracker && AccountedFor(Act(db, x, r, a).session, id)
  {
    OtherActOnTracked(db, x, r, a, id);
    assert Copy(db.rows, r, id, x.tracker[id]);
  }

  lemma OtherActKeepsRow(db: Db, x: Session, r: Request, a: Action, id: nat, row: AuditRow)
    requires !(x.phase.Saving? && (a.Commit? || a.SaveFails?)) && id in x.tracker && LeftoverRow(x.tracker[id], r, row)
    ensures var y := Act(db, x, r, a).session; id in y.tracker && LeftoverRow(y.tracker[id], r, row)
  {
    OtherActOnTracked(db, x, r, a, id);
  }

  lemma OtherActKeepsLeftovers(db: Db, x: Session, r: Request, a: Action, y: Session)
    requires !(x.phase.Saving? && (a.Commit? || a.SaveFails?)) && SessionInv(db.rows, r, x) && LeftoverInv(x, r)
    requires y == Act(db, x, r, a).session && y.unsaved == x.unsaved
    ensures LeftoverInv(y, r)
  {
    forall b, id | b in y.unsaved && id in b.rows ensures id in y.tracker && LeftoverRow(y.tracker[id], r, b.rows[id]) {
      OtherActKeepsRow(db, x, r, a, id, b.rows[id]);
    }
    forall id | id in y.tracker ensures AccountedFor(y, id) {
      if id in x.tracker { OtherActAccounts(db, x, r, a, id); } else { NewlyTracked(db, x, r, a, id); }
    }
  }

  lemma OthersLeaveUnsaved(db: Db, x: Session, r: Request, a: Action)
    requires !(x.phase.Saving? && (a.Commit? || a.SaveFails?))
    ensures Act(db, x, r, a).session.unsaved == x.unsaved
  {
  }

  lemma CommittedLeavesNothing(db: Db, x: Session, r: Request, now: nat)
    requires RowsInv(db.rows) && SessionInv(db.rows, r, x) && x.phase.Saving? && Savable(db.rows, x.tracker, r)
    ensures LeftoverInv(SavedSession(x, r, now), r)
  {
    SavedTrackerIsClean(db.rows, x.tracker, r, now);
  }

  lemma ActKeepsLeftovers(db: Db, x: Session, r: Request, a: Action)
    requires RowsInv(db.rows) && SessionInv(db.rows, r, x) && LeftoverInv(x, r)
    ensures LeftoverInv(Act(db, x, r, a).session, r)
  {
    if !(x.phase.Saving? && (a.Commit? || a.SaveFails?)) {
      OthersLeaveUnsaved(db, x, r, a);
      OtherActKeepsLeftovers(db, x, r, a, Act(db, x, r, a).session);
    } else {
      if a.Commit? { CommitIsSaved(db, x, r, a.now); } else { SaveFailsIs(db, x, r, a.now); }
      CommitsIff(db, x, r, a.now);
      if a.Commit? && Commits(db, x.tracker, r, a.now) { CommittedLeavesNothing(db, x, r, a.now); }
      else {
        SavingIsChanged(db.rows, x, r);
        FailedSaveChanges(x, r, a.now, x.phase.id);
        FailedKeepsLeftovers(db.rows, x, r, a.now, FailedSession(x, r, a.now), BatchOf(x.tracker, r, a.now));
      }
    }
  }

  lemma {:induction false} RunKeepsLeftovers(run: seq<(Request, Action)>, r: Request)
    ensures LeftoverInv(SessionOf(Run(run), r), r)
  {
    if run != [] {
      var (before, last) := (run[..|run| - 1], run[|run| - 1]);
      RunKeepsLeftovers(before, r);
      RunKeepsStateInv(before);
      var s := Run(before);
      assert SessionInv(s.db.rows, last.0, SessionOf(s, last.0));
      StepIs(s, last.0, last.1);
      if last.0 == r { ActKeepsLeftovers(s.db, SessionOf(s, r), r, last.1); }
    }
  }

  // ---------- More batches, seen from one todo ----------

  lemma OneMoreBatch(audit: seq<Batch>, b: Batch, id: nat)
    ensures Replay(audit + [b], id) == if id in b.rows then Folded(Replay(audit, id), b.rows[id]) else Replay(audit, id)
    ensures forall trail :: RowCount(audit + [b], id, trail) ==
              RowCount(audit, id, trail) + if id in b.rows && b.rows[id].trail == trail then 1 else 0
    ensures ChainInv(audit + [b], id) <==>
              ChainInv(audit, id) && (id in b.rows ==> Chained(Replay(audit, id), b.rows[id]))
  {
    var all := audit + [b];
    assert all[..|audit|] == audit;
    forall n | 0 <= n < |audit| ensures all[..n] == audit[..n] && all[n] == audit[n] {}
    if ChainInv(all, id) {
      forall n | 0 <= n < |audit| && id in audit[n].rows ensures Chained(Replay(audit[..n], id), audit[n].rows[id]) {
        assert Chained(Replay(all[..n], id), all[n].rows[id]);
      }
      assert id in b.rows ==> Chained(Replay(all[..|audit|], id), all[|audit|].rows[id]);
    }
  }

  lemma {:induction false} RowCountConcat(a: seq<Batch>, b: seq<Batch>, id: nat, trail: Trail)
    ensures RowCount(a + b, id, trail) == RowCount(a, id, trail) + RowCount(b, id, trail)
  {
    if b == [] {
      assert a + b == a;
    } else {
      RowCountConcat(a, b[..|b| - 1], id, trail);
      assert (a + b)[..|a + b| - 1] == a + b[..|b| - 1];
    }
  }

  lemma {:induction false} CountedIff(batches: seq<Batch>, id: nat, trail: Trail)
    ensures RowCount(batches, id, trail) > 0 <==> Tells(batches, id, trail)
  {
    if batches != [] {
      var (init, last) := (batches[..|batches| - 1], batches[|batches| - 1]);
      CountedIff(init, id, trail);
      TellsOfBatch(init, last, id, trail);
      assert init + [last] == batches;
    }
  }

  lemma NothingRecordedIsNoOp(state: Option<map<Column, Value>>, row: AuditRow)
    requires IsNoOp(row)
    ensures Folded(state, row) == state
  {
    if state.Some? { assert state.value + map[] == state.value; }
  }

  /** What the trail says of a todo: how its rows fold, how many tell of its creation and completion, and whether
      its edits chain. */
  datatype Said = Said(state: Option<map<Column, Value>>, creations: nat, edits: nat, chained: bool)

  ghost function SaidOf(audit: seq<Batch>, id: nat): Said {
    Said(Replay(audit, id), RowCount(audit, id, Trail.Create), RowCount(audit, id, Trail.Edit), ChainInv(audit, id))
  }

  /** One more row. */
  ghost function SaidNext(s: Said, row: AuditRow): Said {
    Said(Folded(s.state, row), s.creations + (if row.trail == Trail.Create then 1 else 0),
         s.edits + (if row.trail == Trail.Edit then 1 else 0), s.chained && Chained(s.state, row))
  }

  lemma SaidMore(audit: seq<Batch>, b: Batch, id: nat)
    ensures SaidOf(audit + [b], id) ==
            if id in b.rows then SaidNext(SaidOf(audit, id), b.rows[id]) else SaidOf(audit, id)
  {
    OneMoreBatch(audit, b, id);
  }

  lemma SaidOfMore(audit: seq<Batch>, more: seq<Batch>, id: nat)
    requires more != []
    ensures var (init, last) := (more[..|more| - 1], more[|more| - 1]);
            && last in more && (forall b | b in init :: b in more)
            && SaidOf(audit + more, id) ==
               if id in last.rows then SaidNext(SaidOf(audit + init, id), last.rows[id]) else SaidOf(audit + init, id)
  {
    var (init, last) := (more[..|more| - 1], more[|more| - 1]);
    SaidMore(audit + init, last, id);
    assert audit + init + [last] == audit + more;
  }

  predicate AllNoOps(batches: seq<Batch>, id: nat) {
    forall b | b in batches && id in b.rows :: IsNoOp(b.rows[id])
  }

  lemma {:induction false} NoOpsSayNothing(audit: seq<Batch>, more: seq<Batch>, id: nat)
    requires AllNoOps(more, id)
    ensures SaidOf(audit + more, id) == SaidOf(audit, id)
  {
    if more == [] {
      assert audit + more == audit;
    } else {
      var (init, last) := (more[..|more| - 1], more[|more| - 1]);
      NoOpsSayNothing(audit, init, id);
      SaidOfMore(audit, more, id);
      if id in last.rows { NothingRecordedIsNoOp(Replay(audit + init, id), last.rows[id]); }
    }
  }

  /** Leftovers of a new todo say one and the same thing. */
  predicate AllCreations(batches: seq<Batch>, id: nat, columns: map<Column, Value>) {
    forall b | b in batches && id in b.rows ::
      IsNoOp(b.rows[id]) || (b.rows[id].trail == Trail.Create && b.rows[id].newValues == columns)
  }

  /** What creations that are left behind make of a state. */
  predicate SaysCreated(was: Said, s: Said, columns: map<Column, Value>) {
    && s.state in {None, Some(columns)} && s.creations >= was.creations
    && s.edits == was.edits && s.chained == was.chained
  }

  lemma OneMoreCreation(was: Said, s: Said, columns: map<Column, Value>, row: AuditRow)
    requires SaysCreated(was, s, columns)
    requires IsNoOp(row) || (row.trail == Trail.Create && row.newValues == columns)
    ensures SaysCreated(was, SaidNext(s, row), columns)
  {
    if IsNoOp(row) { NothingRecordedIsNoOp(s.state, row); }
  }

  lemma {:induction false} CreationsSay(audit: seq<Batch>, more: seq<Batch>, id: nat, columns: map<Column, Value>)
    requires AllCreations(more, id, columns) && Replay(audit, id) in {None, Some(columns)}
    ensures SaysCreated(SaidOf(audit, id), SaidOf(audit + more, id), columns)
  {
    if more == [] {
      assert audit + more == audit;
    } else {
      var (init, last) := (more[..|more| - 1], more[|more| - 1]);
      CreationsSay(audit, init, id, columns);
      SaidOfMore(audit, more, id);
      if id in last.rows { OneMoreCreation(SaidOf(audit, id), SaidOf(audit + init, id), columns, last.rows[id]); }
    }
  }

  /** The columns that no completion touches are the same. */
  predicate SameElsewhere(a: map<Column, Value>, b: map<Column, Value>) {
    a.Keys == b.Keys && forall c | c in a && c !in {Done, ModifiedBy, ModifiedAt} :: a[c] == b[c]
  }

  predicate AllCompletions(batches: seq<Batch>, id: nat) {
    forall b | b in batches && id in b.rows :: IsNoOp(b.rows[id]) || IsCompletion(b.rows[id])
  }

  /** What completions that are left behind make of a state: it says `Done` from the first of them on. */
  predicate SaysDone(was: Said, s: Said, columns: map<Column, Value>) {
    && s.creations == was.creations && s.edits >= was.edits && s.state.Some? && SameElsewhere(s.state.value, columns)
    && (s.edits > was.edits ==> Done in s.state.value && s.state.value[Done] == Flag(true))
  }

  lemma OneMoreCompletion(was: Said, s: Said, columns: map<Column, Value>, row: AuditRow)
    requires SaysDone(was, s, columns) && Done in columns && (IsNoOp(row) || IsCompletion(row))
    requires ModifiedBy in columns && ModifiedAt in columns
    ensures SaysDone(was, SaidNext(s, row), columns)
  {
    if IsNoOp(row) { NothingRecordedIsNoOp(s.state, row); }
  }

  lemma {:induction false} CompletionsSay(audit: seq<Batch>, more: seq<Batch>, id: nat, columns: map<Column, Value>)
    requires AllCompletions(more, id) && Replay(audit, id) == Some(columns)
    requires {Done, ModifiedBy, ModifiedAt} <= columns.Keys
    ensures SaysDone(SaidOf(audit, id), SaidOf(audit + more, id), columns)
  {
    if more == [] {
      assert audit + more == audit;
    } else {
      var (init, last) := (more[..|more| - 1], more[|more| - 1]);
      CompletionsSay(audit, init, id, columns);
      SaidOfMore(audit, more, id);
      if id in last.rows { OneMoreCompletion(SaidOf(audit, id), SaidOf(audit + init, id), columns, last.rows[id]); }
    }
  }

  // ---------- One save ----------

  predicate IsDone(rows: map<nat, Todo>, id: nat) {
    id in rows && rows[id].done
  }

  /** What the trail says of one todo, in every state: its rows fold to what is stored, but for the modifier
      columns, which they have exactly where the completion is told of more than once; and then the edits do
      not chain. */
  ghost predicate Agrees(s: Said, rows: map<nat, Todo>, id: nat) {
    && (s.creations >= 1 <==> id in rows) && (s.edits >= 1 <==> IsDone(rows, id))
    && s.state == (if id !in rows then None
                   else Some(Columns(if s.edits <= 1 then Unsigned(rows[id]) else rows[id])))
    && (s.chained <==> s.edits <= 1)
  }

  lemma UntouchedAgrees(audit: seq<Batch>, unsaved: seq<Batch>, b: Batch, id: nat)
    requires AllNoOps(unsaved, id) && (id in b.rows ==> IsNoOp(b.rows[id]))
    ensures SaidOf(audit + unsaved + [b], id) == SaidOf(audit, id)
  {
    NoOpsSayNothing(audit, unsaved, id);
    NoOpsSayNothing(audit + unsaved, [b], id);
  }

  lemma NewRowAgrees(audit: seq<Batch>, unsaved: seq<Batch>, b: Batch, rows: map<nat, Todo>, id: nat, row: Todo)
    requires Agrees(SaidOf(audit, id), rows, id) && id !in rows && !row.done && row == Unsigned(row)
    requires AllCreations(unsaved, id, Columns(row))
    requires id in b.rows && b.rows[id].trail == Trail.Create && b.rows[id].newValues == Columns(row)
    ensures Agrees(SaidOf(audit + unsaved + [b], id), rows[id := row], id)
  {
    CreationsSay(audit, unsaved, id, Columns(row));
    SaidMore(audit + unsaved, b, id);
  }

  /** The row of a completion: what it was made of, and what it stores. */
  predicate TellsDone(row: AuditRow, former: Todo, stored: Todo, columns: set<Column>) {
    && row.trail == Trail.Edit && row.affected == row.oldValues.Keys == row.newValues.Keys == columns
    && Done in columns && columns <= {Done, ModifiedBy, ModifiedAt}
    && (forall c | c in columns :: row.oldValues[c] == ValueOf(former, c) && row.newValues[c] == ValueOf(stored, c))
  }

  lemma FirstCompletion(s: Said, former: Todo, stored: Todo, row: AuditRow)
    requires s.state == Some(Columns(former)) && former == Unsigned(former)
    requires Undone(stored) == former && stored.done && TellsDone(row, former, stored, {Done})
    ensures Folded(s.state, row) == Some(Columns(Unsigned(stored))) && Chained(s.state, row)
  {
    assert Columns(former) + row.newValues == Columns(Unsigned(stored));
  }

  lemma AnotherCompletion(state: map<Column, Value>, former: Todo, stored: Todo, row: AuditRow)
    requires SameElsewhere(state, Columns(former)) && state[Done] == Flag(true) && !former.done
    requires Undone(stored) == former && TellsDone(row, former, stored, {Done, ModifiedBy, ModifiedAt})
    ensures Folded(Some(state), row) == Some(Columns(stored)) && !Chained(Some(state), row)
  {
    assert state + row.newValues == Columns(stored);
  }

  lemma DoneRowAgrees(audit: seq<Batch>, unsaved: seq<Batch>, b: Batch, rows: map<nat, Todo>, id: nat, row: Todo)
    requires Agrees(SaidOf(audit, id), rows, id) && id in rows && rows[id] == Unsigned(rows[id]) && !rows[id].done
    requires Undone(row) == rows[id] && row.done && AllCompletions(unsaved, id) && id in b.rows
    requires TellsDone(b.rows[id], rows[id], row,
                       if Tells(unsaved, id, Trail.Edit) then {Done, ModifiedBy, ModifiedAt} else {Done})
    ensures Agrees(SaidOf(audit + unsaved + [b], id), rows[id := row], id)
  {
    var columns := Columns(rows[id]);
    CompletionsSay(audit, unsaved, id, columns);
    RowCountConcat(audit, unsaved, id, Trail.Edit);
    CountedIff(unsaved, id, Trail.Edit);
    SaidMore(audit + unsaved, b, id);
    var s := SaidOf(audit + unsaved, id);
    if Tells(unsaved, id, Trail.Edit) {
      AnotherCompletion(s.state.value, rows[id], row, b.rows[id]);
    } else {
      NoCompletionsAreNoOps(unsaved, id);
      NoOpsSayNothing(audit, unsaved, id);
      FirstCompletion(s, rows[id], row, b.rows[id]);
    }
  }

  lemma NoCompletionsAreNoOps(batches: seq<Batch>, id: nat)
    requires AllCompletions(batches, id) && !Tells(batches, id, Trail.Edit)
    ensures AllNoOps(batches, id)
  {
  }

  // ---------- A commit, with the rows that failed saves have left ----------

  lemma AgreesHere(s: Said, rows: map<nat, Todo>, after: map<nat, Todo>, id: nat)
    requires Agrees(s, rows, id) && (id in after <==> id in rows) && (id in rows ==> after[id] == rows[id])
    ensures Agrees(s, after, id)
  {
  }

  lemma UntouchedLeftovers(x: Session, r: Request, id: nat)
    requires LeftoverRows(x, r) && (id in x.tracker ==> StateOf(x.tracker[id]) == Unchanged)
    ensures AllNoOps(x.unsaved, id)
  {
  }

  lemma NewLeftovers(x: Session, r: Request, now: nat, id: nat)
    requires LeftoverRows(x, r) && id in x.tracker && x.tracker[id].added && !x.tracker[id].current.done
    ensures AllCreations(x.unsaved, id, Columns(NewRow(x.tracker[id], r, now)))
  {
  }

  lemma DoneLeftovers(x: Session, r: Request, id: nat)
    requires LeftoverRows(x, r) && id in x.tracker && !x.tracker[id].added
    ensures AllCompletions(x.unsaved, id)
    ensures Tells(x.unsaved, id, Trail.Edit) ==>
              x.tracker[id].current.modifiedBy == r.user && x.tracker[id].current.modifiedAt.Some?
  {
    if Tells(x.unsaved, id, Trail.Edit) {
      var b :| b in x.unsaved && id in b.rows && b.rows[id].trail == Trail.Edit;
      assert LeftoverRow(x.tracker[id], r, b.rows[id]);
    }
  }

  lemma CommittedSays(db: Db, x: Session, r: Request, now: nat, id: nat)
    ensures SaidOf(Committed(db, x, r, now).audit, id) ==
            SaidOf(db.audit + x.unsaved + [BatchOf(x.tracker, r, now)], id)
  {
  }

  lemma UntouchedCommit(db: Db, x: Session, r: Request, now: nat, id: nat)
    requires Copies(db.rows, r, x.tracker) && LeftoverRows(x, r)
    requires id in x.tracker ==> StateOf(x.tracker[id]) == Unchanged
    ensures SaidOf(Committed(db, x, r, now).audit, id) == SaidOf(db.audit, id)
  {
    CommittedSays(db, x, r, now, id);
    UntouchedLeftovers(x, r, id);
    BatchHas(x.tracker, r, now, id);
    if id in x.tracker {
      OnlyChangesAreStamped(db.rows, r, id, x.tracker[id], now);
      AuditOfClean(db.rows, r, x.tracker[id], now, id);
    }
    UntouchedAgrees(db.audit, x.unsaved, BatchOf(x.tracker, r, now), id);
  }

  lemma NewCommit(db: Db, x: Session, r: Request, now: nat, id: nat)
    requires LeftoverRows(x, r) && id in x.tracker && x.tracker[id].added && Copy(db.rows, r, id, x.tracker[id])
    requires id !in db.rows && Agrees(SaidOf(db.audit, id), db.rows, id)
    ensures Agrees(SaidOf(Committed(db, x, r, now).audit, id), db.rows[id := NewRow(x.tracker[id], r, now)], id)
  {
    CommittedSays(db, x, r, now, id);
    NewToStore(db.rows, r, x.tracker[id], now, id);
    NewLeftovers(x, r, now, id);
    BatchHas(x.tracker, r, now, id);
    AuditOfNew(r, x.tracker[id], now);
    NewRowAgrees(db.audit, x.unsaved, BatchOf(x.tracker, r, now), db.rows, id, NewRow(x.tracker[id], r, now));
  }

  /** A new entity whose key is free. */
  lemma NewToStore(rows: map<nat, Todo>, r: Request, t: Tracked, now: nat, id: nat)
    requires t.added && Copy(rows, r, id, t) && id !in rows
    ensures MayStamp(t, r) && !t.current.done
    ensures !NewRow(t, r, now).done && NewRow(t, r, now) == Unsigned(NewRow(t, r, now))
  {
  }

  lemma EditedColumns(t: Tracked, r: Request, id: nat, told: bool)
    requires !t.added && t.current == t.original.(done := true, modifiedBy := t.current.modifiedBy,
                                                  modifiedAt := t.current.modifiedAt)
    requires !t.original.done && t.original == Unsigned(t.original) && r.user.Some?
    requires if told then t.current.modifiedBy == r.user && t.current.modifiedAt.Some? else Plain(id, t)
    ensures Edited(t) == if told then {Done, ModifiedBy, ModifiedAt} else {Done}
  {
  }

  lemma DoneRowTells(rows: map<nat, Todo>, r: Request, t: Tracked, now: nat, id: nat, told: bool)
    requires RowsInv(rows) && DoneCopy(rows, r, id, t) && !rows[id].done && r.user.Some?
    requires if told then t.current.modifiedBy == r.user && t.current.modifiedAt.Some? else Plain(id, t)
    ensures TellsDone(AuditOf(t, r, now), rows[id], NewRow(t, r, now),
                      if told then {Done, ModifiedBy, ModifiedAt} else {Done})
    ensures Undone(NewRow(t, r, now)) == rows[id] == Unsigned(rows[id]) && NewRow(t, r, now).done
  {
    EditedColumns(t, r, id, told);
    AuditOfDone(rows, r, t, now, id);
  }

  lemma DoneCommit(db: Db, x: Session, r: Request, now: nat, id: nat)
    requires LeftoverRows(x, r) && id in x.tracker && DoneCopy(db.rows, r, id, x.tracker[id]) && AccountedFor(x, id)
    requires RowsInv(db.rows) && !db.rows[id].done && r.user.Some? && Agrees(SaidOf(db.audit, id), db.rows, id)
    ensures Agrees(SaidOf(Committed(db, x, r, now).audit, id), db.rows[id := NewRow(x.tracker[id], r, now)], id)
  {
    CommittedSays(db, x, r, now, id);
    DoneLeftovers(x, r, id);
    BatchHas(x.tracker, r, now, id);
    DoneRowTells(db.rows, r, x.tracker[id], now, id, Tells(x.unsaved, id, Trail.Edit));
    DoneRowAgrees(db.audit, x.unsaved, BatchOf(x.tracker, r, now), db.rows, id, NewRow(x.tracker[id], r, now));
  }

  lemma CommitAgrees(db: Db, x: Session, r: Request, now: nat, id: nat)
    requires RowsInv(db.rows) && SessionInv(db.rows, r, x) && Commits(db, x.tracker, r, now)
    requires LeftoverInv(x, r) && Agrees(SaidOf(db.audit, id), db.rows, id)
    ensures Agrees(SaidOf(Committed(db, x, r, now).audit, id), Committed(db, x, r, now).rows, id)
  {
    CommitsIff(db, x, r, now);
    CommittedRows(db, x, r, now);
    var (s, after) := (SaidOf(Committed(db, x, r, now).audit, id), Committed(db, x, r, now).rows);
    if id !in x.tracker || StateOf(x.tracker[id]) == Unchanged {
      UntouchedCommit(db, x, r, now, id);
      AgreesHere(s, db.rows, after, id);
    } else {
      TouchedCommit(db, x, r, now, id);
      AgreesHere(s, db.rows[id := NewRow(x.tracker[id], r, now)], after, id);
    }
  }

  lemma TouchedCommit(db: Db, x: Session, r: Request, now: nat, id: nat)
    requires RowsInv(db.rows) && SessionInv(db.rows, r, x) && Savable(db.rows, x.tracker, r)
    requires LeftoverInv(x, r) && Agrees(SaidOf(db.audit, id), db.rows, id)
    requires id in x.tracker && StateOf(x.tracker[id]) != Unchanged
    ensures Agrees(SaidOf(Committed(db, x, r, now).audit, id), db.rows[id := NewRow(x.tracker[id], r, now)], id)
  {
    var t := x.tracker[id];
    assert Copy(db.rows, r, id, t) && Free(db.rows, id, t, r);
    OnlyChangesAreStamped(db.rows, r, id, t, now);
    if t.added { NewCommit(db, x, r, now, id); } else { DoneCommit(db, x, r, now, id); }
  }

  lemma StepAgrees(s: State, r: Request, a: Action, id: nat)
    requires StateInv(s) && LeftoverInv(SessionOf(s, r), r) && Agrees(SaidOf(s.db.audit, id), s.db.rows, id)
    ensures Agrees(SaidOf(Step(s, r, a).db.audit, id), Step(s, r, a).db.rows, id)
  {
    var x := SessionOf(s, r);
    assert SessionInv(s.db.rows, r, x);
    if CommitsNow(s, r, a) {
      SaveStep(s, r, a.now);
      CommitAgrees(s.db, x, r, a.now, id);
    } else {
      NoCommitNoWrite(s, r, a);
    }
  }

  /** In every state of every run, whatever saves have failed, the trail agrees with the table about every todo. */
  lemma {:induction false} RunAgrees(run: seq<(Request, Action)>, id: nat)
    ensures Agrees(SaidOf(Run(run).db.audit, id), Run(run).db.rows, id)
  {
    if run != [] {
      var (before, last) := (run[..|run| - 1], run[|run| - 1]);
      RunAgrees(before, id);
      RunKeepsStateInv(before);
      RunKeepsLeftovers(before, last.0);
      StepAgrees(Run(before), last.0, last.1, id);
    }
  }

  // ---------- What holds of every run ----------

  /** In every reachable state, folding a todo's committed rows in commit order reproduces what is stored of
      it, in every column but the two that say who modified it last and when. */
  lemma {:induction false} ReplayReproducesRows(run: seq<(Request, Action)>, id: nat)
    ensures var db := Run(run).db;
            && (Replay(db.audit, id).Some? <==> id in db.rows)
            && (id in db.rows ==>
                  && (forall c: Column :: c in Replay(db.audit, id).value <==> c != Id)
                  && forall c | c in Replay(db.audit, id).value && c != ModifiedBy && c != ModifiedAt ::
                       Replay(db.audit, id).value[c] == ValueOf(db.rows[id], c))
  {
    RunAgrees(run, id);
  }

  /** It reproduces the whole row if and only if the todo has not been completed, or the trail tells of its
      completion more than once: only then has an edit found the modifier columns changed. */
  lemma {:induction false} ReplayIsCompleteIff(run: seq<(Request, Action)>, id: nat)
    requires id in Run(run).db.rows
    ensures var db := Run(run).db;
            Replay(db.audit, id) == Some(Columns(db.rows[id])) <==>
              !db.rows[id].done || RowCount(db.audit, id, Trail.Edit) >= 2
  {
    RunAgrees(run, id);
    RunKeepsStateInv(run);
    var row := Run(run).db.rows[id];
    assert Columns(Unsigned(row))[ModifiedAt] == Null;
    if row.done { assert Columns(row)[ModifiedAt] == Number(row.modifiedAt.value); }
  }

  // ---------- What depends on the saves that failed ----------

  /** No save commits in a context where a failed one has left a row of this kind for the todo. */
  predicate CleanOf(run: seq<(Request, Action)>, id: nat, trail: Trail) {
    run == [] ||
    (var (before, last) := (run[..|run| - 1], run[|run| - 1]);
     && CleanOf(before, id, trail)
     && (CommitsNow(Run(before), last.0, last.1) ==> !Tells(SessionOf(Run(before), last.0).unsaved, id, trail)))
  }

  lemma CommitCounts(db: Db, x: Session, r: Request, now: nat, id: nat, trail: Trail)
    ensures RowCount(Committed(db, x, r, now).audit, id, trail) ==
            RowCount(db.audit, id, trail) + RowCount(x.unsaved, id, trail)
            + if id in x.tracker && TrailOf(StateOf(x.tracker[id])) == trail then 1 else 0
  {
    var b := BatchOf(x.tracker, r, now);
    RowCountConcat(db.audit, x.unsaved, id, trail);
    OneMoreBatch(db.audit + x.unsaved, b, id);
    BatchHas(x.tracker, r, now, id);
    if id in x.tracker { TrailOfRow(x.tracker[id], r, now); }
  }

  /** A row that a failed save has left tells of the change that the next save tells of, too. */
  lemma LeftoverIsRepeated(x: Session, r: Request, id: nat, trail: Trail)
    requires LeftoverRows(x, r) && Tells(x.unsaved, id, trail) && trail in {Trail.Create, Trail.Edit}
    ensures id in x.tracker && TrailOf(StateOf(x.tracker[id])) == trail
  {
    var b :| b in x.unsaved && id in b.rows && b.rows[id].trail == trail;
    assert LeftoverRow(x.tracker[id], r, b.rows[id]);
  }

  lemma FirstTold(db: Db, x: Session, r: Request, id: nat, trail: Trail)
    requires Savable(db.rows, x.tracker, r) && Agrees(SaidOf(db.audit, id), db.rows, id) && id in x.tracker
    requires trail in {Trail.Create, Trail.Edit} && TrailOf(StateOf(x.tracker[id])) == trail
    ensures RowCount(db.audit, id, trail) == 0
  {
    assert Free(db.rows, id, x.tracker[id], r);
  }

  lemma CommitTellsOnceIff(db: Db, x: Session, r: Request, now: nat, id: nat, trail: Trail)
    requires Savable(db.rows, x.tracker, r) && LeftoverRows(x, r) && Agrees(SaidOf(db.audit, id), db.rows, id)
    requires trail in {Trail.Create, Trail.Edit}
    ensures RowCount(Committed(db, x, r, now).audit, id, trail) <= 1 <==>
              RowCount(db.audit, id, trail) <= 1 && !Tells(x.unsaved, id, trail)
  {
    CommitCounts(db, x, r, now, id, trail);
    CountedIff(x.unsaved, id, trail);
    if id in x.tracker && TrailOf(StateOf(x.tracker[id])) == trail { FirstTold(db, x, r, id, trail); }
    if Tells(x.unsaved, id, trail) { LeftoverIsRepeated(x, r, id, trail); }
  }

  /** The trail tells of a todo's creation, or completion, at most once if and only if no save of it has committed
      after one that failed. */
  lemma {:induction false} ToldOnceIff(run: seq<(Request, Action)>, id: nat, trail: Trail)
    requires trail in {Trail.Create, Trail.Edit}
    ensures RowCount(Run(run).db.audit, id, trail) <= 1 <==> CleanOf(run, id, trail)
  {
    if run != [] {
      var (before, last) := (run[..|run| - 1], run[|run| - 1]);
      ToldOnceIff(before, id, trail);
      var (s, x) := (Run(before), SessionOf(Run(before), last.0));
      if CommitsNow(s, last.0, last.1) {
        RunKeepsStateInv(before);
        RunKeepsLeftovers(before, last.0);
        RunAgrees(before, id);
        assert SessionInv(s.db.rows, last.0, x);
        CommitsIff(s.db, x, last.0, last.1.now);
        SaveStep(s, last.0, last.1.now);
        CommitTellsOnceIff(s.db, x, last.0, last.1.now, id, trail);
      } else {
        NoCommitNoWrite(s, last.0, last.1);
      }
    }
  }

  /** A todo is created by exactly one committed row, and none if it is not stored, if and only if no save of it
      has committed after one that failed; and the same of its completion. */
  lemma {:induction false} OneCreationOneCompletion(run: seq<(Request, Action)>, id: nat)
    ensures var db := Run(run).db;
            && (RowCount(db.audit, id, Trail.Create) == (if id in db.rows then 1 else 0) <==>
                  CleanOf(run, id, Trail.Create))
            && (RowCount(db.audit, id, Trail.Edit) == (if IsDone(db.rows, id) then 1 else 0) <==>
                  CleanOf(run, id, Trail.Edit))
            && (RowCount(db.audit, id, Trail.Create) >= 1 <==> id in db.rows)
            && (RowCount(db.audit, id, Trail.Edit) >= 1 <==> IsDone(db.rows, id))
  {
    RunAgrees(run, id);
    ToldOnceIff(run, id, Trail.Create);
    ToldOnceIff(run, id, Trail.Edit);
  }

  /** Each committed edit of a todo was made on the state just before it, so never on a stale snapshot, if and only
      if its completion was not committed after a save of it that failed. `ChainedMeans` spells this out. */
  lemma {:induction false} EditsChain(run: seq<(Request, Action)>, id: nat)
    ensures ChainInv(Run(run).db.audit, id) <==> CleanOf(run, id, Trail.Edit)
  {
    RunAgrees(run, id);
    ToldOnceIff(run, id, Trail.Edit);
  }

  /** An edit's old values are the replayed ones; and a save's rows for entities it did not change are no-ops for
      the replay. */
  lemma ChainedMeans(audit: seq<Batch>, n: nat, id: nat)
    requires ChainInv(audit, id) && n < |audit| && id in audit[n].rows
    ensures var (before, row) := (Replay(audit[..n], id), audit[n].rows[id]);
            && (row.trail == Trail.Edit ==>
                  && before.Some?
                  && row.oldValues.Keys == row.newValues.Keys == row.affected
                  && forall c | c in row.oldValues :: c in before.value && before.value[c] == row.oldValues[c])
            && (row.trail == Undefined ==> Folded(before, row) == before)
  {
    var (before, row) := (Replay(audit[..n], id), audit[n].rows[id]);
    assert Chained(before, row);
    if row.trail == Undefined { NothingRecordedIsNoOp(before, row); }
  }

  /** The trail is faithful to a todo, with one creation and at most one completion, its edits chained, and no word
      of who made them, if and only if no save of it has committed after one that failed. */
  lemma {:induction false} FaithfulIff(run: seq<(Request, Action)>, id: nat)
    ensures Faithful(Run(run).db, id) && ChainInv(Run(run).db.audit, id) <==>
              CleanOf(run, id, Trail.Create) && CleanOf(run, id, Trail.Edit)
  {
    RunAgrees(run, id);
    ToldOnceIff(run, id, Trail.Create);
    ToldOnceIff(run, id, Trail.Edit);
  }

  /** No save commits in a context that still holds audit rows of one that failed. */
  predicate CleanSaves(run: seq<(Request, Action)>) {
    run == [] ||
    (var (before, last) := (run[..|run| - 1], run[|run| - 1]);
     && CleanSaves(before)
     && (CommitsNow(Run(before), last.0, last.1) ==> SessionOf(Run(before), last.0).unsaved == []))
  }

  predicate CleanFor(run: seq<(Request, Action)>, id: nat) {
    CleanOf(run, id, Trail.Create) && CleanOf(run, id, Trail.Edit)
  }

  lemma LeftoversTell(x: Session, r: Request) returns (id: nat)
    requires LeftoverInv(x, r) && x.unsaved != []
    ensures Tells(x.unsaved, id, Trail.Create) || Tells(x.unsaved, id, Trail.Edit)
  {
    assert x.unsaved[0] in x.unsaved;
    id :| Changes(x.unsaved[0], id);
  }

  lemma {:induction false} CleanSavesIff(run: seq<(Request, Action)>)
    ensures CleanSaves(run) <==> forall id :: CleanFor(run, id)
  {
    if run != [] {
      var (before, last) := (run[..|run| - 1], run[|run| - 1]);
      var x := SessionOf(Run(before), last.0);
      CleanSavesIff(before);
      forall id | CleanFor(run, id) ensures CleanFor(before, id) {}
      if CommitsNow(Run(before), last.0, last.1) && x.unsaved != [] {
        RunKeepsLeftovers(before, last.0);
        var id := LeftoversTell(x, last.0);
        assert !CleanFor(run, id);
      } else {
        forall id | CleanFor(before, id) ensures CleanFor(run, id) {}
      }
    }
  }

  /** And so to every todo if and only if no save has committed in a context that still held rows of one that
      failed. */
  lemma {:induction false} AllFaithfulIff(run: seq<(Request, Action)>)
    ensures (forall id :: Faithful(Run(run).db, id) && ChainInv(Run(run).db.audit, id)) <==> CleanSaves(run)
  {
    CleanSavesIff(run);
    if CleanSaves(run) {
      forall id ensures Faithful(Run(run).db, id) && ChainInv(Run(run).db.audit, id) {
        assert CleanFor(run, id);
        FaithfulIff(run, id);
      }
    } else {
      var id :| !CleanFor(run, id);
      FaithfulIff(run, id);
      assert !(Faithful(Run(run).db, id) && ChainInv(Run(run).db.audit, id));
    }
  }
}
