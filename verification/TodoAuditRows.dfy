/** What the committed audit rows say, written out column by column. */
module TodoAuditRows {
  import opened Prelude
  import opened AuditTrail
  import opened Todos
  import opened TodoInvariant
  import opened TodoSafety
  import opened TodoGuarantees
  import opened TodoAudit

  // ---------- The rows ----------

  /** The row of a creation. */
  function CreationRow(id: nat, name: string, made: nat, tenant: string, user: string): AuditRow {
    Row(Trail.Create, {}, map[],
        map[Name := Text(name), Done := Flag(false), CreatedAt := Number(made), TenantId := Text(tenant),
            CreatedBy := Text(user), ModifiedBy := Null, ModifiedAt := Null],
        map[Id := Number(id)])
  }

  /** The row of a completion that no save has stamped before. */
  function CompletionRow(id: nat): AuditRow {
    Row(Trail.Edit, {Done}, map[Done := Flag(false)], map[Done := Flag(true)], map[Id := Number(id)])
  }

  /** The row of a completion that a failed save has stamped before. */
  function RepeatedRow(id: nat, user: string, now: nat): AuditRow {
    Row(Trail.Edit, {Done, ModifiedBy, ModifiedAt},
        map[Done := Flag(false), ModifiedBy := Null, ModifiedAt := Null],
        map[Done := Flag(true), ModifiedBy := Text(user), ModifiedAt := Number(now)],
        map[Id := Number(id)])
  }

  /** The row of an entity that was read and not changed. */
  function UnchangedRow(id: nat): AuditRow {
    Row(Undefined, {}, map[], map[], map[Id := Number(id)])
  }

  /** Two rows say the same of a column. */
  predicate SameAt(a: AuditRow, b: AuditRow, c: Column) {
    && (c in a.affected <==> c in b.affected)
    && (c in a.oldValues <==> c in b.oldValues) && (c in b.oldValues ==> a.oldValues[c] == b.oldValues[c])
    && (c in a.newValues <==> c in b.newValues) && (c in b.newValues ==> a.newValues[c] == b.newValues[c])
    && (c in a.key <==> c in b.key) && (c in b.key ==> a.key[c] == b.key[c])
  }

  lemma SameRow(a: AuditRow, b: AuditRow)
    requires a.trail == b.trail && forall c: Column :: SameAt(a, b, c)
    ensures a == b
  {
    forall c: Column
      ensures c in a.affected <==> c in b.affected
      ensures (c in a.oldValues <==> c in b.oldValues) && (c in b.oldValues ==> a.oldValues[c] == b.oldValues[c])
      ensures (c in a.newValues <==> c in b.newValues) && (c in b.newValues ==> a.newValues[c] == b.newValues[c])
      ensures (c in a.key <==> c in b.key) && (c in b.key ==> a.key[c] == b.key[c])
    {
      assert SameAt(a, b, c);
    }
    SameMap(a.oldValues, b.oldValues);
    SameMap(a.newValues, b.newValues);
    SameMap(a.key, b.key);
    assert a.affected == b.affected;
  }

  // ---------- One save ----------

  /** Which value stands under which column. */
  lemma ColumnsHold(t: Todo)
    ensures ValueOf(t, Id) == Number(t.id) && ValueOf(t, Name) == Text(t.name) && ValueOf(t, Done) == Flag(t.done)
    ensures ValueOf(t, CreatedAt) == Number(t.createdAt)
    ensures ValueOf(t, TenantId) == (if t.tenant.Some? then Text(t.tenant.value) else Null)
    ensures ValueOf(t, CreatedBy) == (if t.createdBy.Some? then Text(t.createdBy.value) else Null)
    ensures ValueOf(t, ModifiedBy) == (if t.modifiedBy.Some? then Text(t.modifiedBy.value) else Null)
    ensures ValueOf(t, ModifiedAt) == (if t.modifiedAt.Some? then Number(t.modifiedAt.value) else Null)
  {
  }

  /** A save audits a new todo with its name and time and the request's tenant and user, under its identifier. */
  lemma CreationIsWritten(r: Request, t: Tracked, now: nat, id: nat)
    requires NewCopy(r, id, t) && r.tenant.Some? && r.user.Some?
    ensures AuditOf(t, r, now) ==
            CreationRow(id, t.current.name, t.current.createdAt, r.tenant.value, r.user.value)
  {
    var row := CreationRow(id, t.current.name, t.current.createdAt, r.tenant.value, r.user.value);
    forall c: Column ensures SameAt(AuditOf(t, r, now), row, c) {
      CreationAt(r, t, now, id, c, AuditOf(t, r, now), row);
    }
    AuditOfColumn(t, r, now, Id);
    SameRow(AuditOf(t, r, now), row);
  }

  lemma CreationAt(r: Request, t: Tracked, now: nat, id: nat, c: Column, a: AuditRow, row: AuditRow)
    requires NewCopy(r, id, t) && r.tenant.Some? && r.user.Some? && a == AuditOf(t, r, now)
    requires row == CreationRow(id, t.current.name, t.current.createdAt, r.tenant.value, r.user.value)
    ensures SameAt(a, row, c)
  {
    AuditOfColumn(t, r, now, c);
    NewRowOf(r, t, now, id);
    ColumnsHold(Stamped(t, r, now).current);
  }

  lemma NewRowOf(r: Request, t: Tracked, now: nat, id: nat)
    requires NewCopy(r, id, t)
    ensures Stamped(t, r, now).current ==
            Todo(id, t.current.name, false, r.tenant, r.user, t.current.createdAt, None, None)
  {
  }

  /** It audits a completion by its `Done` column alone, from false to true, where no save has stamped it before. */
  lemma CompletionIsWritten(rows: map<nat, Todo>, r: Request, t: Tracked, now: nat, id: nat)
    requires RowsInv(rows) && DoneCopy(rows, r, id, t) && Plain(id, t)
    ensures AuditOf(t, r, now) == CompletionRow(id)
  {
    forall c: Column ensures SameAt(AuditOf(t, r, now), CompletionRow(id), c) {
      CompletionAt(rows, r, t, now, id, c, AuditOf(t, r, now));
    }
    AuditOfColumn(t, r, now, Id);
    SameRow(AuditOf(t, r, now), CompletionRow(id));
  }

  lemma CompletionAt(rows: map<nat, Todo>, r: Request, t: Tracked, now: nat, id: nat, c: Column, a: AuditRow)
    requires RowsInv(rows) && DoneCopy(rows, r, id, t) && Plain(id, t) && a == AuditOf(t, r, now)
    ensures SameAt(a, CompletionRow(id), c)
  {
    AuditOfColumn(t, r, now, c);
    DoneRowOf(rows, r, t, now, id);
    ColumnsHold(t.original);
    ColumnsHold(t.current);
    ColumnsHold(Stamped(t, r, now).current);
  }

  lemma RepeatedAt(rows: map<nat, Todo>, r: Request, t: Tracked, now: nat, id: nat, c: Column, a: AuditRow)
    requires RowsInv(rows) && DoneCopy(rows, r, id, t) && a == AuditOf(t, r, now)
    requires r.user.Some? && t.current.modifiedBy == r.user && t.current.modifiedAt.Some?
    ensures SameAt(a, RepeatedRow(id, r.user.value, now), c)
  {
    AuditOfColumn(t, r, now, c);
    DoneRowOf(rows, r, t, now, id);
    ColumnsHold(t.original);
    ColumnsHold(t.current);
    ColumnsHold(Stamped(t, r, now).current);
  }

  lemma DoneRowOf(rows: map<nat, Todo>, r: Request, t: Tracked, now: nat, id: nat)
    requires RowsInv(rows) && DoneCopy(rows, r, id, t)
    ensures t.original.id == id && !t.original.done && t.original.modifiedBy.None? && t.original.modifiedAt.None?
    ensures Stamped(t, r, now).current ==
            t.original.(done := true, modifiedBy := r.user, modifiedAt := Some(now))
  {
  }

  /** And where a failed save has stamped it, by the user and time of the save, too. */
  lemma RepeatedIsWritten(rows: map<nat, Todo>, r: Request, t: Tracked, now: nat, id: nat)
    requires RowsInv(rows) && DoneCopy(rows, r, id, t) && r.user.Some?
    requires t.current.modifiedBy == r.user && t.current.modifiedAt.Some?
    ensures AuditOf(t, r, now) == RepeatedRow(id, r.user.value, now)
  {
    DoneRowOf(rows, r, t, now, id);
    forall c: Column ensures SameAt(AuditOf(t, r, now), RepeatedRow(id, r.user.value, now), c) {
      RepeatedAt(rows, r, t, now, id, c, AuditOf(t, r, now));
    }
    AuditOfColumn(t, r, now, Id);
    SameRow(AuditOf(t, r, now), RepeatedRow(id, r.user.value, now));
  }

  lemma UnchangedIsWritten(rows: map<nat, Todo>, r: Request, t: Tracked, now: nat, id: nat)
    requires RowsInv(rows) && Clean(rows, r, id, t)
    ensures AuditOf(t, r, now) == UnchangedRow(id)
  {
    forall c: Column ensures SameAt(AuditOf(t, r, now), UnchangedRow(id), c) {
      AuditOfColumn(t, r, now, c);
      ColumnsHold(Stamped(t, r, now).current);
    }
    AuditOfColumn(t, r, now, Id);
    SameRow(AuditOf(t, r, now), UnchangedRow(id));
  }

  // ---------- Rows that failed saves leave behind ----------

  predicate IsEdit(row: AuditRow, id: nat, user: string) {
    || row == CompletionRow(id)
    || (row.trail == Trail.Edit && ModifiedAt in row.newValues && row.newValues[ModifiedAt].Number?
        && row == RepeatedRow(id, user, row.newValues[ModifiedAt].number))
  }

  /** What such a row says of an entity, unless no save of it can commit any more. */
  predicate SaysOf(t: Tracked, r: Request, id: nat, row: AuditRow) {
    || row == UnchangedRow(id)
    || (t.added && (t.current.done || r.tenant.None? || r.user.None? ||
          row == CreationRow(id, t.current.name, t.current.createdAt, r.tenant.value, r.user.value)))
    || (StateOf(t) == Modified && t.current.done && (r.user.None? || IsEdit(row, id, r.user.value)))
  }

  predicate LeftoversSay(x: Session, r: Request) {
    forall b, id | b in x.unsaved && id in b.rows :: id in x.tracker && SaysOf(x.tracker[id], r, id, b.rows[id])
  }

  /** A completion is plain, or stamped by a failed save of this very request. */
  predicate StampedBy(t: Tracked, r: Request, id: nat) {
    Plain(id, t) || (t.current.modifiedBy == r.user && t.current.modifiedAt.Some?)
  }

  predicate ChangesStamped(rows: map<nat, Todo>, x: Session, r: Request) {
    forall id | id in x.tracker && DoneCopy(rows, r, id, x.tracker[id]) :: StampedBy(x.tracker[id], r, id)
  }

  /** A completion that is not plain is told of by a row that a failed save has left, and so is stamped. */
  lemma LeftoversAreStamped(rows: map<nat, Todo>, x: Session, r: Request)
    requires LeftoverInv(x, r)
    ensures ChangesStamped(rows, x, r)
  {
    forall id | id in x.tracker && DoneCopy(rows, r, id, x.tracker[id]) ensures StampedBy(x.tracker[id], r, id) {
      assert AccountedFor(x, id);
      if Tells(x.unsaved, id, Trail.Edit) {
        var b :| b in x.unsaved && id in b.rows && b.rows[id].trail == Trail.Edit;
        assert LeftoverRow(x.tracker[id], r, b.rows[id]);
      }
    }
  }

  lemma RowSays(rows: map<nat, Todo>, r: Request, t: Tracked, now: nat, id: nat)
    requires RowsInv(rows) && Copy(rows, r, id, t) && (DoneCopy(rows, r, id, t) ==> StampedBy(t, r, id))
    ensures SaysOf(t, r, id, AuditOf(t, r, now))
  {
    if Clean(rows, r, id, t) {
      UnchangedIsWritten(rows, r, t, now, id);
    } else if NewCopy(r, id, t) {
      if r.tenant.Some? && r.user.Some? { CreationIsWritten(r, t, now, id); }
    } else if DoneCopy(rows, r, id, t) {
      if Plain(id, t) { CompletionIsWritten(rows, r, t, now, id); }
      else if r.user.Some? { RepeatedIsWritten(rows, r, t, now, id); }
    }
  }

  lemma StampedSays(rows: map<nat, Todo>, r: Request, t: Tracked, now: nat, id: nat, row: AuditRow)
    requires Copy(rows, r, id, t) && SaysOf(t, r, id, row)
    ensures SaysOf(Stamped(t, r, now), r, id, row)
  {
    OnlyChangesAreStamped(rows, r, id, t, now);
  }

  lemma FailedSaveSays(rows: map<nat, Todo>, x: Session, r: Request, now: nat, b: Batch, id: nat)
    requires RowsInv(rows) && Copies(rows, r, x.tracker) && ChangesStamped(rows, x, r) && LeftoversSay(x, r)
    requires id in b.rows && (b in x.unsaved || b == BatchOf(x.tracker, r, now))
    ensures id in x.tracker && SaysOf(x.tracker[id], r, id, b.rows[id])
    ensures SaysOf(Stamped(x.tracker[id], r, now), r, id, b.rows[id])
  {
    BatchHas(x.tracker, r, now, id);
    if b !in x.unsaved { RowSays(rows, r, x.tracker[id], now, id); }
    StampedSays(rows, r, x.tracker[id], now, id, b.rows[id]);
  }

  lemma FailedKeepsSaying(rows: map<nat, Todo>, x: Session, r: Request, now: nat, y: Session, last: Batch)
    requires RowsInv(rows) && Copies(rows, r, x.tracker) && ChangesStamped(rows, x, r) && LeftoversSay(x, r)
    requires y.unsaved == x.unsaved + [last] && last == BatchOf(x.tracker, r, now)
    requires forall id | id in x.tracker :: id in y.tracker && y.tracker[id] == Stamped(x.tracker[id], r, now)
    ensures LeftoversSay(y, r)
  {
    forall b, id | b in y.unsaved && id in b.rows ensures id in y.tracker && SaysOf(y.tracker[id], r, id, b.rows[id]) {
      FailedSaveSays(rows, x, r, now, b, id);
    }
  }

  lemma OtherActKeepsSaying(db: Db, x: Session, r: Request, a: Action, y: Session)
    requires !(x.phase.Saving? && (a.Commit? || a.SaveFails?)) && LeftoversSay(x, r)
    requires y == Act(db, x, r, a).session && y.unsaved == x.unsaved
    ensures LeftoversSay(y, r)
  {
    forall b, id | b in y.unsaved && id in b.rows ensures id in y.tracker && SaysOf(y.tracker[id], r, id, b.rows[id]) {
      OtherActOnTracked(db, x, r, a, id);
    }
  }

  lemma ActKeepsSaying(db: Db, x: Session, r: Request, a: Action)
    requires RowsInv(db.rows) && SessionInv(db.rows, r, x) && LeftoverInv(x, r) && LeftoversSay(x, r)
    ensures LeftoversSay(Act(db, x, r, a).session, r)
  {
    if !(x.phase.Saving? && (a.Commit? || a.SaveFails?)) {
      OthersLeaveUnsaved(db, x, r, a);
      OtherActKeepsSaying(db, x, r, a, Act(db, x, r, a).session);
    } else {
      if a.Commit? { CommitIsSaved(db, x, r, a.now); } else { SaveFailsIs(db, x, r, a.now); }
      LeftoversAreStamped(db.rows, x, r);
      FailedKeepsSaying(db.rows, x, r, a.now, FailedSession(x, r, a.now), BatchOf(x.tracker, r, a.now));
    }
  }

  lemma {:induction false} RunKeepsSaying(run: seq<(Request, Action)>, r: Request)
    ensures LeftoversSay(SessionOf(Run(run), r), r)
  {
    if run != [] {
      var (before, last) := (run[..|run| - 1], run[|run| - 1]);
      RunKeepsSaying(before, r);
      RunKeepsStateInv(before);
      RunKeepsLeftovers(before, r);
      var s := Run(before);
      assert SessionInv(s.db.rows, last.0, SessionOf(s, last.0));
      StepIs(s, last.0, last.1);
      if last.0 == r { ActKeepsSaying(s.db, SessionOf(s, r), r, last.1); }
    }
  }

  // ---------- The committed rows ----------

  /** A committed row, against what is stored of its todo: a creation has its name, time, tenant and author; a
      completion, of a todo that is done, has perhaps who did it. */
  predicate IsWritten(row: AuditRow, id: nat, stored: Todo) {
    && stored.tenant.Some? && stored.createdBy.Some?
    && (|| row == UnchangedRow(id)
        || row == CreationRow(id, stored.name, stored.createdAt, stored.tenant.value, stored.createdBy.value)
        || (stored.done && stored.modifiedBy.Some? && IsEdit(row, id, stored.modifiedBy.value)))
  }

  predicate AuditWritten(audit: seq<Batch>, rows: map<nat, Todo>) {
    forall b, id | b in audit && id in b.rows :: id in rows && IsWritten(b.rows[id], id, rows[id])
  }

  lemma StillWritten(audit: seq<Batch>, before: map<nat, Todo>, after: map<nat, Todo>)
    requires AuditWritten(audit, before) && Evolves(before, after)
    ensures AuditWritten(audit, after)
  {
    forall b, id | b in audit && id in b.rows ensures id in after && IsWritten(b.rows[id], id, after[id]) {
      assert IsWritten(b.rows[id], id, before[id]);
    }
  }

  /** What a row says of an entity is what a commit then stores. */
  lemma CommittedSaysStored(rows: map<nat, Todo>, r: Request, t: Tracked, now: nat, id: nat, row: AuditRow,
      stored: Todo)
    requires RowsInv(rows) && Copy(rows, r, id, t) && Free(rows, id, t, r) && r.user.Some? && SaysOf(t, r, id, row)
    requires if StateOf(t) == Unchanged then id in rows && stored == rows[id] else stored == NewRow(t, r, now)
    ensures IsWritten(row, id, stored)
  {
    OnlyChangesAreStamped(rows, r, id, t, now);
    if StateOf(t) != Unchanged { WrittenRow(rows, r, id, t, now); }
  }

  lemma CommitWrites(db: Db, x: Session, r: Request, now: nat, b: Batch, id: nat)
    requires RowsInv(db.rows) && SessionInv(db.rows, r, x) && Savable(db.rows, x.tracker, r)
    requires ChangesStamped(db.rows, x, r) && LeftoversSay(x, r)
    requires id in b.rows && (b in x.unsaved || b == BatchOf(x.tracker, r, now))
    ensures var after := db.rows + Saves(x.tracker, r, now); id in after && IsWritten(b.rows[id], id, after[id])
  {
    FailedSaveSays(db.rows, x, r, now, b, id);
    var (t, after) := (x.tracker[id], db.rows + Saves(x.tracker, r, now));
    assert Copy(db.rows, r, id, t) && Free(db.rows, id, t, r);
    OnlyChangesAreStamped(db.rows, r, id, t, now);
    CommittedSaysStored(db.rows, r, t, now, id, b.rows[id], after[id]);
  }

  lemma CommitWritesAll(db: Db, x: Session, r: Request, now: nat, last: Batch, after: map<nat, Todo>)
    requires RowsInv(db.rows) && SessionInv(db.rows, r, x) && Savable(db.rows, x.tracker, r)
    requires LeftoverInv(x, r) && LeftoversSay(x, r)
    requires last == BatchOf(x.tracker, r, now) && after == db.rows + Saves(x.tracker, r, now)
    ensures AuditWritten(x.unsaved + [last], after)
  {
    LeftoversAreStamped(db.rows, x, r);
    forall b, id | b in x.unsaved + [last] && id in b.rows ensures id in after && IsWritten(b.rows[id], id, after[id]) {
      CommitWrites(db, x, r, now, b, id);
    }
  }

  lemma CommitKeepsWritten(db: Db, x: Session, r: Request, now: nat)
    requires RowsInv(db.rows) && SessionInv(db.rows, r, x) && Commits(db, x.tracker, r, now)
    requires LeftoverInv(x, r) && LeftoversSay(x, r) && AuditWritten(db.audit, db.rows)
    ensures AuditWritten(Committed(db, x, r, now).audit, Committed(db, x, r, now).rows)
  {
    CommitsIff(db, x, r, now);
    CommittedRows(db, x, r, now);
    var (after, last) := (db.rows + Saves(x.tracker, r, now), BatchOf(x.tracker, r, now));
    StillWritten(db.audit, db.rows, after);
    CommitWritesAll(db, x, r, now, last, after);
    MoreWritten(db.audit, x.unsaved, last, after);
  }

  lemma MoreWritten(audit: seq<Batch>, unsaved: seq<Batch>, last: Batch, rows: map<nat, Todo>)
    requires AuditWritten(audit, rows) && AuditWritten(unsaved + [last], rows)
    ensures AuditWritten(audit + unsaved + [last], rows)
  {
  }

  lemma {:induction false} RunKeepsWritten(run: seq<(Request, Action)>)
    ensures AuditWritten(Run(run).db.audit, Run(run).db.rows)
  {
    if run != [] {
      var (before, last) := (run[..|run| - 1], run[|run| - 1]);
      var s := Run(before);
      RunKeepsWritten(before);
      if CommitsNow(s, last.0, last.1) {
        RunKeepsStateInv(before);
        RunKeepsLeftovers(before, last.0);
        RunKeepsSaying(before, last.0);
        assert SessionInv(s.db.rows, last.0, SessionOf(s, last.0));
        SaveStep(s, last.0, last.1.now);
        CommitKeepsWritten(s.db, SessionOf(s, last.0), last.0, last.1.now);
      } else {
        NoCommitNoWrite(s, last.0, last.1);
      }
    }
  }

  /** Every audit row that a run commits is one of these, column by column: for a creation the stored name, time,
      tenant and author under the identifier; for a completion `Done` from false to true, with the stored user where a
      failed save had stamped it; for an entity that was only read, nothing but its identifier. */
  lemma {:induction false} RowsAreWritten(run: seq<(Request, Action)>, n: nat, id: nat)
    requires n < |Run(run).db.audit| && id in Run(run).db.audit[n].rows
    ensures id in Run(run).db.rows
    ensures var (row, stored) := (Run(run).db.audit[n].rows[id], Run(run).db.rows[id]);
            && stored.tenant.Some? && stored.createdBy.Some?
            && (row.trail == Trail.Create ==>
                  row == CreationRow(id, stored.name, stored.createdAt, stored.tenant.value, stored.createdBy.value))
            && (row.trail == Trail.Edit ==>
                  && stored.done && stored.modifiedBy.Some?
                  && (|| row == CompletionRow(id)
                      || exists now: nat :: row == RepeatedRow(id, stored.modifiedBy.value, now)))
            && (row.trail == Undefined ==> row == UnchangedRow(id)) && row.trail != Trail.Delete
  {
    RunKeepsWritten(run);
    var (b, stored) := (Run(run).db.audit[n], Run(run).db.rows[id]);
    assert b in Run(run).db.audit && IsWritten(b.rows[id], id, stored);
    if b.rows[id].trail == Trail.Edit && b.rows[id] != CompletionRow(id) {
      assert b.rows[id] == RepeatedRow(id, stored.modifiedBy.value, b.rows[id].newValues[ModifiedAt].number);
    }
  }

  /** The fold of a todo's rows, column by column, against the stored row's own fields. */
  lemma {:induction false} ReplayShowsFields(run: seq<(Request, Action)>, id: nat)
    requires id in Run(run).db.rows
    ensures Replay(Run(run).db.audit, id).Some?
    ensures var (shown, row) := (Replay(Run(run).db.audit, id).value, Run(run).db.rows[id]);
            && {Name, Done, CreatedAt, TenantId, CreatedBy, ModifiedBy, ModifiedAt} == shown.Keys
            && shown[Name] == Text(row.name) && shown[Done] == Flag(row.done)
            && shown[CreatedAt] == Number(row.createdAt)
            && row.tenant.Some? && shown[TenantId] == Text(row.tenant.value)
            && row.createdBy.Some? && shown[CreatedBy] == Text(row.createdBy.value)
            && (!row.done ==> shown[ModifiedBy] == Null && shown[ModifiedAt] == Null)
            && (row.done && RowCount(Run(run).db.audit, id, Trail.Edit) >= 2 ==>
                  && row.modifiedBy.Some? && shown[ModifiedBy] == Text(row.modifiedBy.value)
                  && row.modifiedAt.Some? && shown[ModifiedAt] == Number(row.modifiedAt.value))
  {
    RunAgrees(run, id);
    RunKeepsStateInv(run);
    var row := Run(run).db.rows[id];
    assert RowInv(id, row);
    ColumnsHold(row);
    ColumnsHold(Unsigned(row));
    if row.done && RowCount(Run(run).db.audit, id, Trail.Edit) >= 2 { DoneHasUser(run, id); }
    ColumnsNamed(row);
    ColumnsNamed(Unsigned(row));
  }

  lemma ColumnsNamed(row: Todo)
    ensures Columns(row).Keys == {Name, Done, CreatedAt, TenantId, CreatedBy, ModifiedBy, ModifiedAt}
  {
    forall c: Column
      ensures c in Columns(row).Keys <==> c in {Name, Done, CreatedAt, TenantId, CreatedBy, ModifiedBy, ModifiedAt}
    {
    }
  }

  /** Who completed a stored todo is always known. */
  lemma {:induction false} DoneHasUser(run: seq<(Request, Action)>, id: nat)
    requires DoneRow(Run(run), id)
    ensures Run(run).db.rows[id].modifiedBy.Some?
  {
    RunAgrees(run, id);
    CountedIff(Run(run).db.audit, id, Trail.Edit);
    var b :| b in Run(run).db.audit && id in b.rows && b.rows[id].trail == Trail.Edit;
    RunKeepsWritten(run);
    assert IsWritten(b.rows[id], id, Run(run).db.rows[id]);
  }
}
