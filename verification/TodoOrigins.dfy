/** Where the entities that contexts add, and the rows that the table stores, come from. */
module TodoOrigins {
  import opened Prelude
  import opened Todos
  import opened TodoInvariant
  import opened TodoSafety
  import opened TodoGuarantees

  /** The n-th action adds a new todo of this name and time to the request's context. */
  predicate MadeAt(run: seq<(Request, Action)>, n: nat, r: Request, id: nat, name: string, made: nat)
    requires n < |run|
  {
    && run[n] == (r, Action.Create(id, name, made))
    && id !in SessionOf(Run(run[..n]), r).tracker && id in SessionOf(Run(run[..n + 1]), r).tracker
  }

  /** The n-th action stores the todo. */
  predicate CreatesAt(run: seq<(Request, Action)>, n: nat, id: nat)
    requires n < |run|
  {
    id !in Run(run[..n]).db.rows && id in Run(run[..n + 1]).db.rows
  }

  /** The n-th action stores that it is done. */
  predicate CompletesAt(run: seq<(Request, Action)>, n: nat, id: nat)
    requires n < |run|
  {
    !DoneRow(Run(run[..n]), id) && DoneRow(Run(run[..n + 1]), id)
  }

  // ---------- Prefixes ----------

  lemma PrefixOf(run: seq<(Request, Action)>, k: nat, n: nat)
    requires n <= k <= |run|
    ensures run[..k][..n] == run[..n]
  {
  }

  lemma SameOrigins(run: seq<(Request, Action)>, k: nat, n: nat, r: Request, id: nat, name: string, made: nat)
    requires n < k <= |run|
    ensures MadeAt(run[..k], n, r, id, name, made) <==> MadeAt(run, n, r, id, name, made)
    ensures CreatesAt(run[..k], n, id) <==> CreatesAt(run, n, id)
    ensures CompletesAt(run[..k], n, id) <==> CompletesAt(run, n, id)
  {
    PrefixOf(run, k, n);
    PrefixOf(run, k, n + 1);
  }

  // ---------- Added entities ----------

  predicate SameMaking(t: Tracked, u: Tracked) {
    (u.added ==> t.added) && u.current.name == t.current.name && u.current.createdAt == t.current.createdAt
  }

  lemma ActKeepsMaking(db: Db, x: Session, r: Request, a: Action, id: nat)
    requires id in x.tracker
    ensures id in Act(db, x, r, a).session.tracker && SameMaking(x.tracker[id], Act(db, x, r, a).session.tracker[id])
  {
    if x.phase.Saving? && (a.Commit? || a.SaveFails?) {
      if a.Commit? { CommitIsSaved(db, x, r, a.now); } else { SaveFailsIs(db, x, r, a.now); }
      SavesKeepMaking(x.tracker, r, a.now, id);
    } else {
      OthersKeepMaking(db, x, r, a, id);
    }
  }

  lemma SavesKeepMaking(tracker: map<nat, Tracked>, r: Request, now: nat, id: nat)
    requires id in tracker
    ensures SameMaking(tracker[id], StampedAll(tracker, r, now)[id])
    ensures SameMaking(tracker[id], AcceptedAll(StampedAll(tracker, r, now))[id])
  {
  }

  lemma OthersKeepMaking(db: Db, x: Session, r: Request, a: Action, id: nat)
    requires id in x.tracker && !(x.phase.Saving? && (a.Commit? || a.SaveFails?))
    ensures id in Act(db, x, r, a).session.tracker && SameMaking(x.tracker[id], Act(db, x, r, a).session.tracker[id])
  {
  }

  lemma OnlyCreateAdds(db: Db, x: Session, r: Request, a: Action, id: nat)
    requires id !in x.tracker && id in Act(db, x, r, a).session.tracker && Act(db, x, r, a).session.tracker[id].added
    ensures var todo := Act(db, x, r, a).session.tracker[id].current;
            a == Action.Create(id, todo.name, todo.createdAt)
  {
  }

  lemma StepKeepsMaking(s: State, q: Request, a: Action, r: Request, id: nat)
    requires id in SessionOf(s, r).tracker
    ensures var (x, y) := (SessionOf(s, r), SessionOf(Step(s, q, a), r));
            id in y.tracker && SameMaking(x.tracker[id], y.tracker[id])
  {
    StepIs(s, q, a);
    if q == r { ActKeepsMaking(s.db, SessionOf(s, r), r, a, id); }
  }

  /** An added entity has the name and time of the creation that its request asked for. */
  lemma {:induction false} AddedIsMade(run: seq<(Request, Action)>, r: Request, id: nat) returns (n: nat)
    requires id in SessionOf(Run(run), r).tracker && SessionOf(Run(run), r).tracker[id].added
    ensures var todo := SessionOf(Run(run), r).tracker[id].current;
            n < |run| && MadeAt(run, n, r, id, todo.name, todo.createdAt)
  {
    var k := |run| - 1;
    var (before, last) := (run[..k], run[k]);
    var todo := SessionOf(Run(run), r).tracker[id].current;
    assert run[..k + 1] == run;
    if id in SessionOf(Run(before), r).tracker {
      StepKeepsMaking(Run(before), last.0, last.1, r, id);
      n := AddedIsMade(before, r, id);
      SameOrigins(run, k, n, r, id, todo.name, todo.createdAt);
    } else {
      n := k;
      StepIs(Run(before), last.0, last.1);
      OnlyCreateAdds(Run(before).db, SessionOf(Run(before), r), r, last.1, id);
    }
  }

  lemma JustMade(db: Db, x: Session, r: Request, id: nat, name: string, made: nat)
    requires id !in x.tracker && id in Act(db, x, r, Action.Create(id, name, made)).session.tracker
    ensures var todo := Act(db, x, r, Action.Create(id, name, made)).session.tracker[id].current;
            todo.name == name && todo.createdAt == made
  {
  }

  /** The request's context tracks the todo under this name and time. */
  predicate TracksAs(s: State, r: Request, id: nat, name: string, made: nat) {
    var x := SessionOf(s, r);
    id in x.tracker && x.tracker[id].current.name == name && x.tracker[id].current.createdAt == made
  }

  lemma MadeNow(s: State, r: Request, id: nat, name: string, made: nat)
    requires id !in SessionOf(s, r).tracker
    requires id in SessionOf(Step(s, r, Action.Create(id, name, made)), r).tracker
    ensures TracksAs(Step(s, r, Action.Create(id, name, made)), r, id, name, made)
  {
    StepIs(s, r, Action.Create(id, name, made));
    JustMade(s.db, SessionOf(s, r), r, id, name, made);
  }

  lemma TracksStill(s: State, q: Request, a: Action, r: Request, id: nat, name: string, made: nat)
    requires TracksAs(s, r, id, name, made)
    ensures TracksAs(Step(s, q, a), r, id, name, made)
  {
    StepKeepsMaking(s, q, a, r, id);
  }

  /** And it keeps them. */
  lemma {:induction false} MadeStays(run: seq<(Request, Action)>, n: nat, r: Request, id: nat, name: string, made: nat)
    requires n < |run| && MadeAt(run, n, r, id, name, made)
    ensures TracksAs(Run(run), r, id, name, made)
  {
    var k := |run| - 1;
    var before := run[..k];
    assert run[..k + 1] == run;
    TodoInvariant.OneStep(run, k);
    if n == k {
      MadeNow(Run(before), r, id, name, made);
    } else {
      SameOrigins(run, k, n, r, id, name, made);
      MadeStays(before, n, r, id, name, made);
      TracksStill(Run(before), run[k].0, run[k].1, r, id, name, made);
    }
  }

  // ---------- Stored rows ----------

  lemma {:induction false} StoredIsCreated(run: seq<(Request, Action)>, id: nat) returns (n: nat)
    requires id in Run(run).db.rows
    ensures n < |run| && CreatesAt(run, n, id)
  {
    n := |run| - 1;
    assert run[..n + 1] == run;
    if id in Run(run[..n]).db.rows {
      var k := n;
      n := StoredIsCreated(run[..k], id);
      SameOrigins(run, k, n, run[n].0, id, "", 0);
    }
  }

  lemma {:induction false} DoneIsCompleted(run: seq<(Request, Action)>, id: nat) returns (n: nat)
    requires DoneRow(Run(run), id)
    ensures n < |run| && CompletesAt(run, n, id)
  {
    n := |run| - 1;
    assert run[..n + 1] == run;
    if DoneRow(Run(run[..n]), id) {
      var k := n;
      n := DoneIsCompleted(run[..k], id);
      SameOrigins(run, k, n, run[n].0, id, "", 0);
    }
  }

  lemma RowCommitted(db: Db, x: Session, r: Request, now: nat, id: nat)
    requires RowsInv(db.rows) && SessionInv(db.rows, r, x) && Commits(db, x.tracker, r, now)
    requires id in Committed(db, x, r, now).rows
    requires id in db.rows ==> Committed(db, x, r, now).rows[id] != db.rows[id]
    ensures id in x.tracker && Committed(db, x, r, now).rows[id] == NewRow(x.tracker[id], r, now)
    ensures if id in db.rows then !x.tracker[id].added else x.tracker[id].added && !x.tracker[id].current.done
  {
    CommitsIff(db, x, r, now);
    CommittedRows(db, x, r, now);
    assert id in Saves(x.tracker, r, now);
    assert Free(db.rows, id, x.tracker[id], r) && Copy(db.rows, r, id, x.tracker[id]);
  }

  /** The step that changes a todo's row is a commit of a context that holds the change. */
  lemma RowStep(s: State, r: Request, a: Action, id: nat)
    requires StateInv(s) && id in Step(s, r, a).db.rows
    requires id in s.db.rows ==> Step(s, r, a).db.rows[id] != s.db.rows[id]
    ensures CommitsNow(s, r, a) && id in SessionOf(s, r).tracker
    ensures var (t, row) := (SessionOf(s, r).tracker[id], Step(s, r, a).db.rows[id]);
            && row == NewRow(t, r, a.now)
            && (if id in s.db.rows then !t.added else t.added && !t.current.done)
  {
    if !CommitsNow(s, r, a) { NoCommitNoWrite(s, r, a); }
    SaveStep(s, r, a.now);
    assert SessionInv(s.db.rows, r, SessionOf(s, r));
    RowCommitted(s.db, SessionOf(s, r), r, a.now, id);
  }

  lemma JustCreated(s: State, r: Request, a: Action, id: nat)
    requires StateInv(s) && id !in s.db.rows && id in Step(s, r, a).db.rows
    ensures id in SessionOf(s, r).tracker && SessionOf(s, r).tracker[id].added
    ensures var (t, row) := (SessionOf(s, r).tracker[id].current, Step(s, r, a).db.rows[id]);
            row.tenant == r.tenant && row.createdBy == r.user && row.name == t.name && row.createdAt == t.createdAt
  {
    RowStep(s, r, a, id);
  }

  lemma {:induction false} RowStays(run: seq<(Request, Action)>, n: nat, id: nat)
    requires n < |run| && id in Run(run[..n + 1]).db.rows
    ensures id in Run(run).db.rows
    ensures var (row, now) := (Run(run[..n + 1]).db.rows[id], Run(run).db.rows[id]);
            (now.tenant, now.createdBy, now.name, now.createdAt) == (row.tenant, row.createdBy, row.name, row.createdAt)
  {
    RowsOnlyComplete(run, n + 1, id);
  }

  /** A stored row has the tenant and author of the request that stored it, and the name and time of the creation
      that this request was asked for before. */
  lemma {:induction false} RowIsMade(run: seq<(Request, Action)>, n: nat, id: nat) returns (m: nat)
    requires n < |run| && CreatesAt(run, n, id)
    ensures id in Run(run).db.rows && m < n
    ensures var (row, r) := (Run(run).db.rows[id], run[n].0);
            && row.tenant == r.tenant && row.createdBy == r.user
            && MadeAt(run, m, r, id, row.name, row.createdAt)
  {
    var (before, r) := (run[..n], run[n].0);
    RunKeepsStateInv(before);
    TodoInvariant.OneStep(run, n);
    JustCreated(Run(before), r, run[n].1, id);
    m := AddedIsMade(before, r, id);
    RowStays(run, n, id);
    SameOrigins(run, n, m, r, id, Run(run).db.rows[id].name, Run(run).db.rows[id].createdAt);
  }

  /** A completed row names the request that completed it, and the time of that save. */
  lemma {:induction false} RowIsCompleted(run: seq<(Request, Action)>, n: nat, id: nat)
    requires n < |run| && CompletesAt(run, n, id)
    ensures DoneRow(Run(run), id) && run[n].1.Commit?
    ensures Run(run).db.rows[id].modifiedBy == run[n].0.user
    ensures Run(run).db.rows[id].modifiedAt == Some(run[n].1.now)
  {
    var before := run[..n];
    RunKeepsStateInv(before);
    TodoInvariant.OneStep(run, n);
    RowStep(Run(before), run[n].0, run[n].1, id);
    RowsOnlyComplete(run, n + 1, id);
  }

  // ---------- A change that another save has stored ----------

  /** Some request was asked to create the very same todo, by the same tenant and user, and stored it. */
  predicate SameCreation(run: seq<(Request, Action)>, id: nat, t: Todo) {
    exists m, n :: 0 <= m < n < |run| && CreatesAt(run, n, id) && MadeAt(run, m, run[n].0, id, t.name, t.createdAt)
                   && run[n].0.tenant == t.tenant && run[n].0.user == t.createdBy
  }

  /** The completion was stored by the same user at the same time. */
  predicate SameCompletion(run: seq<(Request, Action)>, id: nat, t: Todo) {
    exists n :: 0 <= n < |run| && CompletesAt(run, n, id) && run[n].1.Commit?
                && run[n].0.user == t.modifiedBy && Some(run[n].1.now) == t.modifiedAt
  }

  lemma {:induction false} SameCreationIff(run: seq<(Request, Action)>, id: nat, t: Todo)
    requires id in Run(run).db.rows
    ensures var row := Run(run).db.rows[id];
            SameCreation(run, id, t) <==>
              (row.name, row.createdAt, row.tenant, row.createdBy) == (t.name, t.createdAt, t.tenant, t.createdBy)
  {
    var row := Run(run).db.rows[id];
    if SameCreation(run, id, t) {
      var m, n :| 0 <= m < n < |run| && CreatesAt(run, n, id)
                  && MadeAt(run, m, run[n].0, id, t.name, t.createdAt)
                  && run[n].0.tenant == t.tenant && run[n].0.user == t.createdBy;
      var k := RowIsMade(run, n, id);
      MadeStays(run, m, run[n].0, id, t.name, t.createdAt);
      MadeStays(run, k, run[n].0, id, row.name, row.createdAt);
    } else {
      var n := StoredIsCreated(run, id);
      var m := RowIsMade(run, n, id);
    }
  }

  lemma {:induction false} SameCompletionIff(run: seq<(Request, Action)>, id: nat, t: Todo)
    requires id in Run(run).db.rows
    ensures var row := Run(run).db.rows[id];
            SameCompletion(run, id, t) <==> row.done && (row.modifiedBy, row.modifiedAt) == (t.modifiedBy, t.modifiedAt)
  {
    if SameCompletion(run, id, t) {
      var n :| 0 <= n < |run| && CompletesAt(run, n, id) && run[n].1.Commit?
               && run[n].0.user == t.modifiedBy && Some(run[n].1.now) == t.modifiedAt;
      RowIsCompleted(run, n, id);
    } else if DoneRow(Run(run), id) {
      var n := DoneIsCompleted(run, id);
      RowIsCompleted(run, n, id);
    }
  }
}
