/** Whole runs against the atomic store: rows, results, and exactly when reads are sequential. */
module TodoHistory {
  import opened AuditTrail
  import opened Todos
  import opened TodoInvariant
  import opened TodoSafety
  import opened TodoGuarantees
  import opened TodoOrigins
  import opened TodoStore

  datatype Entry = Entry(request: Request, effect: Effect)

  function Entries(r: Request, effects: seq<Effect>): (h: seq<Entry>)
    ensures |h| == |effects|
  {
    seq(|effects|, i requires 0 <= i < |effects| => Entry(r, effects[i]))
  }

  /** The operations a run completes, in the order of their effects. */
  ghost function History(run: seq<(Request, Action)>): seq<Entry> {
    if run == [] then []
    else
      var (before, last) := (run[..|run| - 1], run[|run| - 1]);
      History(before) + Entries(last.0, Effects(Run(before).db, SessionOf(Run(before), last.0), last.0, last.1))
  }

  /** The store after the operations of a history, one at a time from the empty store. */
  function StoreAfter(h: seq<Entry>): Store {
    if h == [] then map[]
    else Atomic(StoreAfter(h[..|h| - 1]), h[|h| - 1].request, h[|h| - 1].effect.op).0
  }

  /** Each operation of the history has the result it has on the store at its place. */
  predicate Sequential(h: seq<Entry>) {
    h == [] ||
    (var (before, last) := (h[..|h| - 1], h[|h| - 1]);
     Sequential(before) && Atomic(StoreAfter(before), last.request, last.effect.op).1 == last.effect.result)
  }

  lemma HistorySnoc(h: seq<Entry>, e: Entry)
    ensures StoreAfter(h + [e]) == Atomic(StoreAfter(h), e.request, e.effect.op).0
    ensures Sequential(h + [e]) <==>
              Sequential(h) && Atomic(StoreAfter(h), e.request, e.effect.op).1 == e.effect.result
  {
    assert (h + [e])[..|h|] == h;
  }

  lemma EntriesSnoc(r: Request, effects: seq<Effect>)
    requires effects != []
    ensures Entries(r, effects) == Entries(r, effects[..|effects| - 1]) + [Entry(r, effects[|effects| - 1])]
  {
  }

  lemma {:induction false} HistoryConcat(h: seq<Entry>, r: Request, effects: seq<Effect>)
    ensures StoreAfter(h + Entries(r, effects)) == StoreWith(StoreAfter(h), r, effects)
    ensures Sequential(h + Entries(r, effects)) <==> Sequential(h) && AllAtomic(StoreAfter(h), r, effects)
  {
    if effects == [] {
      assert h + Entries(r, effects) == h;
    } else {
      var (init, last) := (effects[..|effects| - 1], effects[|effects| - 1]);
      HistoryConcat(h, r, init);
      EntriesSnoc(r, effects);
      HistorySnoc(h + Entries(r, init), Entry(r, last));
      assert h + Entries(r, effects) == h + Entries(r, init) + [Entry(r, last)];
    }
  }

  // ---------- When a copy is stale ----------

  /** The n-th action makes the request's context track the todo. */
  predicate Attaches(run: seq<(Request, Action)>, n: nat, r: Request, id: nat)
    requires n < |run|
  {
    id !in SessionOf(Run(run[..n]), r).tracker && id in SessionOf(Run(run[..n + 1]), r).tracker
  }

  /** The n-th action commits another request's completion of the todo. */
  predicate CompletesElsewhere(run: seq<(Request, Action)>, n: nat, r: Request, id: nat)
    requires n < |run|
  {
    run[n].0 != r && CompletesAt(run, n, id)
  }

  /** The request's context first attached the todo before another request's completion of it committed. */
  predicate Overtaken(run: seq<(Request, Action)>, r: Request, id: nat) {
    exists i, j :: 0 <= i < j < |run| && Attaches(run, i, r, id) && CompletesElsewhere(run, j, r, id)
  }

  lemma SameEvents(run: seq<(Request, Action)>, k: nat, n: nat, r: Request, id: nat)
    requires n < k <= |run|
    ensures Attaches(run[..k], n, r, id) <==> Attaches(run, n, r, id)
    ensures CompletesElsewhere(run[..k], n, r, id) <==> CompletesElsewhere(run, n, r, id)
  {
    PrefixOf(run, k, n);
    PrefixOf(run, k, n + 1);
  }

  lemma TrackerGrows(db: Db, x: Session, r: Request, a: Action, id: nat)
    requires id in x.tracker
    ensures id in Act(db, x, r, a).session.tracker
  {
  }

  predicate HasAttached(run: seq<(Request, Action)>, r: Request, id: nat) {
    exists n :: 0 <= n < |run| && Attaches(run, n, r, id)
  }

  lemma HasAttachedSnoc(run: seq<(Request, Action)>, k: nat, r: Request, id: nat)
    requires |run| == k + 1
    ensures HasAttached(run, r, id) <==> HasAttached(run[..k], r, id) || Attaches(run, k, r, id)
  {
    if HasAttached(run[..k], r, id) {
      var n :| 0 <= n < k && Attaches(run[..k], n, r, id);
      SameEvents(run, k, n, r, id);
    }
    if HasAttached(run, r, id) {
      var n :| 0 <= n < |run| && Attaches(run, n, r, id);
      if n < k { SameEvents(run, k, n, r, id); }
    }
  }

  lemma {:induction false} TrackedIffAttached(run: seq<(Request, Action)>, r: Request, id: nat)
    ensures id in SessionOf(Run(run), r).tracker <==> HasAttached(run, r, id)
  {
    if run != [] {
      var k := |run| - 1;
      TrackedIffAttached(run[..k], r, id);
      HasAttachedSnoc(run, k, r, id);
      TrackedStays(Run(run[..k]), run[k].0, run[k].1, r, id);
      assert run[..k + 1] == run;
      TodoInvariant.OneStep(run, k);
    }
  }

  lemma TrackedStays(s: State, q: Request, a: Action, r: Request, id: nat)
    ensures id in SessionOf(s, r).tracker ==> id in SessionOf(Step(s, q, a), r).tracker
  {
    StepIs(s, q, a);
    if q == r && id in SessionOf(s, r).tracker { TrackerGrows(s.db, SessionOf(s, r), r, a, id); }
  }

  lemma StillOvertaken(run: seq<(Request, Action)>, k: nat, r: Request, id: nat)
    requires k <= |run| && Overtaken(run[..k], r, id)
    ensures Overtaken(run, r, id)
  {
    var i, j :| 0 <= i < j < k && Attaches(run[..k], i, r, id) && CompletesElsewhere(run[..k], j, r, id);
    SameEvents(run, k, i, r, id);
    SameEvents(run, k, j, r, id);
  }

  lemma NowOvertaken(run: seq<(Request, Action)>, k: nat, r: Request, id: nat)
    requires k < |run| && id in SessionOf(Run(run[..k]), r).tracker && CompletesElsewhere(run, k, r, id)
    ensures Overtaken(run, r, id)
  {
    TrackedIffAttached(run[..k], r, id);
    var i :| 0 <= i < k && Attaches(run[..k], i, r, id);
    SameEvents(run, k, i, r, id);
  }

  lemma OvertakenEarlier(run: seq<(Request, Action)>, k: nat, r: Request, id: nat, i: nat, j: nat)
    requires i < j < k <= |run| && Attaches(run, i, r, id) && CompletesElsewhere(run, j, r, id)
    ensures Overtaken(run[..k], r, id)
  {
    SameEvents(run, k, i, r, id);
    SameEvents(run, k, j, r, id);
  }

  lemma AttachedEarlier(run: seq<(Request, Action)>, k: nat, r: Request, id: nat, i: nat)
    requires i < k <= |run| && Attaches(run, i, r, id)
    ensures id in SessionOf(Run(run[..k]), r).tracker
  {
    SameEvents(run, k, i, r, id);
    TrackedIffAttached(run[..k], r, id);
  }

  lemma OvertakenBy(run: seq<(Request, Action)>, k: nat, r: Request, id: nat, i: nat, j: nat)
    requires i < j < |run| == k + 1 && Attaches(run, i, r, id) && CompletesElsewhere(run, j, r, id)
    requires !Overtaken(run[..k], r, id)
    ensures id in SessionOf(Run(run[..k]), r).tracker && j == k
  {
    if j < k { OvertakenEarlier(run, k, r, id, i, j); } else { AttachedEarlier(run, k, r, id, i); }
  }

  lemma OvertakenSnoc(run: seq<(Request, Action)>, k: nat, r: Request, id: nat)
    requires |run| == k + 1
    ensures Overtaken(run, r, id) <==>
              || Overtaken(run[..k], r, id)
              || (id in SessionOf(Run(run[..k]), r).tracker && CompletesElsewhere(run, k, r, id))
  {
    if Overtaken(run[..k], r, id) {
      StillOvertaken(run, k, r, id);
    } else if Overtaken(run, r, id) {
      var i, j :| 0 <= i < j < |run| && Attaches(run, i, r, id) && CompletesElsewhere(run, j, r, id);
      OvertakenBy(run, k, r, id, i, j);
    } else if id in SessionOf(Run(run[..k]), r).tracker && CompletesElsewhere(run, k, r, id) {
      NowOvertaken(run, k, r, id);
    }
  }

  /** The context's copy is from before the todo's completion. */
  predicate Stale(s: State, r: Request, id: nat)
    requires id in SessionOf(s, r).tracker
  {
    DoneRow(s, id) && !SessionOf(s, r).tracker[id].original.done
  }

  lemma OverlookedAct(db: Db, x: Session, r: Request, a: Action, id: nat)
    requires id in x.tracker && !(a.Commit? && x.phase.Saving? && Commits(db, x.tracker, r, a.now))
    ensures var y := Act(db, x, r, a).session;
            id in y.tracker && y.tracker[id].original == x.tracker[id].original &&
                y.tracker[id].added == x.tracker[id].added
  {
    if x.phase.Saving? && a.Commit? { CommitIsSaved(db, x, r, a.now); }
    else if x.phase.Saving? && a.SaveFails? { SaveFailsIs(db, x, r, a.now); }
    else { OtherActOverlooks(db, x, r, a, id); }
  }

  lemma OtherActOverlooks(db: Db, x: Session, r: Request, a: Action, id: nat)
    requires id in x.tracker && !(x.phase.Saving? && (a.Commit? || a.SaveFails?))
    ensures var y := Act(db, x, r, a).session;
            id in y.tracker && y.tracker[id].original == x.tracker[id].original &&
                y.tracker[id].added == x.tracker[id].added
  {
  }

  lemma FirstCopyIsFresh(db: Db, x: Session, r: Request, a: Action, id: nat)
    requires id !in x.tracker && id in Act(db, x, r, a).session.tracker
    requires !Act(db, x, r, a).session.tracker[id].added
    ensures Act(db, x, r, a).db == db && id in db.rows && Act(db, x, r, a).session.tracker[id].original == db.rows[id]
  {
  }

  lemma OwnCommitIsFresh(s: State, r: Request, now: nat, id: nat)
    requires StateInv(s) && id in SessionOf(s, r).tracker && SessionOf(s, r).phase.Saving?
    requires Commits(s.db, SessionOf(s, r).tracker, r, now)
    ensures var (x, t) := (SessionOf(s, r), Step(s, r, Commit(now)));
            && id in SessionOf(t, r).tracker
            && if StateOf(x.tracker[id]) == Unchanged
               then !x.tracker[id].added && (Stale(t, r, id) <==> Stale(s, r, id))
               else !DoneRow(s, id) && !Stale(t, r, id)
  {
    var x := SessionOf(s, r);
    assert SessionInv(s.db.rows, r, x);
    CommitsIff(s.db, x, r, now);
    CommittedRows(s.db, x, r, now);
    SaveStep(s, r, now);
    AcceptedIsClean(s.db.rows, x.tracker, r, now, id);
    OnlyChangesAreStamped(s.db.rows, r, id, x.tracker[id], now);
    assert Free(s.db.rows, id, x.tracker[id], r);
  }

  /** An overtaken todo is done, and stays so. */
  lemma OvertakenIsDone(run: seq<(Request, Action)>, r: Request, id: nat)
    requires Overtaken(run, r, id)
    ensures DoneRow(Run(run), id)
  {
    var i, j :| 0 <= i < j < |run| && Attaches(run, i, r, id) && CompletesElsewhere(run, j, r, id);
    DoneStays(run, j + 1, id);
  }

  lemma DoneStays(run: seq<(Request, Action)>, n: nat, id: nat)
    requires n <= |run| && DoneRow(Run(run[..n]), id)
    ensures DoneRow(Run(run), id)
  {
    RowsOnlyComplete(run, n, id);
  }

  /** Staleness is a matter of the run's events: a context's copy of a stored todo is from before its completion
      exactly when another request's completion has committed since the context attached it. */
  lemma {:induction false} StaleIffOvertaken(run: seq<(Request, Action)>, r: Request, id: nat)
    requires id in SessionOf(Run(run), r).tracker && !SessionOf(Run(run), r).tracker[id].added
    ensures Stale(Run(run), r, id) <==> Overtaken(run, r, id)
  {
    var k := |run| - 1;
    var (before, q, a) := (run[..k], run[k].0, run[k].1);
    var s := Run(before);
    assert run[..k + 1] == run;
    RunKeepsStateInv(before);
    OvertakenSnoc(run, k, r, id);
    StepIs(s, q, a);
    if Overtaken(before, r, id) { OvertakenIsDone(before, r, id); TrackedIffAttached(before, r, id); }
    if q != r {
      StaleIffOvertaken(before, r, id);
      OthersStep(s, q, a, r, id);
    } else if id !in SessionOf(s, r).tracker {
      FirstCopyIsFresh(s.db, SessionOf(s, r), r, a, id);
      NeverOvertaken(before, r, id);
    } else if a.Commit? && SessionOf(s, r).phase.Saving? && Commits(s.db, SessionOf(s, r).tracker, r, a.now) {
      OwnCommitIsFresh(s, r, a.now, id);
      if StateOf(SessionOf(s, r).tracker[id]) == Unchanged { StaleIffOvertaken(before, r, id); }
    } else {
      OverlookedAct(s.db, SessionOf(s, r), r, a, id);
      StaleIffOvertaken(before, r, id);
      SameDb(s, r, a);
    }
  }

  lemma NeverOvertaken(run: seq<(Request, Action)>, r: Request, id: nat)
    requires id !in SessionOf(Run(run), r).tracker
    ensures !Overtaken(run, r, id)
  {
    TrackedIffAttached(run, r, id);
  }

  lemma SameDb(s: State, r: Request, a: Action)
    requires var x := SessionOf(s, r); !(a.Commit? && x.phase.Saving? && Commits(s.db, x.tracker, r, a.now))
    ensures Step(s, r, a).db == s.db
  {
    if a.Commit? && SessionOf(s, r).phase.Saving? { SaveStep(s, r, a.now); }
    else { OnlySavesWrite(s.db, SessionOf(s, r), r, a); }
  }

  lemma OthersStep(s: State, q: Request, a: Action, r: Request, id: nat)
    requires StateInv(s) && q != r && id in SessionOf(s, r).tracker && !SessionOf(s, r).tracker[id].added
    ensures var t := Step(s, q, a);
            && SessionOf(t, r) == SessionOf(s, r)
            && (Stale(t, r, id) <==> Stale(s, r, id) || (!DoneRow(s, id) && DoneRow(t, id)))
  {
    StepKeepsStateInv(s, q, a);
    StepIs(s, q, a);
    var x := SessionOf(s, r);
    assert SessionInv(s.db.rows, r, x) && Copy(s.db.rows, r, id, x.tracker[id]);
  }

  // ---------- When results are sequential ----------

  /** The stored row shows the very change that the context has not saved. */
  predicate Alike(t: Tracked, row: Todo) {
    if t.added then
      && !t.current.done && !row.done
      && (t.current.name, t.current.tenant, t.current.createdBy, t.current.createdAt) ==
         (row.name, row.tenant, row.createdBy, row.createdAt)
    else row.done && (t.current.modifiedBy, t.current.modifiedAt) == (row.modifiedBy, row.modifiedAt)
  }

  /** Some save has stored that very change. */
  predicate StoredAlike(run: seq<(Request, Action)>, id: nat, t: Tracked) {
    if t.added then !t.current.done && !DoneRow(Run(run), id) && SameCreation(run, id, t.current)
    else SameCompletion(run, id, t.current)
  }

  /** What the request's next query would show of a todo that its context has attached is as stored: the context
      was not overtaken; or where it holds a change of it that a save has failed to commit, some save has stored the
      same. */
  predicate ShowsStored(run: seq<(Request, Action)>, r: Request, id: nat)
    requires id in SessionOf(Run(run), r).tracker && id in Run(run).db.rows
  {
    var t := SessionOf(Run(run), r).tracker[id];
    if StateOf(t) == Unchanged then !Overtaken(run, r, id) else StoredAlike(run, id, t)
  }

  /** The next action is a query whose answer shows the context's copy of the todo. */
  predicate Queries(s: State, r: Request, a: Action, id: nat) {
    && SessionOf(s, r).phase.Idle? && (a == Get(id) || a == GetAll)
    && id in s.db.rows && Sees(s.db, r, id) && id in SessionOf(s, r).tracker
  }

  /** The next action finds that the todo is done already, on a copy that only this context has completed. */
  predicate RefusesOwnChange(s: State, r: Request, a: Action) {
    var x := SessionOf(s, r);
    && x.phase.Loaded? && a == SetDone && x.phase.id in x.tracker
    && StateOf(x.tracker[x.phase.id]) != Unchanged && x.tracker[x.phase.id].current.done
    && !DoneRow(s, x.phase.id)
  }

  predicate FreshRead(run: seq<(Request, Action)>, r: Request, a: Action) {
    && (forall id | id in Run(run).db.rows && Queries(Run(run), r, a, id) :: ShowsStored(run, r, id))
    && !RefusesOwnChange(Run(run), r, a)
  }

  predicate ReadsFresh(run: seq<(Request, Action)>) {
    run == [] ||
    (var (before, last) := (run[..|run| - 1], run[|run| - 1]);
     ReadsFresh(before) && FreshRead(before, last.0, last.1))
  }

  lemma UnchangedIsStoredIff(s: State, r: Request, id: nat)
    requires StateInv(s) && id in SessionOf(s, r).tracker && id in s.db.rows
    requires StateOf(SessionOf(s, r).tracker[id]) == Unchanged
    ensures !SessionOf(s, r).tracker[id].added
    ensures SessionOf(s, r).tracker[id].current == s.db.rows[id] <==> !Stale(s, r, id)
  {
    var t := SessionOf(s, r).tracker[id];
    assert SessionInv(s.db.rows, r, SessionOf(s, r)) && Copy(s.db.rows, r, id, t);
    assert RowInv(id, s.db.rows[id]);
  }

  lemma ChangedIsStoredIff(s: State, r: Request, id: nat)
    requires StateInv(s) && id in SessionOf(s, r).tracker && id in s.db.rows
    requires StateOf(SessionOf(s, r).tracker[id]) != Unchanged
    ensures SessionOf(s, r).tracker[id].current == s.db.rows[id] <==> Alike(SessionOf(s, r).tracker[id], s.db.rows[id])
  {
    var t := SessionOf(s, r).tracker[id];
    assert SessionInv(s.db.rows, r, SessionOf(s, r)) && Copy(s.db.rows, r, id, t);
    assert RowInv(id, s.db.rows[id]);
  }

  lemma {:induction false} AlikeIff(run: seq<(Request, Action)>, r: Request, id: nat)
    requires id in SessionOf(Run(run), r).tracker && id in Run(run).db.rows
    requires StateOf(SessionOf(Run(run), r).tracker[id]) != Unchanged
    ensures Alike(SessionOf(Run(run), r).tracker[id], Run(run).db.rows[id]) <==>
              StoredAlike(run, id, SessionOf(Run(run), r).tracker[id])
  {
    var t := SessionOf(Run(run), r).tracker[id];
    if t.added { SameCreationIff(run, id, t.current); }
    else { SameCompletionIff(run, id, t.current); }
  }

  /** A tracked copy is the stored row exactly then. */
  lemma {:induction false} ShowsStoredIff(run: seq<(Request, Action)>, r: Request, id: nat)
    requires id in SessionOf(Run(run), r).tracker && id in Run(run).db.rows
    ensures SessionOf(Run(run), r).tracker[id].current == Run(run).db.rows[id] <==> ShowsStored(run, r, id)
  {
    RunKeepsStateInv(run);
    var s := Run(run);
    if StateOf(SessionOf(s, r).tracker[id]) == Unchanged {
      UnchangedIsStoredIff(s, r, id);
      StaleIffOvertaken(run, r, id);
    } else {
      ChangedIsStoredIff(s, r, id);
      AlikeIff(run, r, id);
    }
  }

  lemma QueriesFreshIff(run: seq<(Request, Action)>, r: Request, a: Action)
    requires a.Get? || a.GetAll?
    ensures CopiesFresh(Run(run).db, SessionOf(Run(run), r), r, a) <==> FreshRead(run, r, a)
  {
    var s := Run(run);
    forall id | id in s.db.rows && Queries(s, r, a, id)
      ensures SessionOf(s, r).tracker[id].current == s.db.rows[id] <==> ShowsStored(run, r, id)
    {
      ShowsStoredIff(run, r, id);
    }
    CopiesFreshIff(s, r, a);
  }

  lemma CopiesFreshIff(s: State, r: Request, a: Action)
    requires a.Get? || a.GetAll?
    ensures CopiesFresh(s.db, SessionOf(s, r), r, a) <==>
              forall id | id in s.db.rows && Queries(s, r, a, id) ::
                SessionOf(s, r).tracker[id].current == s.db.rows[id]
  {
    var x := SessionOf(s, r);
    if x.phase.Idle? && a.Get? && Sees(s.db, r, a.id) && a.id in x.tracker { assert Queries(s, r, a, a.id); }
    if x.phase.Idle? && a.GetAll? {
      forall id | id in s.db.rows && Sees(s.db, r, id) && id in x.tracker ensures Queries(s, r, a, id) {}
    }
  }

  lemma CheckFreshIff(s: State, r: Request)
    requires StateInv(s)
    ensures CopiesFresh(s.db, SessionOf(s, r), r, SetDone) <==> !RefusesOwnChange(s, r, SetDone)
  {
    var x := SessionOf(s, r);
    assert SessionInv(s.db.rows, r, x);
    if x.phase.Loaded? { assert Copy(s.db.rows, r, x.phase.id, x.tracker[x.phase.id]); }
  }

  lemma FreshIff(run: seq<(Request, Action)>, r: Request, a: Action)
    ensures CopiesFresh(Run(run).db, SessionOf(Run(run), r), r, a) <==> FreshRead(run, r, a)
  {
    if a.Get? || a.GetAll? {
      QueriesFreshIff(run, r, a);
    } else if a.SetDone? {
      RunKeepsStateInv(run);
      CheckFreshIff(Run(run), r);
      NoQuery(Run(run), r, a);
    } else {
      NoQuery(Run(run), r, a);
    }
  }

  lemma NoQuery(s: State, r: Request, a: Action)
    requires !a.Get? && !a.GetAll?
    ensures forall id :: !Queries(s, r, a, id)
    ensures !a.SetDone? ==> CopiesFresh(s.db, SessionOf(s, r), r, a) && !RefusesOwnChange(s, r, a)
  {
  }

  /** Every interleaved run leads to the table that its operations, one at a time in the order of their
      effects, lead to. And they give the very results of such a sequential run if and only if no query and no
      check of the run was made on a copy that had been overtaken, or that held a change which a save had failed
      to commit. */
  lemma {:induction false} RunRefines(run: seq<(Request, Action)>)
    ensures StoreAfter(History(run)) == StoreOf(Run(run).db.rows)
    ensures Sequential(History(run)) <==> ReadsFresh(run)
  {
    if run != [] {
      var (before, last) := (run[..|run| - 1], run[|run| - 1]);
      RunRefines(before);
      RunKeepsStateInv(before);
      var s := Run(before);
      assert SessionInv(s.db.rows, last.0, SessionOf(s, last.0));
      ActRefines(s.db, SessionOf(s, last.0), last.0, last.1);
      FreshIff(before, last.0, last.1);
      StepIs(s, last.0, last.1);
      HistoryConcat(History(before), last.0, Effects(s.db, SessionOf(s, last.0), last.0, last.1));
    }
  }

  // ---------- Contexts that serve one command ----------

  /** The actions that start a command of a request. */
  predicate IsCommand(a: Action) {
    a.Create? || a.Get? || a.GetAll? || a.Load?
  }

  predicate Commanded(run: seq<(Request, Action)>, r: Request) {
    exists i :: 0 <= i < |run| && run[i].0 == r && IsCommand(run[i].1)
  }

  predicate OneCommandEach(run: seq<(Request, Action)>) {
    forall i, j | 0 <= i < j < |run| && run[i].0 == run[j].0 :: !(IsCommand(run[i].1) && IsCommand(run[j].1))
  }

  lemma CommandedSnoc(run: seq<(Request, Action)>, last: (Request, Action), r: Request)
    ensures Commanded(run + [last], r) <==> Commanded(run, r) || (last.0 == r && IsCommand(last.1))
  {
    var all := run + [last];
    if Commanded(run, r) {
      var i :| 0 <= i < |run| && run[i].0 == r && IsCommand(run[i].1);
      assert all[i].0 == r && IsCommand(all[i].1);
    }
    if last.0 == r && IsCommand(last.1) { assert all[|run|].0 == r && IsCommand(all[|run|].1); }
  }

  lemma OneCommandEachBefore(run: seq<(Request, Action)>, last: (Request, Action))
    requires OneCommandEach(run + [last])
    ensures OneCommandEach(run) && (IsCommand(last.1) ==> !Commanded(run, last.0))
  {
    var all := run + [last];
    forall i, j | 0 <= i < j < |run| && run[i].0 == run[j].0 ensures !(IsCommand(run[i].1) && IsCommand(run[j].1)) {
      assert all[i] == run[i] && all[j] == run[j];
    }
    forall i | 0 <= i < |run| && run[i].0 == last.0 && IsCommand(last.1) ensures !IsCommand(run[i].1) {
      assert all[i] == run[i] && all[|run|] == last;
    }
  }

  /** A context of one command: before it there is nothing, and until its end no save has failed. */
  predicate OneCommandInv(x: Session, commanded: bool) {
    (!commanded ==> x == FRESH) && (!x.phase.Idle? ==> x.unsaved == [])
  }

  lemma ActKeepsOneCommand(db: Db, x: Session, r: Request, a: Action, commanded: bool)
    requires OneCommandInv(x, commanded) && (IsCommand(a) ==> !commanded)
    ensures OneCommandInv(Act(db, x, r, a).session, commanded || IsCommand(a))
  {
  }

  lemma {:induction false} RunKeepsOneCommand(run: seq<(Request, Action)>, r: Request)
    requires OneCommandEach(run)
    ensures OneCommandInv(SessionOf(Run(run), r), Commanded(run, r))
  {
    if run != [] {
      var (before, last) := (run[..|run| - 1], run[|run| - 1]);
      assert run == before + [last];
      OneCommandEachBefore(before, last);
      RunKeepsOneCommand(before, r);
      CommandedSnoc(before, last, r);
      StepIs(Run(before), last.0, last.1);
      if last.0 == r {
        ActKeepsOneCommand(Run(before).db, SessionOf(Run(before), r), r, last.1, Commanded(before, r));
      }
    }
  }

  lemma OneCommandIsFresh(s: State, r: Request, a: Action, commanded: bool)
    requires StateInv(s) && OneCommandInv(SessionOf(s, r), commanded) && (IsCommand(a) ==> !commanded)
    ensures forall id :: !Queries(s, r, a, id)
    ensures !RefusesOwnChange(s, r, a)
  {
    var x := SessionOf(s, r);
    assert SessionInv(s.db.rows, r, x);
    if x.phase.Loaded? { assert Clean(s.db.rows, r, x.phase.id, x.tracker[x.phase.id]); }
  }

  lemma {:induction false} OneCommandEachReadsFresh(run: seq<(Request, Action)>)
    requires OneCommandEach(run)
    ensures ReadsFresh(run)
  {
    if run != [] {
      var (before, last) := (run[..|run| - 1], run[|run| - 1]);
      assert run == before + [last];
      OneCommandEachBefore(before, last);
      OneCommandEachReadsFresh(before);
      RunKeepsOneCommand(before, last.0);
      RunKeepsStateInv(before);
      OneCommandIsFresh(Run(before), last.0, last.1, Commanded(before, last.0));
    }
  }

  /** When each context serves one command, as behind the HTTP endpoints, no query meets an earlier copy: the run
      is a sequential run of the store. */
  lemma {:induction false} OneCommandEachIsSequential(run: seq<(Request, Action)>)
    requires OneCommandEach(run)
    ensures Sequential(History(run)) && StoreAfter(History(run)) == StoreOf(Run(run).db.rows)
  {
    OneCommandEachReadsFresh(run);
    RunRefines(run);
  }
}
