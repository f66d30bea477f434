/** What the invariants give the users of the Todos module, over every interleaved run. */
module TodoGuarantees {
  import opened Prelude
  import opened AuditTrail
  import opened Todos
  import opened TodoInvariant
  import opened TodoSafety

  // ---------- Completions ----------

  /** Over any interleaving: for one todo, no message is published twice, so there is at most one
      `TodoIsDoneEvent` and one integration event, in this order; and of the requests that asked for its
      completion at most one is ever told that it was committed. */
  lemma {:induction false} AtMostOneCompletion(run: seq<(Request, Action)>, id: nat)
    ensures var s := Run(run);
            && (forall i, j | 0 <= i < j < |s.posts| && s.posts[i].message.id == id ::
                  s.posts[i].message != s.posts[j].message)
            && (Posted(s, DoneIntegrationEvent(id)) ==> Posted(s, DoneEvent(id)))
            && (forall i, j | 0 <= i < j < |s.replies| && Wins(s.replies[i], id) :: !Wins(s.replies[j], id))
  {
    RunKeepsOnce(run, id);
  }

  predicate FitsCommand(a: Answer) {
    a.command.Completes? ==>
      || a.result in {NotFound, Conflict, Failed, FailedAfterCommit}
      || (a.result.Completed? && a.result.todo.id == a.command.id)
  }

  lemma ReplyFits(db: Db, x: Session, r: Request, a: Action)
    requires RowsInv(db.rows) && SessionInv(db.rows, r, x)
    ensures var o := Act(db, x, r, a); o.reply.Some? ==> FitsCommand(Answer(r, CommandOf(x.phase, a), o.reply.value))
  {
    if x.phase.Publishing? && (a.Reply? || a.HandlerFails?) { EndOfPublishing(db, x, r, a); }
  }

  lemma {:induction false} AnswersFit(run: seq<(Request, Action)>)
    ensures forall a | a in Run(run).replies :: FitsCommand(a)
  {
    if run != [] {
      var (before, last) := (run[..|run| - 1], run[|run| - 1]);
      AnswersFit(before);
      RunKeepsStateInv(before);
      var s := Run(before);
      assert SessionInv(s.db.rows, last.0, SessionOf(s, last.0));
      ReplyFits(s.db, SessionOf(s, last.0), last.0, last.1);
      StepIs(s, last.0, last.1);
    }
  }

  /** The others: once a completion of the todo has been answered as committed, every other answer to a
      request for it, earlier or later, is that there is no such todo, a conflict, or a failure. */
  lemma {:induction false} OthersConflictOrFail(run: seq<(Request, Action)>, id: nat, i: nat, j: nat)
    requires var replies := Run(run).replies;
             && i < |replies| && j < |replies| && i != j
             && Wins(replies[i], id) && replies[j].command == Completes(id)
    ensures Run(run).replies[j].result in {NotFound, Conflict, Failed}
    ensures DoneRow(Run(run), id)
  {
    var s := Run(run);
    RunKeepsOnce(run, id);
    AnswersFit(run);
    assert FitsCommand(s.replies[j]);
    assert !Wins(s.replies[j], id) && WinInv(s, s.replies[i], id);
  }

  /** In every state of a run, which is every prefix of a longer one, a published event's todo is stored as
      done, and so is an answered completion, exactly as it was answered. */
  lemma {:induction false} CommitBeforePublish(run: seq<(Request, Action)>, id: nat)
    ensures var s := Run(run);
            && (Posted(s, DoneEvent(id)) || Posted(s, DoneIntegrationEvent(id)) ==> DoneRow(s, id))
            && (forall a | a in s.replies && Wins(a, id) ::
                  DoneRow(s, id) && (a.result.Completed? ==> a.result.todo == s.db.rows[id]))
  {
    RunKeepsOnce(run, id);
    var s := Run(run);
    forall a | a in s.replies && Wins(a, id)
      ensures DoneRow(s, id) && (a.result.Completed? ==> a.result.todo == s.db.rows[id])
    {
      var i :| 0 <= i < |s.replies| && s.replies[i] == a;
      assert WinInv(s, s.replies[i], id);
    }
  }

  /** From any state of a run to any later one: no row disappears, none changes its tenant, name, author or
      creation time, and a row that is done never changes at all. */
  lemma {:induction false} RowsOnlyComplete(run: seq<(Request, Action)>, n: nat, id: nat)
    requires n <= |run| && id in Run(run[..n]).db.rows
    ensures id in Run(run).db.rows
    ensures var (row, now) := (Run(run[..n]).db.rows[id], Run(run).db.rows[id]);
            && (row.done ==> now == row)
            && (!row.done ==> now == row || (now.done && row == Undone(now)))
  {
    if n == |run| {
      assert run[..n] == run;
    } else {
      var before := run[..|run| - 1];
      assert before[..n] == run[..n];
      RowsOnlyComplete(before, n, id);
      RunKeepsStateInv(before);
      StepKeepsStateInv(Run(before), run[|run| - 1].0, run[|run| - 1].1);
    }
  }

  /** In every state a stored row is done exactly when its `ModifiedAt` is set. */
  lemma {:induction false} DoneIffModified(run: seq<(Request, Action)>, id: nat)
    requires id in Run(run).db.rows
    ensures Run(run).db.rows[id].done <==> Run(run).db.rows[id].modifiedAt.Some?
  {
    RunKeepsStateInv(run);
  }

  // ---------- Failed saves ----------

  /** The context holds a change of the todo that no save has committed, with its event. */
  predicate Unsaved(s: State, r: Request, id: nat) {
    var x := SessionOf(s, r);
    id in x.tracker && StateOf(x.tracker[id]) != Unchanged && x.tracker[id].events == [id]
  }

  predicate CommitsNow(s: State, r: Request, a: Action) {
    var x := SessionOf(s, r);
    a.Commit? && x.phase.Saving? && Commits(s.db, x.tracker, r, a.now)
  }

  lemma NoCommitNoWrite(s: State, r: Request, a: Action)
    requires !CommitsNow(s, r, a)
    ensures Step(s, r, a).db == s.db
  {
    StepIs(s, r, a);
    if a.Commit? && SessionOf(s, r).phase.Saving? { SaveStep(s, r, a.now); }
    else { OnlySavesWrite(s.db, SessionOf(s, r), r, a); }
  }

  /** A save of the request's context commits somewhere from the n-th action on. */
  predicate CommitsSince(run: seq<(Request, Action)>, n: nat, r: Request) {
    exists m :: n <= m < |run| && CommitsAt(run, m, r)
  }

  predicate CommitsAt(run: seq<(Request, Action)>, m: nat, r: Request)
    requires m < |run|
  {
    run[m].0 == r && CommitsNow(Run(run[..m]), r, run[m].1)
  }

  lemma CommitsAtPrefix(run: seq<(Request, Action)>, k: nat, m: nat, r: Request)
    requires m < k <= |run|
    ensures CommitsAt(run[..k], m, r) <==> CommitsAt(run, m, r)
  {
    assert run[..k][..m] == run[..m];
  }

  lemma CommitsSinceSnoc(run: seq<(Request, Action)>, n: nat, r: Request)
    requires n < |run|
    ensures CommitsSince(run, n, r) <==> CommitsSince(run[..|run| - 1], n, r) || CommitsAt(run, |run| - 1, r)
  {
    var k := |run| - 1;
    if CommitsSince(run[..k], n, r) {
      var m :| n <= m < k && CommitsAt(run[..k], m, r);
      CommitsAtPrefix(run, k, m, r);
    }
    if CommitsSince(run, n, r) {
      var m :| n <= m < |run| && CommitsAt(run, m, r);
      if m < k { CommitsAtPrefix(run, k, m, r); }
    }
  }

  /** The request has published the todo's event between two states of a run. */
  predicate PublishedSince(before: State, s: State, r: Request, id: nat) {
    exists i :: |before.posts| <= i < |s.posts| && s.posts[i] == Post(r, DoneEvent(id))
  }

  lemma PublishedSinceSnoc(before: State, s: State, q: Request, a: Action, r: Request, id: nat)
    requires |before.posts| <= |s.posts|
    ensures var t := Step(s, q, a);
            && |before.posts| <= |t.posts|
            && (PublishedSince(before, t, r, id) <==>
                  PublishedSince(before, s, r, id) ||
                  (q == r && Act(s.db, SessionOf(s, q), q, a).post == Some(DoneEvent(id))))
  {
    StepIs(s, q, a);
    var (t, o) := (Step(s, q, a), Act(s.db, SessionOf(s, q), q, a));
    if PublishedSince(before, s, r, id) {
      var i :| |before.posts| <= i < |s.posts| && s.posts[i] == Post(r, DoneEvent(id));
      assert t.posts[i] == Post(r, DoneEvent(id));
    }
    if q == r && o.post == Some(DoneEvent(id)) { assert t.posts[|s.posts|] == Post(r, DoneEvent(id)); }
  }

  /** The event has been committed with its completion, and the request is publishing. */
  predicate InLine(s: State, r: Request, id: nat) {
    SessionOf(s, r).phase.Publishing? && HoldsEvent(SessionOf(s, r), id)
  }

  lemma UnsavedIsNotPublishing(s: State, r: Request, id: nat)
    requires StateInv(s) && Unsaved(s, r, id)
    ensures !SessionOf(s, r).phase.Publishing?
  {
    NotPublishing(s, r, id);
  }

  lemma FailedSaveKeepsEntry(rows: map<nat, Todo>, x: Session, r: Request, now: nat, id: nat)
    requires Copies(rows, r, x.tracker) && id in x.tracker
    ensures var y := FailedSession(x, r, now);
            && StateOf(y.tracker[id]) == StateOf(x.tracker[id]) && y.tracker[id].events == x.tracker[id].events
            && y.tracker[id].added == x.tracker[id].added
  {
    OnlyChangesAreStamped(rows, r, id, x.tracker[id], now);
  }

  lemma OwnActKeepsUnsaved(db: Db, x: Session, r: Request, a: Action, id: nat)
    requires SessionInv(db.rows, r, x) && !x.phase.Publishing? && id in x.tracker && StateOf(x.tracker[id]) != Unchanged
    requires !(a.Commit? && x.phase.Saving? && Commits(db, x.tracker, r, a.now))
    ensures var y := Act(db, x, r, a).session;
            && id in y.tracker && StateOf(y.tracker[id]) != Unchanged && !y.phase.Publishing?
            && y.tracker[id].added == x.tracker[id].added
            && (x.tracker[id].events == [id] ==> y.tracker[id].events == [id])
    ensures Act(db, x, r, a).post.None?
  {
    if x.phase.Saving? && (a.Commit? || a.SaveFails?) {
      if a.Commit? { CommitIsSaved(db, x, r, a.now); } else { SaveFailsIs(db, x, r, a.now); }
      FailedSaveKeepsEntry(db.rows, x, r, a.now, id);
    } else {
      if x.phase.Loaded? { assert Copy(db.rows, r, x.phase.id, x.tracker[x.phase.id]); }
      OtherActKeepsChange(db, x, r, a, id);
    }
  }

  lemma OtherActKeepsChange(db: Db, x: Session, r: Request, a: Action, id: nat)
    requires id in x.tracker && StateOf(x.tracker[id]) != Unchanged && !x.phase.Publishing?
    requires !(x.phase.Saving? && (a.Commit? || a.SaveFails?))
    requires x.phase.Loaded? && id == x.phase.id && !x.tracker[id].current.done ==>
               x.tracker[id].added && x.tracker[id].events == []
    ensures var y := Act(db, x, r, a).session;
            && id in y.tracker && StateOf(y.tracker[id]) != Unchanged && !y.phase.Publishing?
            && y.tracker[id].added == x.tracker[id].added
            && (x.tracker[id].events == [id] ==> y.tracker[id].events == [id])
    ensures Act(db, x, r, a).post.None?
  {
  }

  lemma CommittedEventInLine(rows: map<nat, Todo>, x: Session, r: Request, now: nat, id: nat)
    requires SessionInv(rows, r, x) && x.phase.Saving? && Savable(rows, x.tracker, r)
    requires id in x.tracker && StateOf(x.tracker[id]) != Unchanged && x.tracker[id].events == [id]
    ensures HoldsEvent(SavedSession(x, r, now), id)
  {
    assert Copy(rows, r, id, x.tracker[id]) && Free(rows, id, x.tracker[id], r);
    SavedEntry(rows, x, r, now, id);
  }

  /** The step at which an unsaved change is committed puts its event in line. */
  lemma CommitPutsInLine(s: State, r: Request, now: nat, id: nat)
    requires RowsInv(s.db.rows) && SessionInv(s.db.rows, r, SessionOf(s, r))
    requires Unsaved(s, r, id) && CommitsNow(s, r, Commit(now))
    ensures InLine(Step(s, r, Commit(now)), r, id) && Act(s.db, SessionOf(s, r), r, Commit(now)).post.None?
  {
    var x := SessionOf(s, r);
    CommitsIff(s.db, x, r, now);
    CommitIsSaved(s.db, x, r, now);
    CommittedEventInLine(s.db.rows, x, r, now, id);
  }

  lemma InLineStays(db: Db, x: Session, r: Request, a: Action, id: nat)
    requires SessionInv(db.rows, r, x) && x.phase.Publishing? && HoldsEvent(x, id) && !a.HandlerFails?
    ensures var o := Act(db, x, r, a);
            o.post == Some(DoneEvent(id)) || (o.session.phase.Publishing? && HoldsEvent(o.session, id))
  {
    match a
    case Dispatch(k) => if k in x.tracker { DispatchKeepsLine(db, x, r, k, id); }
    case Publish => if x.phase.queue != [] { PublishedMessage(db, x, r); }
    case Reply => if x.phase.waiting == {} && x.phase.queue == [] { NothingWaiting(x, id); }
    case _ =>
  }

  lemma DispatchKeepsLine(db: Db, x: Session, r: Request, k: nat, id: nat)
    requires SessionInv(db.rows, r, x) && x.phase.Publishing? && HoldsEvent(x, id) && k in x.tracker
    ensures var y := Dispatching(db, x, k).session; y.phase.Publishing? && HoldsEvent(y, id)
  {
    assert Clean(db.rows, r, k, x.tracker[k]);
    assert DoneEvents([k]) == [DoneEvent(k)];
  }

  /** Until a save of its context commits, an unsaved change stays where it is and its event is not published;
      from then on the event is published or in line, as long as no handler throws. */
  lemma {:induction false} UnsavedOverRuns(run: seq<(Request, Action)>, n: nat, r: Request, id: nat)
    requires n <= |run| && Unsaved(Run(run[..n]), r, id)
    requires forall i | n <= i < |run| :: run[i] != (r, HandlerFails)
    ensures var (before, s) := (Run(run[..n]), Run(run));
            && |before.posts| <= |s.posts|
            && if CommitsSince(run, n, r) then PublishedSince(before, s, r, id) || InLine(s, r, id)
               else Unsaved(s, r, id) && !PublishedSince(before, s, r, id)
  {
    if n == |run| {
      assert run[..n] == run;
    } else {
      var (init, last) := (run[..|run| - 1], run[|run| - 1]);
      assert init[..n] == run[..n];
      UnsavedOverRuns(init, n, r, id);
      RunKeepsStateInv(init);
      CommitsSinceSnoc(run, n, r);
      PublishedSinceSnoc(Run(run[..n]), Run(init), last.0, last.1, r, id);
      OneStepOfUnsaved(Run(init), last.0, last.1, r, id);
    }
  }

  lemma OneStepOfUnsaved(s: State, q: Request, a: Action, r: Request, id: nat)
    requires StateInv(s) && (InLine(s, r, id) ==> !(q == r && a.HandlerFails?))
    ensures var (t, post) := (Step(s, q, a), Act(s.db, SessionOf(s, q), q, a).post);
            && (Unsaved(s, r, id) ==>
                  && (q == r ==> post != Some(DoneEvent(id)))
                  && if q == r && CommitsNow(s, r, a) then InLine(t, r, id) else Unsaved(t, r, id))
            && (InLine(s, r, id) ==> InLine(t, r, id) || (q == r && post == Some(DoneEvent(id))))
  {
    var x := SessionOf(s, r);
    assert SessionInv(s.db.rows, r, x);
    StepIs(s, q, a);
    if q == r {
      if Unsaved(s, r, id) {
        UnsavedIsNotPublishing(s, r, id);
        if CommitsNow(s, r, a) { CommitPutsInLine(s, r, a.now, id); } else { OwnActKeepsUnsaved(s.db, x, r, a, id); }
      }
      if InLine(s, r, id) { InLineStays(s.db, x, r, a, id); }
    }
  }

  lemma {:induction false} UncommittedStaysUnsaved(run: seq<(Request, Action)>, n: nat, r: Request, id: nat)
    requires n <= |run| && Unsaved(Run(run[..n]), r, id) && !CommitsSince(run, n, r)
    ensures Unsaved(Run(run), r, id) && !PublishedSince(Run(run[..n]), Run(run), r, id)
    ensures |Run(run[..n]).posts| <= |Run(run).posts|
  {
    if n == |run| {
      assert run[..n] == run;
    } else {
      var (init, last) := (run[..|run| - 1], run[|run| - 1]);
      assert init[..n] == run[..n];
      CommitsSinceSnoc(run, n, r);
      UncommittedStaysUnsaved(init, n, r, id);
      RunKeepsStateInv(init);
      PublishedSinceSnoc(Run(run[..n]), Run(init), last.0, last.1, r, id);
      UnsavedIsNotPublishing(Run(init), r, id);
      OneStepOfUnsaved(Run(init), last.0, last.1, r, id);
    }
  }

  /** A save that fails, for whatever reason, changes nothing in the database and publishes nothing. But its
      changes and their events stay in the context: unless a handler throws, a completion that it did not save
      is published in the end if and only if a later save of the same context commits. */
  lemma {:induction false} FailedSavePublishesOnlyLater(run: seq<(Request, Action)>, n: nat, r: Request, a: Action,
      id: nat)
    requires n < |run| && run[n] == (r, a) && SessionOf(Run(run[..n]), r).phase.Saving?
    requires Act(Run(run[..n]).db, SessionOf(Run(run[..n]), r), r, a).reply == Some(Failed)
    ensures Run(run[..n + 1]).db == Run(run[..n]).db && Run(run[..n + 1]).posts == Run(run[..n]).posts
    ensures Unsaved(Run(run[..n]), r, id) ==> Unsaved(Run(run[..n + 1]), r, id)
    ensures && Unsaved(Run(run[..n]), r, id)
            && (forall i | n < i < |run| :: run[i] != (r, HandlerFails))
            && !SessionOf(Run(run), r).phase.Publishing?
            ==> (PublishedSince(Run(run[..n + 1]), Run(run), r, id) <==> CommitsSince(run, n + 1, r))
  {
    var s := Run(run[..n]);
    RunKeepsStateInv(run[..n]);
    OneStep(run, n);
    StepIs(s, r, a);
    assert s.posts + [] == s.posts;
    FailureIsQuiet(s.db, SessionOf(s, r), r, a);
    if Unsaved(s, r, id) {
      OneStepOfUnsaved(s, r, a, r, id);
      if forall i | n < i < |run| :: run[i] != (r, HandlerFails) { UnsavedOverRuns(run, n + 1, r, id); }
    }
  }

  lemma FailureIsQuiet(db: Db, x: Session, r: Request, a: Action)
    requires x.phase.Saving? && Act(db, x, r, a).reply == Some(Failed)
    ensures Act(db, x, r, a).db == db && Act(db, x, r, a).post.None?
    ensures a.Commit? ==> !Commits(db, x.tracker, r, a.now)
  {
  }

  // ---------- Refused saves ----------

  /** A change that the database will not take: a completion of a row that is done, or a new todo under a key
      that is taken. */
  predicate Stuck(s: State, r: Request, id: nat) {
    var x := SessionOf(s, r);
    && id in x.tracker && id in s.db.rows
    && if x.tracker[id].added then true else StateOf(x.tracker[id]) == Modified && s.db.rows[id].done
  }

  /** Claims without which no save, or no save of a new todo, commits. */
  predicate LacksClaims(s: State, r: Request) {
    var x := SessionOf(s, r);
    r.user.None? || (r.tenant.None? && exists id :: id in x.tracker && x.tracker[id].added)
  }

  ghost predicate Hopeless(s: State, r: Request) {
    LacksClaims(s, r) || exists id :: Stuck(s, r, id)
  }

  lemma HopelessDoesNotCommit(s: State, r: Request, a: Action)
    requires StateInv(s) && Hopeless(s, r)
    ensures !CommitsNow(s, r, a)
  {
    if CommitsNow(s, r, a) { CommitMeansFree(s, r, a); }
  }

  lemma CommitMeansFree(s: State, r: Request, a: Action)
    requires StateInv(s) && CommitsNow(s, r, a)
    ensures r.user.Some?
    ensures forall id | id in SessionOf(s, r).tracker :: Free(s.db.rows, id, SessionOf(s, r).tracker[id], r)
  {
    var x := SessionOf(s, r);
    assert SessionInv(s.db.rows, r, x);
    CommitsIff(s.db, x, r, a.now);
  }

  lemma RefusedIsHopeless(s: State, r: Request, now: nat)
    requires StateInv(s) && SessionOf(s, r).phase.Saving? && !CommitsNow(s, r, Commit(now))
    ensures Hopeless(s, r)
  {
    var x := SessionOf(s, r);
    assert SessionInv(s.db.rows, r, x);
    CommitsIff(s.db, x, r, now);
    if !LacksClaims(s, r) {
      var id :| id in x.tracker && !Free(s.db.rows, id, x.tracker[id], r);
      NotFreeIsStuck(s, r, id);
    }
  }

  lemma NotFreeIsStuck(s: State, r: Request, id: nat)
    requires id in SessionOf(s, r).tracker && !Free(s.db.rows, id, SessionOf(s, r).tracker[id], r)
    requires Copy(s.db.rows, r, id, SessionOf(s, r).tracker[id]) && !LacksClaims(s, r)
    ensures Stuck(s, r, id)
  {
  }

  lemma ChangedStays(s: State, q: Request, a: Action, r: Request, id: nat)
    requires StateInv(s) && id in SessionOf(s, r).tracker && StateOf(SessionOf(s, r).tracker[id]) != Unchanged
    requires !SessionOf(s, r).phase.Publishing? && !(q == r && CommitsNow(s, r, a))
    ensures var (x, y) := (SessionOf(s, r), SessionOf(Step(s, q, a), r));
            && id in y.tracker && StateOf(y.tracker[id]) != Unchanged && y.tracker[id].added == x.tracker[id].added
  {
    assert SessionInv(s.db.rows, r, SessionOf(s, r));
    StepIs(s, q, a);
    if q == r { OwnActKeepsUnsaved(s.db, SessionOf(s, r), r, a, id); }
  }

  lemma NotPublishing(s: State, r: Request, id: nat)
    requires StateInv(s) && id in SessionOf(s, r).tracker && StateOf(SessionOf(s, r).tracker[id]) != Unchanged
    ensures !SessionOf(s, r).phase.Publishing?
  {
    if SessionOf(s, r).phase.Publishing? { PublishingIsClean(s, r, id); }
  }

  lemma PublishingIsClean(s: State, r: Request, id: nat)
    requires StateInv(s) && SessionOf(s, r).phase.Publishing? && id in SessionOf(s, r).tracker
    ensures StateOf(SessionOf(s, r).tracker[id]) == Unchanged
  {
    assert SessionInv(s.db.rows, r, SessionOf(s, r));
    assert Clean(s.db.rows, r, id, SessionOf(s, r).tracker[id]);
  }

  lemma HopelessStays(s: State, q: Request, a: Action, r: Request)
    requires StateInv(s) && Hopeless(s, r)
    ensures Hopeless(Step(s, q, a), r)
  {
    HopelessDoesNotCommit(s, r, a);
    StepKeepsStateInv(s, q, a);
    var t := Step(s, q, a);
    if id :| Stuck(s, r, id) {
      NotPublishing(s, r, id);
      ChangedStays(s, q, a, r, id);
      assert Stuck(t, r, id);
    } else if r.user.Some? {
      var id :| id in SessionOf(s, r).tracker && SessionOf(s, r).tracker[id].added;
      NotPublishing(s, r, id);
      ChangedStays(s, q, a, r, id);
      assert id in SessionOf(t, r).tracker && SessionOf(t, r).tracker[id].added;
    }
  }

  lemma {:induction false} HopelessForGood(run: seq<(Request, Action)>, n: nat, r: Request)
    requires n <= |run| && Hopeless(Run(run[..n]), r)
    ensures Hopeless(Run(run), r) && !CommitsSince(run, n, r)
  {
    if n == |run| {
      assert run[..n] == run;
    } else {
      var (before, last) := (run[..|run| - 1], run[|run| - 1]);
      assert before[..n] == run[..n];
      HopelessForGood(before, n, r);
      RunKeepsStateInv(before);
      CommitsSinceSnoc(run, n, r);
      HopelessDoesNotCommit(Run(before), r, last.1);
      HopelessStays(Run(before), last.0, last.1, r);
    }
  }

  /** The request has published nothing between two states of a run. */
  predicate Silent(before: State, s: State, r: Request) {
    && |before.posts| <= |s.posts|
    && forall i | |before.posts| <= i < |s.posts| :: s.posts[i].request != r
  }

  /** Without a commit a request never gets to publish. */
  lemma NotToPublish(s: State, q: Request, a: Action, r: Request)
    requires !SessionOf(s, r).phase.Publishing? && !CommitsNow(s, r, a)
    ensures !SessionOf(Step(s, q, a), r).phase.Publishing?
    ensures q == r ==> Act(s.db, SessionOf(s, q), q, a).post.None?
  {
    StepIs(s, q, a);
  }

  lemma SilentStep(before: State, s: State, q: Request, a: Action, r: Request)
    requires Silent(before, s, r) && (q == r ==> Act(s.db, SessionOf(s, q), q, a).post.None?)
    ensures Silent(before, Step(s, q, a), r)
  {
    StepIs(s, q, a);
  }

  lemma {:induction false} HopelessIsSilent(run: seq<(Request, Action)>, n: nat, r: Request)
    requires n <= |run| && Hopeless(Run(run[..n]), r) && !SessionOf(Run(run[..n]), r).phase.Publishing?
    ensures Silent(Run(run[..n]), Run(run), r) && !SessionOf(Run(run), r).phase.Publishing?
  {
    if n == |run| {
      assert run[..n] == run;
    } else {
      var (before, last) := (run[..|run| - 1], run[|run| - 1]);
      assert before[..n] == run[..n];
      HopelessIsSilent(before, n, r);
      HopelessForGood(before, n, r);
      RunKeepsStateInv(before);
      HopelessDoesNotCommit(Run(before), r, last.1);
      NotToPublish(Run(before), last.0, last.1, r);
      SilentStep(Run(run[..n]), Run(before), last.0, last.1, r);
    }
  }

  /** A save that the database has refused, on a token mismatch, a taken key or a missing value, is for good: no
      later save of that context ever commits, and its request publishes nothing ever again, whatever events its
      entities hold. Only a save that failed for another reason can be made good. */
  lemma {:induction false} RefusedIsForGood(run: seq<(Request, Action)>, n: nat, r: Request, now: nat, id: nat)
    requires n < |run| && run[n] == (r, Commit(now)) && SessionOf(Run(run[..n]), r).phase.Saving?
    requires !CommitsNow(Run(run[..n]), r, Commit(now))
    ensures !CommitsSince(run, n, r) && Silent(Run(run[..n]), Run(run), r)
    ensures Unsaved(Run(run[..n]), r, id) ==> Unsaved(Run(run), r, id)
  {
    RunKeepsStateInv(run[..n]);
    RefusedIsHopeless(Run(run[..n]), r, now);
    HopelessForGood(run, n, r);
    HopelessIsSilent(run, n, r);
    if Unsaved(Run(run[..n]), r, id) { UncommittedStaysUnsaved(run, n, r, id); }
  }
}
