/** Concrete runs that show what the conditions of the theorems are for. */
module TodoExamples {
  import opened Prelude
  import opened AuditTrail
  import opened Todos
  import opened TodoInvariant
  import opened TodoSafety
  import opened TodoGuarantees
  import opened TodoAudit
  import opened TodoHistory
  import opened TodoTenants

  /** One request moves and publishes nothing. */
  predicate Moves(s: State, t: State, r: Request) {
    OnlyMoved(s, t, r) && t.posts == s.posts
  }

  function CreatedRow(r: Request, id: nat, name: string, now: nat): Todo {
    Todo(id, name, false, r.tenant, r.user, now, None, None)
  }

  function DoneRowOf(row: Todo, r: Request, now: nat): Todo {
    row.(done := true, modifiedBy := r.user, modifiedAt := Some(now))
  }

  function NewEntry(id: nat, name: string, now: nat): Tracked {
    Tracked(NewTodo(id, name, now), NewTodo(id, name, now), true, [])
  }

  // ---------- Steps of fresh requests ----------

  lemma Create(s: State, r: Request, id: nat, name: string, now: nat)
    requires SessionOf(s, r).phase.Idle? && id !in SessionOf(s, r).tracker && !IsBlank(name)
    ensures var (x, t) := (SessionOf(s, r), Step(s, r, Action.Create(id, name, now)));
            && Moves(s, t, r) && t.db == s.db && t.replies == s.replies
            && t.sessions[r] == Session(x.tracker[id := NewEntry(id, name, now)], x.unsaved, Saving(id, true))
  {
    assert s.replies + [] == s.replies && s.posts + [] == s.posts;
  }

  lemma SavableNew(rows: map<nat, Todo>, r: Request, id: nat, name: string, made: nat, now: nat)
    requires r.tenant.Some? && r.user.Some?
    ensures var tracker := map[id := NewEntry(id, name, made)];
            && (Savable(rows, tracker, r) <==> id !in rows)
            && Saves(tracker, r, now) == map[id := CreatedRow(r, id, name, made)]
  {
    var tracker := map[id := NewEntry(id, name, made)];
    assert id in tracker && forall k | k in tracker :: k == id;
  }

  lemma SavableDone(rows: map<nat, Todo>, r: Request, id: nat, now: nat)
    requires id in rows && !rows[id].done && r.user.Some?
    ensures var tracker := map[id := MarkedDone(Tracked(rows[id], rows[id], false, []))];
            && Savable(rows, tracker, r)
            && Saves(tracker, r, now) == map[id := DoneRowOf(rows[id], r, now)]
  {
    var tracker := map[id := MarkedDone(Tracked(rows[id], rows[id], false, []))];
    assert id in tracker && forall k | k in tracker :: k == id;
  }

  /** What a save that is about to happen does. */
  lemma SaveIs(s: State, r: Request, now: nat)
    requires StateInv(s) && r in s.sessions && s.sessions[r].phase.Saving?
    ensures var (x, t) := (s.sessions[r], Step(s, r, Commit(now)));
            && Moves(s, t, r)
            && if Savable(s.db.rows, x.tracker, r)
               then t.db.rows == s.db.rows + Saves(x.tracker, r, now) && t.replies == s.replies
               else t.db == s.db && t.replies == s.replies + [Answer(r, CommandOf(x.phase, Commit(now)), Failed)]
  {
    var x := s.sessions[r];
    CommitsIff(s.db, x, r, now);
    CommitIsSaved(s.db, x, r, now);
    StepIs(s, r, Commit(now));
    if Commits(s.db, x.tracker, r, now) { CommittedRows(s.db, x, r, now); }
    assert s.replies + [] == s.replies && s.posts + [] == s.posts;
  }

  /** A new todo that is about to be saved: whether its save commits, and what it leaves. */
  lemma SaveNew(s: State, r: Request, id: nat, name: string, made: nat, now: nat)
    requires StateInv(s) && r in s.sessions && !IsBlank(name)
    requires s.sessions[r] == Session(map[id := NewEntry(id, name, made)], [], Saving(id, true))
    requires r.tenant.Some? && r.user.Some?
    ensures var t := Step(s, r, Commit(now));
            && Moves(s, t, r)
            && (id !in s.db.rows ==>
                  t.db.rows == s.db.rows[id := CreatedRow(r, id, name, made)] && t.replies == s.replies)
            && (id in s.db.rows ==> t.db == s.db && t.replies == s.replies + [Answer(r, Creates(id), Failed)])
  {
    SaveIs(s, r, now);
    SavableNew(s.db.rows, r, id, name, made, now);
  }

  lemma CreateAndSave(run: seq<(Request, Action)>, r: Request, id: nat, name: string, now: nat)
    requires SessionOf(Run(run), r) == FRESH && !IsBlank(name) && r.tenant.Some? && r.user.Some?
    ensures var (s, t) := (Run(run), Run(run + [(r, Action.Create(id, name, now)), (r, Commit(now))]));
            && Moves(s, t, r)
            && (id !in s.db.rows ==>
                  t.db.rows == s.db.rows[id := CreatedRow(r, id, name, now)] && t.replies == s.replies)
            && (id in s.db.rows ==> t.db == s.db && t.replies == s.replies + [Answer(r, Creates(id), Failed)])
  {
    var (a, b) := (Action.Create(id, name, now), Commit(now));
    RunSnoc(run, r, a);
    RunSnoc(run + [(r, a)], r, b);
    assert run + [(r, a)] + [(r, b)] == run + [(r, a), (r, b)];
    RunKeepsStateInv(run + [(r, a)]);
    Create(Run(run), r, id, name, now);
    SaveNew(Run(run + [(r, a)]), r, id, name, now, now);
  }

  lemma Query(s: State, r: Request, id: nat)
    requires id in s.db.rows && Sees(s.db, r, id) && SessionOf(s, r).phase.Idle?
    ensures var (t, copy) := (Step(s, r, Get(id)), Attached(SessionOf(s, r).tracker, id, s.db.rows[id]));
            && Moves(s, t, r) && t.db == s.db && t.replies == s.replies + [Answer(r, Reads(id), Found(copy.current))]
            && t.sessions[r] == SessionOf(s, r).(tracker := SessionOf(s, r).tracker[id := copy])
  {
    assert s.posts + [] == s.posts;
  }

  /** A fresh request that loads a todo and completes it in memory. */
  lemma LoadAndMark(s: State, r: Request, id: nat)
    requires SessionOf(s, r) == FRESH && id in s.db.rows && Sees(s.db, r, id) && !s.db.rows[id].done
    ensures var (t, row) := (Step(Step(s, r, Load(id)), r, SetDone), s.db.rows[id]);
            && Moves(s, t, r) && t.db == s.db && t.replies == s.replies
            && t.sessions[r] == Session(map[id := MarkedDone(Tracked(row, row, false, []))], [], Saving(id, false))
  {
    assert s.replies + [] == s.replies && s.posts + [] == s.posts;
  }

  lemma SaveDone(s: State, r: Request, id: nat, now: nat)
    requires StateInv(s) && r in s.sessions && id in s.db.rows && Sees(s.db, r, id)
    requires !s.db.rows[id].done && r.user.Some?
    requires s.sessions[r] ==
             Session(map[id := MarkedDone(Tracked(s.db.rows[id], s.db.rows[id], false, []))], [], Saving(id, false))
    ensures var t := Step(s, r, Commit(now));
            Moves(s, t, r) && t.replies == s.replies && t.db.rows == s.db.rows[id := DoneRowOf(s.db.rows[id], r, now)]
  {
    SaveIs(s, r, now);
    SavableDone(s.db.rows, r, id, now);
  }

  lemma LoadAndMarkRun(run: seq<(Request, Action)>, r: Request, id: nat)
    requires var s := Run(run);
             SessionOf(s, r) == FRESH && id in s.db.rows && Sees(s.db, r, id) && !s.db.rows[id].done
    ensures var (s, t) := (Run(run), Run(run + [(r, Load(id)), (r, SetDone)]));
            && Moves(s, t, r) && t.db == s.db && t.replies == s.replies && StateInv(t)
            && t.sessions[r] == Session(map[id := MarkedDone(Tracked(s.db.rows[id], s.db.rows[id], false, []))], [],
                                        Saving(id, false))
  {
    RunSnoc(run, r, Load(id));
    RunSnoc(run + [(r, Load(id))], r, SetDone);
    assert run + [(r, Load(id))] + [(r, SetDone)] == run + [(r, Load(id)), (r, SetDone)];
    RunKeepsStateInv(run + [(r, Load(id)), (r, SetDone)]);
    LoadAndMark(Run(run), r, id);
  }

  lemma Complete(run: seq<(Request, Action)>, r: Request, id: nat, now: nat)
    requires var s := Run(run);
             SessionOf(s, r) == FRESH && id in s.db.rows && Sees(s.db, r, id) && !s.db.rows[id].done && r.user.Some?
    ensures var (s, t) := (Run(run), Run(run + [(r, Load(id)), (r, SetDone), (r, Commit(now))]));
            Moves(s, t, r) && t.replies == s.replies && t.db.rows == s.db.rows[id := DoneRowOf(s.db.rows[id], r, now)]
  {
    var marked := run + [(r, Load(id)), (r, SetDone)];
    LoadAndMarkRun(run, r, id);
    RunSnoc(marked, r, Commit(now));
    assert marked + [(r, Commit(now))] == run + [(r, Load(id)), (r, SetDone), (r, Commit(now))];
    SaveDone(Run(marked), r, id, now);
  }

  // ---------- Identifiers of two tenants ----------

  lemma {:induction false} PurgedOfOthers(run: seq<(Request, Action)>, t: Option<string>)
    requires forall i | 0 <= i < |run| :: run[i].0.tenant != t
    ensures Purged(run, t) == []
  {
    if run != [] { PurgedOfOthers(run[..|run| - 1], t); }
  }

  lemma {:induction false} PurgedKeepsOwn(run: seq<(Request, Action)>, own: seq<(Request, Action)>, t: Option<string>)
    requires forall i | 0 <= i < |own| :: own[i].0.tenant == t
    ensures Purged(run + own, t) == Purged(run, t) + own
  {
    if own == [] {
      assert run + own == run;
    } else {
      PurgedKeepsOwn(run, own[..|own| - 1], t);
      assert (run + own)[..|run + own| - 1] == run + own[..|own| - 1];
    }
  }

  /** Two tenants are handed one identifier: the second one's todo cannot be saved, though it could have been
      had the first tenant not been there. */
  lemma CollisionIsNoticed(a: string, b: string, user: string, id: nat, name: string, now: nat)
    requires a != b && !IsBlank(name)
    ensures var (ra, rb) := (Request(0, Some(a), Some(user)), Request(1, Some(b), Some(user)));
            var first := [(ra, Action.Create(id, name, now)), (ra, Commit(now))];
            var second := [(rb, Action.Create(id, name, now)), (rb, Commit(now))];
            && Run(first + second).db.rows == map[id := CreatedRow(ra, id, name, now)]
            && Run(first + second).replies == [Answer(rb, Creates(id), Failed)]
            && Purged(first + second, Some(b)) == second
            && Run(second).db.rows == map[id := CreatedRow(rb, id, name, now)]
            && Run(second).replies == []
  {
    var (ra, rb) := (Request(0, Some(a), Some(user)), Request(1, Some(b), Some(user)));
    var first := [(ra, Action.Create(id, name, now)), (ra, Commit(now))];
    var second := [(rb, Action.Create(id, name, now)), (rb, Commit(now))];
    CreateAndSave([], ra, id, name, now);
    assert [] + first == first;
    CreateAndSave(first, rb, id, name, now);
    CreateAndSave([], rb, id, name, now);
    assert [] + second == second;
    PurgedOfOthers(first, Some(b));
    PurgedKeepsOwn(first, second, Some(b));
  }

  // ---------- Stale reads ----------

  /** A context that reads a todo, and reads it again after another request has completed it, is shown its
      first copy once more: the run is not a sequential one of the atomic store. And what the audit trail says
      of the completed todo lacks who completed it and when. */
  lemma StaleReadIsShown(tenant: string, user: string, id: nat, name: string, now: nat)
    requires !IsBlank(name)
    ensures var r := (n: nat) => Request(n, Some(tenant), Some(user));
            var row := CreatedRow(r(0), id, name, now);
            var run := [(r(0), Action.Create(id, name, now)), (r(0), Commit(now))] + [(r(1), Get(id))]
                       + [(r(2), Load(id)), (r(2), SetDone), (r(2), Commit(now))] + [(r(1), Get(id))];
            && Run(run).db.rows == map[id := DoneRowOf(row, r(2), now)]
            && Run(run).replies == [Answer(r(1), Reads(id), Found(row)), Answer(r(1), Reads(id), Found(row))]
            && !Sequential(History(run))
            && Replay(Run(run).db.audit, id) != Some(Columns(Run(run).db.rows[id]))
  {
    var r0 := Request(0, Some(tenant), Some(user));
    var (r1, r2) := (Request(1, Some(tenant), Some(user)), Request(2, Some(tenant), Some(user)));
    var row := CreatedRow(r0, id, name, now);
    var made := [(r0, Action.Create(id, name, now)), (r0, Commit(now))];
    var seen := made + [(r1, Get(id))];
    var completed := seen + [(r2, Load(id)), (r2, SetDone), (r2, Commit(now))];
    CreateAndSave([], r0, id, name, now);
    assert [] + made == made;
    SeenAndCompleted(made, r1, r2, id, row, now);
    QueryRun(completed, r1, id);
    StaleIsNotSequential(completed, r1, id);
    UnfailedTrailLacks(completed + [(r1, Get(id))], id);
  }

  lemma QueryRun(run: seq<(Request, Action)>, r: Request, id: nat)
    requires var s := Run(run); id in s.db.rows && Sees(s.db, r, id) && SessionOf(s, r).phase.Idle?
    ensures var (s, t) := (Run(run), Run(run + [(r, Get(id))]));
            var copy := Attached(SessionOf(s, r).tracker, id, s.db.rows[id]);
            && Moves(s, t, r) && t.db == s.db && t.replies == s.replies + [Answer(r, Reads(id), Found(copy.current))]
            && t.sessions[r] == SessionOf(s, r).(tracker := SessionOf(s, r).tracker[id := copy])
  {
    RunSnoc(run, r, Get(id));
    Query(Run(run), r, id);
  }

  /** One request has read a todo when another one completes it. */
  lemma SeenAndCompleted(made: seq<(Request, Action)>, reader: Request, writer: Request, id: nat, row: Todo, now: nat)
    requires reader != writer && writer.user.Some? && reader.tenant == writer.tenant == row.tenant && row.tenant.Some?
    requires var s := Run(made);
             && s.db.rows == map[id := row] && !row.done && s.replies == []
             && SessionOf(s, reader) == FRESH && SessionOf(s, writer) == FRESH
    ensures var t := Run(made + [(reader, Get(id))] + [(writer, Load(id)), (writer, SetDone), (writer, Commit(now))]);
            && t.db.rows == map[id := DoneRowOf(row, writer, now)]
            && t.replies == [Answer(reader, Reads(id), Found(row))]
            && SessionOf(t, reader) == Session(map[id := Tracked(row, row, false, [])], [], Idle)
  {
    QueryRun(made, reader, id);
    Complete(made + [(reader, Get(id))], writer, id, now);
  }

  /** When no request has failed, the trail lacks who completed a todo. */
  lemma {:induction false} UnfailedTrailLacks(run: seq<(Request, Action)>, id: nat)
    requires DoneRow(Run(run), id)
    requires forall i | 0 <= i < |Run(run).replies| :: Run(run).replies[i].result != Failed
    ensures Replay(Run(run).db.audit, id) != Some(Columns(Run(run).db.rows[id]))
  {
    UnfailedIsClean(run);
    CleanSavesIff(run);
    assert CleanFor(run, id);
    ToldOnceIff(run, id, Trail.Edit);
    ReplayIsCompleteIff(run, id);
  }

  /** Only a save that fails leaves audit rows behind, and its request is told. */
  lemma LeavesNothingUnsaved(db: Db, x: Session, r: Request, a: Action)
    requires x.unsaved == [] && Act(db, x, r, a).reply != Some(Failed)
    ensures Act(db, x, r, a).session.unsaved == []
  {
  }

  lemma {:induction false} UnfailedIsClean(run: seq<(Request, Action)>)
    requires forall i | 0 <= i < |Run(run).replies| :: Run(run).replies[i].result != Failed
    ensures CleanSaves(run) && forall r :: SessionOf(Run(run), r).unsaved == []
  {
    if run != [] {
      var (before, last) := (run[..|run| - 1], run[|run| - 1]);
      var (s, x) := (Run(before), SessionOf(Run(before), last.0));
      var o := Act(s.db, x, last.0, last.1);
      StepIs(s, last.0, last.1);
      assert s.replies <= Run(run).replies;
      UnfailedIsClean(before);
      if o.reply.Some? { assert Run(run).replies[|s.replies|].result == o.reply.value; }
      LeavesNothingUnsaved(s.db, x, last.0, last.1);
      forall r ensures SessionOf(Run(run), r).unsaved == [] {
        if r != last.0 { assert SessionOf(Run(run), r) == SessionOf(s, r); }
      }
      assert run[..|run| - 1] == before && CleanSaves(before);
    }
  }

  lemma {:induction false} StaleIsNotSequential(before: seq<(Request, Action)>, r: Request, id: nat)
    requires var (s, x) := (Run(before), SessionOf(Run(before), r));
             && x.phase.Idle? && id in s.db.rows && Sees(s.db, r, id)
             && id in x.tracker && x.tracker[id].current != s.db.rows[id]
    ensures !Sequential(History(before + [(r, Get(id))]))
  {
    var run := before + [(r, Get(id))];
    assert run[..|before|] == before;
    ShowsStoredIff(before, r, id);
    assert Queries(Run(before), r, Get(id), id);
    RunRefines(run);
  }

  // ---------- A save made good ----------

  /** The entity of a completion whose save has failed. */
  lemma FailedEntry(row: Todo, r: Request, now: nat)
    ensures var t := Stamped(MarkedDone(Tracked(row, row, false, [])), r, now);
            row.done || (StateOf(t) == Modified && t.events == [row.id])
  {
    assert [] + [row.id] == [row.id];
  }

  lemma FailedAnswer(s: State, r: Request, id: nat, now: nat)
    requires r in s.sessions && s.sessions[r].phase == Saving(id, false)
    ensures var (x, t) := (s.sessions[r], Step(s, r, SaveFails(now)));
            && Moves(s, t, r) && t.db == s.db && t.replies == s.replies + [Answer(r, Completes(id), Failed)]
            && t.sessions[r] == FailedSession(x, r, now)
  {
    SaveFailsIs(s.db, s.sessions[r], r, now);
    StepIs(s, r, SaveFails(now));
    assert s.posts + [] == s.posts;
  }

  /** A completion's save fails for want of a connection, and its context is asked to create a todo. */
  lemma FailAndCreate(s: State, r: Request, id: nat, other: nat, name: string, now: nat)
    requires r in s.sessions && id in s.db.rows && s.db.rows[id].id == id && !s.db.rows[id].done
    requires id != other && !IsBlank(name)
    requires s.sessions[r] ==
             Session(map[id := MarkedDone(Tracked(s.db.rows[id], s.db.rows[id], false, []))], [], Saving(id, false))
    ensures var t := Step(Step(s, r, SaveFails(now)), r, Action.Create(other, name, now));
            && Moves(s, t, r) && t.db == s.db && t.replies == s.replies + [Answer(r, Completes(id), Failed)]
            && t.sessions[r].phase == Saving(other, true) && t.sessions[r].unsaved != []
            && t.sessions[r].tracker.Keys == {id, other} && t.sessions[r].tracker[other] == NewEntry(other, name, now)
            && StateOf(t.sessions[r].tracker[id]) == Modified && t.sessions[r].tracker[id].events == [id]
  {
    var x := s.sessions[r];
    FailedAnswer(s, r, id, now);
    FailedEntry(s.db.rows[id], r, now);
    var u := Step(s, r, SaveFails(now));
    assert u.sessions[r].tracker == map[id := Stamped(x.tracker[id], r, now)];
    Create(u, r, other, name, now);
  }

  /** A context that is about to save a new todo, and still holds a completion that it has failed to save. */
  predicate HasBoth(s: State, r: Request, id: nat, other: nat, name: string, made: nat) {
    && r in s.sessions && r.tenant.Some? && r.user.Some? && id != other
    && id in s.db.rows && !s.db.rows[id].done && other !in s.db.rows
    && s.sessions[r].phase == Saving(other, true) && s.sessions[r].tracker.Keys == {id, other}
    && s.sessions[r].tracker[other] == NewEntry(other, name, made)
    && StateOf(s.sessions[r].tracker[id]) == Modified && s.sessions[r].tracker[id].events == [id]
  }

  lemma SavableBoth(s: State, r: Request, id: nat, other: nat, name: string, made: nat)
    requires HasBoth(s, r, id, other, name, made)
    ensures Savable(s.db.rows, s.sessions[r].tracker, r)
  {
    assert forall k | k in s.sessions[r].tracker :: k == id || k == other;
  }

  lemma SaveBoth(s: State, r: Request, id: nat, other: nat, name: string, made: nat, now: nat)
    requires StateInv(s) && HasBoth(s, r, id, other, name, made)
    ensures CommitsNow(s, r, Commit(now))
    ensures var t := Step(s, r, Commit(now));
            && r in t.sessions && t.sessions[r] == SavedSession(s.sessions[r], r, now) && DoneRow(t, id)
            && t.posts == s.posts && t.replies == s.replies
  {
    var x := s.sessions[r];
    SavableBoth(s, r, id, other, name, made);
    CommitsIff(s.db, x, r, now);
    SaveStep(s, r, now);
    StepIs(s, r, Commit(now));
    CommitIsSaved(s.db, x, r, now);
    CompletedRow(s.db, x, r, now, id);
    assert s.replies + [] == s.replies && s.posts + [] == s.posts;
  }

  lemma SavedEvents(x: Session, r: Request, now: nat, id: nat)
    requires x.phase.Saving? && id in x.tracker && x.tracker[id].events == [id]
    ensures var y := SavedSession(x, r, now);
            && y.phase.Publishing? && y.phase.queue == [] && id in y.phase.waiting
            && id in y.tracker && y.tracker[id].events == [id]
  {
  }

  /** The next save of the context commits both todos, and the event is dispatched and published. */
  lemma SaveBothAndPublish(s: State, r: Request, id: nat, other: nat, name: string, made: nat, now: nat)
    requires StateInv(s) && HasBoth(s, r, id, other, name, made)
    ensures CommitsNow(s, r, Commit(now))
    ensures var t := Step(Step(Step(s, r, Commit(now)), r, Dispatch(id)), r, Publish);
            t.posts == s.posts + [Post(r, DoneEvent(id))] && t.replies == s.replies && DoneRow(t, id)
  {
    SaveBoth(s, r, id, other, name, made, now);
    SavedEvents(s.sessions[r], r, now, id);
    DispatchAndPublish(Step(s, r, Commit(now)), r, id);
  }

  lemma DispatchAndPublish(s: State, r: Request, id: nat)
    requires r in s.sessions && s.sessions[r].phase.Publishing? && s.sessions[r].phase.queue == []
    requires id in s.sessions[r].phase.waiting && id in s.sessions[r].tracker &&
               s.sessions[r].tracker[id].events == [id]
    ensures var t := Step(Step(s, r, Dispatch(id)), r, Publish);
            t.posts == s.posts + [Post(r, DoneEvent(id))] && t.replies == s.replies && t.db == s.db
  {
    assert DoneEvents([id]) == [DoneEvent(id)];
    assert s.replies + [] == s.replies && s.posts + [] == s.posts;
  }

  /** A completion whose save fails, and which its request is told to have failed, is committed and published by the
      next save of the same context; and the audit trail then tells of it twice, the second time with who did it. */
  lemma {:induction false} FailedCompletionIsPublished(
    tenant: string, user: string, id: nat, other: nat, name: string, now: nat)
    requires !IsBlank(name) && id != other
    ensures var (r0, r1) := (Request(0, Some(tenant), Some(user)), Request(1, Some(tenant), Some(user)));
            var run := [(r0, Action.Create(id, name, now)), (r0, Commit(now))] + [(r1, Load(id)), (r1, SetDone)]
                       + [(r1, SaveFails(now)), (r1, Action.Create(other, name, now))]
                       + [(r1, Commit(now)), (r1, Dispatch(id)), (r1, Publish)];
            && Run(run).replies == [Answer(r1, Completes(id), Failed)]
            && Run(run).posts == [Post(r1, DoneEvent(id))] && DoneRow(Run(run), id)
            && !CleanSaves(run) && RowCount(Run(run).db.audit, id, Trail.Edit) >= 2
            && Replay(Run(run).db.audit, id) == Some(Columns(Run(run).db.rows[id]))
  {
    var (r0, r1) := (Request(0, Some(tenant), Some(user)), Request(1, Some(tenant), Some(user)));
    var made := [(r0, Action.Create(id, name, now)), (r0, Commit(now))];
    var marked := made + [(r1, Load(id)), (r1, SetDone)];
    var again := marked + [(r1, SaveFails(now)), (r1, Action.Create(other, name, now))];
    CreatedAndMarked(r0, r1, id, name, now);
    assert [] + made == made;
    RunOfTwo(marked, r1, SaveFails(now), Action.Create(other, name, now));
    FailAndCreate(Run(marked), r1, id, other, name, now);
    MadeGood(again, r1, id, other, name, now);
    ToldTwiceIsComplete(again + [(r1, Commit(now)), (r1, Dispatch(id)), (r1, Publish)], id);
  }

  lemma {:induction false} ToldTwiceIsComplete(run: seq<(Request, Action)>, id: nat)
    requires DoneRow(Run(run), id) && !CleanOf(run, id, Trail.Edit)
    ensures RowCount(Run(run).db.audit, id, Trail.Edit) >= 2
    ensures Replay(Run(run).db.audit, id) == Some(Columns(Run(run).db.rows[id]))
  {
    ToldOnceIff(run, id, Trail.Edit);
    ReplayIsCompleteIff(run, id);
  }

  lemma CreatedAndMarked(r0: Request, r1: Request, id: nat, name: string, now: nat)
    requires !IsBlank(name) && r0 != r1 && r0.user.Some? && r0.tenant.Some? && r0.tenant == r1.tenant
    ensures var s := Run([] + [(r0, Action.Create(id, name, now)), (r0, Commit(now))]
                            + [(r1, Load(id)), (r1, SetDone)]);
            && StateInv(s) && s.db.rows == map[id := CreatedRow(r0, id, name, now)] && s.posts == [] && s.replies == []
            && r1 in s.sessions
            && s.sessions[r1] == Session(map[id := MarkedDone(Tracked(s.db.rows[id], s.db.rows[id], false, []))], [],
                                         Saving(id, false))
  {
    CreateAndSave([], r0, id, name, now);
    LoadAndMarkRun([] + [(r0, Action.Create(id, name, now)), (r0, Commit(now))], r1, id);
  }

  lemma {:induction false} MadeGood(again: seq<(Request, Action)>, r: Request, id: nat, other: nat, name: string,
      now: nat)
    requires HasBoth(Run(again), r, id, other, name, now)
    ensures var (s, run) := (Run(again), again + [(r, Commit(now)), (r, Dispatch(id)), (r, Publish)]);
            && Run(run).posts == s.posts + [Post(r, DoneEvent(id))] && Run(run).replies == s.replies
            && DoneRow(Run(run), id) && !CleanSaves(run) && !CleanOf(run, id, Trail.Edit)
  {
    RunKeepsStateInv(again);
    SaveBothAndPublish(Run(again), r, id, other, name, now, now);
    RunOfThree(again, r, Commit(now), Dispatch(id), Publish);
    BothAreLeftOver(again, r, id, other, name, now);
    var more := [(r, Dispatch(id)), (r, Publish)];
    UncleanCommit(again, r, now, id, more);
    assert again + [(r, Commit(now))] + more == again + [(r, Commit(now)), (r, Dispatch(id)), (r, Publish)];
  }

  lemma {:induction false} BothAreLeftOver(run: seq<(Request, Action)>, r: Request, id: nat, other: nat, name: string,
      made: nat)
    requires HasBoth(Run(run), r, id, other, name, made)
    ensures Tells(SessionOf(Run(run), r).unsaved, id, Trail.Edit)
  {
    RunKeepsLeftovers(run, r);
    assert AccountedFor(SessionOf(Run(run), r), id);
  }

  lemma RunOfTwo(run: seq<(Request, Action)>, r: Request, a: Action, b: Action)
    ensures Run(run + [(r, a), (r, b)]) == Step(Step(Run(run), r, a), r, b)
  {
    RunSnoc(run, r, a);
    RunSnoc(run + [(r, a)], r, b);
    assert run + [(r, a)] + [(r, b)] == run + [(r, a), (r, b)];
  }

  lemma RunOfThree(run: seq<(Request, Action)>, r: Request, a: Action, b: Action, c: Action)
    ensures Run(run + [(r, a), (r, b), (r, c)]) == Step(Step(Step(Run(run), r, a), r, b), r, c)
  {
    RunOfTwo(run, r, a, b);
    RunSnoc(run + [(r, a), (r, b)], r, c);
    assert run + [(r, a), (r, b)] + [(r, c)] == run + [(r, a), (r, b), (r, c)];
  }

  lemma {:induction false} UncleanCommit(run: seq<(Request, Action)>, r: Request, now: nat, id: nat,
      more: seq<(Request, Action)>)
    requires CommitsNow(Run(run), r, Commit(now)) && Tells(SessionOf(Run(run), r).unsaved, id, Trail.Edit)
    ensures var all := run + [(r, Commit(now))] + more; !CleanSaves(all) && !CleanOf(all, id, Trail.Edit)
  {
    var all := run + [(r, Commit(now))] + more;
    if more == [] {
      assert all == run + [(r, Commit(now))] && all[..|all| - 1] == run;
    } else {
      UncleanCommit(run, r, now, id, more[..|more| - 1]);
      assert all[..|all| - 1] == run + [(r, Commit(now))] + more[..|more| - 1];
    }
  }
}
