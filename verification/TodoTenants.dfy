/** Tenants do not interfere: deleting every step of the others changes nothing a tenant can see. */
module TodoTenants {
  import opened Prelude
  import opened Todos
  import opened TodoInvariant
  import opened TodoOrigins

  // ---------- What belongs to one tenant ----------

  function RowsOf(rows: map<nat, Todo>, t: Option<string>): map<nat, Todo> {
    map id | id in rows && rows[id].tenant == t :: rows[id]
  }

  function BatchesOf(audit: seq<Batch>, t: Option<string>): seq<Batch> {
    if audit == [] then []
    else
      var (init, last) := (audit[..|audit| - 1], audit[|audit| - 1]);
      if last.request.tenant == t then BatchesOf(init, t) + [last] else BatchesOf(init, t)
  }

  function AnswersOf(replies: seq<Answer>, t: Option<string>): seq<Answer> {
    if replies == [] then []
    else
      var (init, last) := (replies[..|replies| - 1], replies[|replies| - 1]);
      if last.request.tenant == t then AnswersOf(init, t) + [last] else AnswersOf(init, t)
  }

  function PostsOf(posts: seq<Post>, t: Option<string>): seq<Post> {
    if posts == [] then []
    else
      var (init, last) := (posts[..|posts| - 1], posts[|posts| - 1]);
      if last.request.tenant == t then PostsOf(init, t) + [last] else PostsOf(init, t)
  }

  function DbOf(db: Db, t: Option<string>): Db {
    Db(RowsOf(db.rows, t), BatchesOf(db.audit, t))
  }

  /** The tenant's part of a state: its rows, its audit batches, its requests with their contexts, its answers
      and its published messages. */
  function Restricted(s: State, t: Option<string>): State {
    State(DbOf(s.db, t), map r | r in s.sessions && r.tenant == t :: s.sessions[r],
          AnswersOf(s.replies, t), PostsOf(s.posts, t))
  }

  /** The run without the other tenants' steps. */
  function Purged(run: seq<(Request, Action)>, t: Option<string>): seq<(Request, Action)> {
    if run == [] then []
    else
      var (init, last) := (run[..|run| - 1], run[|run| - 1]);
      if last.0.tenant == t then Purged(init, t) + [last] else Purged(init, t)
  }

  /** The context holds a new todo whose key another tenant's row has. */
  predicate Taken(rows: map<nat, Todo>, x: Session, r: Request, id: nat) {
    id in x.tracker && x.tracker[id].added && id in rows && rows[id].tenant != r.tenant
  }

  /** A save that the tenant's own rows would let through, of a context that holds such a todo: the one thing a
      tenant can notice of another, since the key constraint knows no tenants. */
  predicate Blocked(rows: map<nat, Todo>, x: Session, r: Request) {
    && x.phase.Saving? && Savable(RowsOf(rows, r.tenant), x.tracker, r)
    && exists id :: id in x.tracker && Taken(rows, x, r, id)
  }

  predicate Collides(s: State, r: Request, a: Action) {
    a.Commit? && Blocked(s.db.rows, SessionOf(s, r), r)
  }

  /** No step of the tenant's own requests collides. */
  predicate CollisionFree(run: seq<(Request, Action)>, t: Option<string>) {
    run == [] ||
    (var (before, last) := (run[..|run| - 1], run[|run| - 1]);
     CollisionFree(before, t) && (last.0.tenant == t ==> !Collides(Run(before), last.0, last.1)))
  }

  // ---------- One save ----------

  lemma BatchesOfSnoc(audit: seq<Batch>, b: Batch, t: Option<string>)
    ensures BatchesOf(audit + [b], t) == if b.request.tenant == t then BatchesOf(audit, t) + [b]
              else BatchesOf(audit, t)
  {
    assert (audit + [b])[..|audit|] == audit;
  }

  lemma {:induction false} BatchesOfRequest(audit: seq<Batch>, more: seq<Batch>, r: Request, t: Option<string>)
    requires forall b | b in more :: b.request == r
    ensures BatchesOf(audit + more, t) == if r.tenant == t then BatchesOf(audit, t) + more else BatchesOf(audit, t)
  {
    if more == [] {
      assert audit + more == audit && BatchesOf(audit, t) + [] == BatchesOf(audit, t);
    } else {
      var (init, last) := (more[..|more| - 1], more[|more| - 1]);
      BatchesOfRequest(audit, init, r, t);
      BatchesOfSnoc(audit + init, last, t);
      assert audit + more == audit + init + [last] && init + [last] == more;
    }
  }

  lemma CopyLocally(rows: map<nat, Todo>, r: Request, id: nat, t: Tracked)
    ensures Clean(RowsOf(rows, r.tenant), r, id, t) == Clean(rows, r, id, t)
    ensures DoneCopy(RowsOf(rows, r.tenant), r, id, t) == DoneCopy(rows, r, id, t)
    ensures BlockedCopy(RowsOf(rows, r.tenant), r, id, t) == BlockedCopy(rows, r, id, t)
    ensures Copy(RowsOf(rows, r.tenant), r, id, t) == Copy(rows, r, id, t)
  {
  }

  lemma RestrictedKeepsInv(rows: map<nat, Todo>, r: Request, x: Session)
    requires RowsInv(rows) && SessionInv(rows, r, x)
    ensures RowsInv(RowsOf(rows, r.tenant)) && SessionInv(RowsOf(rows, r.tenant), r, x)
  {
    forall id | id in x.tracker
      ensures Clean(RowsOf(rows, r.tenant), r, id, x.tracker[id]) == Clean(rows, r, id, x.tracker[id])
      ensures Copy(RowsOf(rows, r.tenant), r, id, x.tracker[id])
    {
      CopyLocally(rows, r, id, x.tracker[id]);
    }
    if x.phase.Saving? { CopyLocally(rows, r, x.phase.id, x.tracker[x.phase.id]); }
    if x.phase.Publishing? { assert Clean(rows, r, x.phase.id, x.tracker[x.phase.id]); }
  }

  lemma FreeLocally(rows: map<nat, Todo>, x: Session, r: Request, id: nat)
    requires id in x.tracker && Copy(rows, r, id, x.tracker[id])
    ensures var own := RowsOf(rows, r.tenant);
            && (Free(rows, id, x.tracker[id], r) ==> Free(own, id, x.tracker[id], r))
            && (Free(own, id, x.tracker[id], r) ==> Free(rows, id, x.tracker[id], r) || Taken(rows, x, r, id))
            && (Taken(rows, x, r, id) ==> !Free(rows, id, x.tracker[id], r))
  {
  }

  /** The whole table lets a save through exactly if the tenant's own rows do and no key is taken by others. */
  lemma SavableLocally(rows: map<nat, Todo>, x: Session, r: Request)
    requires Copies(rows, r, x.tracker)
    ensures Savable(rows, x.tracker, r) <==>
              Savable(RowsOf(rows, r.tenant), x.tracker, r) && !exists id :: id in x.tracker && Taken(rows, x, r, id)
  {
    forall id | id in x.tracker
      ensures var own := RowsOf(rows, r.tenant);
              Free(rows, id, x.tracker[id], r) <==> Free(own, id, x.tracker[id], r) && !Taken(rows, x, r, id)
    {
      FreeLocally(rows, x, r, id);
    }
  }

  /** A save writes rows of its own tenant only, over rows of its own only. */
  lemma SavedRowsAreOwn(rows: map<nat, Todo>, x: Session, r: Request, now: nat, id: nat)
    requires RowsInv(rows) && Copies(rows, r, x.tracker) && Savable(rows, x.tracker, r)
    requires id in Saves(x.tracker, r, now)
    ensures Saves(x.tracker, r, now)[id].tenant == r.tenant && (id in rows ==> rows[id].tenant == r.tenant)
  {
    WrittenRow(rows, r, id, x.tracker[id], now);
  }

  lemma SavedRowsOf(rows: map<nat, Todo>, saves: map<nat, Todo>, own: Option<string>, t: Option<string>)
    requires forall id | id in saves :: saves[id].tenant == own && (id in rows ==> rows[id].tenant == own)
    ensures RowsOf(rows + saves, t) == if t == own then RowsOf(rows, t) + saves else RowsOf(rows, t)
  {
    var (a, b) := (RowsOf(rows + saves, t), if t == own then RowsOf(rows, t) + saves else RowsOf(rows, t));
    forall id ensures (id in a <==> id in b) && (id in b ==> a[id] == b[id]) {}
    SameMap(a, b);
  }

  /** What a committed save is to each tenant: all of it to its own, nothing to the others. */
  lemma CommittedFor(db: Db, x: Session, r: Request, now: nat, t: Option<string>)
    requires RowsInv(db.rows) && SessionInv(db.rows, r, x) && Commits(db, x.tracker, r, now)
    ensures DbOf(Committed(db, x, r, now), t) ==
              if t == r.tenant
              then Db(RowsOf(db.rows, t) + Saves(x.tracker, r, now),
                      BatchesOf(db.audit, t) + x.unsaved + [BatchOf(x.tracker, r, now)])
              else DbOf(db, t)
  {
    CommitsIff(db, x, r, now);
    CommittedRows(db, x, r, now);
    var saves := Saves(x.tracker, r, now);
    forall id | id in saves ensures saves[id].tenant == r.tenant && (id in db.rows ==> db.rows[id].tenant == r.tenant) {
      SavedRowsAreOwn(db.rows, x, r, now, id);
    }
    SavedRowsOf(db.rows, saves, r.tenant, t);
    CommittedBatches(db.audit, x.unsaved, BatchOf(x.tracker, r, now), r, t);
  }

  lemma CommittedBatches(audit: seq<Batch>, unsaved: seq<Batch>, b: Batch, r: Request, t: Option<string>)
    requires (forall u | u in unsaved :: u.request == r) && b.request == r
    ensures BatchesOf(audit + unsaved + [b], t) ==
              if t == r.tenant then BatchesOf(audit, t) + unsaved + [b] else BatchesOf(audit, t)
  {
    BatchesOfRequest(audit, unsaved, r, t);
    BatchesOfSnoc(audit + unsaved, b, t);
  }

  /** A save on the whole database and one on the tenant's own part of it: they agree on whether to commit,
      and on what is then the tenant's part. */
  lemma {:induction false} SavedLocally(db: Db, x: Session, r: Request, now: nat)
    requires RowsInv(db.rows) && SessionInv(db.rows, r, x) && x.phase.Saving? && !Blocked(db.rows, x, r)
    ensures Commits(DbOf(db, r.tenant), x.tracker, r, now) <==> Commits(db, x.tracker, r, now)
    ensures Commits(db, x.tracker, r, now) ==>
              Committed(DbOf(db, r.tenant), x, r, now) == DbOf(Committed(db, x, r, now), r.tenant)
  {
    var own := DbOf(db, r.tenant);
    RestrictedKeepsInv(db.rows, r, x);
    CommitsIff(db, x, r, now);
    CommitsIff(own, x, r, now);
    SavableLocally(db.rows, x, r);
    if Commits(db, x.tracker, r, now) {
      CommittedFor(db, x, r, now, r.tenant);
      CommittedRows(own, x, r, now);
    }
  }

  lemma {:induction false} SavedElsewhere(db: Db, x: Session, r: Request, now: nat, t: Option<string>)
    requires RowsInv(db.rows) && SessionInv(db.rows, r, x) && x.phase.Saving? && r.tenant != t
    ensures DbOf(Saved(db, x, r, now).db, t) == DbOf(db, t)
  {
    if Commits(db, x.tracker, r, now) { CommittedFor(db, x, r, now, t); }
  }

  // ---------- One action ----------

  lemma {:induction false} SaveActsLocally(db: Db, x: Session, r: Request, now: nat)
    requires RowsInv(db.rows) && SessionInv(db.rows, r, x) && x.phase.Saving? && !Blocked(db.rows, x, r)
    ensures var (o, p) := (Saved(db, x, r, now), Saved(DbOf(db, r.tenant), x, r, now));
            p == o.(db := DbOf(o.db, r.tenant))
  {
    SavedLocally(db, x, r, now);
  }

  lemma OthersActLocally(db: Db, x: Session, r: Request, a: Action)
    requires !(a.Commit? && x.phase.Saving?)
    ensures var (o, p) := (Act(db, x, r, a), Act(DbOf(db, r.tenant), x, r, a));
            p == o.(db := DbOf(db, r.tenant)) && o.db == db
  {
    var own := DbOf(db, r.tenant);
    forall id ensures Sees(own, r, id) <==> Sees(db, r, id) {}
    if a.GetAll? && x.phase.Idle? {
      assert Seen(own, x.tracker, r) == Seen(db, x.tracker, r);
    }
  }

  lemma {:induction false} ActLocally(db: Db, x: Session, r: Request, a: Action)
    requires RowsInv(db.rows) && SessionInv(db.rows, r, x)
    requires a.Commit? ==> !Blocked(db.rows, x, r)
    ensures var (o, p) := (Act(db, x, r, a), Act(DbOf(db, r.tenant), x, r, a));
            p == o.(db := DbOf(o.db, r.tenant))
  {
    if a.Commit? && x.phase.Saving? {
      CommitIsSaved(db, x, r, a.now);
      CommitIsSaved(DbOf(db, r.tenant), x, r, a.now);
      SaveActsLocally(db, x, r, a.now);
    } else {
      OthersActLocally(db, x, r, a);
    }
  }

  lemma {:induction false} ActElsewhere(db: Db, x: Session, r: Request, a: Action, t: Option<string>)
    requires RowsInv(db.rows) && SessionInv(db.rows, r, x) && r.tenant != t
    ensures DbOf(Act(db, x, r, a).db, t) == DbOf(db, t)
  {
    if a.Commit? && x.phase.Saving? {
      CommitIsSaved(db, x, r, a.now);
      SavedElsewhere(db, x, r, a.now, t);
    } else {
      OnlySavesWrite(db, x, r, a);
    }
  }

  // ---------- One step ----------

  lemma LogsSnoc(s: State, r: Request, c: Command, o: Outcome, t: Option<string>)
    ensures AnswersOf(Applied(s, r, c, o).replies, t) ==
            AnswersOf(s.replies, t) + (if o.reply.Some? && r.tenant == t then [Answer(r, c, o.reply.value)] else [])
    ensures PostsOf(Applied(s, r, c, o).posts, t) ==
            PostsOf(s.posts, t) + (if o.post.Some? && r.tenant == t then [Post(r, o.post.value)] else [])
  {
    if o.reply.Some? { assert (s.replies + [Answer(r, c, o.reply.value)])[..|s.replies|] == s.replies; }
    else { assert s.replies + [] == s.replies; }
    if o.post.Some? { assert (s.posts + [Post(r, o.post.value)])[..|s.posts|] == s.posts; }
    else { assert s.posts + [] == s.posts; }
  }

  lemma AppliedElsewhere(s: State, r: Request, c: Command, o: Outcome, t: Option<string>)
    requires r.tenant != t && DbOf(o.db, t) == DbOf(s.db, t)
    ensures Restricted(Applied(s, r, c, o), t) == Restricted(s, t)
  {
    LogsSnoc(s, r, c, o, t);
    assert AnswersOf(s.replies, t) + [] == AnswersOf(s.replies, t);
    assert PostsOf(s.posts, t) + [] == PostsOf(s.posts, t);
  }

  lemma AppliedLocally(s: State, r: Request, c: Command, o: Outcome)
    ensures Restricted(Applied(s, r, c, o), r.tenant) ==
            Applied(Restricted(s, r.tenant), r, c, o.(db := DbOf(o.db, r.tenant)))
  {
    LogsSnoc(s, r, c, o, r.tenant);
    var (t, u) := (Restricted(Applied(s, r, c, o), r.tenant), Applied(Restricted(s, r.tenant), r, c,
                                                                     o.(db := DbOf(o.db, r.tenant))));
    assert t.sessions == u.sessions;
    assert t.replies == u.replies && t.posts == u.posts;
  }

  /** A step of another tenant leaves the tenant's part of the state as it is. */
  lemma StepElsewhere(s: State, r: Request, a: Action, t: Option<string>)
    requires StateInv(s) && r.tenant != t
    ensures Restricted(Step(s, r, a), t) == Restricted(s, t)
  {
    var x := SessionOf(s, r);
    assert SessionInv(s.db.rows, r, x);
    ActElsewhere(s.db, x, r, a, t);
    AppliedElsewhere(s, r, CommandOf(x.phase, a), Act(s.db, x, r, a), t);
  }

  /** A step of the tenant's own does to its part of the state what it does to the whole. */
  lemma StepLocally(s: State, r: Request, a: Action)
    requires StateInv(s) && !Collides(s, r, a)
    ensures Restricted(Step(s, r, a), r.tenant) == Step(Restricted(s, r.tenant), r, a)
  {
    var x := SessionOf(s, r);
    assert SessionOf(Restricted(s, r.tenant), r) == x && SessionInv(s.db.rows, r, x);
    ActLocally(s.db, x, r, a);
    AppliedLocally(s, r, CommandOf(x.phase, a), Act(s.db, x, r, a));
  }

  /** A collision leaves its mark for good: the tenant's own part alone would have stored the row, while the
      whole has it under the other tenant. */
  predicate Marked(whole: map<nat, Todo>, own: map<nat, Todo>, t: Option<string>) {
    exists id :: id in own && id in whole && whole[id].tenant != t
  }

  lemma CollisionMarks(s: State, r: Request, a: Action)
    requires StateInv(s) && Collides(s, r, a)
    ensures Marked(Step(s, r, a).db.rows, Step(Restricted(s, r.tenant), r, a).db.rows, r.tenant)
  {
    var (x, own) := (SessionOf(s, r), Restricted(s, r.tenant));
    assert SessionOf(own, r) == x && SessionInv(s.db.rows, r, x);
    RestrictedKeepsInv(s.db.rows, r, x);
    CommitsIff(s.db, x, r, a.now);
    CommitsIff(own.db, x, r, a.now);
    SavableLocally(s.db.rows, x, r);
    CommittedRows(own.db, x, r, a.now);
    SaveStep(s, r, a.now);
    SaveStep(own, r, a.now);
    var id :| id in x.tracker && Taken(s.db.rows, x, r, id);
    assert id in Saves(x.tracker, r, a.now);
  }

  lemma {:induction false} MarkStays(s: State, p: State, r: Request, a: Action, t: Option<string>)
    requires StateInv(s) && StateInv(p) && Marked(s.db.rows, p.db.rows, t)
    ensures Marked(Step(s, r, a).db.rows, p.db.rows, t)
    ensures Marked(Step(s, r, a).db.rows, Step(p, r, a).db.rows, t)
  {
    StepKeepsStateInv(s, r, a);
    StepKeepsStateInv(p, r, a);
    var id :| id in p.db.rows && id in s.db.rows && s.db.rows[id].tenant != t;
    assert id in Step(s, r, a).db.rows && id in Step(p, r, a).db.rows;
  }

  // ---------- Whole runs ----------

  /** Exactly one of two holds of every run: the purged run leads exactly to the tenant's part of the state,
      or there was a collision and its mark is there. */
  lemma {:induction false} PurgeOrMark(run: seq<(Request, Action)>, t: Option<string>)
    ensures CollisionFree(run, t) ==> Run(Purged(run, t)) == Restricted(Run(run), t)
    ensures !CollisionFree(run, t) ==> Marked(Run(run).db.rows, Run(Purged(run, t)).db.rows, t)
  {
    if run == [] {
      assert Restricted(START, t) == START;
    } else {
      var (before, last) := (run[..|run| - 1], run[|run| - 1]);
      PurgeOrMark(before, t);
      RunKeepsStateInv(before);
      RunKeepsStateInv(Purged(before, t));
      RunSnoc(Purged(before, t), last.0, last.1);
      var s := Run(before);
      if !CollisionFree(before, t) {
        MarkStays(s, Run(Purged(before, t)), last.0, last.1, t);
      } else if last.0.tenant != t {
        StepElsewhere(s, last.0, last.1, t);
      } else if Collides(s, last.0, last.1) {
        CollisionMarks(s, last.0, last.1);
      } else {
        StepLocally(s, last.0, last.1);
      }
    }
  }

  /** Non-interference, exactly: for any interleaved run of any tenants' requests, deleting every step of the
      other tenants leaves the tenant's rows, audit batches, contexts, answers and published messages the
      same if and only if no save of the tenant's met another tenant's row under the same key. */
  lemma {:induction false} TenantsDoNotInterfere(run: seq<(Request, Action)>, t: Option<string>)
    ensures Run(Purged(run, t)) == Restricted(Run(run), t) <==> CollisionFree(run, t)
  {
    PurgeOrMark(run, t);
    if !CollisionFree(run, t) {
      var own := Run(Purged(run, t)).db.rows;
      var id :| id in own && id in Run(run).db.rows && Run(run).db.rows[id].tenant != t;
      assert id !in Restricted(Run(run), t).db.rows;
    }
  }

  // ---------- Unique identifiers ----------

  /** No two tenants are ever handed the same identifier for a new todo. */
  predicate IdsApart(run: seq<(Request, Action)>) {
    forall i, j | 0 <= i < |run| && 0 <= j < |run| && run[i].1.Create? && run[j].1.Create? &&
        run[i].1.id == run[j].1.id ::
      run[i].0.tenant == run[j].0.tenant
  }

  /** With identifiers that are unique across tenants no save collides, and so tenants do not interfere. */
  lemma {:induction false} UniqueIdsAreCollisionFree(run: seq<(Request, Action)>, t: Option<string>)
    requires IdsApart(run)
    ensures CollisionFree(run, t)
    ensures Run(Purged(run, t)) == Restricted(Run(run), t)
  {
    TenantsDoNotInterfere(run, t);
    if run != [] {
      var (before, last) := (run[..|run| - 1], run[|run| - 1]);
      UniqueIdsAreCollisionFree(before, t);
      var (s, r) := (Run(before), last.0);
      if Collides(s, r, last.1) {
        var id :| id in SessionOf(s, r).tracker && Taken(s.db.rows, SessionOf(s, r), r, id);
        OneTenantEach(before, r, id);
      }
    }
  }

  /** A row and an entity about to be added under its key are of one tenant. */
  lemma OneTenantEach(run: seq<(Request, Action)>, r: Request, id: nat)
    requires IdsApart(run) && id in Run(run).db.rows
    requires id in SessionOf(Run(run), r).tracker && SessionOf(Run(run), r).tracker[id].added
    ensures Run(run).db.rows[id].tenant == r.tenant
  {
    var i := AddedIsMade(run, r, id);
    var n := StoredIsCreated(run, id);
    var j := RowIsMade(run, n, id);
    assert run[i].1.id == run[j].1.id;
  }
}
