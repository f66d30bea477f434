/** One todo's completion over whole runs: who has it to publish or to answer, and what has been. */
module TodoSafety {
  import opened Prelude
  import opened AuditTrail
  import opened Todos
  import opened TodoInvariant

  // ---------- What one todo's completion leaves with requests ----------

  predicate DoneRow(s: State, id: nat) {
    id in s.db.rows && s.db.rows[id].done
  }

  predicate Posted(s: State, m: Message) {
    exists i :: 0 <= i < |s.posts| && s.posts[i].message == m
  }

  /** The answer tells a request that asked for the todo's completion that it has been committed. */
  predicate Wins(a: Answer, id: nat) {
    a.command == Completes(id) && (a.result.Completed? || a.result.FailedAfterCommit?)
  }

  predicate Won(s: State, id: nat) {
    exists i :: 0 <= i < |s.replies| && Wins(s.replies[i], id)
  }

  /** The event of a committed completion that has not been published: with its entity, or taken from it. */
  predicate HoldsEvent(x: Session, id: nat) {
    || (id in x.tracker && !x.tracker[id].added && x.tracker[id].original == x.tracker[id].current
        && x.tracker[id].events == [id])
    || (x.phase.Publishing? && x.phase.queue == [DoneEvent(id)])
  }

  /** The event has been published, and its handler has still to publish the integration event. */
  predicate Relays(x: Session, id: nat) {
    x.phase.Publishing? && x.phase.queue == [DoneIntegrationEvent(id)]
  }

  /** The request has committed the completion that it was asked for and has not answered yet. */
  predicate Finishing(x: Session, id: nat) {
    x.phase.Publishing? && !x.phase.created && x.phase.id == id
  }

  predicate Owns(s: State, r: Request, id: nat) {
    r in s.sessions && (HoldsEvent(s.sessions[r], id) || Relays(s.sessions[r], id) || Finishing(s.sessions[r], id))
  }

  ghost predicate OwnerInv(s: State, x: Session, id: nat) {
    && DoneRow(s, id)
    && (HoldsEvent(x, id) ==> !Posted(s, DoneEvent(id)) && !Relays(x, id))
    && (Relays(x, id) ==> Posted(s, DoneEvent(id)) && !Posted(s, DoneIntegrationEvent(id)))
    && (Finishing(x, id) ==> !Won(s, id) && (HoldsEvent(x, id) || Relays(x, id) || Posted(s, DoneIntegrationEvent(id))))
  }

  ghost predicate OwnersInv(s: State, id: nat) {
    && (forall r, q | Owns(s, r, id) && Owns(s, q, id) :: r == q)
    && (forall r | Owns(s, r, id) :: OwnerInv(s, s.sessions[r], id))
  }

  predicate PostsInv(s: State, id: nat) {
    && (forall i | 0 <= i < |s.posts| && s.posts[i].message.id == id :: DoneRow(s, id))
    && (forall i, j | 0 <= i < j < |s.posts| && s.posts[i].message.id == id :: s.posts[i].message != s.posts[j].message)
    && (Posted(s, DoneIntegrationEvent(id)) ==> Posted(s, DoneEvent(id)))
  }

  predicate RepliesInv(s: State, id: nat) {
    && (forall i | 0 <= i < |s.replies| && Wins(s.replies[i], id) :: WinInv(s, s.replies[i], id))
    && (forall i, j | 0 <= i < j < |s.replies| && Wins(s.replies[i], id) :: !Wins(s.replies[j], id))
  }

  predicate WinInv(s: State, a: Answer, id: nat) {
    && DoneRow(s, id)
    && (a.result.Completed? ==>
          a.result.todo == s.db.rows[id] && Posted(s, DoneEvent(id)) && Posted(s, DoneIntegrationEvent(id)))
  }

  /** For one todo: at most one request has its completion to publish or to answer; what has been published or
      answered of it is stored, and has been so once. */
  ghost predicate OnceInv(s: State, id: nat) {
    OwnersInv(s, id) && PostsInv(s, id) && RepliesInv(s, id)
  }

  // ---------- Steps, seen from one todo ----------

  predicate DoneRowKept(s: State, t: State, id: nat) {
    DoneRow(s, id) ==> DoneRow(t, id) && t.db.rows[id] == s.db.rows[id]
  }

  /** Nobody else moves. */
  predicate OnlyMoved(s: State, t: State, r: Request) {
    r in t.sessions && t.sessions == s.sessions[r := t.sessions[r]]
  }

  /** Whatever was posted of the todo was so before, in the same order. */
  predicate SamePosts(s: State, t: State, id: nat) {
    s.posts <= t.posts && forall i | |s.posts| <= i < |t.posts| :: t.posts[i].message.id != id
  }

  predicate SameWins(s: State, t: State, id: nat) {
    s.replies <= t.replies && forall i | |s.replies| <= i < |t.replies| :: !Wins(t.replies[i], id)
  }

  lemma PostedOfSame(s: State, t: State, id: nat)
    requires SamePosts(s, t, id)
    ensures Posted(t, DoneEvent(id)) <==> Posted(s, DoneEvent(id))
    ensures Posted(t, DoneIntegrationEvent(id)) <==> Posted(s, DoneIntegrationEvent(id))
  {
    forall m: Message | m.id == id ensures Posted(t, m) <==> Posted(s, m) {
      if Posted(s, m) {
        var i :| 0 <= i < |s.posts| && s.posts[i].message == m;
        assert t.posts[i].message == m;
      }
      if Posted(t, m) {
        var i :| 0 <= i < |t.posts| && t.posts[i].message == m;
        assert i < |s.posts| && s.posts[i].message == m;
      }
    }
  }

  lemma PostsKept(s: State, t: State, id: nat)
    requires PostsInv(s, id) && DoneRowKept(s, t, id) && SamePosts(s, t, id)
    ensures PostsInv(t, id)
  {
    PostedOfSame(s, t, id);
    forall i | 0 <= i < |t.posts| && t.posts[i].message.id == id ensures i < |s.posts| && t.posts[i] == s.posts[i] {}
  }

  lemma WonOfSame(s: State, t: State, id: nat)
    requires SameWins(s, t, id)
    ensures Won(t, id) <==> Won(s, id)
    ensures forall i | 0 <= i < |t.replies| && Wins(t.replies[i], id) :: i < |s.replies| && t.replies[i] == s.replies[i]
  {
    if Won(s, id) {
      var i :| 0 <= i < |s.replies| && Wins(s.replies[i], id);
      assert Wins(t.replies[i], id);
    }
    if Won(t, id) {
      var i :| 0 <= i < |t.replies| && Wins(t.replies[i], id);
      assert Wins(s.replies[i], id);
    }
  }

  lemma RepliesKept(s: State, t: State, id: nat)
    requires RepliesInv(s, id) && DoneRowKept(s, t, id) && SameWins(s, t, id)
    requires Posted(s, DoneEvent(id)) ==> Posted(t, DoneEvent(id))
    requires Posted(s, DoneIntegrationEvent(id)) ==> Posted(t, DoneIntegrationEvent(id))
    ensures RepliesInv(t, id)
  {
    WonOfSame(s, t, id);
    forall i | 0 <= i < |t.replies| && Wins(t.replies[i], id) ensures WinInv(t, t.replies[i], id) {
      assert Wins(s.replies[i], id) && WinInv(s, s.replies[i], id);
    }
    forall i, j | 0 <= i < j < |t.replies| && Wins(t.replies[i], id) ensures !Wins(t.replies[j], id) {
      assert Wins(s.replies[i], id);
    }
  }

  /** The other requests' part of the owners' invariant. */
  lemma OthersOwn(s: State, t: State, r: Request, id: nat)
    requires OnlyMoved(s, t, r)
    ensures forall q | q != r :: Owns(t, q, id) <==> Owns(s, q, id)
    ensures forall q | q != r && Owns(t, q, id) :: t.sessions[q] == s.sessions[q]
  {
  }

  /** The moved session has of the todo's completion what it had, or has given up some of it. */
  predicate NoMoreThan(x: Session, y: Session, id: nat) {
    && (HoldsEvent(y, id) ==> HoldsEvent(x, id))
    && (Relays(y, id) ==> Relays(x, id))
    && (Finishing(y, id) ==>
          Finishing(x, id) && (HoldsEvent(x, id) ==> HoldsEvent(y, id)) && (Relays(x, id) ==> Relays(y, id)))
  }

  lemma QuietKeepsOnce(s: State, t: State, r: Request, id: nat)
    requires OnceInv(s, id) && OnlyMoved(s, t, r) && DoneRowKept(s, t, id)
    requires SamePosts(s, t, id) && SameWins(s, t, id)
    requires NoMoreThan(SessionOf(s, r), t.sessions[r], id)
    ensures OnceInv(t, id)
  {
    PostedOfSame(s, t, id);
    WonOfSame(s, t, id);
    PostsKept(s, t, id);
    RepliesKept(s, t, id);
    OthersOwn(s, t, r, id);
    if Owns(t, r, id) { assert r in s.sessions && Owns(s, r, id); }
    forall q | Owns(t, q, id) ensures Owns(s, q, id) && OwnerInv(t, t.sessions[q], id) {
      assert OwnerInv(s, s.sessions[q], id);
    }
  }

  lemma NothingFor(s: State, id: nat)
    requires OnceInv(s, id) && !DoneRow(s, id)
    ensures !Posted(s, DoneEvent(id)) && !Posted(s, DoneIntegrationEvent(id)) && !Won(s, id)
    ensures forall r :: !Owns(s, r, id)
  {
    forall r ensures Owns(s, r, id) ==> OwnerInv(s, s.sessions[r], id) {}
    if Won(s, id) { WonIsDone(s, id); }
  }

  lemma WonIsDone(s: State, id: nat)
    requires RepliesInv(s, id) && Won(s, id)
    ensures DoneRow(s, id)
  {
    var i :| 0 <= i < |s.replies| && Wins(s.replies[i], id);
    assert WinInv(s, s.replies[i], id);
  }

  /** A committed completion: the row was not done, so nothing had been published or answered of it. */
  lemma CompletionKeepsOnce(s: State, t: State, r: Request, id: nat)
    requires OnceInv(s, id) && OnlyMoved(s, t, r) && t.posts == s.posts && t.replies == s.replies
    requires !DoneRow(s, id) && DoneRow(t, id)
    requires HoldsEvent(t.sessions[r], id) && !Relays(t.sessions[r], id)
    ensures OnceInv(t, id)
  {
    NothingFor(s, id);
    assert SamePosts(s, t, id) && SameWins(s, t, id);
    PostedOfSame(s, t, id);
    WonOfSame(s, t, id);
    PostsKept(s, t, id);
    RepliesKept(s, t, id);
    OthersOwn(s, t, r, id);
  }

  lemma OneMorePost(s: State, t: State, p: Post)
    requires t.posts == s.posts + [p]
    ensures forall m :: Posted(t, m) <==> Posted(s, m) || m == p.message
  {
    forall m ensures Posted(t, m) <==> Posted(s, m) || m == p.message {
      if Posted(s, m) {
        var i :| 0 <= i < |s.posts| && s.posts[i].message == m;
        assert t.posts[i].message == m;
      }
      if m == p.message { assert t.posts[|s.posts|].message == m; }
    }
  }

  /** A publication: the message leaves the one queue that holds it. */
  lemma PublicationKeepsOnce(s: State, t: State, r: Request, id: nat, m: Message)
    requires OnceInv(s, id) && OnlyMoved(s, t, r) && r in s.sessions && t.db == s.db && t.replies == s.replies
    requires m.id == id && t.posts == s.posts + [Post(r, m)]
    requires s.sessions[r].phase.Publishing? && s.sessions[r].phase.queue == [m]
    requires t.sessions[r] ==
             s.sessions[r].(phase := s.sessions[r].phase.(queue := HandlerOutput(m), handling := true))
    requires id in s.sessions[r].tracker && s.sessions[r].tracker[id].events == []
    ensures OnceInv(t, id)
  {
    var (x, y) := (s.sessions[r], t.sessions[r]);
    OneMorePost(s, t, Post(r, m));
    assert Owns(s, r, id) && OwnerInv(s, x, id);
    assert !Posted(s, m) && DoneRow(s, id);
    assert !HoldsEvent(y, id) && (Relays(y, id) <==> m == DoneEvent(id)) && (Finishing(y, id) <==> Finishing(x, id));
    OthersOwn(s, t, r, id);
    assert SameWins(s, t, id);
    WonOfSame(s, t, id);
    RepliesKept(s, t, id);
    assert forall i | 0 <= i < |s.posts| :: s.posts[i].message != m;
    forall i, j | 0 <= i < j < |t.posts| && t.posts[i].message.id == id
      ensures t.posts[i].message != t.posts[j].message
    {
      assert t.posts[i] == s.posts[i];
    }
  }

  /** The answer to a completion: its request stops finishing. */
  lemma AnswerKeepsOnce(s: State, t: State, r: Request, id: nat, a: Answer)
    requires OnceInv(s, id) && OnlyMoved(s, t, r) && r in s.sessions && t.db == s.db && t.posts == s.posts
    requires Wins(a, id) && t.replies == s.replies + [a] && Finishing(s.sessions[r], id)
    requires t.sessions[r] == s.sessions[r].(phase := Idle)
    requires a.result.Completed? ==>
               && a.result.todo == s.db.rows[id]
               && !HoldsEvent(s.sessions[r], id) && !Relays(s.sessions[r], id)
    ensures OnceInv(t, id)
  {
    var x := s.sessions[r];
    assert Owns(s, r, id) && OwnerInv(s, x, id);
    assert SamePosts(s, t, id);
    PostedOfSame(s, t, id);
    PostsKept(s, t, id);
    OthersOwn(s, t, r, id);
    assert forall q | Owns(t, q, id) :: q == r && OwnerInv(t, t.sessions[q], id);
    OneMoreWin(s, t, a, id);
  }

  lemma OneMoreWin(s: State, t: State, a: Answer, id: nat)
    requires RepliesInv(s, id) && t.db == s.db && t.posts == s.posts && t.replies == s.replies + [a] && !Won(s, id)
    requires WinInv(s, a, id)
    ensures RepliesInv(t, id)
  {
    assert SamePosts(s, t, id);
    PostedOfSame(s, t, id);
    assert forall i | 0 <= i < |s.replies| :: t.replies[i] == s.replies[i] && !Wins(s.replies[i], id);
    assert forall i | 0 <= i < |t.replies| && Wins(t.replies[i], id) :: i == |s.replies|;
  }

  // ---------- The actions of a request, seen from one todo ----------

  /** A save that commits would complete the todo. */
  predicate WouldComplete(x: Session, id: nat) {
    id in x.tracker && StateOf(x.tracker[id]) == Modified
  }

  /** An action that publishes nothing of the todo, answers no completion of it, and gives its request nothing
      more of it. */
  predicate Quiet(db: Db, x: Session, r: Request, a: Action, id: nat) {
    var o := Act(db, x, r, a);
    && NoMoreThan(x, o.session, id)
    && (o.post.Some? ==> o.post.value.id != id)
    && (o.reply.Some? && (o.reply.value.Completed? || o.reply.value.FailedAfterCommit?) ==> !Finishing(x, id))
  }

  lemma FailedSaveGivesNothing(rows: map<nat, Todo>, x: Session, r: Request, now: nat, id: nat)
    requires Copies(rows, r, x.tracker)
    ensures NoMoreThan(x, FailedSession(x, r, now), id)
  {
    if id in x.tracker { OnlyChangesAreStamped(rows, r, id, x.tracker[id], now); }
  }

  lemma SavedEntry(rows: map<nat, Todo>, x: Session, r: Request, now: nat, id: nat)
    requires x.phase.Saving? && id in x.tracker
    requires Copy(rows, r, id, x.tracker[id]) && Free(rows, id, x.tracker[id], r)
    ensures var (t, y) := (x.tracker[id], SavedSession(x, r, now));
            && HoldsEvent(y, id) == (y.tracker[id].events == [id]) && y.tracker[id].events == t.events
            && (StateOf(t) == Modified ==> t.events == [id])
            && (StateOf(t) == Unchanged ==> !t.added && t.original == t.current)
            && (StateOf(t) == Added ==> t.events == [])
  {
    OnlyChangesAreStamped(rows, r, id, x.tracker[id], now);
  }

  lemma SaveGivesCompletedOnly(rows: map<nat, Todo>, x: Session, r: Request, now: nat, id: nat)
    requires SessionInv(rows, r, x) && x.phase.Saving? && Savable(rows, x.tracker, r)
    ensures var y := SavedSession(x, r, now);
            if WouldComplete(x, id) then HoldsEvent(y, id) && !Relays(y, id) else NoMoreThan(x, y, id)
  {
    var y := SavedSession(x, r, now);
    NothingTaken(y, id);
    if id in x.tracker {
      assert Copy(rows, r, id, x.tracker[id]) && Free(rows, id, x.tracker[id], r);
      SavedEntry(rows, x, r, now, id);
      if !WouldComplete(x, id) { NotFinishing(rows, x, r, y, id); }
    } else {
      NotFinishing(rows, x, r, y, id);
    }
  }

  lemma NothingTaken(y: Session, id: nat)
    requires y.phase.Publishing? && y.phase.queue == []
    ensures !Relays(y, id) && (HoldsEvent(y, id) ==> id in y.tracker && y.tracker[id].events == [id])
  {
  }

  /** A save that does not complete the todo is of another command. */
  lemma NotFinishing(rows: map<nat, Todo>, x: Session, r: Request, y: Session, id: nat)
    requires SessionInv(rows, r, x) && x.phase.Saving? && y.phase.Publishing? && !WouldComplete(x, id)
    requires y.phase.id == x.phase.id && y.phase.created == x.phase.created && !Relays(y, id)
    requires id in x.tracker ==> Free(rows, id, x.tracker[id], r)
    requires HoldsEvent(y, id) ==> HoldsEvent(x, id)
    ensures NoMoreThan(x, y, id)
  {
  }

  lemma DispatchGivesNothing(db: Db, x: Session, r: Request, k: nat, id: nat)
    requires SessionInv(db.rows, r, x) && x.phase.Publishing?
    ensures Quiet(db, x, r, Dispatch(k), id)
  {
    if x.phase.queue == [] && k in x.phase.waiting && k in x.tracker {
      assert Clean(db.rows, r, k, x.tracker[k]);
      assert DoneEvents([k]) == [DoneEvent(k)];
    }
  }

  /** Publishing takes the one message there is. */
  lemma PublishedMessage(db: Db, x: Session, r: Request)
    requires x.phase.Publishing? && QueueInv(x.tracker, x.phase.queue) && x.phase.queue != []
    ensures x.phase.queue == [x.phase.queue[0]]
    ensures Act(db, x, r, Publish) ==
            Outcome(db, x.(phase := x.phase.(queue := HandlerOutput(x.phase.queue[0]), handling := true)),
                    None, Some(x.phase.queue[0]))
  {
    var queue := x.phase.queue;
    assert queue[1..] == [];
    assert HandlerOutput(queue[0]) + [] == HandlerOutput(queue[0]);
  }

  lemma PublishOfOthersIsQuiet(db: Db, x: Session, r: Request, id: nat)
    requires x.phase.Publishing? && QueueInv(x.tracker, x.phase.queue)
    requires x.phase.queue != [] ==> x.phase.queue[0].id != id
    ensures Quiet(db, x, r, Publish, id)
  {
    if x.phase.queue != [] { PublishedMessage(db, x, r); }
  }

  lemma StartIsQuiet(db: Db, x: Session, r: Request, a: Action, id: nat)
    requires SessionInv(db.rows, r, x) && (x.phase.Idle? || x.phase.Loaded?)
    ensures Quiet(db, x, r, a, id)
  {
    if x.phase.Loaded? {
      if a.SetDone? { MarkingGivesNothing(db, x, r, id); }
    } else {
      assert NoMoreThan(x, Act(db, x, r, a).session, id);
    }
  }

  lemma MarkingGivesNothing(db: Db, x: Session, r: Request, id: nat)
    requires SessionInv(db.rows, r, x) && x.phase.Loaded?
    ensures NoMoreThan(x, Completing(db, x, x.phase.id).session, id)
  {
    assert Copy(db.rows, r, x.phase.id, x.tracker[x.phase.id]);
  }

  lemma SaveFailsIs(db: Db, x: Session, r: Request, now: nat)
    requires x.phase.Saving?
    ensures Act(db, x, r, SaveFails(now)) == Outcome(db, FailedSession(x, r, now), Some(Failed), None)
  {
  }

  lemma SavingIsQuiet(db: Db, x: Session, r: Request, a: Action, id: nat)
    requires Copies(db.rows, r, x.tracker) && x.phase.Saving? && !a.Commit?
    ensures Quiet(db, x, r, a, id)
  {
    if a.SaveFails? {
      SaveFailsIs(db, x, r, a.now);
      FailedSaveGivesNothing(db.rows, x, r, a.now, id);
    } else {
      assert Act(db, x, r, a) == NothingDone(db, x);
    }
  }

  /** The end of publishing: what the request answers, and that nothing is left where it answers success. */
  lemma EndOfPublishing(db: Db, x: Session, r: Request, a: Action)
    requires SessionInv(db.rows, r, x) && x.phase.Publishing? && (a.Reply? || a.HandlerFails?)
    ensures var o := Act(db, x, r, a);
            && o.db == db && o.post.None? && (o.reply.None? ==> o.session == x)
            && (o.reply.Some? ==> o.session == x.(phase := Idle))
            && (o.reply.Some? && !x.phase.created ==>
                  o.reply.value in {Completed(db.rows[x.phase.id]), FailedAfterCommit})
            && (o.reply.Some? && o.reply.value.Completed? ==> x.phase.waiting == {} && x.phase.queue == [])
  {
  }

  lemma NothingWaiting(x: Session, id: nat)
    requires x.phase.Publishing? && x.phase.waiting == Holding(x.tracker) && x.phase.waiting == {} &&
               x.phase.queue == []
    ensures !HoldsEvent(x, id) && !Relays(x, id)
  {
    assert id in x.tracker ==> (x.tracker[id].events != [] <==> id in Holding(x.tracker));
  }

  lemma EndIsQuiet(db: Db, x: Session, r: Request, a: Action, id: nat)
    requires SessionInv(db.rows, r, x) && x.phase.Publishing? && (a.Reply? || a.HandlerFails?)
    requires Finishing(x, id) ==> Act(db, x, r, a).reply.None?
    ensures Quiet(db, x, r, a, id)
  {
    EndOfPublishing(db, x, r, a);
  }

  // ---------- Steps ----------

  /** A step moves one session, and adds what it answers and publishes. */
  lemma StepIs(s: State, r: Request, a: Action)
    ensures var (x, t) := (SessionOf(s, r), Step(s, r, a));
            var o := Act(s.db, x, r, a);
            && OnlyMoved(s, t, r) && t.sessions[r] == o.session && t.db == o.db
            && t.replies == s.replies +
                (if o.reply.Some? then [Answer(r, CommandOf(x.phase, a), o.reply.value)] else [])
            && t.posts == s.posts + (if o.post.Some? then [Post(r, o.post.value)] else [])
  {
  }

  lemma QuietStep(s: State, r: Request, a: Action, id: nat)
    requires OnceInv(s, id) && DoneRowKept(s, Step(s, r, a), id) && Quiet(s.db, SessionOf(s, r), r, a, id)
    ensures OnceInv(Step(s, r, a), id)
  {
    StepIs(s, r, a);
    WinsFinish(SessionOf(s, r), r, a, Act(s.db, SessionOf(s, r), r, a), id);
    QuietKeepsOnce(s, Step(s, r, a), r, id);
  }

  lemma WinsFinish(x: Session, r: Request, a: Action, o: Outcome, id: nat)
    requires o.reply.Some? && (o.reply.value.Completed? || o.reply.value.FailedAfterCommit?) ==> !Finishing(x, id)
    requires o.reply.Some? && (o.reply.value.Completed? || o.reply.value.FailedAfterCommit?) ==> x.phase.Publishing?
    ensures o.reply.Some? ==> !Wins(Answer(r, CommandOf(x.phase, a), o.reply.value), id)
  {
  }

  lemma CommitKeepsOnce(s: State, r: Request, now: nat, id: nat)
    requires StateInv(s) && OnceInv(s, id) && SessionOf(s, r).phase.Saving?
    ensures OnceInv(Step(s, r, Commit(now)), id)
  {
    var x := SessionOf(s, r);
    StepKeepsStateInv(s, r, Commit(now));
    CommitIsSaved(s.db, x, r, now);
    if Commits(s.db, x.tracker, r, now) {
      CommitsIff(s.db, x, r, now);
      SaveGivesCompletedOnly(s.db.rows, x, r, now, id);
      if WouldComplete(x, id) {
        CompletedRow(s.db, x, r, now, id);
        CompletingSave(s, r, now, id);
      } else {
        QuietStep(s, r, Commit(now), id);
      }
    } else {
      FailedSaveGivesNothing(s.db.rows, x, r, now, id);
      QuietStep(s, r, Commit(now), id);
    }
  }

  lemma CompletedRow(db: Db, x: Session, r: Request, now: nat, id: nat)
    requires RowsInv(db.rows) && SessionInv(db.rows, r, x) && Commits(db, x.tracker, r, now) && WouldComplete(x, id)
    ensures id in db.rows && !db.rows[id].done
    ensures id in Committed(db, x, r, now).rows && Committed(db, x, r, now).rows[id].done
  {
    CommitsIff(db, x, r, now);
    CommittedRows(db, x, r, now);
    assert Free(db.rows, id, x.tracker[id], r) && Copy(db.rows, r, id, x.tracker[id]);
    WrittenRow(db.rows, r, id, x.tracker[id], now);
  }

  lemma CompletingSave(s: State, r: Request, now: nat, id: nat)
    requires OnceInv(s, id)
    requires var x := SessionOf(s, r);
             && x.phase.Saving? && Commits(s.db, x.tracker, r, now)
             && id in s.db.rows && !s.db.rows[id].done
             && id in Committed(s.db, x, r, now).rows && Committed(s.db, x, r, now).rows[id].done
    requires var y := SavedSession(SessionOf(s, r), r, now); HoldsEvent(y, id) && !Relays(y, id)
    ensures OnceInv(Step(s, r, Commit(now)), id)
  {
    StepIs(s, r, Commit(now));
    CommitIsSaved(s.db, SessionOf(s, r), r, now);
    assert s.replies + [] == s.replies && s.posts + [] == s.posts;
    CompletionKeepsOnce(s, Step(s, r, Commit(now)), r, id);
  }

  lemma PublishKeepsOnce(s: State, r: Request, id: nat)
    requires OnceInv(s, id) && SessionOf(s, r).phase.Publishing? && SessionInv(s.db.rows, r, SessionOf(s, r))
    ensures OnceInv(Step(s, r, Publish), id)
  {
    var x := SessionOf(s, r);
    if x.phase.queue != [] && x.phase.queue[0].id == id {
      PublishedMessage(s.db, x, r);
      StepIs(s, r, Publish);
      assert s.replies + [] == s.replies;
      PublicationKeepsOnce(s, Step(s, r, Publish), r, id, x.phase.queue[0]);
    } else {
      PublishOfOthersIsQuiet(s.db, x, r, id);
      OnlySavesWrite(s.db, x, r, Publish);
      QuietStep(s, r, Publish, id);
    }
  }

  lemma EndKeepsOnce(s: State, r: Request, a: Action, id: nat)
    requires OnceInv(s, id) && SessionOf(s, r).phase.Publishing? && SessionInv(s.db.rows, r, SessionOf(s, r))
    requires a.Reply? || a.HandlerFails?
    ensures OnceInv(Step(s, r, a), id)
  {
    var x := SessionOf(s, r);
    EndOfPublishing(s.db, x, r, a);
    var o := Act(s.db, x, r, a);
    if o.reply.Some? && Finishing(x, id) {
      if o.reply.value.Completed? { NothingWaiting(x, id); }
      StepIs(s, r, a);
      assert s.posts + [] == s.posts;
      AnswerKeepsOnce(s, Step(s, r, a), r, id, Answer(r, CommandOf(x.phase, a), o.reply.value));
    } else {
      EndIsQuiet(s.db, x, r, a, id);
      QuietStep(s, r, a, id);
    }
  }

  lemma PublishingKeepsOnce(s: State, r: Request, a: Action, id: nat)
    requires OnceInv(s, id) && SessionOf(s, r).phase.Publishing? && SessionInv(s.db.rows, r, SessionOf(s, r))
    ensures OnceInv(Step(s, r, a), id)
  {
    var x := SessionOf(s, r);
    if a.Publish? {
      PublishKeepsOnce(s, r, id);
    } else if a.Reply? || a.HandlerFails? {
      EndKeepsOnce(s, r, a, id);
    } else {
      OnlySavesWrite(s.db, x, r, a);
      if a.Dispatch? { DispatchGivesNothing(s.db, x, r, a.id, id); }
      QuietStep(s, r, a, id);
    }
  }

  lemma StepKeepsOnce(s: State, r: Request, a: Action, id: nat)
    requires StateInv(s) && OnceInv(s, id)
    ensures OnceInv(Step(s, r, a), id)
  {
    var x := SessionOf(s, r);
    assert SessionInv(s.db.rows, r, x);
    if a.Commit? && x.phase.Saving? {
      CommitKeepsOnce(s, r, a.now, id);
    } else if x.phase.Publishing? {
      PublishingKeepsOnce(s, r, a, id);
    } else {
      OnlySavesWrite(s.db, x, r, a);
      if x.phase.Saving? { SavingIsQuiet(s.db, x, r, a, id); } else { StartIsQuiet(s.db, x, r, a, id); }
      QuietStep(s, r, a, id);
    }
  }

  lemma {:induction false} RunKeepsOnce(run: seq<(Request, Action)>, id: nat)
    ensures OnceInv(Run(run), id)
  {
    if run != [] {
      var before := run[..|run| - 1];
      RunKeepsOnce(before, id);
      RunKeepsStateInv(before);
      StepKeepsOnce(Run(before), run[|run| - 1].0, run[|run| - 1].1, id);
    }
  }
}
