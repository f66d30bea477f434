/** That every command is answered, and with what: each action's answer, and the commands over whole runs. */
module TodoReplies {
  import opened Prelude
  import opened Todos
  import opened TodoInvariant
  import opened TodoSafety

  // ---------- What each action answers ----------

  /** A query of one todo is always answered: NotFound exactly when the request's tenant has no such row, and
      otherwise the copy that the context tracks from then on, which is the row itself when it had none. */
  lemma GetIsAnswered(db: Db, x: Session, r: Request, id: nat)
    requires x.phase.Idle?
    ensures var o := Act(db, x, r, Get(id));
            && o.db == db && o.post.None? && o.session.phase.Idle? && o.session.unsaved == x.unsaved
            && if r.tenant.Some? && id in db.rows && db.rows[id].tenant == r.tenant then
                 && id in o.session.tracker && o.reply == Some(Found(o.session.tracker[id].current))
                 && o.session.tracker == x.tracker[id := o.session.tracker[id]]
                 && o.session.tracker[id] ==
                    (if id in x.tracker then x.tracker[id] else Tracked(db.rows[id], db.rows[id], false, []))
               else o.reply == Some(NotFound) && o.session == x
  {
  }

  /** A query of all todos is answered with those of the request's tenant, each of which is tracked from then on with
      the values it is listed with. */
  lemma GetAllIsAnswered(db: Db, x: Session, r: Request)
    requires x.phase.Idle?
    ensures var o := Act(db, x, r, GetAll);
            && o.db == db && o.post.None? && o.session.phase.Idle? && o.session.unsaved == x.unsaved
            && o.reply.Some? && o.reply.value.Listed?
            && (forall id :: id in o.reply.value.todos <==>
                               r.tenant.Some? && id in db.rows && db.rows[id].tenant == r.tenant)
            && (forall id | id in o.reply.value.todos ::
                  && id in o.session.tracker && o.session.tracker[id].current == o.reply.value.todos[id]
                  && (id !in x.tracker ==> o.session.tracker[id] == Tracked(db.rows[id], db.rows[id], false, [])))
            && (forall id :: id in o.session.tracker <==> id in x.tracker || id in o.reply.value.todos)
            && (forall id | id in x.tracker :: o.session.tracker[id] == x.tracker[id])
  {
  }

  /** A creation is answered at once exactly when its name is blank, with Invalid, or its identifier is tracked already;
      otherwise the new todo is tracked, to be saved. */
  lemma CreateIsAnswered(db: Db, x: Session, r: Request, id: nat, name: string, now: nat)
    requires x.phase.Idle?
    ensures var (o, todo) := (Act(db, x, r, Action.Create(id, name, now)),
                              Todo(id, name, false, None, None, now, None, None));
            && o.db == db && o.post.None?
            && (IsBlank(name) ==> o.reply == Some(Invalid) && o.session == x)
            && (!IsBlank(name) && id in x.tracker ==> o.reply == Some(Failed) && o.session == x)
            && (!IsBlank(name) && id !in x.tracker ==>
                  && o.reply.None?
                  && o.session == Session(x.tracker[id := Tracked(todo, todo, true, [])], x.unsaved, Saving(id, true)))
  {
  }

  /** The query of a completion is answered with NotFound exactly when the request's tenant has no such row; otherwise
      the todo is tracked, and the command goes on. */
  lemma LoadIsAnswered(db: Db, x: Session, r: Request, id: nat)
    requires x.phase.Idle?
    ensures var o := Act(db, x, r, Load(id));
            && o.db == db && o.post.None? && o.session.unsaved == x.unsaved
            && if r.tenant.Some? && id in db.rows && db.rows[id].tenant == r.tenant then
                 && o.reply.None? && o.session.phase == Loaded(id) && id in o.session.tracker
                 && o.session.tracker == x.tracker[id := o.session.tracker[id]]
                 && o.session.tracker[id] ==
                    (if id in x.tracker then x.tracker[id] else Tracked(db.rows[id], db.rows[id], false, []))
               else o.reply == Some(NotFound) && o.session == x
  {
  }

  /** The change in memory is answered with Conflict exactly when the copy says that it is done. */
  lemma SetDoneIsAnswered(db: Db, x: Session, r: Request)
    requires x.phase.Loaded? && x.phase.id in x.tracker
    ensures var (o, id, t) := (Act(db, x, r, SetDone), x.phase.id, x.tracker[x.phase.id]);
            && o.db == db && o.post.None? && o.session.unsaved == x.unsaved
            && if t.current.done then
                 o.reply == Some(Conflict) && o.session.phase.Idle? && o.session.tracker == x.tracker
               else
                 && o.reply.None? && o.session.phase == Saving(id, false)
                 && o.session.tracker == x.tracker[id := Tracked(t.original, t.current.(done := true), t.added,
                                                                  t.events + [t.current.id])]
  {
  }

  /** A save is answered with Failed exactly when it does not commit, and then nothing is stored; after a commit the
      request publishes. */
  lemma CommitIsAnswered(db: Db, x: Session, r: Request, now: nat)
    requires RowsInv(db.rows) && SessionInv(db.rows, r, x) && x.phase.Saving?
    ensures var o := Act(db, x, r, Commit(now));
            && o.post.None?
            && if Savable(db.rows, x.tracker, r) then
                 && o.reply.None? && o.session.phase.Publishing? && o.session.phase.id == x.phase.id
                 && o.session.phase.created == x.phase.created && o.session.phase.queue == []
                 && !o.session.phase.handling && o.session.unsaved == []
                 && (forall id :: id in o.session.phase.waiting <==> id in x.tracker && x.tracker[id].events != [])
               else o.reply == Some(Failed) && o.db == db && o.session.phase.Idle?
  {
    CommitsIff(db, x, r, now);
    CommitIsSaved(db, x, r, now);
  }

  lemma SaveFailsIsAnswered(db: Db, x: Session, r: Request, now: nat)
    requires x.phase.Saving?
    ensures var o := Act(db, x, r, SaveFails(now));
            o.reply == Some(Failed) && o.post.None? && o.db == db && o.session.phase.Idle?
  {
  }

  /** A request that has nothing left to publish gives the todo that its command created or completed. */
  lemma ReplyIsAnswered(db: Db, x: Session, r: Request)
    requires x.phase.Publishing? && x.phase.id in x.tracker
    ensures var (o, p) := (Act(db, x, r, Reply), x.phase);
            && o.db == db && o.post.None?
            && if p.waiting == {} && p.queue == [] then
                 && o.reply == Some(if p.created then Created(x.tracker[p.id].current)
                                    else Completed(x.tracker[p.id].current))
                 && o.session == Session(x.tracker, x.unsaved, Idle)
               else o.reply.None? && o.session == x
  {
  }

  /** A handler that throws ends the dispatch with an error, even where nothing was left to publish, and what has not
      been taken from its entities stays there. */
  lemma HandlerFailureIsAnswered(db: Db, x: Session, r: Request)
    requires x.phase.Publishing?
    ensures var o := Act(db, x, r, HandlerFails);
            && o.db == db && o.post.None?
            && if x.phase.handling then
                 o.reply == Some(FailedAfterCommit) && o.session == Session(x.tracker, x.unsaved, Idle)
               else o.reply.None? && o.session == x
  {
  }

  /** Nothing else is answered so. */
  lemma OnlyHandlerFailures(db: Db, x: Session, r: Request, a: Action)
    requires Act(db, x, r, a).reply == Some(FailedAfterCommit)
    ensures a.HandlerFails? && x.phase.Publishing? && x.phase.handling
  {
  }

  /** Taking an entity's events and publishing the next message answer nothing. */
  lemma PublishingIsNotAnswered(db: Db, x: Session, r: Request, id: nat)
    requires x.phase.Publishing? && id in x.tracker
    ensures var (o, p, t) := (Act(db, x, r, Dispatch(id)), x.phase, x.tracker[id]);
            && o.reply.None? && o.post.None? && o.db == db
            && (p.queue == [] && id in p.waiting ==>
                  && o.session.tracker == x.tracker[id := Tracked(t.original, t.current, t.added, [])]
                  && o.session.unsaved == x.unsaved && o.session.phase.Publishing?
                  && o.session.phase.id == p.id && o.session.phase.created == p.created
                  && o.session.phase.waiting == p.waiting - {id} && !o.session.phase.handling
                  && |o.session.phase.queue| == |t.events|
                  && forall i | 0 <= i < |t.events| :: o.session.phase.queue[i] == DoneEvent(t.events[i]))
    ensures var (o, p) := (Act(db, x, r, Publish), x.phase);
            && o.reply.None? && o.db == db
            && (p.queue != [] ==>
                  && o.post == Some(p.queue[0]) && o.session.tracker == x.tracker && o.session.unsaved == x.unsaved
                  && o.session.phase == Publishing(p.id, p.created, p.waiting,
                       (if p.queue[0].DoneEvent? then [DoneIntegrationEvent(p.queue[0].id)] else []) + p.queue[1..],
                       true))
  {
  }

  // ---------- The commands of a run and their answers ----------

  /** The command that an action starts on an idle context. */
  function StartedBy(a: Action): seq<Command> {
    match a
    case Create(id, _, _) => [Creates(id)]
    case Get(id) => [Reads(id)]
    case GetAll => [Lists]
    case Load(id) => [Completes(id)]
    case _ => []
  }

  /** The commands that a request has started, in order. */
  function Started(run: seq<(Request, Action)>, r: Request): seq<Command> {
    if run == [] then []
    else
      var (before, last) := (run[..|run| - 1], run[|run| - 1]);
      Started(before, r) + if last.0 == r && SessionOf(Run(before), r).phase.Idle? then StartedBy(last.1) else []
  }

  /** The commands that a request has been answered. */
  function Answered(replies: seq<Answer>, r: Request): seq<Command> {
    if replies == [] then []
    else
      var (init, last) := (replies[..|replies| - 1], replies[|replies| - 1]);
      if last.request == r then Answered(init, r) + [last.command] else Answered(init, r)
  }

  /** The command that it is busy with. */
  function Open(x: Session): seq<Command> {
    match x.phase
    case Idle => []
    case Loaded(id) => [Completes(id)]
    case Saving(id, created) => [if created then Creates(id) else Completes(id)]
    case Publishing(id, created, _, _, _) => [if created then Creates(id) else Completes(id)]
  }

  lemma ActKeepsCommands(db: Db, x: Session, r: Request, a: Action)
    ensures var o := Act(db, x, r, a);
            Open(x) + (if x.phase.Idle? then StartedBy(a) else []) ==
              (if o.reply.Some? then [CommandOf(x.phase, a)] else []) + Open(o.session)
  {
  }

  lemma AnsweredMore(replies: seq<Answer>, a: Answer, r: Request)
    ensures Answered(replies + [a], r) == Answered(replies, r) + if a.request == r then [a.command] else []
  {
    assert (replies + [a])[..|replies|] == replies;
  }

  lemma StepAnswered(s: State, q: Request, a: Action, r: Request)
    ensures var (x, o) := (SessionOf(s, q), Act(s.db, SessionOf(s, q), q, a));
            Answered(Step(s, q, a).replies, r) ==
              Answered(s.replies, r) + if q == r && o.reply.Some? then [CommandOf(x.phase, a)] else []
  {
    var (x, o) := (SessionOf(s, q), Act(s.db, SessionOf(s, q), q, a));
    StepIs(s, q, a);
    if o.reply.Some? {
      AnsweredMore(s.replies, Answer(q, CommandOf(x.phase, a), o.reply.value), r);
    } else {
      assert s.replies + [] == s.replies && Answered(s.replies, r) + [] == Answered(s.replies, r);
    }
  }

  lemma Rearranged(a: seq<Command>, open: seq<Command>, more: seq<Command>, b: seq<Command>, now: seq<Command>)
    requires open + more == b + now
    ensures a + open + more == a + b + now
  {
    assert a + open + more == a + (open + more);
  }

  /** A request is answered every command it starts, once and in order, and it has at most the last of them still to
      answer: none while it is idle. */
  lemma {:induction false} CommandsAreAnswered(run: seq<(Request, Action)>, r: Request)
    ensures Started(run, r) == Answered(Run(run).replies, r) + Open(SessionOf(Run(run), r))
  {
    if run != [] {
      var (before, last) := (run[..|run| - 1], run[|run| - 1]);
      var s := Run(before);
      CommandsAreAnswered(before, r);
      StepIs(s, last.0, last.1);
      StepAnswered(s, last.0, last.1, r);
      if last.0 == r {
        var (x, o) := (SessionOf(s, r), Act(s.db, SessionOf(s, r), r, last.1));
        ActKeepsCommands(s.db, x, r, last.1);
        Rearranged(Answered(s.replies, r), Open(x), if x.phase.Idle? then StartedBy(last.1) else [],
                   if o.reply.Some? then [CommandOf(x.phase, last.1)] else [], Open(o.session));
      }
    }
  }

  // ---------- Handlers that throw ----------

  /** The n-th action gives this answer. */
  predicate GivenAt(run: seq<(Request, Action)>, n: nat, a: Answer)
    requires n < |run|
  {
    Run(run[..n + 1]).replies == Run(run[..n]).replies + [a]
  }

  /** The n-th action makes a handler throw that runs for the request's dispatch. */
  predicate HandlerThrows(run: seq<(Request, Action)>, n: nat)
    requires n < |run|
  {
    var x := SessionOf(Run(run[..n]), run[n].0);
    run[n].1.HandlerFails? && x.phase.Publishing? && x.phase.handling
  }

  lemma AnswerAt(run: seq<(Request, Action)>, n: nat)
    requires n < |run|
    ensures var (s, r, a) := (Run(run[..n]), run[n].0, run[n].1);
            var o := Act(s.db, SessionOf(s, r), r, a);
            Run(run[..n + 1]).replies ==
              s.replies + if o.reply.Some? then [Answer(r, CommandOf(SessionOf(s, r).phase, a), o.reply.value)] else []
  {
    TodoInvariant.OneStep(run, n);
    StepIs(Run(run[..n]), run[n].0, run[n].1);
  }

  /** An answer says that a handler failed after the commit if and only if it is given where a handler throws; and
      where one throws, this answer is given. */
  lemma FailureIffHandlerThrew(run: seq<(Request, Action)>, n: nat)
    requires n < |run|
    ensures forall a | GivenAt(run, n, a) ::
              a.request == run[n].0 && (a.result == FailedAfterCommit <==> HandlerThrows(run, n))
    ensures HandlerThrows(run, n) ==> exists a :: GivenAt(run, n, a) && a.result == FailedAfterCommit
  {
    var (s, r, act) := (Run(run[..n]), run[n].0, run[n].1);
    var (x, o) := (SessionOf(s, r), Act(s.db, SessionOf(s, r), r, act));
    AnswerAt(run, n);
    if o.reply == Some(FailedAfterCommit) { OnlyHandlerFailures(s.db, x, r, act); }
    if HandlerThrows(run, n) {
      HandlerFailureIsAnswered(s.db, x, r);
      assert GivenAt(run, n, Answer(r, CommandOf(x.phase, act), FailedAfterCommit));
    }
    forall a | GivenAt(run, n, a) ensures o.reply.Some? && a == Answer(r, CommandOf(x.phase, act), o.reply.value) {
      LastOf(s.replies, a, Run(run[..n + 1]).replies);
    }
  }

  lemma LastOf(xs: seq<Answer>, a: Answer, ys: seq<Answer>)
    requires ys == xs + [a]
    ensures |ys| == |xs| + 1 && ys[|xs|] == a
  {
  }

  /** Every answer of a run is given by one of its actions. */
  lemma {:induction false} EachIsGiven(run: seq<(Request, Action)>, i: nat) returns (n: nat)
    requires i < |Run(run).replies|
    ensures n < |run| && |Run(run[..n]).replies| == i && GivenAt(run, n, Run(run).replies[i])
  {
    n := |run| - 1;
    var before := run[..n];
    assert run[..n + 1] == run;
    AnswerAt(run, n);
    if i < |Run(before).replies| {
      var k := n;
      n := EachIsGiven(before, i);
      assert before[..n] == run[..n] && before[..n + 1] == run[..n + 1];
    }
  }

  predicate Handling(x: Session) {
    x.phase.Publishing? && x.phase.handling
  }

  /** A handler runs only once its request has published a message, and done nothing since. */
  lemma {:induction false} ThrowsWhileHandling(run: seq<(Request, Action)>, r: Request) returns (m: nat)
    requires Handling(SessionOf(Run(run), r))
    ensures m < |run| && PublishesAt(run, m, r)
    ensures SessionOf(Run(run[..m + 1]), r) == SessionOf(Run(run), r)
  {
    m := |run| - 1;
    var before := run[..m];
    assert run[..m + 1] == run;
    HandlingStep(Run(before), run[m].0, run[m].1, r);
    if !PublishesAt(run, m, r) {
      var k := m;
      m := ThrowsWhileHandling(before, r);
      SamePublication(run, k, m, r);
    }
  }

  lemma SamePublication(run: seq<(Request, Action)>, k: nat, n: nat, r: Request)
    requires n < k <= |run|
    ensures run[..k][..n + 1] == run[..n + 1] && (PublishesAt(run[..k], n, r) <==> PublishesAt(run, n, r))
  {
    assert run[..k][..n] == run[..n];
  }

  /** The n-th action publishes a message of the request. */
  predicate PublishesAt(run: seq<(Request, Action)>, n: nat, r: Request)
    requires n < |run|
  {
    run[n] == (r, Publish) && |Run(run[..n + 1]).posts| == |Run(run[..n]).posts| + 1
  }

  lemma HandlingStep(s: State, q: Request, a: Action, r: Request)
    requires Handling(SessionOf(Step(s, q, a), r))
    ensures var t := Step(s, q, a);
            || (q == r && a == Publish && |t.posts| == |s.posts| + 1)
            || SessionOf(t, r) == SessionOf(s, r)
  {
    StepIs(s, q, a);
    if q == r { StartsHandling(s.db, SessionOf(s, r), r, a); }
  }

  lemma StartsHandling(db: Db, x: Session, r: Request, a: Action)
    requires Act(db, x, r, a).session.phase.Publishing? && Act(db, x, r, a).session.phase.handling
    ensures (a == Publish && Act(db, x, r, a).post.Some?) || Act(db, x, r, a).session == x
  {
  }

  // ---------- A committed command can be answered ----------

  /** What is left to do before a request that has committed can answer: three actions for each entity. */
  function Left(p: Phase): nat
    requires p.Publishing?
  {
    3 * |p.waiting| + if p.queue == [] then 0 else if p.queue[0].DoneEvent? then 2 else 1
  }

  /** The next thing to do. */
  ghost function Next(p: Phase): Action
    requires p.Publishing? && (p.waiting != {} || p.queue != [])
  {
    if p.queue != [] then Publish
    else
      var id :| id in p.waiting;
      Dispatch(id)
  }

  lemma NextIsLess(db: Db, x: Session, r: Request)
    requires RowsInv(db.rows) && SessionInv(db.rows, r, x) && x.phase.Publishing?
    requires x.phase.waiting != {} || x.phase.queue != []
    ensures var o := Act(db, x, r, Next(x.phase));
            && o.reply.None? && o.session.phase.Publishing? && Left(o.session.phase) < Left(x.phase)
            && o.session.phase.id == x.phase.id && o.session.phase.created == x.phase.created
            && x.phase.id in o.session.tracker
            && o.session.tracker[x.phase.id].current == x.tracker[x.phase.id].current
  {
    match Next(x.phase)
    case Publish => PublishingIsNotAnswered(db, x, r, x.phase.id);
    case Dispatch(id) =>
      assert Clean(db.rows, r, id, x.tracker[id]);
      PublishingIsNotAnswered(db, x, r, id);
      assert |x.phase.waiting - {id}| == |x.phase.waiting| - 1;
  }

  /** The state after some actions of one request. */
  function After(s: State, r: Request, actions: seq<Action>): State
    decreases |actions|
  {
    if actions == [] then s else After(Step(s, r, actions[0]), r, actions[1..])
  }

  /** What the request owes: the todo that its command created or completed. */
  function AnswerOwed(s: State, r: Request): Answer
    requires SessionOf(s, r).phase.Publishing? && SessionOf(s, r).phase.id in SessionOf(s, r).tracker
  {
    var (p, todo) := (SessionOf(s, r).phase, SessionOf(s, r).tracker[SessionOf(s, r).phase.id].current);
    if p.created then Answer(r, Creates(p.id), Created(todo)) else Answer(r, Completes(p.id), Completed(todo))
  }

  lemma NextStep(s: State, r: Request)
    requires StateInv(s) && SessionOf(s, r).phase.Publishing?
    requires SessionOf(s, r).phase.waiting != {} || SessionOf(s, r).phase.queue != []
    ensures SessionOf(s, r).phase.id in SessionOf(s, r).tracker
    ensures var t := Step(s, r, Next(SessionOf(s, r).phase));
            && StateInv(t) && t.replies == s.replies && SessionOf(t, r).phase.Publishing?
            && Left(SessionOf(t, r).phase) < Left(SessionOf(s, r).phase)
            && SessionOf(t, r).phase.id in SessionOf(t, r).tracker && AnswerOwed(t, r) == AnswerOwed(s, r)
  {
    var a := Next(SessionOf(s, r).phase);
    assert SessionInv(s.db.rows, r, SessionOf(s, r));
    NextIsLess(s.db, SessionOf(s, r), r);
    StepIs(s, r, a);
    StepKeepsStateInv(s, r, a);
    assert s.replies + [] == s.replies;
  }

  /** No request that has committed gets stuck: taking and publishing what is left, and no more than that, brings it to
      answer with the todo that it created or completed. */
  lemma {:induction false} CanAnswer(s: State, r: Request) returns (actions: seq<Action>)
    requires StateInv(s) && SessionOf(s, r).phase.Publishing? && SessionOf(s, r).phase.id in SessionOf(s, r).tracker
    ensures |actions| <= Left(SessionOf(s, r).phase) + 1
    ensures forall a | a in actions :: a.Dispatch? || a.Publish? || a.Reply?
    ensures SessionOf(After(s, r, actions), r).phase.Idle?
    ensures After(s, r, actions).replies == s.replies + [AnswerOwed(s, r)]
    decreases Left(SessionOf(s, r).phase)
  {
    var p := SessionOf(s, r).phase;
    if p.waiting == {} && p.queue == [] {
      actions := [Reply];
      LastReply(s, r);
    } else {
      NextStep(s, r);
      var rest := CanAnswer(Step(s, r, Next(p)), r);
      actions := [Next(p)] + rest;
      assert actions[0] == Next(p) && actions[1..] == rest;
    }
  }

  lemma LastReply(s: State, r: Request)
    requires SessionOf(s, r).phase.Publishing? && SessionOf(s, r).phase.id in SessionOf(s, r).tracker
    requires SessionOf(s, r).phase.waiting == {} && SessionOf(s, r).phase.queue == []
    ensures SessionOf(After(s, r, [Reply]), r).phase.Idle?
    ensures After(s, r, [Reply]).replies == s.replies + [AnswerOwed(s, r)]
  {
    assert [Reply][1..] == [] && After(s, r, [Reply]) == After(Step(s, r, Reply), r, []);
    ReplyIsAnswered(s.db, SessionOf(s, r), r);
    StepIs(s, r, Reply);
  }

  /** In a reachable state the entity that the answer shows is always tracked. */
  lemma {:induction false} CommittedCanAnswer(run: seq<(Request, Action)>, r: Request) returns (actions: seq<Action>)
    requires SessionOf(Run(run), r).phase.Publishing?
    ensures SessionOf(Run(run), r).phase.id in SessionOf(Run(run), r).tracker
    ensures SessionOf(After(Run(run), r, actions), r).phase.Idle?
    ensures After(Run(run), r, actions).replies == Run(run).replies + [AnswerOwed(Run(run), r)]
    ensures forall a | a in actions :: a.Dispatch? || a.Publish? || a.Reply?
  {
    RunKeepsStateInv(run);
    assert SessionInv(Run(run).db.rows, r, SessionOf(Run(run), r));
    actions := CanAnswer(Run(run), r);
  }
}
