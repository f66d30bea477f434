/** What requests are answered is what their operations result in. */
module TodoAnswers {
  import opened Prelude
  import opened AuditTrail
  import opened Todos
  import opened TodoInvariant
  import opened TodoSafety
  import opened TodoStore
  import opened TodoHistory
  import opened TodoReplies

  /** The results of those operations that their commands have not been told to have failed. */
  function Told(effects: seq<Effect>): seq<Result> {
    if effects == [] then []
    else
      var (init, last) := (effects[..|effects| - 1], effects[|effects| - 1]);
      if last.told then Told(init) + [last.result] else Told(init)
  }

  /** The results that the history holds for one request. */
  function ResultsOf(h: seq<Entry>, r: Request): seq<Result> {
    if h == [] then []
    else
      var (init, last) := (h[..|h| - 1], h[|h| - 1]);
      if last.request == r && last.effect.told then ResultsOf(init, r) + [last.effect.result] else ResultsOf(init, r)
  }

  /** The answers a request has got, apart from those that say that it failed. */
  function AnswersTo(replies: seq<Answer>, r: Request): seq<Result> {
    if replies == [] then []
    else
      var (init, last) := (replies[..|replies| - 1], replies[|replies| - 1]);
      if last.request == r && last.result != Failed then AnswersTo(init, r) + [last.result] else AnswersTo(init, r)
  }

  /** The answer that a request which has committed still has to give. */
  function Owed(x: Session): seq<Result> {
    if x.phase.Publishing? && x.phase.id in x.tracker then
      var todo := x.tracker[x.phase.id].current;
      [if x.phase.created then Created(todo) else Completed(todo)]
    else []
  }

  /** An answer is the result itself, or, where a handler threw after the commit, an error in its place. */
  predicate Agrees(result: Result, answer: Result) {
    answer == result || (answer == FailedAfterCommit && (result.Completed? || result.Created?))
  }

  predicate AllAgree(results: seq<Result>, answers: seq<Result>) {
    |results| == |answers| && forall i | 0 <= i < |results| :: Agrees(results[i], answers[i])
  }

  /** The answers of an action, apart from that of a failure. */
  function Given(o: Outcome): seq<Result> {
    if o.reply.Some? && o.reply.value != Failed then [o.reply.value] else []
  }

  /** The answers given and owed keep up with the result, if there is one. */
  predicate Balanced(owed: seq<Result>, given: seq<Result>, owing: seq<Result>, result: seq<Result>) {
    || (|result| == 1 && owed == [] && given + owing == result)
    || (result == [] && given == [] && owing == owed)
    || (result == [] && owing == [] && |owed| == |given| == 1 && Agrees(owed[0], given[0]))
  }

  /** What one action adds to the results of its request, and to its answers given and owed. */
  ghost predicate Accounts(db: Db, x: Session, r: Request, a: Action) {
    var o := Act(db, x, r, a);
    Balanced(Owed(x), Given(o), Owed(o.session), Told(Effects(db, x, r, a)))
  }

  lemma StillAgree(results: seq<Result>, answers: seq<Result>,
                   owed: seq<Result>, given: seq<Result>, owing: seq<Result>, result: seq<Result>)
    requires AllAgree(results, answers + owed) && Balanced(owed, given, owing, result)
    ensures AllAgree(results + result, answers + given + owing)
  {
    if |result| == 1 {
      assert answers + given + owing == answers + result;
    } else if given == [] {
      assert answers + given + owing == answers + owed;
    }
  }

  // ---------- One action ----------

  lemma ToldOne(e: Effect)
    ensures Told([e]) == if e.told then [e.result] else []
  {
    assert [e][..0] == [];
  }

  lemma ToldSnoc(effects: seq<Effect>, e: Effect)
    ensures Told(effects + [e]) == if e.told then Told(effects) + [e.result] else Told(effects)
  {
    assert (effects + [e])[..|effects|] == effects;
  }

  /** Of what a save commits, the one operation of its own command is told. */
  lemma {:induction false} ToldOfSaved(x: Session, r: Request, now: nat, n: nat)
    requires x.phase.Saving? && Changed(x.tracker, x.phase.id)
    ensures Told(SavedOps(x, r, now, n)) == if x.phase.id < n then [SavedOp(x, r, now, x.phase.id).result] else []
  {
    if n > 0 {
      ToldOfSaved(x, r, now, n - 1);
      ToldOfOneMore(x, r, now, n - 1);
      ToldUpTo(Told(SavedOps(x, r, now, n - 1)), Told(SavedOps(x, r, now, n)),
               SavedOp(x, r, now, x.phase.id).result, x.phase.id, n - 1);
    }
  }

  lemma ToldUpTo(before: seq<Result>, after: seq<Result>, result: Result, id: nat, n: nat)
    requires before == if id < n then [result] else []
    requires after == if id == n then before + [result] else before
    ensures after == if id < n + 1 then [result] else []
  {
  }

  lemma ToldOfOneMore(x: Session, r: Request, now: nat, id: nat)
    requires x.phase.Saving?
    ensures var before := SavedOps(x, r, now, id);
            Told(SavedOps(x, r, now, id + 1)) ==
            if Changed(x.tracker, id) && x.phase.id == id then Told(before) + [SavedOp(x, r, now, id).result]
            else Told(before)
  {
    if Changed(x.tracker, id) {
      assert SavedOp(x, r, now, id).told <==> x.phase.id == id;
      ToldSnoc(SavedOps(x, r, now, id), SavedOp(x, r, now, id));
    }
  }

  lemma OwedAfterSave(rows: map<nat, Todo>, x: Session, r: Request, now: nat)
    requires SessionInv(rows, r, x) && x.phase.Saving? && Savable(rows, x.tracker, r)
    ensures Changed(x.tracker, x.phase.id)
    ensures Owed(SavedSession(x, r, now)) == [SavedOp(x, r, now, x.phase.id).result]
  {
    var id := x.phase.id;
    SavedIsChanged(rows, x.tracker[id], r, id, x.phase.created);
    OwedOf(SavedSession(x, r, now), x.phase.created, Stamped(x.tracker[id], r, now).current);
  }

  lemma SavedIsChanged(rows: map<nat, Todo>, t: Tracked, r: Request, id: nat, created: bool)
    requires if created then NewCopy(r, id, t) else DoneCopy(rows, r, id, t) || BlockedCopy(rows, r, id, t)
    requires Free(rows, id, t, r)
    ensures StateOf(t) != Unchanged && t.added == created
  {
  }

  lemma OwedOf(y: Session, created: bool, todo: Todo)
    requires y.phase.Publishing? && y.phase.id in y.tracker && y.phase.created == created
    requires y.tracker[y.phase.id].current == todo
    ensures Owed(y) == [if created then Created(todo) else Completed(todo)]
  {
  }

  lemma CommitAccounts(db: Db, x: Session, r: Request, now: nat)
    requires Ready(db, x, r) && x.phase.Saving?
    ensures Accounts(db, x, r, Commit(now))
  {
    CommitIsSaved(db, x, r, now);
    CommitEffects(db, x, r, now);
    if Commits(db, x.tracker, r, now) {
      CommitTold(db, x, r, now);
      SaveOwes(db, x, r, now);
    } else {
      assert Given(Saved(db, x, r, now)) == [];
    }
  }

  lemma CommitTold(db: Db, x: Session, r: Request, now: nat)
    requires Ready(db, x, r) && x.phase.Saving? && Commits(db, x.tracker, r, now)
    ensures Owed(SavedSession(x, r, now)) == Told(SavedOps(x, r, now, Bound(x.tracker.Keys)))
    ensures |Owed(SavedSession(x, r, now))| == 1
  {
    CommitsIff(db, x, r, now);
    OwedAfterSave(db.rows, x, r, now);
    ToldOfSaved(x, r, now, Bound(x.tracker.Keys));
  }

  lemma SaveOwes(db: Db, x: Session, r: Request, now: nat)
    requires x.phase.Saving? && Commits(db, x.tracker, r, now)
    ensures Given(Saved(db, x, r, now)) + Owed(Saved(db, x, r, now).session) == Owed(SavedSession(x, r, now))
    ensures Owed(x) == []
  {
  }

  lemma StartAccounts(db: Db, x: Session, r: Request, a: Action)
    requires a.Get? || a.Load? || a.Create? || a.GetAll?
    ensures Accounts(db, x, r, a)
  {
    var effects := Effects(db, x, r, a);
    if effects != [] { ToldOne(effects[0]); }
  }

  lemma CheckAccounts(db: Db, x: Session, r: Request)
    ensures Accounts(db, x, r, SetDone)
  {
    SetDoneEffects(db, x, r);
    if Effects(db, x, r, SetDone) != [] { ToldOne(Effect(CheckOp(x.phase.id), Conflict, true)); }
  }

  lemma OthersAccount(db: Db, x: Session, r: Request, a: Action)
    requires Ready(db, x, r) && !MayComplete(x, a)
    ensures Accounts(db, x, r, a)
  {
    OthersComplete(db, x, r, a);
    if x.phase.Publishing? { PublishingPays(db, x, r, a); } else { FailingOwesNothing(db, x, r, a); }
  }

  /** While a request publishes it owes its answer, until it gives it. */
  lemma PublishingPays(db: Db, x: Session, r: Request, a: Action)
    requires Ready(db, x, r) && x.phase.Publishing?
    ensures var o := Act(db, x, r, a); Balanced(Owed(x), Given(o), Owed(o.session), [])
  {
    if a.Dispatch? {
      assert Owed(Dispatching(db, x, a.id).session) == Owed(x);
    } else {
      assert Owed(x) != [];
    }
  }

  lemma FailingOwesNothing(db: Db, x: Session, r: Request, a: Action)
    requires !x.phase.Publishing? && !MayComplete(x, a)
    ensures var o := Act(db, x, r, a); Balanced(Owed(x), Given(o), Owed(o.session), [])
  {
  }

  lemma ActAccounts(db: Db, x: Session, r: Request, a: Action)
    requires Ready(db, x, r)
    ensures Accounts(db, x, r, a)
  {
    if a.Commit? && x.phase.Saving? {
      CommitAccounts(db, x, r, a.now);
    } else if a.SetDone? {
      CheckAccounts(db, x, r);
    } else if a.Get? || a.Load? || a.Create? || a.GetAll? {
      StartAccounts(db, x, r, a);
    } else {
      OthersAccount(db, x, r, a);
    }
  }

  // ---------- Whole runs ----------

  lemma {:induction false} ResultsConcat(h: seq<Entry>, q: Request, effects: seq<Effect>, r: Request)
    ensures ResultsOf(h + Entries(q, effects), r) == ResultsOf(h, r) + if q == r then Told(effects) else []
  {
    if effects == [] {
      assert h + Entries(q, effects) == h;
    } else {
      var init := effects[..|effects| - 1];
      ResultsConcat(h, q, init, r);
      ResultsOfOneMore(h, q, effects, r);
      ToldOfLast(effects);
      OneMoreResult(ResultsOf(h, r), Told(init), Told(effects), effects[|effects| - 1], q == r);
    }
  }

  lemma ResultsOfOneMore(h: seq<Entry>, q: Request, effects: seq<Effect>, r: Request)
    requires effects != []
    ensures var (before, last) := (ResultsOf(h + Entries(q, effects[..|effects| - 1]), r), effects[|effects| - 1]);
            ResultsOf(h + Entries(q, effects), r) ==
              if q == r && last.told then before + [last.result] else before
  {
    var (init, last) := (effects[..|effects| - 1], effects[|effects| - 1]);
    EntriesSnoc(q, effects);
    assert h + Entries(q, effects) == h + Entries(q, init) + [Entry(q, last)];
    ResultsSnoc(h + Entries(q, init), Entry(q, last), r);
  }

  lemma ToldOfLast(effects: seq<Effect>)
    requires effects != []
    ensures var (init, last) := (effects[..|effects| - 1], effects[|effects| - 1]);
            Told(effects) == if last.told then Told(init) + [last.result] else Told(init)
  {
  }

  lemma OneMoreResult(results: seq<Result>, init: seq<Result>, all: seq<Result>, last: Effect, own: bool)
    requires all == if last.told then init + [last.result] else init
    ensures results + (if own then all else []) ==
            if own && last.told then results + (if own then init else []) + [last.result]
            else results + if own then init else []
  {
  }

  lemma ResultsSnoc(h: seq<Entry>, e: Entry, r: Request)
    ensures ResultsOf(h + [e], r) ==
              if e.request == r && e.effect.told then ResultsOf(h, r) + [e.effect.result] else ResultsOf(h, r)
  {
    assert (h + [e])[..|h|] == h;
  }

  lemma AnswersSnoc(s: State, q: Request, a: Action, r: Request)
    ensures AnswersTo(Step(s, q, a).replies, r) ==
            AnswersTo(s.replies, r) + if q == r then Given(Act(s.db, SessionOf(s, q), q, a)) else []
  {
    var (x, o) := (SessionOf(s, q), Act(s.db, SessionOf(s, q), q, a));
    StepIs(s, q, a);
    if o.reply.Some? {
      assert (s.replies + [Answer(q, CommandOf(x.phase, a), o.reply.value)])[..|s.replies|] == s.replies;
    } else {
      assert s.replies + [] == s.replies;
    }
  }

  /** What one step adds to the results and answers of a request. */
  lemma StepBalances(s: State, q: Request, a: Action, r: Request)
    requires StateInv(s)
    ensures Balanced(Owed(SessionOf(s, r)), if q == r then Given(Act(s.db, SessionOf(s, q), q, a)) else [],
                     Owed(SessionOf(Step(s, q, a), r)),
                     if q == r then Told(Effects(s.db, SessionOf(s, q), q, a)) else [])
  {
    StepIs(s, q, a);
    if q == r {
      assert SessionInv(s.db.rows, q, SessionOf(s, q));
      ActAccounts(s.db, SessionOf(s, q), q, a);
    }
  }

  /** The results and answers of one request over one step of the run. */
  lemma StepAnswers(results: seq<Result>, s: State, q: Request, a: Action, r: Request)
    requires StateInv(s) && AllAgree(results, AnswersTo(s.replies, r) + Owed(SessionOf(s, r)))
    ensures AllAgree(results + (if q == r then Told(Effects(s.db, SessionOf(s, q), q, a)) else []),
                     AnswersTo(Step(s, q, a).replies, r) + Owed(SessionOf(Step(s, q, a), r)))
  {
    StepBalances(s, q, a, r);
    AnswersSnoc(s, q, a, r);
    StillAgree(results, AnswersTo(s.replies, r), Owed(SessionOf(s, r)),
               if q == r then Given(Act(s.db, SessionOf(s, q), q, a)) else [], Owed(SessionOf(Step(s, q, a), r)),
               if q == r then Told(Effects(s.db, SessionOf(s, q), q, a)) else []);
  }

  /** Every request gets as its answers, in order, exactly the results its operations have in the history,
      apart from those that it was told to have failed; one that has committed and not answered yet owes the
      last of them. */
  lemma {:induction false} AnswersAreResults(run: seq<(Request, Action)>, r: Request)
    ensures AllAgree(ResultsOf(History(run), r), AnswersTo(Run(run).replies, r) + Owed(SessionOf(Run(run), r)))
  {
    if run != [] {
      var (before, last) := (run[..|run| - 1], run[|run| - 1]);
      AnswersAreResults(before, r);
      RunKeepsStateInv(before);
      var s := Run(before);
      StepAnswers(ResultsOf(History(before), r), s, last.0, last.1, r);
      ResultsConcat(History(before), last.0, Effects(s.db, SessionOf(s, last.0), last.0, last.1), r);
    }
  }

  // ---------- Which answers are errors ----------

  /** Of each answer that a request has got, apart from failures to save: whether it was given where a handler
      threw. */
  function Threw(run: seq<(Request, Action)>, r: Request): seq<bool> {
    if run == [] then []
    else
      var k := |run| - 1;
      var (before, q, a) := (run[..k], run[k].0, run[k].1);
      var o := Act(Run(before).db, SessionOf(Run(before), q), q, a);
      if q == r && Given(o) != [] then Threw(before, r) + [HandlerThrows(run, k)] else Threw(before, r)
  }

  predicate Errors(threw: seq<bool>, answers: seq<Result>) {
    |threw| == |answers| && forall i | 0 <= i < |threw| :: threw[i] <==> answers[i] == FailedAfterCommit
  }

  lemma GivenThrew(run: seq<(Request, Action)>, k: nat)
    requires |run| == k + 1
    ensures var (s, q, a) := (Run(run[..k]), run[k].0, run[k].1);
            var o := Act(s.db, SessionOf(s, q), q, a);
            Given(o) != [] ==> |Given(o)| == 1 && (Given(o)[0] == FailedAfterCommit <==> HandlerThrows(run, k))
  {
    var (s, q, a) := (Run(run[..k]), run[k].0, run[k].1);
    var o := Act(s.db, SessionOf(s, q), q, a);
    if o.reply == Some(FailedAfterCommit) { OnlyHandlerFailures(s.db, SessionOf(s, q), q, a); }
    if HandlerThrows(run, k) { HandlerFailureIsAnswered(s.db, SessionOf(s, q), q); }
  }

  lemma {:induction false} ErrorsAreThrows(run: seq<(Request, Action)>, r: Request)
    ensures Errors(Threw(run, r), AnswersTo(Run(run).replies, r))
  {
    if run != [] {
      var k := |run| - 1;
      var (s, q, a) := (Run(run[..k]), run[k].0, run[k].1);
      ErrorsAreThrows(run[..k], r);
      GivenThrew(run, k);
      AnswersSnoc(s, q, a, r);
      TodoInvariant.OneStep(run, k);
      assert run[..k + 1] == run;
      OneMoreError(Threw(run[..k], r), AnswersTo(s.replies, r), Threw(run, r), AnswersTo(Run(run).replies, r),
                   HandlerThrows(run, k), if q == r then Given(Act(s.db, SessionOf(s, q), q, a)) else []);
    }
  }

  lemma OneMoreError(threw: seq<bool>, answers: seq<Result>, threwNow: seq<bool>, answersNow: seq<Result>, last: bool,
      given: seq<Result>)
    requires Errors(threw, answers) && answersNow == answers + given
    requires threwNow == if given != [] then threw + [last] else threw
    requires given != [] ==> |given| == 1 && (given[0] == FailedAfterCommit <==> last)
    ensures Errors(threwNow, answersNow)
  {
  }

  predicate NoErrors(results: seq<Result>) {
    forall i | 0 <= i < |results| :: results[i] != FailedAfterCommit
  }

  lemma {:induction false} SavedAreNoErrors(x: Session, r: Request, now: nat, n: nat)
    ensures NoErrors(Told(SavedOps(x, r, now, n)))
  {
    if n > 0 {
      SavedAreNoErrors(x, r, now, n - 1);
      if Changed(x.tracker, n - 1) { ToldSnoc(SavedOps(x, r, now, n - 1), SavedOp(x, r, now, n - 1)); }
    }
  }

  lemma EffectsAreNoErrors(db: Db, x: Session, r: Request, a: Action)
    ensures NoErrors(Told(Effects(db, x, r, a)))
  {
    if a.Commit? && x.phase.Saving? {
      CommitEffects(db, x, r, a.now);
      SavedAreNoErrors(x, r, a.now, Bound(x.tracker.Keys));
    } else if Effects(db, x, r, a) != [] {
      QueriesAreNoErrors(db, x, r, a);
      ToldOne(Effects(db, x, r, a)[0]);
    }
  }

  lemma QueriesAreNoErrors(db: Db, x: Session, r: Request, a: Action)
    requires !(a.Commit? && x.phase.Saving?) && Effects(db, x, r, a) != []
    ensures var effects := Effects(db, x, r, a); effects == [effects[0]] && effects[0].result != FailedAfterCommit
  {
  }

  lemma {:induction false} ResultsAreNoErrors(run: seq<(Request, Action)>, r: Request)
    ensures NoErrors(ResultsOf(History(run), r))
  {
    if run != [] {
      var (before, last) := (run[..|run| - 1], run[|run| - 1]);
      var effects := Effects(Run(before).db, SessionOf(Run(before), last.0), last.0, last.1);
      ResultsAreNoErrors(before, r);
      EffectsAreNoErrors(Run(before).db, SessionOf(Run(before), last.0), last.0, last.1);
      ResultsConcat(History(before), last.0, effects, r);
    }
  }

  /** So a request is given the result of its operation exactly where no handler threw, and an error exactly where one
      did. */
  lemma {:induction false} AnswersAreExact(run: seq<(Request, Action)>, r: Request)
    ensures var (answers, results) := (AnswersTo(Run(run).replies, r), ResultsOf(History(run), r));
            var threw := Threw(run, r);
            && |answers| == |threw| <= |results|
            && (forall i | 0 <= i < |answers| :: answers[i] == if threw[i] then FailedAfterCommit else results[i])
            && results[|answers|..] == Owed(SessionOf(Run(run), r))
  {
    AnswersAreResults(run, r);
    ErrorsAreThrows(run, r);
    ResultsAreNoErrors(run, r);
    ExactlyErrors(ResultsOf(History(run), r), AnswersTo(Run(run).replies, r), Owed(SessionOf(Run(run), r)),
                  Threw(run, r));
  }

  lemma ExactlyErrors(results: seq<Result>, answers: seq<Result>, owed: seq<Result>, threw: seq<bool>)
    requires AllAgree(results, answers + owed) && Errors(threw, answers) && NoErrors(results)
    requires forall o | o in owed :: o != FailedAfterCommit
    ensures |answers| == |threw| <= |results|
    ensures forall i | 0 <= i < |answers| :: answers[i] == if threw[i] then FailedAfterCommit else results[i]
    ensures results[|answers|..] == owed
  {
    forall i | 0 <= i < |answers| ensures answers[i] == if threw[i] then FailedAfterCommit else results[i] {
      assert Agrees(results[i], (answers + owed)[i]);
    }
    forall i | 0 <= i < |owed| ensures results[|answers| + i] == owed[i] {
      assert Agrees(results[|answers| + i], (answers + owed)[|answers| + i]) && owed[i] in owed;
    }
  }
}
