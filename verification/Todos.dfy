/**
 The Todos unit of work as a transition system: a shared database, and requests that interleave. Each
 request has a context of its own, which tracks the entities it has read or made, changes them in memory,
 and saves. One action is one uninterrupted section of a handler: a query, an in-memory change, a commit,
 the publication of one message, the reply.
 */
module Todos {
  import opened Prelude
  import opened AuditTrail

  // ---------- Data ----------

  /** `TodoEntity` with the columns of `BaseEntity`. Identifiers and times are numbers. */
  datatype Todo = Todo(
    id: nat, name: string, done: bool,
    tenant: Option<string>, createdBy: Option<string>, createdAt: nat,
    modifiedBy: Option<string>, modifiedAt: Option<nat>)

  datatype Column = Id | CreatedAt | CreatedBy | Done | ModifiedAt | ModifiedBy | Name | TenantId

  datatype Value = Null | Number(number: nat) | Text(text: string) | Flag(flag: bool)

  type AuditRow = Row<Column, Value>

  /** The audit rows that one save inserts: one for each entity its context tracks. */
  datatype Batch = Batch(request: Request, rows: map<nat, AuditRow>)

  /** `audit` lists the committed batches in commit order. */
  datatype Db = Db(rows: map<nat, Todo>, audit: seq<Batch>)

  /** A request with the claims of its principal: the organization and the e-mail address. */
  datatype Request = Request(number: nat, tenant: Option<string>, user: Option<string>)

  /** An entity entry of the change tracker: the values of the last query or accepted save, the entity's own
      values, whether it was added, and the entity's domain events (`TodoIsDoneEvent` of an id). */
  datatype Tracked = Tracked(original: Todo, current: Todo, added: bool, events: seq<nat>)

  datatype Message = DoneEvent(id: nat) | DoneIntegrationEvent(id: nat)

  /** Where a request stands between two actions. `created` says whether its command creates a todo or
      completes one. While it publishes, `waiting` are the entities whose events the dispatcher has still to
      take, `queue` is what is left of those it has taken, and `handling` says whether a handler may be
      running. */
  datatype Phase =
    | Idle
    | Loaded(id: nat)
    | Saving(id: nat, created: bool)
    | Publishing(id: nat, created: bool, waiting: set<nat>, queue: seq<Message>, handling: bool)

  /** `unsaved` are the audit rows that failed saves have left in the context. */
  datatype Session = Session(tracker: map<nat, Tracked>, unsaved: seq<Batch>, phase: Phase)

  datatype Result =
    | Created(todo: Todo)
    | Found(todo: Todo)
    | Listed(todos: map<nat, Todo>)
    | Completed(todo: Todo)
    | NotFound
    | Conflict
    | Invalid
    | Failed
    | FailedAfterCommit

  datatype Action =
    | Create(id: nat, name: string, now: nat)
    | Get(id: nat)
    | GetAll
    | Load(id: nat)
    | SetDone
    | Commit(now: nat)
    | SaveFails(now: nat)
    | Dispatch(id: nat)
    | Publish
    | HandlerFails
    | Reply

  // ---------- Domain ----------

  /** `TodoEntity.CreateNew`, past its validation. */
  function NewTodo(id: nat, name: string, now: nat): Todo {
    Todo(id, name, false, None, None, now, None, None)
  }

  /** `TodoEntity.SetDone`, past its check. */
  function MarkedDone(t: Tracked): Tracked {
    t.(current := t.current.(done := true), events := t.events + [t.current.id])
  }

  // ---------- The save ----------

  function StateOf(t: Tracked): EntryState {
    if t.added then Added else if t.original != t.current then Modified else Unchanged
  }

  /** `SetTenantIdInterceptor`, on one entry. */
  function WithTenant(t: Tracked, r: Request): Tracked {
    if StateOf(t) == Added && t.current.tenant.None? then t.(current := t.current.(tenant := r.tenant)) else t
  }

  /** The stamping of `UpdateAuditableEntitiesInterceptor`, on one entry. */
  function WithAuthor(t: Tracked, r: Request, now: nat): Tracked {
    match StateOf(t)
    case Added => t.(current := t.current.(createdBy := r.user))
    case Modified => t.(current := t.current.(modifiedBy := r.user, modifiedAt := Some(now)))
    case _ => t
  }

  /** Both interceptors, in the order the context adds them. */
  function Stamped(t: Tracked, r: Request, now: nat): Tracked {
    WithAuthor(WithTenant(t, r), r, now)
  }

  function TextOr(text: Option<string>): Value {
    match text
    case Some(s) => Text(s)
    case None => Null
  }

  function ValueOf(t: Todo, c: Column): Value {
    match c
    case Id => Number(t.id)
    case CreatedAt => Number(t.createdAt)
    case CreatedBy => TextOr(t.createdBy)
    case Done => Flag(t.done)
    case ModifiedAt => if t.modifiedAt.Some? then Number(t.modifiedAt.value) else Null
    case ModifiedBy => TextOr(t.modifiedBy)
    case Name => Text(t.name)
    case TenantId => TextOr(t.tenant)
  }

  const COLUMNS := [Id, CreatedAt, CreatedBy, Done, ModifiedAt, ModifiedBy, Name, TenantId]

  /** The property entries the audit loop walks, after `stamped` has been written into the entity: the
      `modified` flags are those of the detection before the stamping. */
  function Properties(t: Tracked, stamped: Todo): (ps: seq<Property<Column, Value>>)
    ensures |ps| == |COLUMNS|
  {
    seq(|COLUMNS|, i requires 0 <= i < |COLUMNS| =>
      var c := COLUMNS[i];
      Property(c, c == Id, false, StateOf(t) == Modified && ValueOf(t.original, c) != ValueOf(t.current, c),
               ValueOf(t.original, c), ValueOf(stamped, c)))
  }

  function AuditRowOf(t: Tracked, stamped: Todo): AuditRow {
    RowOf(StateOf(t), Properties(t, stamped))
  }

  /** The audit row of an entry that the save finds as `t`. */
  function AuditOf(t: Tracked, r: Request, now: nat): AuditRow {
    AuditRowOf(WithTenant(t, r), Stamped(t, r, now).current)
  }

  predicate NotNull(t: Todo) {
    t.tenant.Some? && t.createdBy.Some?
  }

  /** Whether the database takes the statement for one stamped entry, whose state is that of the detection
      before the statements are made: an INSERT needs a new key, an UPDATE
      finds the row with the original concurrency tokens. */
  predicate Accepts(rows: map<nat, Todo>, id: nat, t: Tracked) {
    match StateOf(t)
    case Added => id !in rows && NotNull(t.current)
    case Modified =>
      && id in rows
      && rows[id].modifiedBy == t.original.modifiedBy && rows[id].modifiedAt == t.original.modifiedAt
      && NotNull(t.current)
    case _ => true
  }

  /** An UPDATE sets the columns that differ from the original values. */
  function Updated(row: Todo, original: Todo, current: Todo): Todo {
    Todo(row.id,
         if original.name != current.name then current.name else row.name,
         if original.done != current.done then current.done else row.done,
         if original.tenant != current.tenant then current.tenant else row.tenant,
         if original.createdBy != current.createdBy then current.createdBy else row.createdBy,
         if original.createdAt != current.createdAt then current.createdAt else row.createdAt,
         if original.modifiedBy != current.modifiedBy then current.modifiedBy else row.modifiedBy,
         if original.modifiedAt != current.modifiedAt then current.modifiedAt else row.modifiedAt)
  }

  function Written(rows: map<nat, Todo>, id: nat, t: Tracked): Todo {
    if StateOf(t) == Modified && id in rows then Updated(rows[id], t.original, t.current) else t.current
  }

  function StampedAll(tracker: map<nat, Tracked>, r: Request, now: nat): map<nat, Tracked> {
    map id | id in tracker :: Stamped(tracker[id], r, now)
  }

  predicate AllAccepted(rows: map<nat, Todo>, stamped: map<nat, Tracked>) {
    forall id | id in stamped :: Accepts(rows, id, stamped[id])
  }

  /** What the statements write. */
  function WritesOf(rows: map<nat, Todo>, stamped: map<nat, Tracked>): map<nat, Todo> {
    map id | id in stamped && StateOf(stamped[id]) != Unchanged :: Written(rows, id, stamped[id])
  }

  /** The transaction: all statements or none. The audit rows need the user's address, which is required. */
  predicate Commits(db: Db, tracker: map<nat, Tracked>, r: Request, now: nat) {
    r.user.Some? && AllAccepted(db.rows, StampedAll(tracker, r, now))
  }

  function BatchOf(tracker: map<nat, Tracked>, r: Request, now: nat): Batch {
    Batch(r, map id | id in tracker :: AuditOf(tracker[id], r, now))
  }

  /** The new audit rows are inserted together with those that failed saves have left behind. */
  function Committed(db: Db, x: Session, r: Request, now: nat): Db {
    Db(db.rows + WritesOf(db.rows, StampedAll(x.tracker, r, now)),
       db.audit + x.unsaved + [BatchOf(x.tracker, r, now)])
  }

  /** After a save the entries are clean. */
  function Accepted(t: Tracked): Tracked {
    Tracked(t.current, t.current, false, t.events)
  }

  function DoneEvents(events: seq<nat>): seq<Message> {
    seq(|events|, i requires 0 <= i < |events| => DoneEvent(events[i]))
  }

  /** The entities that have events. */
  function Holding(tracker: map<nat, Tracked>): set<nat> {
    set id | id in tracker && tracker[id].events != []
  }

  // ---------- One request ----------

  /** What one action does: to the database, to the request's session, its reply and its publication. */
  datatype Outcome = Outcome(db: Db, session: Session, reply: Option<Result>, post: Option<Message>)

  /** The query filter: a context sees the rows of its own tenant. */
  predicate Sees(db: Db, r: Request, id: nat) {
    r.tenant.Some? && id in db.rows && db.rows[id].tenant == r.tenant
  }

  /** A query result is tracked; an entity that is tracked already keeps its values. */
  function Attached(tracker: map<nat, Tracked>, id: nat, row: Todo): Tracked {
    if id in tracker then tracker[id] else Tracked(row, row, false, [])
  }

  function Seen(db: Db, tracker: map<nat, Tracked>, r: Request): map<nat, Tracked> {
    map id | id in db.rows && Sees(db, r, id) :: Attached(tracker, id, db.rows[id])
  }

  function Values(seen: map<nat, Tracked>): map<nat, Todo> {
    map id | id in seen :: seen[id].current
  }

  function NothingDone(db: Db, x: Session): Outcome {
    Outcome(db, x, None, None)
  }

  /** The message a handler publishes in turn: the integration event of a domain event. */
  function HandlerOutput(m: Message): seq<Message> {
    match m
    case DoneEvent(id) => [DoneIntegrationEvent(id)]
    case DoneIntegrationEvent(_) => []
  }

  function AcceptedAll(tracker: map<nat, Tracked>): map<nat, Tracked> {
    map id | id in tracker :: Accepted(tracker[id])
  }

  /** The session after its save has committed: clean entries, and the entities whose events to publish. */
  function SavedSession(x: Session, r: Request, now: nat): Session
    requires x.phase.Saving?
  {
    Session(AcceptedAll(StampedAll(x.tracker, r, now)), [],
            Publishing(x.phase.id, x.phase.created, Holding(x.tracker), [], false))
  }

  /** The session after its save has failed: the context keeps the stamped entities, changed as they are, with
      their events, and the audit rows it has made of them. */
  function FailedSession(x: Session, r: Request, now: nat): Session {
    Session(StampedAll(x.tracker, r, now), x.unsaved + [BatchOf(x.tracker, r, now)], Idle)
  }

  /** `SaveChangesAsync`, up to the dispatch. */
  function Saved(db: Db, x: Session, r: Request, now: nat): Outcome
    requires x.phase.Saving?
  {
    if Commits(db, x.tracker, r, now) then Outcome(Committed(db, x, r, now), SavedSession(x, r, now), None, None)
    else Outcome(db, FailedSession(x, r, now), Some(Failed), None)
  }

  /** `CreateTodoHandler`, up to its save: validate and add. */
  function Creating(db: Db, x: Session, id: nat, name: string, now: nat): Outcome {
    if IsBlank(name) then Outcome(db, x, Some(Invalid), None)
    else if id in x.tracker then Outcome(db, x, Some(Failed), None)
    else
      var todo := NewTodo(id, name, now);
      Outcome(db, x.(tracker := x.tracker[id := Tracked(todo, todo, true, [])], phase := Saving(id, true)), None, None)
  }

  /** `GetTodoHandler`. */
  function Getting(db: Db, x: Session, r: Request, id: nat): Outcome {
    if !Sees(db, r, id) then Outcome(db, x, Some(NotFound), None)
    else
      var t := Attached(x.tracker, id, db.rows[id]);
      Outcome(db, x.(tracker := x.tracker[id := t]), Some(Found(t.current)), None)
  }

  /** `GetTodosHandler`. */
  function Listing(db: Db, x: Session, r: Request): Outcome {
    var seen := Seen(db, x.tracker, r);
    Outcome(db, x.(tracker := x.tracker + seen), Some(Listed(Values(seen))), None)
  }

  /** `SetTodoDoneHandler`, its query. */
  function Loading(db: Db, x: Session, r: Request, id: nat): Outcome {
    if !Sees(db, r, id) then Outcome(db, x, Some(NotFound), None)
    else
      var t := Attached(x.tracker, id, db.rows[id]);
      Outcome(db, x.(tracker := x.tracker[id := t], phase := Loaded(id)), None, None)
  }

  /** `SetTodoDoneHandler`, its change in memory. */
  function Completing(db: Db, x: Session, id: nat): Outcome {
    if id !in x.tracker then NothingDone(db, x)
    else if x.tracker[id].current.done then Outcome(db, x.(phase := Idle), Some(Conflict), None)
    else
      var t := MarkedDone(x.tracker[id]);
      Outcome(db, x.(tracker := x.tracker[id := t], phase := Saving(id, false)), None, None)
  }

  /** The dispatcher turns to one of the waiting entities: it copies and clears its events. */
  function Dispatching(db: Db, x: Session, id: nat): Outcome
    requires x.phase.Publishing?
  {
    var p := x.phase;
    if p.queue != [] || id !in p.waiting || id !in x.tracker then NothingDone(db, x)
    else
      var t := x.tracker[id];
      Outcome(db,
              x.(tracker := x.tracker[id := t.(events := [])],
                 phase := p.(waiting := p.waiting - {id}, queue := DoneEvents(t.events), handling := false)),
              None, None)
  }

  /** Publishing the next message, and then running its handler. */
  function PublishingNext(db: Db, x: Session): Outcome
    requires x.phase.Publishing?
  {
    var queue := x.phase.queue;
    if queue == [] then NothingDone(db, x)
    else
      var rest := HandlerOutput(queue[0]) + queue[1..];
      Outcome(db, x.(phase := x.phase.(queue := rest, handling := true)), None, Some(queue[0]))
  }

  /** A handler throws: the dispatch ends, and what it has not taken stays with its entities. */
  function HandlerFailing(db: Db, x: Session): Outcome
    requires x.phase.Publishing?
  {
    if x.phase.handling then Outcome(db, x.(phase := Idle), Some(FailedAfterCommit), None) else NothingDone(db, x)
  }

  /** The answer of a command whose save has returned. */
  function Replying(db: Db, x: Session): Outcome
    requires x.phase.Publishing?
  {
    var p := x.phase;
    if p.waiting != {} || p.queue != [] || p.id !in x.tracker then NothingDone(db, x)
    else
      var todo := x.tracker[p.id].current;
      Outcome(db, x.(phase := Idle), Some(if p.created then Created(todo) else Completed(todo)), None)
  }

  /** A save may also fail for reasons that the database's state does not show, after the interceptors ran. */
  function Act(db: Db, x: Session, r: Request, a: Action): Outcome {
    match (a, x.phase)
    case (Create(id, name, now), Idle) => Creating(db, x, id, name, now)
    case (Get(id), Idle) => Getting(db, x, r, id)
    case (GetAll, Idle) => Listing(db, x, r)
    case (Load(id), Idle) => Loading(db, x, r, id)
    case (SetDone, Loaded(id)) => Completing(db, x, id)
    case (Commit(now), Saving(_, _)) => Saved(db, x, r, now)
    case (SaveFails(now), Saving(_, _)) => Outcome(db, FailedSession(x, r, now), Some(Failed), None)
    case (Dispatch(id), Publishing(_, _, _, _, _)) => Dispatching(db, x, id)
    case (Publish, Publishing(_, _, _, _, _)) => PublishingNext(db, x)
    case (HandlerFails, Publishing(_, _, _, _, _)) => HandlerFailing(db, x)
    case (Reply, Publishing(_, _, _, _, _)) => Replying(db, x)
    case _ => NothingDone(db, x)
  }

  // ---------- Interleaved requests ----------

  /** What a request was asked to do. */
  datatype Command = Creates(id: nat) | Reads(id: nat) | Lists | Completes(id: nat)

  /** The command that an action starts or goes on with. */
  function CommandOf(phase: Phase, a: Action): Command {
    match phase
    case Idle =>
      (match a
       case Create(id, _, _) => Creates(id)
       case Get(id) => Reads(id)
       case Load(id) => Completes(id)
       case _ => Lists)
    case Loaded(id) => Completes(id)
    case Saving(id, created) => if created then Creates(id) else Completes(id)
    case Publishing(id, created, _, _, _) => if created then Creates(id) else Completes(id)
  }

  datatype Answer = Answer(request: Request, command: Command, result: Result)

  datatype Post = Post(request: Request, message: Message)

  datatype State = State(db: Db, sessions: map<Request, Session>, replies: seq<Answer>, posts: seq<Post>)

  const START := State(Db(map[], []), map[], [], [])

  /** A context that has done nothing yet. */
  const FRESH := Session(map[], [], Idle)

  function SessionOf(s: State, r: Request): Session {
    if r in s.sessions then s.sessions[r] else FRESH
  }

  /** A request's outcome, put back into the state of all. */
  function Applied(s: State, r: Request, c: Command, o: Outcome): State {
    State(o.db, s.sessions[r := o.session],
          s.replies + (if o.reply.Some? then [Answer(r, c, o.reply.value)] else []),
          s.posts + (if o.post.Some? then [Post(r, o.post.value)] else []))
  }

  function Step(s: State, r: Request, a: Action): State {
    Applied(s, r, CommandOf(SessionOf(s, r).phase, a), Act(s.db, SessionOf(s, r), r, a))
  }

  /** The state after a whole interleaved run, from an empty database. */
  function Run(run: seq<(Request, Action)>): State {
    if run == [] then START
    else
      var (r, a) := run[|run| - 1];
      Step(Run(run[..|run| - 1]), r, a)
  }

  lemma RunSnoc(run: seq<(Request, Action)>, r: Request, a: Action)
    ensures Run(run + [(r, a)]) == Step(Run(run), r, a)
  {
    assert (run + [(r, a)])[..|run|] == run;
  }
}
