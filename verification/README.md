# Verification of the Todos module, domain events, page scripts and role claims

A Dafny model of the stateful parts of the Fly.io demo, with proofs about every run of them. `dafny verify
dfyconfig.toml` checks the whole project.

## What is modelled

**The Todos unit of work.** `Todos.dfy` describes the requests to the Todos module as a transition system. All
requests share one database of rows and audit batches. Each has a context of its own, with the tenant filter,
a change tracker (original values, current values, pending events) and the phase its handler has reached. One
action is one uninterrupted section of a handler: a query, a change in memory, the commit or abort of a save, the
publication of one message, the answer. Requests interleave at will, a context may serve several commands, also
after a save that failed or a handler that threw, and tenant and user may be missing.

- `TodoInvariant.dfy`, `TodoSafety.dfy`: what all interleavings keep of rows and contexts, and of one todo's event on
  its way from a context to the mediator.
- `TodoGuarantees.dfy`: what follows for the module's users: at most one completion, commit before publication, what
  becomes of a save that failed.
- `TodoAudit.dfy`: folding the committed audit rows reproduces the stored rows, on every run; and what depends on
  saves that failed before.
- `TodoAuditRows.dfy`: the committed audit rows, written out column by column.
- `TodoReplies.dfy`: what each action answers, and that every command of a run is answered, once and in order.
- `TodoOrigins.dfy`: where added entities and stored rows come from.
- `TodoStore.dfy`, `TodoHistory.dfy`, `TodoAnswers.dfy`: the interleaved system refines a map from tenant and id to
  todo that changes one operation at a time; exactly when its results are those of a sequential run; and that the
  answers are these results.
- `TodoTenants.dfy`: deleting every step of the other tenants changes nothing that one tenant can see.
- `TodoExamples.dfy`: concrete runs that show why the conditions in the last ones are there.
- `AuditTrail.dfy`: the audit pass over any list of properties.
- `TodoUnitOfWork.dfy`, `TodoHandlers.dfy`: the same system over live objects. Entities, the change tracker with its
  two interceptors, the transaction and the handlers' sections are classes and methods, each proved equal to its part
  of the transition system.

**Domain events.** `DomainEvents.dfy` lets handlers register further events, save the same context again and
throw, to any depth; a handler is the finite tree of what it does. `DomainEventSteps.dfy` says what each step does and
how steps follow on one another, `DomainEventProofs.dfy` proves conservation and at most one publication,
`DomainEventOrder.dfy` the order of publication where no handler saves, `DomainEventReentry.dfy` exactly when it is kept
where handlers do, and `DomainEventThrows.dfy` that it then is kept whatever throws. `DomainEventDispatcher.dfy` is the
dispatcher over live lists that are copied and cleared while handlers append to them.

**Page scripts.** `PageScripts.dfy` has the registry as a transition system whose actions are turns of the event loop.
`PageScriptProofs.dfy` and `PageScriptHooks.dfy` hold what every run keeps. `PageScriptRegistry.dfy` is the script over
objects, with a Map whose deleted entries leave empty places behind so that deletion while walking is the real thing.
`HomePage.dfy` is the page module that owns an `EventSource`.

**Role claims.** `KeycloakRoles.dfy` is the claims transformation, of which the API service and the web front end have
one copy each.

## What is assumed of the libraries

- The `UPDATE` of a modified entity compares the original values of the two concurrency tokens. A mismatch, a key that
  exists already, or a missing required value aborts the whole transaction, audit rows included, with an exception.
- Enumerating the tracker's entries detects changes, and so does the save before it makes its statements. The
  `IsModified` flags that the audit loop reads are those of the enumeration, before the loop's own stamping.
- A query returns the entity that the context already tracks under a key, with the values it has there.
- New identifiers and times are inputs. Identifiers may collide; what follows from that is part of the results.
- After a failed save a context keeps its entities as the interceptors have left them, with their events, and the
  audit rows that were to be inserted. It may be used again, and so it may after an exception of a handler.
- The script runs in turns of one event loop. `initializePageScriptModule` is called once for each object, as the
  script does, and its `import` settles once. Hooks neither throw nor touch the registry.
- An element's attribute callback runs wherever the element is, its disconnect callback when it leaves the page. An
  element that gets its `src` and comes into the page in one turn is `Connect`, then `SetSrc`; the script cannot tell in
  which order that was (`ConnectAndSetSrcCommute`).
- The JSON parser and the classification of claim types are inputs; white space is that of Unicode.

## Where the code does not do what one might expect

- The primary key knows no tenants. A tenant can notice another one through a collision of identifiers
  (`CollisionIsNoticed`), and in no other way (`TenantsDoNotInterfere`).
- A second query of one context returns the first copy (`StaleReadIsShown`). A run is sequential exactly when no query
  is made on a copy that another request's completion has overtaken, or on a change that a save has failed to commit
  and no other save has stored alike (`RunRefines`); with one command for each context, as the endpoints have it, it
  always is (`OneCommandEachIsSequential`).
- A completion whose save has failed, and which was answered so, is committed and published by the next save of the
  same context that commits (`FailedCompletionIsPublished`, `FailedSavePublishesOnlyLater`). After a refusal by the
  database no save of that context ever commits (`RefusedIsForGood`).
- Such a later save makes the audit trail tell of the todo's change twice (`ToldOnceIff`), and its second edit is not
  made on the state before it (`EditsChain`). The fold still gives what is stored (`ReplayReproducesRows`).
- The audit trail does not record who modified a row and when, since these columns are stamped after the flags were
  set; except where the same change was told of before by a save that failed (`ReplayIsCompleteIff`).
- An element that is moved, so disconnected and connected again, is in the page but not counted, and the next sweep
  disposes of its module (`MovedElementLosesItsModule`); an element out of the page whose `src` changes is counted
  (`DetachedElementCounts`). These are the only ways to a wrong count (`CountsRightIff`).
- A live entry may stay unloaded for good (`LiveEntryMayStayUnloaded`).
- A handler that saves again may publish later events before earlier ones (`SavingAgainReorders`); if no
  handler throws, it does exactly when an entity has then both copied events still to be published and pending ones
  (`InOrderIffOrderly`); a throw may hide it (`ThrowHidesDisorder`).
- A malformed `resource_access` document makes the transformation throw after it has added the roles before the
  malformed part (`FlatteningIsExact`); those claims then guard every later call (`Idempotent`).

## Model

| member | source | states |
|---|---|---|
| AuditTrail.ToEntity | src/Flyio.Demo.Module.SharedKernel/Infra/Interceptors/UpdateAuditableEntitiesInterceptor.cs:63-116 | the diff loop over any list of properties builds the audit row that `RowOf` specifies |
| AuditTrail.RowIsExact | src/Flyio.Demo.Module.SharedKernel/Infra/Interceptors/UpdateAuditableEntitiesInterceptor.cs:71-103 | the row is of the kind that the entry's state calls for; key columns go only to the primary key; for a modified entity old values, new values and affected columns have one domain, exactly the modified columns that are neither keys nor temporary; for an added one the new values cover all such columns; with the original and current values |
| AuditTrail.NamesAreThoseGiven | src/Flyio.Demo.Module.SharedKernel/Infra/Interceptors/UpdateAuditableEntitiesInterceptor.cs:78-103 | an audit row names no column that the entity does not have |
| TodoUnitOfWork.TodoEntity.CreateNew | src/Flyio.Demo.Todos/Domain/TodoEntity.cs:16-30 | a blank name gives no entity; any other gives a new one that is not done, unstamped and without events |
| Prelude.BlankIs | src/Flyio.Demo.Todos/Domain/TodoEntity.cs:18 | a text is blank exactly when each of its characters has one of these code points, the blank and the ASCII controls from 9 to 13 among them |
| TodoUnitOfWork.TodoEntity.SetDone | src/Flyio.Demo.Todos/Domain/TodoEntity.cs:32-43 | a conflict exactly when already done, and then nothing changes; otherwise done, with one more event, and no other field touched |
| TodoUnitOfWork.TodoEntity.SetTenantId | src/Flyio.Demo.Module.SharedKernel/Entities/BaseEntity.cs:62-65 | sets the tenant and nothing else |
| TodoUnitOfWork.TodoEntity.UpdateCreatedBy | src/Flyio.Demo.Module.SharedKernel/Entities/BaseEntity.cs:47-50 | sets the author and nothing else |
| TodoUnitOfWork.TodoEntity.UpdateModified | src/Flyio.Demo.Module.SharedKernel/Entities/BaseEntity.cs:56-60 | sets both concurrency tokens and nothing else |
| TodoUnitOfWork.TodoEntity.ClearDomainEvents | src/Flyio.Demo.Module.SharedKernel/Entities/BaseEntity.cs:32 | empties the event list and touches no column |
| TodoUnitOfWork.Database.Execute | src/Flyio.Demo.Module.SharedKernel/Entities/BaseEntity.cs:18-22 | the statements take effect all or not at all: all exactly when every one of them is accepted, by key and original tokens, and there is a user for the audit rows |
| TodoUnitOfWork.TodosDbContext.constructor | src/Flyio.Demo.Todos/Infra/TodosDbContext.cs:28-40 | a context belongs to its request for good and tracks nothing at first |
| TodoUnitOfWork.TodosDbContext.FirstOrDefault | src/Flyio.Demo.Todos/Infra/TodosDbContext.cs:74 | finds exactly the rows of the context's own tenant, and tracks the one it finds, keeping a copy that is tracked already |
| TodoUnitOfWork.TodosDbContext.DetectChanges | src/Flyio.Demo.Module.SharedKernel/Infra/Interceptors/UpdateAuditableEntitiesInterceptor.cs:35 | after enumerating the entries each has the state and flags that its values call for, and no entity has changed |
| TodoUnitOfWork.TodosDbContext.SetTenantIds | src/Flyio.Demo.Module.SharedKernel/Infra/Interceptors/SetTenantIdInterceptor.cs:27-42 | every added entity without a tenant gets the request's; no other entity changes |
| TodoUnitOfWork.TodosDbContext.StampAndAudit | src/Flyio.Demo.Module.SharedKernel/Infra/Interceptors/UpdateAuditableEntitiesInterceptor.cs:43-54 | stamps author or modifier by the entry's state, then builds the audit row from the stamped values and the flags of before |
| TodoUnitOfWork.TodosDbContext.StampAndAuditAll | src/Flyio.Demo.Module.SharedKernel/Infra/Interceptors/UpdateAuditableEntitiesInterceptor.cs:31-56 | every tracked entity is stamped by its state and gets exactly one audit row, of its values before and after |
| TodoUnitOfWork.TodosDbContext.Intercept | src/Flyio.Demo.Todos/Infra/TodosDbContext.cs:48-49 | tenant first, then author and audit: the composed effect of both interceptors on every entry |
| TodoUnitOfWork.TodosDbContext.EntitiesWithEvents | src/Flyio.Demo.Todos/Infra/TodosDbContext.cs:92-95 | exactly the tracked entities that have events, each once, in tracker order |
| TodoUnitOfWork.TodosDbContext.Accept | src/Flyio.Demo.Todos/Infra/TodosDbContext.cs:86 | after a commit every entry is clean, no audit row is left over, and every event is still on its entity |
| TodoUnitOfWork.TodosDbContext.Transact | src/Flyio.Demo.Todos/Infra/TodosDbContext.cs:86 | commits exactly when the specification does and the database can be reached, and then to exactly the specified database, audit rows of failed saves included; otherwise the database is as before |
| TodoUnitOfWork.TodosDbContext.SaveChanges | src/Flyio.Demo.Todos/Infra/TodosDbContext.cs:84-100 | on a commit the entries are clean and the entities with events are handed to the dispatch; on a failure the tracker keeps the stamped entities with their events, and the audit rows |
| TodoUnitOfWork.SavedAsSpecified | src/Flyio.Demo.Module.SharedKernel/Infra/Interceptors/UpdateAuditableEntitiesInterceptor.cs:41-55 | the statements and audit rows that the loops make one by one are the writes and the batch of the transition system |
| TodoHandlers.Create | src/Flyio.Demo.Todos/UseCases/Create/CreateTodoHandler.cs:20-24 | validate and add, over live objects: exactly the specified step of the session |
| TodoHandlers.Get | src/Flyio.Demo.Todos/UseCases/Get/GetTodoHandler.cs:18-28 | the filtered lookup and its result, exactly as specified |
| TodoHandlers.Load | src/Flyio.Demo.Todos/UseCases/SetDone/SetTodoDoneHandler.cs:19-24 | the filtered query and NotFound, exactly as specified |
| TodoHandlers.SetDone | src/Flyio.Demo.Todos/UseCases/SetDone/SetTodoDoneHandler.cs:26 | the change in memory of the one loaded entity, or Conflict, exactly as specified |
| TodoHandlers.Save | src/Flyio.Demo.Todos/UseCases/SetDone/SetTodoDoneHandler.cs:27-31 | the save of either command, whatever else its context holds: database, tracker, phase, waiting entities and error exactly as specified |
| TodoHandlers.Dispatch | src/Flyio.Demo.SharedKernel/DomainEventDispatcher.cs:16-19 | the dispatcher takes one entity: its events are copied and cleared in place, exactly as specified |
| TodoHandlers.ReachedStatesAreReady | src/Flyio.Demo.Todos/UseCases/SetDone/SetTodoDoneHandler.cs:17-32 | in every reachable state of every request the sections find the keys and entities that they require |
| TodoInvariant.OnlyChangesAreStamped | src/Flyio.Demo.Module.SharedKernel/Infra/Interceptors/UpdateAuditableEntitiesInterceptor.cs:41-51 | a save stamps new entities with tenant and author and changed ones with modifier and time, also when an earlier failed save has stamped them already; it touches no other entity and no event |
| TodoInvariant.StampIs | src/Flyio.Demo.Module.SharedKernel/Infra/Interceptors/UpdateAuditableEntitiesInterceptor.cs:41-51 | whatever the entity: an added one gets the request's tenant unless it has one, and the user as author; a changed one the user and the time; an unchanged one nothing; and no other field is touched |
| TodoInvariant.UpdateIs | src/Flyio.Demo.Todos/Infra/TodosDbContext.cs:86 | an UPDATE of the row that was read stores the entity as it is; one of an unchanged entity leaves the row as it is |
| TodoInvariant.CommitsIff | src/Flyio.Demo.Module.SharedKernel/Entities/BaseEntity.cs:18-22 | a save commits if and only if there is a user and each of its changes, of whichever command, can be stored: of a new todo the key is free and a tenant is known, of a completion the stored row is not done |
| TodoInvariant.CommittedRows | src/Flyio.Demo.Todos/Infra/TodosDbContext.cs:86 | a committed save adds or completes exactly the todos its context has added or completed, and writes no other row |
| TodoInvariant.AcceptedIsClean | src/Flyio.Demo.Todos/Infra/TodosDbContext.cs:86-97 | after a save every entity of its context is a clean copy of what is stored |
| TodoInvariant.ActKeepsSession | src/Flyio.Demo.Todos/UseCases/SetDone/SetTodoDoneHandler.cs:17-32 | every action of a request keeps the invariants of rows and sessions, and lets rows only be added or completed once |
| TodoInvariant.RunKeepsStateInv | src/Flyio.Demo.Todos/Domain/TodoEntity.cs:32-43 | in every state of every interleaved run all rows and all sessions meet their invariants |
| TodoSafety.RunKeepsOnce | src/Flyio.Demo.Todos/Integrations/PublishTodoIsDoneIntegrationEventEventHandler.cs:17-22 | in every state at most one request has a todo's committed event to publish, to pass on as the integration event, or its completion to answer; what it has still to publish has not been published, what comes before that has, and the todo is stored as done |
| TodoGuarantees.AtMostOneCompletion | src/Flyio.Demo.Todos/UseCases/SetDone/SetTodoDoneHandler.cs:17-32 | over any interleaving no message is published twice, the integration event only after the domain event, and at most one request is told that it completed a todo |
| TodoGuarantees.OthersConflictOrFail | src/Flyio.Demo.Todos/UseCases/SetDone/SetTodoDoneHandler.cs:19-31 | once one request has been told that its completion was committed, every other answer to a completion of that todo, earlier or later, is NotFound, Conflict or a failure |
| TodoGuarantees.CommitBeforePublish | src/Flyio.Demo.Todos/Infra/TodosDbContext.cs:84-100 | in every prefix of every run a published event's todo is stored as done, and an answered completion is stored exactly as answered |
| TodoGuarantees.RowsOnlyComplete | src/Flyio.Demo.Module.SharedKernel/Infra/Interceptors/SetTenantIdInterceptor.cs:33-41 | from any state to any later one no row disappears, none changes its tenant, name, author or creation time, and a done row never changes |
| TodoGuarantees.DoneIffModified | src/Flyio.Demo.Module.SharedKernel/Entities/BaseEntity.cs:56-60 | a stored row is done exactly when its `ModifiedAt` is set |
| TodoGuarantees.FailedSavePublishesOnlyLater | src/Flyio.Demo.Todos/Infra/TodosDbContext.cs:86-97 | a failed save changes nothing in the database and publishes nothing; a completion it did not save keeps its event, which is published later if and only if a later save of the same context commits, unless a handler throws |
| TodoGuarantees.UnsavedOverRuns | src/Flyio.Demo.Todos/Infra/TodosDbContext.cs:86-97 | in every state until such a commit the change and its event stay in the context unpublished; in every state after it the event is published or next in line |
| TodoGuarantees.RefusedIsForGood | src/Flyio.Demo.Module.SharedKernel/Entities/BaseEntity.cs:18-22 | after a save that the database has refused, by token, key or missing claim, no save of that context commits ever again, and its request publishes nothing ever again, however the run goes on |
| TodoAudit.AuditOfColumn | src/Flyio.Demo.Module.SharedKernel/Infra/Interceptors/UpdateAuditableEntitiesInterceptor.cs:41-116 | what the pass records of a todo, column by column: for a new one all columns with the tenant and author just stamped, for a changed one the columns that differed before the stamping, with old and new values |
| TodoAudit.AuditOfDone | src/Flyio.Demo.Module.SharedKernel/Infra/Interceptors/UpdateAuditableEntitiesInterceptor.cs:94-101 | the audit row of a completion names `Done`, from false to true, and the modifier columns exactly where an earlier failed save has left other values in the entity; of an unstamped completion `Done` alone |
| TodoAudit.AuditOfNew | src/Flyio.Demo.Module.SharedKernel/Infra/Interceptors/UpdateAuditableEntitiesInterceptor.cs:90-92 | the audit row of a creation, stamped by a failed save already or not, records exactly the row that a save stores, tenant and author included |
| TodoAudit.AuditOfClean | src/Flyio.Demo.Module.SharedKernel/Infra/Interceptors/UpdateAuditableEntitiesInterceptor.cs:71-76 | an unchanged tracked entity gets an audit row of the undefined kind that records nothing |
| TodoAudit.RunAgrees | src/Flyio.Demo.Module.SharedKernel/Infra/Interceptors/UpdateAuditableEntitiesInterceptor.cs:31-116 | in every state of every run, whatever saves have failed: the rows of a todo fold to what is stored but for the modifier columns, or to all of it where its completion is told of twice; creation and completion are told of exactly if stored; the edits chain exactly if the completion is told of once |
| TodoAudit.RunKeepsLeftovers | src/Flyio.Demo.Module.SharedKernel/Infra/Interceptors/UpdateAuditableEntitiesInterceptor.cs:31-56 | in every reachable state the rows that failed saves have left in a context tell of the changes that it still holds, with the values that its next save would store |
| TodoAudit.ToldOnceIff | src/Flyio.Demo.Module.SharedKernel/Infra/Interceptors/UpdateAuditableEntitiesInterceptor.cs:71-76 | a todo's creation, or completion, is told of at most once if and only if no save of it has committed after one that failed |
| TodoAudit.FaithfulIff | src/Flyio.Demo.Module.SharedKernel/Infra/Interceptors/UpdateAuditableEntitiesInterceptor.cs:31-116 | for one todo: the fold, one creation, one completion exactly if done, chained edits, and no modifier recorded, if and only if no save of that todo has committed after one that failed |
| TodoAudit.AllFaithfulIff | src/Flyio.Demo.Module.SharedKernel/Infra/Interceptors/UpdateAuditableEntitiesInterceptor.cs:31-116 | for all todos together: if and only if no save has committed in a context that still held audit rows of a failed one |
| TodoAudit.ReplayReproducesRows | src/Flyio.Demo.Module.SharedKernel/Infra/Interceptors/UpdateAuditableEntitiesInterceptor.cs:31-116 | on every run, also where failed saves are made good: folding a todo's committed rows in commit order gives its stored columns, all but the two modifier columns, and gives something exactly for stored todos |
| TodoAudit.ReplayIsCompleteIff | src/Flyio.Demo.Module.SharedKernel/Infra/Interceptors/UpdateAuditableEntitiesInterceptor.cs:48-54 | on every run the fold gives the whole row if and only if the todo is not done, or its completion is told of more than once |
| TodoAudit.EditsChain | src/Flyio.Demo.Module.SharedKernel/Infra/Interceptors/UpdateAuditableEntitiesInterceptor.cs:94-101 | the edits of a todo chain, so that no committed edit was made on a stale copy, if and only if its completion was not committed after a save of it that failed |
| TodoAudit.ChainedMeans | src/Flyio.Demo.Module.SharedKernel/Infra/Interceptors/UpdateAuditableEntitiesInterceptor.cs:94-101 | where they chain, an edit's old values are the replayed state just before it, over one and the same columns, and rows of unchanged entities are no-ops |
| TodoAudit.OneCreationOneCompletion | src/Flyio.Demo.Module.SharedKernel/Infra/Interceptors/UpdateAuditableEntitiesInterceptor.cs:71-76 | a todo has at least one committed creation exactly if it is stored and at least one edit exactly if it is done; exactly one if and only if no save of it has committed after one that failed |
| TodoAuditRows.CreationIsWritten | src/Flyio.Demo.Module.SharedKernel/Infra/Interceptors/UpdateAuditableEntitiesInterceptor.cs:41-92 | column by column: the row of a creation holds the identifier as key, and the name, `false`, the time, the tenant and the user under their own columns, and null for the modifier columns |
| TodoAuditRows.CompletionIsWritten | src/Flyio.Demo.Module.SharedKernel/Infra/Interceptors/UpdateAuditableEntitiesInterceptor.cs:94-101 | column by column: the row of a completion holds `Done` from false to true and the identifier as key, and nothing else |
| TodoAuditRows.RepeatedIsWritten | src/Flyio.Demo.Module.SharedKernel/Infra/Interceptors/UpdateAuditableEntitiesInterceptor.cs:94-101 | where a failed save has stamped the completion, the row also holds the user and the time, from null |
| TodoAuditRows.RowsAreWritten | src/Flyio.Demo.Module.SharedKernel/Infra/Interceptors/UpdateAuditableEntitiesInterceptor.cs:63-116 | every audit row committed in any run is one of these, with the stored row's own name, time, tenant, author and user |
| TodoAuditRows.ReplayShowsFields | src/Flyio.Demo.Module.SharedKernel/Infra/Interceptors/UpdateAuditableEntitiesInterceptor.cs:31-116 | the fold of a todo's rows shows the stored name, done flag, time, tenant and author each under its own column; and who completed it and when exactly where its completion is told of twice |
| TodoStore.CommitRefines | src/Flyio.Demo.Module.SharedKernel/Entities/BaseEntity.cs:18-22 | a commit is one atomic operation of the store for each change it saves, one after the other, with their results; an abort is none |
| TodoStore.CreateRefines | src/Flyio.Demo.Todos/UseCases/Create/CreateTodoHandler.cs:20 | an invalid name is an atomic result and leaves the store as it is |
| TodoOrigins.AddedIsMade | src/Flyio.Demo.Todos/UseCases/Create/CreateTodoHandler.cs:20-24 | an added entity has the name and time of a creation that its own request was asked for |
| TodoOrigins.RowIsMade | src/Flyio.Demo.Todos/UseCases/Create/CreateTodoHandler.cs:20-24 | a stored row has the tenant and author of the request whose commit stored it, and the name and time of the creation that this request was asked for before |
| TodoOrigins.RowIsCompleted | src/Flyio.Demo.Module.SharedKernel/Entities/BaseEntity.cs:56-60 | a completed row names the user of the request whose commit completed it, and the time of that save |
| TodoHistory.StaleIffOvertaken | src/Flyio.Demo.Todos/UseCases/Get/GetTodoHandler.cs:20 | a context's copy is from before its todo's completion if and only if another request's completion has committed since the context first attached the todo |
| TodoHistory.ShowsStoredIff | src/Flyio.Demo.Todos/UseCases/Get/GetTodoHandler.cs:18-28 | a copy that a query shows is the stored row if and only if it has not been overtaken; or, where it holds a change that a save failed to commit, a commit by the same user has completed the todo at the same time, or stored it from a creation of the same tenant, user, name and time |
| TodoStore.LoadRefines | src/Flyio.Demo.Todos/UseCases/SetDone/SetTodoDoneHandler.cs:19-24 | NotFound is the store's own answer at the query |
| TodoStore.SetDoneRefines | src/Flyio.Demo.Todos/UseCases/SetDone/SetTodoDoneHandler.cs:26 | Conflict is the store's own answer at the check, though the check is made on a copy, unless the copy is done only by a change that a save has failed to commit |
| TodoStore.ActRefines | src/Flyio.Demo.Todos/UseCases/SetDone/SetTodoDoneHandler.cs:17-32 | every action changes the store as the operations it completes do, and gives their results if and only if the copies it looks at are the stored rows |
| TodoHistory.RunRefines | src/Flyio.Demo.Todos/UseCases/Create/CreateTodoHandler.cs:18-28 | every interleaved run leads to the rows that its operations, one at a time in the order of their effects, lead to; and they have the results of that sequential run if and only if no query or check of the run was made by a context on a todo that it attached before another request's completion of it, or on a change of its own that a save had failed to commit and no other save had stored alike |
| TodoHistory.OneCommandEachIsSequential | src/Flyio.Demo.Todos/UseCases/GetAll/GetTodosHandler.cs:18-23 | with one command for each context every run is a sequential run of the store, results included |
| TodoReplies.GetIsAnswered | src/Flyio.Demo.Todos/UseCases/Get/GetTodoHandler.cs:18-28 | the query of one todo is always answered: NotFound exactly when the request's tenant has no such row, otherwise the copy that is tracked from then on |
| TodoReplies.GetAllIsAnswered | src/Flyio.Demo.Todos/UseCases/GetAll/GetTodosHandler.cs:18-23 | the query of all todos lists exactly those of the request's tenant, and each is tracked from then on with the values it is listed with |
| TodoReplies.CreateIsAnswered | src/Flyio.Demo.Todos/UseCases/Create/CreateTodoHandler.cs:20-24 | a blank name is answered Invalid and nothing changes; any other creation tracks a new todo that is not done, of this name and time, to be saved |
| TodoReplies.LoadIsAnswered | src/Flyio.Demo.Todos/UseCases/SetDone/SetTodoDoneHandler.cs:19-24 | a completion is answered NotFound exactly when the request's tenant has no such row; otherwise it goes on with the tracked copy |
| TodoReplies.SetDoneIsAnswered | src/Flyio.Demo.Todos/UseCases/SetDone/SetTodoDoneHandler.cs:26 | Conflict exactly when the copy is done; otherwise it is done from then on, with one more event |
| TodoReplies.CommitIsAnswered | src/Flyio.Demo.Todos/UseCases/SetDone/SetTodoDoneHandler.cs:27-31 | a save is answered with a failure exactly when it cannot commit; after a commit exactly the entities with events are waiting for dispatch |
| TodoReplies.SaveFailsIsAnswered | src/Flyio.Demo.Todos/Infra/TodosDbContext.cs:86 | a save that fails for want of the database is answered with a failure, stores nothing and publishes nothing |
| TodoReplies.ReplyIsAnswered | src/Flyio.Demo.Todos/UseCases/Create/CreateTodoHandler.cs:26-28 | when nothing is left to publish the request gives the todo that it created or completed |
| TodoReplies.HandlerFailureIsAnswered | src/Flyio.Demo.Todos/Infra/TodosDbContext.cs:97-99 | a handler that throws ends the dispatch with an error, also when nothing was left to publish, and entities keep the events that were not taken |
| TodoReplies.PublishingIsNotAnswered | src/Flyio.Demo.SharedKernel/DomainEventDispatcher.cs:16-25 | taking an entity's events empties its list and queues them in order; publishing one queues its integration event next; neither answers |
| TodoReplies.CommandsAreAnswered | src/Flyio.Demo.Todos/UseCases/SetDone/SetTodoDoneHandler.cs:17-32 | over every run the commands that a request has started are, in order, those it has been answered and the one it is busy with; an idle request has all of its answers |
| TodoReplies.FailureIffHandlerThrew | src/Flyio.Demo.Todos/Infra/TodosDbContext.cs:97-99 | over every run an answer is the error after a commit if and only if it is given where a handler throws, and where one throws it is given |
| TodoReplies.EachIsGiven | src/Flyio.Demo.Todos/Infra/TodosDbContext.cs:97-99 | every answer of a run is given by one of its actions |
| TodoReplies.ThrowsWhileHandling | src/Flyio.Demo.SharedKernel/DomainEventDispatcher.cs:21-24 | a handler runs only once its request has published a message, and done nothing since |
| TodoReplies.CommittedCanAnswer | src/Flyio.Demo.Todos/Infra/TodosDbContext.cs:92-99 | in every reachable state a request that has committed can go on, by taking and publishing what is left alone, until it answers with the todo that it created or completed |
| TodoAnswers.AnswersAreResults | src/Flyio.Demo.Todos/UseCases/SetDone/SetTodoDoneHandler.cs:26-31 | each request's answers are, in order, exactly the results of its operations; one that has committed owes the last, and a handler's exception can only turn a committed completion into an error |
| TodoAnswers.AnswersAreExact | src/Flyio.Demo.Todos/UseCases/SetDone/SetTodoDoneHandler.cs:26-31 | each answer is the very result of its operation where no handler threw, and the error where one did; what is owed is the rest of the results |
| TodoTenants.StepElsewhere | src/Flyio.Demo.Todos/Infra/TodosDbContext.cs:74 | a step of another tenant leaves a tenant's rows, audit, contexts, answers and messages as they are |
| TodoTenants.SavedLocally | src/Flyio.Demo.Module.SharedKernel/Infra/Interceptors/SetTenantIdInterceptor.cs:27-42 | a save on the whole database and one on the tenant's part alone agree on whether to commit and on what is then the tenant's, unless another tenant has the key |
| TodoTenants.StepLocally | src/Flyio.Demo.Todos/Infra/TodosDbContext.cs:74 | a step of the tenant's own acts on its part alone as on the whole, unless its save meets another tenant's key |
| TodoTenants.CollisionMarks | src/Flyio.Demo.Todos/Infra/TodosDbContext.cs:86 | such a meeting leaves a row that the tenant alone would have stored |
| TodoTenants.PurgeOrMark | src/Flyio.Demo.Module.SharedKernel/Infra/Interceptors/SetTenantIdInterceptor.cs:27-42 | of every run, either purging is exact or a collision's mark is there |
| TodoTenants.TenantsDoNotInterfere | src/Flyio.Demo.Todos/Infra/TodosDbContext.cs:74 | deleting every step of the other tenants leaves the tenant's part of the final state the same if and only if none of its saves met another tenant's key |
| TodoTenants.UniqueIdsAreCollisionFree | src/Flyio.Demo.Todos/Domain/TodoEntity.cs:23-27 | with identifiers that no two tenants are handed, tenants do not interfere in any run |
| TodoExamples.CollisionIsNoticed | src/Flyio.Demo.Todos/Infra/TodosDbContext.cs:86 | one identifier handed to two tenants: the second one's save fails, and would not have without the first |
| TodoExamples.StaleReadIsShown | src/Flyio.Demo.Todos/UseCases/Get/GetTodoHandler.cs:20 | a context that reads, and reads again after another request's completion, is shown its first copy; the run is not sequential; the trail lacks who completed the todo |
| TodoExamples.FailedCompletionIsPublished | src/Flyio.Demo.Todos/Infra/TodosDbContext.cs:84-100 | a completion answered as failed is committed and published by the save of the next command on the same context; the audit trail tells of it twice, and then has who completed it |
| DomainEvents.Registered | src/Flyio.Demo.Module.SharedKernel/Entities/BaseEntity.cs:31 | registering grows the pending work by no more than the event's own tree |
| DomainEvents.Dispatched | src/Flyio.Demo.SharedKernel/DomainEventDispatcher.cs:14-26 | dispatching, with everything handlers do meanwhile, ends, and never leaves more pending work than it found |
| DomainEventProofs.EventsAreConserved | src/Flyio.Demo.SharedKernel/DomainEventDispatcher.cs:14-26 | to any depth of registering and saving again, each occurrence is registered as often as it is published, pending or cut off by a throw |
| DomainEventProofs.HandledConserves | src/Flyio.Demo.SharedKernel/DomainEventDispatcher.cs:21-24 | nothing a handler does loses an occurrence or makes one up |
| DomainEventProofs.NotPublishedTwice | src/Flyio.Demo.SharedKernel/DomainEventDispatcher.cs:18-19 | an occurrence is published at most as often as it stands in what the program and its handlers do, so once if it is its own |
| DomainEventProofs.WithEventsAscend | src/Flyio.Demo.Todos/Infra/TodosDbContext.cs:92-95 | the dispatch takes exactly the entities that have events, in tracker order |
| DomainEventOrder.PublishedInOrder | src/Flyio.Demo.SharedKernel/DomainEventDispatcher.cs:16-25 | when no handler saves, in every state of a context's life, after throws too, each entity's events have been published in the order of their registration |
| DomainEventOrder.SaveAlongTracker | src/Flyio.Demo.Todos/Infra/TodosDbContext.cs:92-97 | such a save publishes entity by entity in tracker order |
| DomainEventReentry.InOrderIffOrderly | src/Flyio.Demo.SharedKernel/DomainEventDispatcher.cs:16-25 | with handlers that save again to any depth, and do not throw, each entity's events are published in the order of their registration if and only if no save is made while an entity has both copied events still to be published and pending ones |
| DomainEventThrows.OrderlyIsInOrder | src/Flyio.Demo.SharedKernel/DomainEventDispatcher.cs:16-25 | the condition suffices whatever handlers register, save and throw, to any depth, in every state of a context's life |
| DomainEventThrows.ThrowHidesDisorder | src/Flyio.Demo.SharedKernel/DomainEventDispatcher.cs:16-25 | where a handler throws it is not necessary: a throw may cut off the event that a save has passed |
| DomainEventReentry.SavingAgainReorders | src/Flyio.Demo.SharedKernel/DomainEventDispatcher.cs:16-25 | a handler that registers and saves again has its event published before an older one |
| DomainEventProofs.SavingAgainPublishesNothing | src/Flyio.Demo.Todos/Infra/TodosDbContext.cs:92-97 | after a save that did not throw and during which nothing was registered, saving again changes nothing and publishes nothing |
| DomainEventSteps.FailingSaveThrows | src/Flyio.Demo.Todos/Infra/TodosDbContext.cs:86 | a save whose commit fails throws, and leaves lists, registrations and publications as they were |
| DomainEventSteps.HandlerEndsAtException | src/Flyio.Demo.Todos/Infra/TodosDbContext.cs:86 | nothing of a handler is carried out after a save that fails or a throw |
| DomainEventSteps.RegisteringAppends | src/Flyio.Demo.Module.SharedKernel/Entities/BaseEntity.cs:31 | registering appends to the list of the entity, if the context tracks it, and does nothing else |
| DomainEventSteps.SavingIsASave | src/Flyio.Demo.Todos/Infra/TodosDbContext.cs:84-100 | a save in a handler does what any save does, exception included |
| DomainEventSteps.PublishingRunsHandlers | src/Flyio.Demo.SharedKernel/DomainEventDispatcher.cs:21-24 | an event is published before its handlers run, and publishing ends as they do |
| DomainEventSteps.DispatchingEmptiesTheList | src/Flyio.Demo.SharedKernel/DomainEventDispatcher.cs:16-19 | the list is empty before the first of its events is published |
| DomainEventSteps.CommittedSaveDispatches | src/Flyio.Demo.Todos/Infra/TodosDbContext.cs:92-97 | a committed save dispatches to exactly the entities that have events, in tracker order |
| DomainEventSteps.HandledInTurn | src/Flyio.Demo.SharedKernel/DomainEventDispatcher.cs:23 | two parts of a handler run in turn, the second one only if the first does not throw |
| DomainEventSteps.PublishedInTurn | src/Flyio.Demo.SharedKernel/DomainEventDispatcher.cs:21-24 | once a handler has thrown the rest of the copied events is not published |
| DomainEventSteps.DispatchedInTurn | src/Flyio.Demo.SharedKernel/DomainEventDispatcher.cs:16-25 | once a handler has thrown the other entities keep their events |
| DomainEventSteps.IdleSave | src/Flyio.Demo.Todos/Infra/TodosDbContext.cs:84-100 | where handlers do nothing a save publishes all pending events, entity by entity in tracker order, and empties all lists |
| DomainEventDispatcher.Entity.RegisterDomainEvent | src/Flyio.Demo.Module.SharedKernel/Entities/BaseEntity.cs:31 | appends to the live list |
| DomainEventDispatcher.Entity.ClearDomainEvents | src/Flyio.Demo.Module.SharedKernel/Entities/BaseEntity.cs:32 | empties the live list |
| DomainEventDispatcher.Context.EntitiesWithEvents | src/Flyio.Demo.Todos/Infra/TodosDbContext.cs:92-95 | the tracked entities that have events at that moment, in tracker order |
| DomainEventDispatcher.Context.SaveChanges | src/Flyio.Demo.Todos/Infra/TodosDbContext.cs:84-100 | over live lists and re-entrant handlers: lists, history and exception exactly as specified |
| DomainEventDispatcher.Context.DispatchAndClearEvents | src/Flyio.Demo.SharedKernel/DomainEventDispatcher.cs:14-26 | copy, clear and publish per entity, in place: exactly as specified |
| DomainEventDispatcher.Context.PublishAll | src/Flyio.Demo.SharedKernel/DomainEventDispatcher.cs:21-24 | publishing the copy while handlers append to the list: exactly as specified |
| DomainEventDispatcher.Context.Publish | src/Flyio.Demo.SharedKernel/DomainEventDispatcher.cs:23 | running one event's handlers, nested saves included: exactly as specified |
| PageScripts.Step | src/Flyio.Demo.Web/wwwroot/Flyio.Demo.Web.lib.module.js:3-78 | every turn keeps the Map well formed: distinct keys, each with an object made for it |
| PageScriptProofs.RunKeepsInfoInv | src/Flyio.Demo.Web/wwwroot/Flyio.Demo.Web.lib.module.js:3-60 | in every state an object outside the Map has a count of at most zero, and is disposed if it was loaded; one in the Map is not disposed |
| PageScriptProofs.DroppedForGood | src/Flyio.Demo.Web/wwwroot/Flyio.Demo.Web.lib.module.js:10-16 | from the moment an object is dropped, in every later state of the run, it is out of the Map with the count, at most zero, and the module it had then, even when its key is registered again |
| PageScriptProofs.StaleImportIsHarmless | src/Flyio.Demo.Web/wwwroot/Flyio.Demo.Web.lib.module.js:33-47 | the import of an object that was dropped at any earlier time sets no module, calls no hook and changes nothing else |
| PageScriptProofs.OneLoadedPerKey | src/Flyio.Demo.Web/wwwroot/Flyio.Demo.Web.lib.module.js:33-60 | at most one object per key is loaded and not disposed, and it is the one in the Map |
| PageScriptProofs.ResolvesOnce | src/Flyio.Demo.Web/wwwroot/Flyio.Demo.Web.lib.module.js:38 | no object's import completes twice; this rests on the one call of `initializePageScriptModule` for each object, and on `import` settling once |
| PageScriptProofs.LoadedIff | src/Flyio.Demo.Web/wwwroot/Flyio.Demo.Web.lib.module.js:38-46 | an object whose import has succeeded has its module, then and ever after, if and only if its count was positive at that moment |
| PageScriptProofs.UnloadedWasAtZero | src/Flyio.Demo.Web/wwwroot/Flyio.Demo.Web.lib.module.js:40-42 | a fetched object without its module was at or below zero when its import completed |
| PageScriptProofs.FailedForGood | src/Flyio.Demo.Web/wwwroot/Flyio.Demo.Web.lib.module.js:38 | an object whose import has failed never gets a module |
| PageScriptProofs.ElementsAreAsSet | src/Flyio.Demo.Web/wwwroot/Flyio.Demo.Web.lib.module.js:66-78 | over every run an element's `src` is the one it was last given, also when registering threw or after it has left the page |
| PageScriptProofs.KeysInMakingOrder | src/Flyio.Demo.Web/wwwroot/Flyio.Demo.Web.lib.module.js:13-14 | the Map's keys always stand in the order in which they were registered |
| PageScriptProofs.SweepsInMakingOrder | src/Flyio.Demo.Web/wwwroot/Flyio.Demo.Web.lib.module.js:49-60 | a sweep disposes of scripts and then updates the others, each in the order in which they were registered |
| PageScriptProofs.CountsKeptIff | src/Flyio.Demo.Web/wwwroot/Flyio.Demo.Web.lib.module.js:3-31 | an action keeps every key's count equal to its elements in the page if and only if it neither puts an element with a `src` into the page nor changes, to any effect, the `src` of one out of it |
| PageScriptProofs.CountsRightIff | src/Flyio.Demo.Web/wwwroot/Flyio.Demo.Web.lib.module.js:66-78 | in every state of a run each key counts exactly the elements in the page with that `src`, absent keys none, if and only if no action of the run does either |
| PageScriptProofs.ConnectAndSetSrcCommute | src/Flyio.Demo.Web/wwwroot/Flyio.Demo.Web.lib.module.js:62-79 | coming into the page and getting a `src` may be taken in either order: the script has no callback for the former |
| PageScriptProofs.LiveEntryMayStayUnloaded | src/Flyio.Demo.Web/wwwroot/Flyio.Demo.Web.lib.module.js:10-16 | register, give back, import resolved, register again: live, fetched and never loaded |
| PageScriptProofs.MovedElementLosesItsModule | src/Flyio.Demo.Web/wwwroot/Flyio.Demo.Web.lib.module.js:62-79 | an element that is disconnected and connected again is in the page uncounted, and the next sweep disposes of its loaded module |
| PageScriptProofs.DetachedElementCounts | src/Flyio.Demo.Web/wwwroot/Flyio.Demo.Web.lib.module.js:66-74 | an element out of the page that is given a `src` counts for it |
| PageScriptHooks.PhaseOfConcat | src/Flyio.Demo.Web/wwwroot/Flyio.Demo.Web.lib.module.js:44-57 | the automaton of the hook discipline accepts exactly the prefixes that its grammar generates |
| PageScriptHooks.HooksAfterSweep | src/Flyio.Demo.Web/wwwroot/Flyio.Demo.Web.lib.module.js:49-60 | a sweep calls one hook for each loaded key, disposal or update by its count, and none for others |
| PageScriptHooks.RunKeepsPhase | src/Flyio.Demo.Web/wwwroot/Flyio.Demo.Web.lib.module.js:33-60 | in every state a key is inside a life exactly while the Map has a loaded object for it |
| PageScriptHooks.HookDiscipline | src/Flyio.Demo.Web/wwwroot/Flyio.Demo.Web.lib.module.js:33-60 | on every run, at every import timing, the hooks of one key are a prefix of `(onLoad onUpdate onUpdate* onDispose)*` |
| PageScriptHooks.SweepExact | src/Flyio.Demo.Web/wwwroot/Flyio.Demo.Web.lib.module.js:49-60 | a sweep leaves exactly the entries with a positive count, in order and with their objects; each loaded dropped one gets one disposal, each loaded kept one one update, disposals first |
| PageScriptHooks.OnlyTheHeldSourceIsOpen | src/Flyio.Demo.Web/Components/Pages/Home.razor.js:3-28 | whatever hooks are called, only the EventSource that the variable holds can be open |
| PageScriptHooks.LoadHoldsTheNewest | src/Flyio.Demo.Web/Components/Pages/Home.razor.js:3-28 | each load makes one more source, which is then the held and the only open one; after a disposal none is open |
| PageScriptHooks.HeldInsideALife | src/Flyio.Demo.Web/Components/Pages/Home.razor.js:3-28 | on disciplined hooks the variable holds one exactly between a load and its disposal |
| PageScriptHooks.OwnedEventSource | src/Flyio.Demo.Web/Components/Pages/Home.razor.js:3-28 | through registry and page module at most one EventSource is open in any reachable state, and one is exactly when the key has a loaded object in the Map |
| PageScriptRegistry.PageScriptMap.Get | src/Flyio.Demo.Web/wwwroot/Flyio.Demo.Web.lib.module.js:8 | finds the object of a key, or nothing exactly when the Map lacks the key |
| PageScriptRegistry.PageScriptMap.constructor | src/Flyio.Demo.Web/wwwroot/Flyio.Demo.Web.lib.module.js:1 | an empty Map, no objects, no calls |
| PageScriptRegistry.PageScriptMap.Add | src/Flyio.Demo.Web/wwwroot/Flyio.Demo.Web.lib.module.js:13-14 | one new object with count one under its key, at the end of the entry list |
| PageScriptRegistry.PageScriptMap.Count | src/Flyio.Demo.Web/wwwroot/Flyio.Demo.Web.lib.module.js:30 | moves the count of the key's object and nothing else |
| PageScriptRegistry.PageScriptMap.Delete | src/Flyio.Demo.Web/wwwroot/Flyio.Demo.Web.lib.module.js:53 | empties the key's place in the entry list and moves no other |
| PageScriptRegistry.PageScriptMap.Register | src/Flyio.Demo.Web/wwwroot/Flyio.Demo.Web.lib.module.js:3-17 | throws exactly on an empty `src`; otherwise counts up or adds a pending object, exactly as specified |
| PageScriptRegistry.PageScriptMap.Unregister | src/Flyio.Demo.Web/wwwroot/Flyio.Demo.Web.lib.module.js:19-31 | counts the key's object down if there is one, exactly as specified |
| PageScriptRegistry.PageScriptMap.ImportSettles | src/Flyio.Demo.Web/wwwroot/Flyio.Demo.Web.lib.module.js:33-47 | what follows the `await`, for success and failure, on the object it was called for: exactly as specified |
| PageScriptRegistry.PageScriptMap.DisposeDropped | src/Flyio.Demo.Web/wwwroot/Flyio.Demo.Web.lib.module.js:50-55 | deleting while walking visits every entry: each counted out is gone, each loaded one of these got its disposal, in order |
| PageScriptRegistry.PageScriptMap.UpdateKept | src/Flyio.Demo.Web/wwwroot/Flyio.Demo.Web.lib.module.js:57-59 | every loaded entry that is left gets one update, in order |
| PageScriptRegistry.PageScriptMap.EnhancedLoad | src/Flyio.Demo.Web/wwwroot/Flyio.Demo.Web.lib.module.js:49-60 | both loops together are the specified sweep |
| PageScriptRegistry.PageScriptElement.SrcChanged | src/Flyio.Demo.Web/wwwroot/Flyio.Demo.Web.lib.module.js:66-74 | the old key is given back before the new one is registered, and `src` is the new value even when registering throws |
| PageScriptRegistry.PageScriptElement.Disconnected | src/Flyio.Demo.Web/wwwroot/Flyio.Demo.Web.lib.module.js:76-78 | gives the current key back |
| HomePage.HomeModule.constructor | src/Flyio.Demo.Web/Components/Pages/Home.razor.js:1 | no source is held at first |
| HomePage.HomeModule.OnLoad | src/Flyio.Demo.Web/Components/Pages/Home.razor.js:3-21 | closes the source held, if any, and holds a new open one |
| HomePage.HomeModule.OnDispose | src/Flyio.Demo.Web/Components/Pages/Home.razor.js:23-28 | closes the source held, if any, and holds none |
| KeycloakRoles.ClaimsIdentity.AddRoles | src/Flyio.Demo.ApiService/KeycloakRoles.cs:31-41 | the inner loop adds the claims of one role list, up to the first element that makes it throw |
| KeycloakRoles.ClaimsIdentity.AddClient | src/Flyio.Demo.ApiService/KeycloakRoles.cs:27-42 | one client adds its roles; one that is no object, or whose roles are no array, adds nothing and throws |
| KeycloakRoles.ClaimsIdentity.AddClients | src/Flyio.Demo.ApiService/KeycloakRoles.cs:25-43 | the outer loop adds the claims client by client, up to the first malformed part |
| KeycloakRoles.ClaimsIdentity.Transform | src/Flyio.Demo.ApiService/KeycloakRoles.cs:9-46 | the mutated identity has its earlier claims and then exactly the specified additions; an exception exactly where specified |
| KeycloakRoles.FlatteningIsExact | src/Flyio.Demo.Web/SessionManagement/KeycloakRoles.cs:9-46 | on an authenticated identity without a role claim: adds, in document order, the claims of the non-empty roles before the first malformed part, each of the role type with the value `client:role`; in a well-formed document one for every such role; throws if and only if the document is no object or has a malformed part |
| KeycloakRoles.FirstResourceAccessIs | src/Flyio.Demo.ApiService/KeycloakRoles.cs:17 | the document is the value of the first `resource_access` claim of the principal, and there is none exactly without such a claim |
| KeycloakRoles.PropertyIs | src/Flyio.Demo.ApiService/KeycloakRoles.cs:29 | a property is the value of the last member with the name, and missing exactly when there is no such member |
| KeycloakRoles.ClientsAre | src/Flyio.Demo.ApiService/KeycloakRoles.cs:25-43 | the walk throws exactly when a client is no object, its roles are no array, or one of them is neither string nor null; every claim added is of the role type with the value `client:role` for a non-empty role of the document, and without a throw there is one for each |
| KeycloakRoles.NothingElseIsAdded | src/Flyio.Demo.ApiService/KeycloakRoles.cs:11-20 | an identity that is not authenticated or has a role claim, no document, or a blank one: nothing is added and nothing thrown |
| KeycloakRoles.OneRole | src/Flyio.Demo.ApiService/KeycloakRoles.cs:37-39 | a document with one role `role` of one client `client` adds the one claim `client:role` |
| KeycloakRoles.AdditionsAreRoles | src/Flyio.Demo.Web/SessionManagement/KeycloakRoles.cs:37-39 | everything added is a role claim |
| KeycloakRoles.SecondCallAddsNothing | src/Flyio.Demo.ApiService/KeycloakRoles.cs:14-15 | whatever the document, a second call adds nothing |
| KeycloakRoles.Idempotent | src/Flyio.Demo.ApiService/KeycloakRoles.cs:9-46 | any positive number of calls leaves the claims of one call, also when calls throw |

## Left out

- Delivery of events: an exception or a crash after the commit loses an event by design of the code, so at-most-once is claimed and at-least-once is not.
- A context without a dispatcher, as at design time, which skips the dispatch.
- Events that handlers of the Todos module would register on its own context: the module's only handler publishes and does nothing else. Handlers that register, save again or throw are in `DomainEvents.dfy`.
- A cancelled request, other than as a save that fails or a handler that throws.
- Several handlers of one message, and how the mediator aggregates their exceptions.
- Entities that a handler adds to the context while its events are being dispatched.
- The list query over live objects: `GetTodosHandler` computes a value, and is a function in `Todos.dfy`.
- The publication and the answer over live objects: both are functions in `Todos.dfy`; the event list, its copying and clearing are in place.
- Audit rows' own identifiers and timestamps, the entity name and the text encoding of the values: the maps themselves are modelled, and each row is found by its entity.
- Rounding of stored times, and columns' length limits.
- Retries, raw `SqlQuery` (no handler uses it) and GraphQL filtering and sorting.
- Endpoints, the mapping of results to responses and the tenant authorization decision: finite case splits.
- Hooks that throw or touch the registry while it is walked.
- The rewriting of a `./` script address, and two keys that resolve to one module: each key is a script of its own.
- The event source's listeners: they write to the page.
- Hosting, configuration, migrations, token store, login and logout, date conversion and pages.
