# Saga orchestration, saga choreography and in-memory CQRS, modelled in Dafny

This project models three parts of a Java design-pattern repository and proves properties of them.

- **Saga orchestration.** Two orchestrators walk a saga's chapters forward, calling each
  chapter service's `process`. On the first failure they walk back down to chapter 0, calling
  `rollback`. They end with `FINISHED`, `ROLLBACK` or `CRASHED`.
  - The synchronous `MySagaOrchestrator` is a `while` loop over a mutable cursor. It is modelled
    as a method with loop invariants, proved equal to a recursive run (`RunLive`) that
    `LiveExecution` relates to the reference run (`Run`).
  - The asynchronous `MySagaOrchestratorAsync` is a step function (`asyncProcess`) and a
    recursive driver (`sagaAsync`). Futures and the executor become direct sequential calls.
  - Both orchestrators keep the saga object they were built from, but fetch the services once,
    at construction. The range check reads the saga as it is at execution. A chapter appended
    after construction counts as in range but has no service, and reaching it fails with
    `IndexOutOfBounds`.
  - Also modelled: the chapter lists (`MySagaAsync`), the name-to-service registries, the
    chapter results (`MyChapterResult`) and the "withdrawing Money" service.
- **Saga choreography state.** The choreography `MySaga` is a class with a cursor, a
  one-way direction flag, a finished flag and per-chapter value and status cells. The
  services mark the cell under the cursor, and two registries map names to services.
- **In-memory CQRS.** `MemoryDatabase` holds named tables of id-to-object rows, one id
  counter shared by all tables, and a per-table class fixed at the first save. The command
  service creates and updates authors and books in place. The query service reads counts and
  projections back.

Java exceptions become `Failure` values of `Result` (`wrappers.dfy`), and `null` becomes `None`.
A stored Java object is identified by the id under which it was saved. A book refers to its
author by that id, so an update to the author row is seen through every book that refers to it.

## Model

| member | source | states |
|---|---|---|
| Chapters.Success | saga/src/main/java/com/iluwatar/saga/myorchestration/application/MyChapterResult.java:50-52 | success(v) is successful and carries v |
| Chapters.Failure | saga/src/main/java/com/iluwatar/saga/myorchestration/application/MyChapterResult.java:54-56 | failure(v) is not successful and carries v |
| Chapters.ChapterResult.IsSuccess | saga/src/main/java/com/iluwatar/saga/myorchestration/application/MyChapterResult.java:46-48 | true iff the state is SUCCESS, so a result that is not a success has the state FAILURE |
| SagaAsync.NewChapter | saga/src/main/java/com/iluwatar/saga/myasyncorchestration/application/MySagaAsync.java:72-74 | a null name fails with NullPointer; otherwise the chapter carries the name |
| SagaAsync.MySagaAsync.Create | saga/src/main/java/com/iluwatar/saga/myasyncorchestration/application/MySagaAsync.java:42-48 | a new saga has no chapters |
| SagaAsync.MySagaAsync.Chapter | saga/src/main/java/com/iluwatar/saga/myasyncorchestration/application/MySagaAsync.java:50-53 | appends exactly one chapter with the name after the old ones and returns this saga; a null name leaves the list unchanged |
| SagaAsync.MySagaAsync.IsIndexInRange | saga/src/main/java/com/iluwatar/saga/myasyncorchestration/application/MySagaAsync.java:55-57 | true iff 0 <= index < number of chapters |
| SagaAsync.MySagaAsync.Iterator | saga/src/main/java/com/iluwatar/saga/myasyncorchestration/application/MySagaAsync.java:59-62 | yields the chapters in insertion order |
| SagaAsync.SnapshotThenAppend | saga/src/main/java/com/iluwatar/saga/myasyncorchestration/application/MySagaAsync.java:50-62 | a snapshot taken before chapter(name) keeps the old chapters; the saga then holds the snapshot plus the new chapter |
| ServiceDiscoveryAsync.MyServiceDiscoveryAsync.Create | saga/src/main/java/com/iluwatar/saga/myasyncorchestration/application/MyServiceDiscoveryAsync.java:41-58 | create() gives an empty registry in which every chapter is keyed by its own name |
| ServiceDiscoveryAsync.MyServiceDiscoveryAsync.Find | saga/src/main/java/com/iluwatar/saga/myasyncorchestration/application/MyServiceDiscoveryAsync.java:45-48 | a null name fails with NullPointer; otherwise the chapter is present iff the name was discovered, and it is the chapter registered under that name |
| ServiceDiscoveryAsync.MyServiceDiscoveryAsync.Discover | saga/src/main/java/com/iluwatar/saga/myasyncorchestration/application/MyServiceDiscoveryAsync.java:50-54 | find(c.name) then yields c, every other name finds what it found before, and the result is this registry; a null chapter fails and the map is unchanged |
| WithdrawMoneyAsync.Process | saga/src/main/java/com/iluwatar/saga/myasyncorchestration/service/MyWithdrawMoneyServiceAsync.java:44-53 | the two forced order values give a failed result that carries the value; every other value gets the base process answer unchanged |
| WithdrawMoneyAsync.Service | saga/src/main/java/com/iluwatar/saga/myasyncorchestration/service/MyWithdrawMoneyServiceAsync.java:37-53 | the chapter is named "withdrawing Money", overrides process as above and keeps the base rollback |
| WithdrawMoneyAsync.RollbackOrderScenario | saga/src/test/java/com/iluwatar/saga/myasyncorchestration/MySagaOrchestratorAsyncAsyncTest.java:46-51 | with the withdrawal as the fourth chapter, pass-through chapters before it and succeeding rollbacks, the rollback order gives ROLLBACK after Process 0..3 then Rollback 3..0 |
| SagaOrchestration.CurrentState.constructor | saga/src/main/java/com/iluwatar/saga/myorchestration/application/MySagaOrchestrator.java:112-115 | the cursor starts at index 0, moving forward |
| SagaOrchestration.CurrentState.MustRollback | saga/src/main/java/com/iluwatar/saga/myorchestration/application/MySagaOrchestrator.java:117-119 | the direction becomes backward and the index is kept |
| SagaOrchestration.CurrentState.Forward | saga/src/main/java/com/iluwatar/saga/myorchestration/application/MySagaOrchestrator.java:129-131 | the index goes up by one and the new index is returned; the direction is kept |
| SagaOrchestration.CurrentState.Back | saga/src/main/java/com/iluwatar/saga/myorchestration/application/MySagaOrchestrator.java:133-135 | the index goes down by one and the new index is returned; the direction is kept |
| SagaOrchestration.GetOrchestrationChapters | saga/src/main/java/com/iluwatar/saga/myorchestration/application/MySagaOrchestrator.java:96-104 | succeeds iff every chapter name has a registered service, with the services in saga order; otherwise InvalidConfiguration |
| SagaOrchestration.NewOrchestrator | saga/src/main/java/com/iluwatar/saga/myorchestration/application/MySagaOrchestrator.java:50-54 | a null saga or registry fails with NullPointer; otherwise construction succeeds iff every chapter name is registered, else InvalidConfiguration; the orchestrator keeps the saga object itself, and service i is the one registered under chapter i's name |
| SagaOrchestration.MySagaOrchestrator.Execute | saga/src/main/java/com/iluwatar/saga/myorchestration/application/MySagaOrchestrator.java:56-94 | the while loop over a CurrentState object, reading services from the list fixed at construction and range-checking against the saga as it is now, returns exactly the result and makes exactly the calls of ExecutionLive, which LiveExecution relates to the reference run |
| SagaOrchestration.LiveExecution | saga/src/main/java/com/iluwatar/saga/myorchestration/application/MySagaOrchestrator.java:56-94 | with the saga unchanged since construction the run is the reference run Execution; with chapters appended since, the run fails with IndexOutOfBounds iff every process succeeds, and is otherwise the reference run |
| SagaOrchestration.ExecutionOutcome | saga/src/main/java/com/iluwatar/saga/myorchestration/application/MySagaOrchestrator.java:62-91 | an empty saga fails with IndexOutOfBounds; otherwise FINISHED iff no process fails, with Process 0..n-1 only; else for the first failing chapter k the calls are Process 0..k then Rollback k..0, and the result is ROLLBACK iff every rollback succeeds and CRASHED iff one fails; at most 2n calls, every index in [0, n) |
| SagaOrchestration.ForwardPhase | saga/src/main/java/com/iluwatar/saga/myorchestration/application/MySagaOrchestrator.java:65-77 | from chapter i forward: with no failure, Process i..n-1 and the result kept; when chapter k is the first to fail, Process i..k then Rollback k..0, with ROLLBACK iff every rollback succeeds and CRASHED otherwise |
| SagaOrchestration.RollbackPhase | saga/src/main/java/com/iluwatar/saga/myorchestration/application/MySagaOrchestrator.java:78-87 | rolling back from chapter top calls Rollback top..0 in order; the result is kept iff every rollback succeeds and is CRASHED otherwise, so CRASHED is never overwritten |
| SagaOrchestration.RunThreadsValues | saga/src/main/java/com/iluwatar/saga/myorchestration/application/MySagaOrchestrator.java:63-81 | each call receives the value of the last successful answer before it (failed answers are discarded), the first call receives the input, and every recorded answer is the chapter service's answer |
| SagaOrchestration.LastChapterFailsScenario | saga/src/test/java/com/iluwatar/saga/myorchestration/MySagaOrchestratorAsyncInternallyTest.java:50-61 | four chapters with the last failing and all rollbacks succeeding: ROLLBACK after Process 0..3 then Rollback 3..0 |
| SagaOrchestrationAsync.Step | saga/src/main/java/com/iluwatar/saga/myasyncorchestration/application/MySagaOrchestratorAsync.java:88-108 | a success moves one step in the current direction and keeps the result; a failure turns backward; from ROLLBACK it gives CRASHED one chapter down, otherwise ROLLBACK at the same chapter |
| SagaOrchestrationAsync.AsyncProcess | saga/src/main/java/com/iluwatar/saga/myasyncorchestration/application/MySagaOrchestratorAsync.java:88-108 | on a CurrentState object, the new cursor and result are those of Step |
| SagaOrchestrationAsync.ExecutionAsync | saga/src/main/java/com/iluwatar/saga/myasyncorchestration/application/MySagaOrchestratorAsync.java:73-81 | an empty saga completes with FINISHED and calls no service |
| SagaOrchestrationAsync.MySagaOrchestratorAsync.SagaAsyncFrom | saga/src/main/java/com/iluwatar/saga/myasyncorchestration/application/MySagaOrchestratorAsync.java:113-130 | sagaAsync and asyncProcess over one CurrentState object, range-checking against the saga as it is now, make exactly the calls and give exactly the result of DriveLive, failing with IndexOutOfBounds at an index that has no service |
| SagaOrchestrationAsync.MySagaOrchestratorAsync.Execute | saga/src/main/java/com/iluwatar/saga/myasyncorchestration/application/MySagaOrchestratorAsync.java:73-81 | execute starts at index 0, forward, FINISHED, and gives ExecutionAsyncLive over the saga's current length |
| SagaOrchestrationAsync.ExecutionAsyncLiveOutcome | saga/src/main/java/com/iluwatar/saga/myasyncorchestration/application/MySagaOrchestratorAsync.java:113-130 | with the saga unchanged since construction the run completes as the reference driver ExecutionAsync; with chapters appended since, it completes exceptionally with IndexOutOfBounds iff every process succeeds, and is otherwise the reference run |
| SagaOrchestrationAsync.NewOrchestratorAsync | saga/src/main/java/com/iluwatar/saga/myasyncorchestration/application/MySagaOrchestratorAsync.java:57-60 | a null saga or registry fails with NullPointer; construction succeeds iff every chapter name is registered, otherwise InvalidConfiguration; the orchestrator keeps the saga object itself, and service i is the one registered under chapter i's name |
| SagaOrchestrationAsync.DriveThreadsValues | saga/src/main/java/com/iluwatar/saga/myasyncorchestration/application/MySagaOrchestratorAsync.java:110-128 | each call receives the value of the answer just before it, failed or not, the first call receives the input, and every recorded answer is the chapter service's answer |
| SagaOrchestrationAsync.RollbackPhase | saga/src/main/java/com/iluwatar/saga/myasyncorchestration/application/MySagaOrchestratorAsync.java:88-111 | once rolling back with ROLLBACK or CRASHED, only rollbacks are called and the result never returns to FINISHED; when every rollback succeeds the calls are Rollback top..0 and the result is kept; when exactly one fails, starting from ROLLBACK, the calls are the same and the result is CRASHED |
| SagaOrchestrationAsync.RollbackFailures | saga/src/main/java/com/iluwatar/saga/myasyncorchestration/application/MySagaOrchestratorAsync.java:88-111 | the number of failing rollbacks when chapters top..0 are each rolled back once is at most top+1, and zero exactly when every rollback succeeds |
| SagaOrchestrationAsync.ForwardPhase | saga/src/main/java/com/iluwatar/saga/myasyncorchestration/application/MySagaOrchestratorAsync.java:88-128 | forward with FINISHED: FINISHED after Process i..n-1 if nothing fails; for the first failing chapter k, Process i..k followed by exactly the calls and the result of the backward walk from chapter k with ROLLBACK and the failed answer's value |
| SagaOrchestrationAsync.ExecutionAsyncOutcome | saga/src/main/java/com/iluwatar/saga/myasyncorchestration/application/MySagaOrchestratorAsync.java:73-130 | FINISHED iff no process fails, with Process 0..n-1; for the first failing chapter k, Process 0..k then Rollback k..0, with ROLLBACK when no rollback fails and CRASHED when exactly one fails |
| SagaOrchestrationAsync.LastChapterFailsScenario | saga/src/test/java/com/iluwatar/saga/myasyncorchestration/MySagaOrchestratorAsyncInternallyAsyncTest.java:50-66 | four chapters with the last failing and all rollbacks succeeding: ROLLBACK after Process 0..3 then Rollback 3..0 |
| SagaOrchestrationAsyncCorrected.CrashedResultIsOverwritten | saga/src/main/java/com/iluwatar/saga/myasyncorchestration/application/MySagaOrchestratorAsync.java:91-99 | as written, two chapters where B fails process and rollback and A's rollback fails once: the saga reports ROLLBACK and calls A's rollback twice |
| SagaOrchestrationAsyncCorrected.StepCorrected | saga/src/main/java/com/iluwatar/saga/myasyncorchestration/application/MySagaOrchestratorAsync.java:91-99 | a failed rollback always gives CRASHED one chapter down; a failed process gives ROLLBACK at the same chapter; a success is as in Step |
| SagaOrchestrationAsyncCorrected.RollbackPhaseCorrected | saga/src/main/java/com/iluwatar/saga/myasyncorchestration/application/MySagaOrchestratorAsync.java:88-111 | with the corrected step, Rollback top..0 each exactly once, and CRASHED iff some rollback failed |
| SagaOrchestrationAsyncCorrected.ForwardPhaseCorrected | saga/src/main/java/com/iluwatar/saga/myasyncorchestration/application/MySagaOrchestratorAsync.java:88-128 | with the corrected step: FINISHED without a failure; otherwise Process i..k then Rollback k..0, ROLLBACK iff every rollback succeeds and CRASHED otherwise |
| SagaOrchestrationAsyncCorrected.CorrectedReportsCrash | saga/src/main/java/com/iluwatar/saga/myasyncorchestration/application/MySagaOrchestratorAsync.java:91-99 | on the same two chapters, the corrected step reports CRASHED after Process 0, 1 and Rollback 1, 0 |
| ChoreographySaga.MySaga.Create | saga/src/main/java/com/iluwatar/saga/mychoreography/MySaga.java:14-19 | pos 0, forward, not finished, no chapters, and getResult() is PROGRESS |
| ChoreographySaga.MySaga.GetResult | saga/src/main/java/com/iluwatar/saga/mychoreography/MySaga.java:21-29 | PROGRESS iff not finished; FINISHED iff finished and back() never ran; ROLLBACK iff finished after at least one back() |
| ChoreographySaga.MySaga.InRange | saga/src/main/java/com/iluwatar/saga/mychoreography/MySaga.java:81-83 | true iff 0 <= pos < the number of chapters |
| ChoreographySaga.MyChapter.IsSuccess | saga/src/main/java/com/iluwatar/saga/mychoreography/MySaga.java:107-109 | true iff the status is SUCCESS, so a fresh chapter's null status is not successful |
| ChoreographySaga.MySaga.Chapter | saga/src/main/java/com/iluwatar/saga/mychoreography/MySaga.java:31-34 | appends one fresh chapter (null value, null status, not successful) and returns this saga; nothing else changes |
| ChoreographySaga.MySaga.SetInValue | saga/src/main/java/com/iluwatar/saga/mychoreography/MySaga.java:36-43 | sets only the last chapter's value; a no-op on an empty saga |
| ChoreographySaga.MySaga.GetCurrentValue | saga/src/main/java/com/iluwatar/saga/mychoreography/MySaga.java:45-47 | the value of the chapter at pos; IndexOutOfBounds iff pos is out of range |
| ChoreographySaga.MySaga.SetCurrentValue | saga/src/main/java/com/iluwatar/saga/mychoreography/MySaga.java:49-52 | changes only the value of the chapter at pos, which getCurrentValue() then returns; out of range it throws and nothing changes |
| ChoreographySaga.MySaga.SetCurrentStatus | saga/src/main/java/com/iluwatar/saga/mychoreography/MySaga.java:54-57 | changes only the status of the chapter at pos, storing a null status as given; isCurrentSuccess() then holds iff the status is SUCCESS, so false after a null status as for a fresh chapter; out of range it throws and nothing changes |
| ChoreographySaga.MySaga.SetFinished | saga/src/main/java/com/iluwatar/saga/mychoreography/MySaga.java:59-62 | sets the finished flag and nothing else |
| ChoreographySaga.MySaga.Forward | saga/src/main/java/com/iluwatar/saga/mychoreography/MySaga.java:68-70 | pos goes up by one and is returned; the direction and the chapters are kept |
| ChoreographySaga.MySaga.Back | saga/src/main/java/com/iluwatar/saga/mychoreography/MySaga.java:72-75 | pos goes down by one and is returned; the direction becomes backward and stays so |
| ChoreographySaga.MySaga.GetCurrent | saga/src/main/java/com/iluwatar/saga/mychoreography/MySaga.java:77-79 | the chapter at pos; IndexOutOfBounds iff pos is out of range |
| ChoreographySaga.MySaga.IsCurrentSuccess | saga/src/main/java/com/iluwatar/saga/mychoreography/MySaga.java:85-87 | true iff the chapter at pos has status SUCCESS, so a fresh chapter is not successful; IndexOutOfBounds out of range |
| ChoreographyServices.MyService.constructor | saga/src/main/java/com/iluwatar/saga/mychoreography/MyService.java:14-16 | the service keeps its kind and its discovery service |
| ChoreographyServices.NewService | saga/src/main/java/com/iluwatar/saga/mychoreography/MyService.java:14-16 | a null discovery service fails with NullPointer; otherwise a new service of the kind |
| ChoreographyServices.MyService.GetName | saga/src/main/java/com/iluwatar/saga/mychoreography/MyWithdrawMoneyService.java:10-12 | the withdrawal is named "withdrawing Money" and the hotel booking "booking a Hotel" |
| ChoreographyServices.MyService.BaseProcess | saga/src/main/java/com/iluwatar/saga/mychoreography/MyService.java:24-34 | keeps the current value and marks only the current chapter SUCCESS; pos and the flags are unchanged; out of range it throws |
| ChoreographyServices.MyService.Process | saga/src/main/java/com/iluwatar/saga/mychoreography/MyWithdrawMoneyService.java:15-27 | for the withdrawal, "must_rollback_order" marks the current chapter ROLLBACK, a null value throws and changes nothing, any other value is marked SUCCESS; other services mark SUCCESS; pos and the flags are unchanged |
| ChoreographyServices.MyService.Rollback | saga/src/main/java/com/iluwatar/saga/mychoreography/MyService.java:37-46 | keeps the current value and marks only the current chapter ROLLBACK; pos and the flags are unchanged |
| ChoreographyServices.MyService.IsSagaFinished | saga/src/main/java/com/iluwatar/saga/mychoreography/MyService.java:48-55 | out of range it sets finished; in range the flag is kept; the flag is returned; nothing else changes |
| ChoreographyServices.MyServiceDiscovery.Create | saga/src/main/java/com/iluwatar/saga/mychoreography/MyServiceDiscovery.java:12-14 | an empty registry |
| ChoreographyServices.MyServiceDiscovery.FindAny | saga/src/main/java/com/iluwatar/saga/mychoreography/MyServiceDiscovery.java:16-18 | some registered service; NoSuchElement iff the registry is empty |
| ChoreographyServices.MyServiceDiscovery.Find | saga/src/main/java/com/iluwatar/saga/mychoreography/MyServiceDiscovery.java:20-22 | present iff the name is registered, and then it is the service registered under it, which has that name |
| ChoreographyServices.MyServiceDiscovery.Discover | saga/src/main/java/com/iluwatar/saga/mychoreography/MyServiceDiscovery.java:24-28 | find(name) then yields the service, every other name is unchanged, and the result is this registry; a null service fails and nothing changes |
| ChoreographyServices.MyDiscoveryService.constructor | saga/src/main/java/com/iluwatar/saga/mychoreography/MyDiscoveryService.java:12-14 | an empty registry |
| ChoreographyServices.MyDiscoveryService.FindAny | saga/src/main/java/com/iluwatar/saga/mychoreography/MyDiscoveryService.java:16-18 | some registered service; NoSuchElement iff the registry is empty |
| ChoreographyServices.MyDiscoveryService.Find | saga/src/main/java/com/iluwatar/saga/mychoreography/MyDiscoveryService.java:20-22 | present iff the name is registered, and then it is the service registered under it, which has that name |
| ChoreographyServices.MyDiscoveryService.Discover | saga/src/main/java/com/iluwatar/saga/mychoreography/MyDiscoveryService.java:24-28 | find(name) then yields the service, every other name is unchanged, and the result is this registry; a null service fails and nothing changes |
| MemoryDb.MemoryDatabase.constructor | cqrs/src/main/java/com/iluwatar/mycqrs/util/MemoryDatabase.java:18-23 | the single store starts with no tables, no fixed classes and the counter at 0 |
| MemoryDb.MemoryDatabase.Rows | cqrs/src/main/java/com/iluwatar/mycqrs/util/MemoryDatabase.java:48-56 | a table's rows all have ids in 1..counter and the class fixed for the table |
| MemoryDb.MemoryDatabase.CheckTableType | cqrs/src/main/java/com/iluwatar/mycqrs/util/MemoryDatabase.java:58-69 | the first class seen for a table is fixed; another class fails with IllegalArgument and the registry is unchanged; rows and counter are unchanged |
| MemoryDb.MemoryDatabase.GetTable | cqrs/src/main/java/com/iluwatar/mycqrs/util/MemoryDatabase.java:48-56 | returns the table's rows, creating it empty when absent; no row anywhere changes |
| MemoryDb.MemoryDatabase.Save | cqrs/src/main/java/com/iluwatar/mycqrs/util/MemoryDatabase.java:29-34 | fails with IllegalArgument iff the table is fixed to another class, and then nothing changes, not even the counter; otherwise the counter goes up by one and the record is stored under the new id, which no table used before |
| MemoryDb.MemoryDatabase.Get | cqrs/src/main/java/com/iluwatar/mycqrs/util/MemoryDatabase.java:36-40 | the object saved under the id in that table, or nothing iff there is none |
| MemoryDb.MemoryDatabase.GetList | cqrs/src/main/java/com/iluwatar/mycqrs/util/MemoryDatabase.java:42-46 | every object of the table, each as many times as rows hold it (the same multiset as the table), and as many elements as rows |
| MemoryDb.MemoryDatabase.SetRow | cqrs/src/main/java/com/iluwatar/mycqrs/command/CommandServiceImpl.java:36-63 | a setter on a stored object changes that row in place and nothing else |
| MemoryDb.AddRowKeepsConsistent | cqrs/src/main/java/com/iluwatar/mycqrs/util/MemoryDatabase.java:29-34 | storing a record of the table's class under the next id keeps ids in 1..counter, unique across tables, and each table of one class |
| MemoryDb.ListingIsTable | cqrs/src/main/java/com/iluwatar/mycqrs/util/MemoryDatabase.java:42-46 | when all ids are in 1..counter, the listing has one element per row, exactly the stored objects, each as often as rows hold it |
| MemoryDb.FilterListingCount | cqrs/src/main/java/com/iluwatar/mycqrs/query/QueryServiceImpl.java:43-59 | filtering a listing keeps one element per matching row |
| MemoryDb.Filter | cqrs/src/main/java/com/iluwatar/mycqrs/query/QueryServiceImpl.java:56-59 | the kept elements are exactly the elements that pass the filter, and there are no more of them than inputs |
| CqrsCommand.CommandServiceImpl.constructor | cqrs/src/main/java/com/iluwatar/mycqrs/command/CommandServiceImpl.java:14-16 | the service works on the given single store |
| CqrsCommand.CommandServiceImpl.AuthorCreated | cqrs/src/main/java/com/iluwatar/mycqrs/command/CommandServiceImpl.java:19-23 | exactly one new author row under the next id, even for a taken username; the author count grows by one; every other table is unchanged |
| CqrsCommand.CommandServiceImpl.BookAddedToAuthor | cqrs/src/main/java/com/iluwatar/mycqrs/command/CommandServiceImpl.java:26-33 | when an author has the username, exactly one new book referring to that author is stored; otherwise nothing changes; the author table is unchanged |
| CqrsCommand.CommandServiceImpl.AuthorNameUpdated | cqrs/src/main/java/com/iluwatar/mycqrs/command/CommandServiceImpl.java:36-39 | only the name of one author with the username changes; a no-op when none has it; other tables and the id counter unchanged |
| CqrsCommand.CommandServiceImpl.AuthorUsernameUpdated | cqrs/src/main/java/com/iluwatar/mycqrs/command/CommandServiceImpl.java:42-45 | one author with the old username gets the new one, so an author then has the new username; when the old one was unique and differs, no author has it any more |
| CqrsCommand.CommandServiceImpl.AuthorEmailUpdated | cqrs/src/main/java/com/iluwatar/mycqrs/command/CommandServiceImpl.java:48-51 | only the email of one author with the username changes; a no-op when none has it |
| CqrsCommand.CommandServiceImpl.BookTitleUpdated | cqrs/src/main/java/com/iluwatar/mycqrs/command/CommandServiceImpl.java:54-57 | only the title of one book with the old title changes; a no-op when none has it; the author table is unchanged |
| CqrsCommand.CommandServiceImpl.BookPriceUpdated | cqrs/src/main/java/com/iluwatar/mycqrs/command/CommandServiceImpl.java:60-63 | only the price of one book with the title changes; a no-op when none has it |
| CqrsCommand.CommandServiceImpl.FindAuthorByUsername | cqrs/src/main/java/com/iluwatar/mycqrs/command/CommandServiceImpl.java:65-70 | the id of some author with the username, or nothing iff no author has it; no row changes |
| CqrsCommand.CommandServiceImpl.FindBookByTitle | cqrs/src/main/java/com/iluwatar/mycqrs/command/CommandServiceImpl.java:72-77 | the id of some book with the title, or nothing iff no book has it; no row changes |
| CqrsQuery.QueryServiceImpl.constructor | cqrs/src/main/java/com/iluwatar/mycqrs/query/QueryServiceImpl.java:21-23 | the service reads the given single store |
| CqrsQuery.QueryServiceImpl.GetAuthorsCount | cqrs/src/main/java/com/iluwatar/mycqrs/query/QueryServiceImpl.java:50-54 | the number of author rows |
| CqrsQuery.QueryServiceImpl.GetAuthorBooks | cqrs/src/main/java/com/iluwatar/mycqrs/query/QueryServiceImpl.java:36-40 | one (title, price) per book whose author has the username: exactly the projections of such books, each as many times as there are such books projecting to it |
| CqrsQuery.QueryServiceImpl.GetAuthorBooksCount | cqrs/src/main/java/com/iluwatar/mycqrs/query/QueryServiceImpl.java:43-47 | equals the length of getAuthorBooks(username) and the number of that author's books |
| CqrsQuery.QueryServiceImpl.GetAuthorByUsername | cqrs/src/main/java/com/iluwatar/mycqrs/query/QueryServiceImpl.java:61-67 | nothing iff no author has the username; otherwise the name, email and username of an author who has it |
| CqrsQuery.QueryServiceImpl.GetBook | cqrs/src/main/java/com/iluwatar/mycqrs/query/QueryServiceImpl.java:69-75 | nothing iff no book has the title; otherwise the projection of a book with that title |
| CqrsQuery.BookDtos | cqrs/src/main/java/com/iluwatar/mycqrs/query/QueryServiceImpl.java:77-82 | one (title, price) per book, position by position |
| CqrsQuery.AuthorBooksMeaning | cqrs/src/main/java/com/iluwatar/mycqrs/query/QueryServiceImpl.java:56-59 | the author filter over the book listing keeps one element per book of the author; its projections are exactly those of the author's books, each with the multiplicity of the books projecting to it |
| CqrsQuery.ByAuthorDtoCount | cqrs/src/main/java/com/iluwatar/mycqrs/query/QueryServiceImpl.java:36-40 | projecting the author's filtered books gives each projection d once per book of the author that projects to d |
| CqrsQuery.RenameMovesBooks | cqrs/src/main/java/com/iluwatar/mycqrs/command/CommandServiceImpl.java:42-45 | renaming the only author with a username to an unused one moves all of that author's books to the new username and leaves none under the old one, because a book refers to the author object |

## Left out

- Thread pool: its behaviour is about real thread interleavings and is not part of this model.
- The asynchronous CQRS variants (SQL over a reactive driver, an external database started as a process) are not part of this model.
- Executor, thread factory, `shutdown` and future chaining in `MySagaOrchestratorAsync`: each step is a direct sequential call. Only the order of calls, their values and the result are modelled.
- Call log: the orchestrators return, next to the result, the list of service calls made (kind, chapter index, input, answer). The Java services log these calls; the list is how the model states call order.
- Choreography `MyService.execute` returns `null`, so the end-to-end choreography flow does not exist in the source and is not modelled. The subclass constructors pass a `MyServiceDiscovery` where `MyService` expects a `MyDiscoveryService`; the model gives every service a `MyDiscoveryService`.
- Logging and the demo main programs: output only.
- `MemoryDatabase.db()`: the static singleton is one `MemoryDatabase` instance passed to both service constructors.
- Null arguments outside the cases modelled with `Option`: a null table name (which throws in `getTable`) and a null object passed to `save` (which throws at `getClass()`). A null username or title passed to a finder is not an input: it is the argument of `String.equals`, so it matches no row and the finder finds nothing, as the model's finders do for a string no row has. Record fields are non-null strings: a null username, name, email or title stored by `authorCreated`, `bookAddedToAuthor` or a setter is not modelled. In the source such a row makes every later finder or query that reaches it throw at `getUsername().equals` or `getTitle().equals`, while the model's finders and queries answer on every store.
- Table creation by queries: the query service's reads are functions of the store, so they do not create an absent table the way `getList` does. A missing table and an empty one give the same answers.
- Iteration order of a hash map: a table is listed in ascending id order. Every listing property is stated without order (length, membership, multiplicity). Each finder returns *some* matching row, not a particular one.
- `MemoryDb.MemoryDatabase.Save`: the id counter is an unbounded `nat`; the 32-bit wrap-around of `AtomicInteger` after 2^31 - 1 saves is not modelled.
- Book prices (`double`) are an opaque value that is only stored and compared.
- Only the author and book record classes exist; a table's class check is over those two.
- Chapter cells of the choreography saga are values in a sequence, not separately aliased objects. No chapter object escapes `MySaga` in the source except through `getCurrent`, which is modelled as returning a copy.
- Services not shown in the source (`MyServiceAsync`, the orchestration chapter classes, the order and flight services) are parameters. A chapter's `process` and `rollback` are functions from value to result. In the choreography, an unshown service keeps the base behaviour under its own name (`Plain`).
- The crash-order test expects `CRASHED` from services whose rollback behaviour is not shown. It is not modelled; the finding below shows what the step does when rollbacks fail.
- The asynchronous driver terminates: a measure that falls with every step is given (`SagaOrchestrationAsync.Measure`). No fuel bound is needed.
- `SagaOrchestrationAsync.ExecutionAsyncOutcome` states the rollback walk only when at most one rollback fails. With two or more failing rollbacks the as-written step retries chapters (see Findings), so only "the result is not FINISHED" is stated there.
- `WithdrawMoneyAsync.Process` takes a non-null string: a null value makes `value.equals` throw inside the chapter's future (MyWithdrawMoneyServiceAsync.java:47), and a chapter completing exceptionally is not modelled, since a chapter answer is always a success or failure result.
- The synchronous orchestrator's `MySaga` chapter list is not part of this model. The orchestrator uses only its iteration and `isIndexInRange`, so the model gives it the `MySagaAsync` chapter list class, which has both.

## Findings

| source | as written | input that shows it | evidently intended | confidence | as-written member | corrected member |
|---|---|---|---|---|---|---|
| saga/src/main/java/com/iluwatar/saga/myasyncorchestration/application/MySagaOrchestratorAsync.java:91-99 | a failed call while the result is not `ROLLBACK` sets `ROLLBACK` and keeps the index, even during rollback when the result is already `CRASHED` | chapters A (rollback fails on 0) and B (process and rollback fail), input 0: Process A, Process B, Rollback B fails (CRASHED), Rollback A fails (back to ROLLBACK, same index), Rollback A again succeeds, result ROLLBACK | once a rollback has failed the saga stays `CRASHED`, and every chapter is rolled back once, as in the synchronous orchestrator | not executed | SagaOrchestrationAsyncCorrected.CrashedResultIsOverwritten | SagaOrchestrationAsyncCorrected.CorrectedReportsCrash, SagaOrchestrationAsyncCorrected.ForwardPhaseCorrected |
