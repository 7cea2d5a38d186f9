/**
 * MyWithdrawMoneyServiceAsync: the "withdrawing Money" chapter, whose process fails on the two
 * order values that the tests use to force a rollback, and otherwise behaves as its base
 * service. The base service (MyServiceAsync) is a parameter here.
 */
module WithdrawMoneyAsync {
  import opened Chapters
  import opened SagaAsync
  import opened SagaLog
  import SagaOrchestration
  import SagaOrchestrationAsync

  const Name := "withdrawing Money"
  const RollbackOrder := "flux_must_rollback_order"
  const CrashOrder := "flux_must_crash_order"

  /** process(value): a failed result carrying the value for the two forced orders. */
  function Process(baseProcess: string -> ChapterResult<string>, value: string): (r: ChapterResult<string>)
    ensures value == RollbackOrder || value == CrashOrder ==> !r.IsSuccess() && r.value == value
    ensures value != RollbackOrder && value != CrashOrder ==> r == baseProcess(value)
  {
    if value == RollbackOrder || value == CrashOrder then Failure(value) else baseProcess(value)
  }

  /** The chapter as registered: its name, its overriding process and the base rollback. */
  function Service(baseProcess: string -> ChapterResult<string>, baseRollback: string -> ChapterResult<string>)
    : (c: Chapter<string>)
    ensures c.name == "withdrawing Money"
    ensures c.rollback == baseRollback
    ensures forall v :: c.process(v) == Process(baseProcess, v)
  {
    Chapter(Name, v => Process(baseProcess, v), baseRollback)
  }

  /**
   * The four-chapter saga of the test suite, the withdrawal last: when the other chapters
   * pass their value through and every rollback succeeds, the rollback order ends in
   * ROLLBACK after Process 0..3 and Rollback 3..0.
   */
  lemma RollbackOrderScenario(chapters: seq<Chapter<string>>,
                              baseProcess: string -> ChapterResult<string>,
                              baseRollback: string -> ChapterResult<string>)
    requires |chapters| == 4 && chapters[3] == Service(baseProcess, baseRollback)
    requires forall i, x :: 0 <= i < 3 ==> chapters[i].process(x) == Success(x)
    requires forall i, x :: 0 <= i < 4 ==> chapters[i].rollback(x).IsSuccess()
    ensures SagaOrchestrationAsync.ExecutionAsync(chapters, RollbackOrder).result == ROLLBACK
    ensures Labels(SagaOrchestrationAsync.ExecutionAsync(chapters, RollbackOrder).calls) ==
      Processes(0, 4) + Rollbacks(3)
  {
    var v := RollbackOrder;
    SagaOrchestrationAsync.ExecutionAsyncOutcome(chapters, v);
    assert !chapters[3].process(v).IsSuccess() && chapters[3].process(v).value == v;
    assert SagaOrchestration.ProcessChain(chapters, 3, v) == (3, v);
    assert chapters[2].process(v) == Success(v) && chapters[1].process(v) == Success(v);
    assert chapters[0].process(v) == Success(v);
    assert SagaOrchestration.ProcessChain(chapters, 2, v) == (3, v);
    assert SagaOrchestration.ProcessChain(chapters, 1, v) == (3, v);
    assert SagaOrchestration.ProcessChain(chapters, 0, v) == (3, v);
    var w0 := chapters[3].rollback(v).value;
    var w1 := chapters[2].rollback(w0).value;
    var w2 := chapters[1].rollback(w1).value;
    assert SagaOrchestration.RollbacksSucceed(chapters, -1, chapters[0].rollback(w2).value);
    assert SagaOrchestration.RollbacksSucceed(chapters, 0, w2);
    assert SagaOrchestration.RollbacksSucceed(chapters, 1, w1);
    assert SagaOrchestration.RollbacksSucceed(chapters, 2, w0);
    assert SagaOrchestration.RollbacksSucceed(chapters, 3, v);
  }
}
