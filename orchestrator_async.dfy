/**
 * MySagaOrchestratorAsync: the same saga walk as MySagaOrchestrator, written as a step
 * (asyncProcess) that updates the cursor and the result after each chapter answer, and a
 * driver (sagaAsync) that calls the chapter at the cursor or completes once the cursor leaves
 * the saga. The executor and the future chaining are replaced by direct sequential calls.
 */
module SagaOrchestrationAsync {
  import opened Wrappers
  import opened Chapters
  import opened SagaAsync
  import opened SagaLog
  import opened ServiceDiscoveryAsync
  import SagaOrchestration

  /** The cursor (index, direction) together with the saga result carried between steps. */
  datatype AsyncState = AsyncState(index: int, forward: bool, result: SagaResult)

  const Initial := AsyncState(0, true, FINISHED)

  /**
   * asyncProcess's update. A success moves one chapter in the current direction and keeps
   * the result. A failure turns the direction backward for good; when the result was
   * ROLLBACK it becomes CRASHED and the cursor moves down, otherwise (FINISHED, or CRASHED)
   * it becomes ROLLBACK and the forward-then-back moves leave the cursor where it was.
   */
  function Step(st: AsyncState, succeeded: bool): (s: AsyncState)
    ensures succeeded ==> s.forward == st.forward && s.result == st.result
    ensures succeeded && st.forward ==> s.index == st.index + 1
    ensures succeeded && !st.forward ==> s.index == st.index - 1
    ensures !succeeded ==> !s.forward
    ensures !succeeded && st.result == ROLLBACK ==> s.result == CRASHED && s.index == st.index - 1
    ensures !succeeded && st.result != ROLLBACK ==> s.result == ROLLBACK && s.index == st.index
  {
    var forward := if succeeded then st.forward else false;
    var index := if !succeeded && st.result != ROLLBACK then st.index + 1 else st.index;
    var result := if succeeded then st.result else if st.result == ROLLBACK then CRASHED else ROLLBACK;
    AsyncState(if forward then index + 1 else index - 1, forward, result)
  }

  /** asyncProcess on the mutable cursor object, without the tail call into sagaAsync. */
  method AsyncProcess<V>(asyncValue: ChapterResult<V>, state: SagaOrchestration.CurrentState,
                         sagaLastResult: SagaResult)
    returns (sagaUpdatedResult: SagaResult)
    modifies state
    ensures AsyncState(state.currentNumber, state.isForward, sagaUpdatedResult) ==
      Step(AsyncState(old(state.currentNumber), old(state.isForward), sagaLastResult), asyncValue.IsSuccess())
  {
    if !asyncValue.IsSuccess() {
      state.MustRollback();
      if sagaLastResult == ROLLBACK {
        sagaUpdatedResult := CRASHED;
      } else {
        var _ := state.Forward();
        sagaUpdatedResult := ROLLBACK;
      }
    } else {
      sagaUpdatedResult := sagaLastResult;
    }
    if state.isForward {
      var _ := state.Forward();
    } else {
      var _ := state.Back();
    }
  }

  /**
   * A bound on the calls still to come: forward it exceeds every backward value, backward it
   * falls with each step (a failure while CRASHED, which keeps the index, drops the extra 1).
   */
  function Measure(n: int, st: AsyncState): nat
  {
    if !(0 <= st.index < n) then 0
    else if st.forward then 3 * n + 2 - st.index
    else 2 * st.index + 2 + (if st.result == ROLLBACK then 0 else 1)
  }

  /** sagaAsync: complete with the carried result out of range, else call the chapter and step. */
  function Drive<V>(chapters: seq<Chapter<V>>, value: V, st: AsyncState): Outcome<V>
    decreases Measure(|chapters|, st)
  {
    if !(0 <= st.index < |chapters|) then Outcome(st.result, [])
    else
      var kind := if st.forward then Process else Rollback;
      var r := Answer(chapters[st.index], kind, value);
      Prepend(Call(kind, st.index, value, r), Drive(chapters, r.value, Step(st, r.IsSuccess())))
  }

  /** execute(value): an empty saga completes at once with FINISHED and calls no service. */
  function ExecutionAsync<V>(chapters: seq<Chapter<V>>, value: V): (o: Outcome<V>)
    ensures |chapters| == 0 ==> o == Outcome(FINISHED, [])
  {
    Drive(chapters, value, Initial)
  }

  /**
   * sagaAsync as the source runs it: the range check asks the saga itself, which has n
   * chapters now, while the services were fetched at construction (`chapters`); an index with
   * no service makes the list access throw and the future complete exceptionally.
   */
  function DriveLive<V>(chapters: seq<Chapter<V>>, n: int, value: V, st: AsyncState): Result<Outcome<V>>
    decreases Measure(n, st)
  {
    if !(0 <= st.index < n) then Success(Outcome(st.result, []))
    else if st.index >= |chapters| then Failure(IndexOutOfBounds)
    else
      var kind := if st.forward then Process else Rollback;
      var r := Answer(chapters[st.index], kind, value);
      PrependR(Call(kind, st.index, value, r), DriveLive(chapters, n, r.value, Step(st, r.IsSuccess())))
  }

  /** execute(value) on a saga that has n chapters now and the services fetched at construction. */
  function ExecutionAsyncLive<V>(chapters: seq<Chapter<V>>, n: int, value: V): Result<Outcome<V>>
  {
    DriveLive(chapters, n, value, Initial)
  }

  /**
   * The orchestrator keeps the saga object itself, not a copy: chapters appended after
   * construction count in the range check but have no service.
   */
  datatype MySagaOrchestratorAsync<!V> = MySagaOrchestratorAsync(saga: MySagaAsync, servicesChapters: seq<Chapter<V>>)
  {
    /** sagaAsync and asyncProcess calling each other over one CurrentState object. */
    method SagaAsyncFrom(value: V, state: SagaOrchestration.CurrentState, sagaLastResult: SagaResult)
      returns (o: Result<Outcome<V>>)
      modifies state
      ensures o == DriveLive(servicesChapters, |saga.chapters|, value,
                             AsyncState(old(state.currentNumber), old(state.isForward), sagaLastResult))
      decreases Measure(|saga.chapters|, AsyncState(state.currentNumber, state.isForward, sagaLastResult))
    {
      if !saga.IsIndexInRange(state.currentNumber) {
        return Success(Outcome(sagaLastResult, []));
      }
      if state.currentNumber >= |servicesChapters| {
        return Failure(IndexOutOfBounds);
      }
      var service := servicesChapters[state.currentNumber];
      var index := state.currentNumber;
      var kind := if state.isForward then Process else Rollback;
      var asyncValue := if state.isForward then service.process(value) else service.rollback(value);
      var updated := AsyncProcess(asyncValue, state, sagaLastResult);
      var rest := SagaAsyncFrom(asyncValue.value, state, updated);
      o := PrependR(Call(kind, index, value, asyncValue), rest);
    }

    method Execute(value: V) returns (o: Result<Outcome<V>>)
      ensures o == ExecutionAsyncLive(servicesChapters, |saga.chapters|, value)
    {
      var state := new SagaOrchestration.CurrentState();
      o := SagaAsyncFrom(value, state, FINISHED);
    }
  }

  /**
   * The constructor: a null saga or registry is rejected, and a chapter name without a
   * registered service fails with the invalid-configuration exception; the service of each
   * chapter is the one registered under its name.
   */
  method NewOrchestratorAsync<V>(saga: MySagaAsync?, discovery: MyServiceDiscoveryAsync?<V>)
    returns (r: Result<MySagaOrchestratorAsync<V>>)
    requires discovery != null ==> discovery.Valid()
    ensures saga == null || discovery == null ==> r == Failure(NullPointer)
    ensures saga != null && discovery != null ==>
      (r.Success? <==> forall i :: 0 <= i < |saga.chapters| ==> saga.chapters[i].name in discovery.orchestrations)
    ensures r.Failure? && saga != null && discovery != null ==> r.error == InvalidConfiguration
    ensures r.Success? ==> saga != null && discovery != null && r.value.saga == saga
    ensures r.Success? ==> saga != null && discovery != null && |r.value.servicesChapters| == |saga.chapters|
    ensures r.Success? ==> forall i :: 0 <= i < |saga.chapters| ==>
      r.value.servicesChapters[i] == discovery.orchestrations[saga.chapters[i].name] &&
      r.value.servicesChapters[i].name == saga.chapters[i].name
  {
    if discovery == null || saga == null {
      return Failure(NullPointer);
    }
    var snapshot := saga.Iterator();
    var services := SagaOrchestration.GetOrchestrationChapters(snapshot, discovery.orchestrations);
    if services.Failure? {
      return Failure(services.error);
    }
    return Success(MySagaOrchestratorAsync(saga, services.value));
  }

  /**
   * A run over the saga as it is now equals the reference driver over the services, except
   * when chapters were appended after construction and every process succeeds: the walk then
   * reaches a chapter without a service and the future completes exceptionally.
   */
  lemma ExecutionAsyncLiveOutcome<V>(chapters: seq<Chapter<V>>, n: int, v: V)
    requires |chapters| <= n
    ensures ExecutionAsyncLive(chapters, n, v) ==
      if n > |chapters| && SagaOrchestration.ProcessChain(chapters, 0, v).0 == |chapters| then Failure(IndexOutOfBounds)
      else Success(ExecutionAsync(chapters, v))
  {
    DriveLiveForward(chapters, n, v, 0, FINISHED);
  }

  lemma {:induction false} DriveLiveForward<V>(chapters: seq<Chapter<V>>, n: int, v: V, i: int, result: SagaResult)
    requires |chapters| <= n && 0 <= i <= |chapters|
    ensures DriveLive(chapters, n, v, AsyncState(i, true, result)) ==
      if n > |chapters| && SagaOrchestration.ProcessChain(chapters, i, v).0 == |chapters| then Failure(IndexOutOfBounds)
      else Success(Drive(chapters, v, AsyncState(i, true, result)))
    decreases |chapters| - i
  {
    if i < |chapters| {
      var r := chapters[i].process(v);
      if r.IsSuccess() {
        assert SagaOrchestration.ProcessChain(chapters, i, v) == SagaOrchestration.ProcessChain(chapters, i + 1, r.value);
        DriveLiveForward(chapters, n, r.value, i + 1, result);
      } else {
        DriveLiveBackward(chapters, n, r.value, Step(AsyncState(i, true, result), false));
      }
    }
  }

  lemma {:induction false} DriveLiveBackward<V>(chapters: seq<Chapter<V>>, n: int, v: V, st: AsyncState)
    requires |chapters| <= n && !st.forward && st.index < |chapters|
    ensures DriveLive(chapters, n, v, st) == Success(Drive(chapters, v, st))
    decreases Measure(|chapters|, st)
  {
    if 0 <= st.index {
      var r := chapters[st.index].rollback(v);
      DriveLiveBackward(chapters, n, r.value, Step(st, r.IsSuccess()));
    }
  }

  // ---------------------------------------------------------------------------------------
  // Properties of the driver.

  /**
   * Every call receives the value of the answer just before it, success or failure, and every
   * recorded answer is the chapter service's answer.
   */
  lemma {:induction false} DriveThreadsValues<V>(chapters: seq<Chapter<V>>, value: V, st: AsyncState)
    ensures var o := Drive(chapters, value, st);
      && (o.calls != [] ==> o.calls[0].input == value)
      && HandsOnEveryValue(o.calls)
      && Answered(chapters, o.calls)
    decreases Measure(|chapters|, st)
  {
    if 0 <= st.index < |chapters| {
      var kind := if st.forward then Process else Rollback;
      var r := Answer(chapters[st.index], kind, value);
      var call := Call(kind, st.index, value, r);
      var rest := Drive(chapters, r.value, Step(st, r.IsSuccess())).calls;
      DriveThreadsValues(chapters, r.value, Step(st, r.IsSuccess()));
      var all := [call] + rest;
      forall j | 0 <= j < |all| - 1
        ensures all[j + 1].input == all[j].output.value
      {
        if j > 0 {
          assert all[j + 1] == rest[j] && all[j] == rest[j - 1];
        }
      }
      forall j | 0 <= j < |all|
        ensures 0 <= all[j].index < |chapters| &&
          all[j].output == Answer(chapters[all[j].index], all[j].kind, all[j].input)
      {
        if j > 0 {
          assert all[j] == rest[j - 1];
        }
      }
    }
  }

  /**
   * The number of failing rollbacks when chapters top, ..., 0 are rolled back once each, every
   * rollback receiving the answer value of the one before it; none fails exactly when
   * RollbacksSucceed holds.
   */
  function RollbackFailures<V>(chapters: seq<Chapter<V>>, top: int, v: V): (f: nat)
    requires -1 <= top < |chapters|
    ensures f == 0 <==> SagaOrchestration.RollbacksSucceed(chapters, top, v)
    ensures f <= top + 1
    decreases top + 1
  {
    if top < 0 then 0
    else
      var r := chapters[top].rollback(v);
      (if r.IsSuccess() then 0 else 1) + RollbackFailures(chapters, top - 1, r.value)
  }

  /**
   * Rolling back from chapter top with a result that is already ROLLBACK or CRASHED: only
   * rollbacks are called and the result never returns to FINISHED. When every rollback
   * succeeds, the calls are Rollback top, ..., Rollback 0 and the result is kept; when exactly
   * one fails and the walk started with ROLLBACK, the calls are the same and the result is
   * CRASHED.
   */
  lemma {:induction false} RollbackPhase<V>(chapters: seq<Chapter<V>>, top: int, result: SagaResult, v: V)
    requires 0 <= top < |chapters| && result != FINISHED
    ensures var o := Drive(chapters, v, AsyncState(top, false, result));
      && o.result != FINISHED
      && (forall j :: 0 <= j < |o.calls| ==> o.calls[j].kind == Rollback)
      && (SagaOrchestration.RollbacksSucceed(chapters, top, v) ==>
            Labels(o.calls) == Rollbacks(top) && o.result == result)
      && (RollbackFailures(chapters, top, v) == 1 && result == ROLLBACK ==>
            Labels(o.calls) == Rollbacks(top) && o.result == CRASHED)
    decreases Measure(|chapters|, AsyncState(top, false, result))
  {
    var st := AsyncState(top, false, result);
    var r := chapters[top].rollback(v);
    var call := Call(Rollback, top, v, r);
    var next := Step(st, r.IsSuccess());
    var o := Drive(chapters, v, st);
    var rest := Drive(chapters, r.value, next);
    assert o.calls == [call] + rest.calls && o.result == rest.result;
    if 0 <= next.index {
      RollbackPhase(chapters, next.index, next.result, r.value);
    }
    if SagaOrchestration.RollbacksSucceed(chapters, top, v) {
      assert r.IsSuccess() && next == AsyncState(top - 1, false, result);
      assert Labels(o.calls) == [Label(Rollback, top)] + Labels(rest.calls);
    }
    if RollbackFailures(chapters, top, v) == 1 && result == ROLLBACK {
      assert next.index == top - 1;
      assert Labels(o.calls) == [Label(Rollback, top)] + Labels(rest.calls);
    }
  }

  /**
   * From chapter i forward with result FINISHED: the chapters are processed in index order up
   * to the first failure k, and the rest of the run is the backward walk that starts at
   * chapter k with ROLLBACK and the value of the failed process. Without a failure the result
   * is FINISHED.
   */
  lemma {:induction false} ForwardPhase<V>(chapters: seq<Chapter<V>>, i: int, v: V)
    requires 0 <= i < |chapters|
    ensures ForwardShape(chapters, i, v)
    decreases |chapters| - i
  {
    var r := chapters[i].process(v);
    if r.IsSuccess() && i + 1 < |chapters| {
      ForwardPhase(chapters, i + 1, r.value);
      ForwardStep(chapters, i, v);
    } else if r.IsSuccess() {
      ForwardLast(chapters, i, v);
    } else {
      ForwardFails(chapters, i, v);
    }
  }

  /**
   * The backward walk after chapter k's process failed with value w's answer: it starts at
   * chapter k with ROLLBACK and the failed answer's value.
   */
  function BackWalk<V>(chapters: seq<Chapter<V>>, k: int, w: V): Outcome<V>
    requires 0 <= k < |chapters|
  {
    Drive(chapters, chapters[k].process(w).value, AsyncState(k, false, ROLLBACK))
  }

  /** The statement of ForwardPhase for the walk that starts processing at chapter i. */
  ghost predicate ForwardShape<V>(chapters: seq<Chapter<V>>, i: int, v: V)
    requires 0 <= i < |chapters|
  {
    var k := SagaOrchestration.ProcessChain(chapters, i, v).0;
    var w := SagaOrchestration.ProcessChain(chapters, i, v).1;
    var o := Drive(chapters, v, AsyncState(i, true, FINISHED));
    && (k == |chapters| ==> o.result == FINISHED && Labels(o.calls) == Processes(i, |chapters|))
    && (k < |chapters| ==>
          var back := BackWalk(chapters, k, w);
          o.result == back.result && Labels(o.calls) == Processes(i, k + 1) + Labels(back.calls))
  }

  lemma ForwardStep<V>(chapters: seq<Chapter<V>>, i: int, v: V)
    requires 0 <= i && i + 1 < |chapters| && chapters[i].process(v).IsSuccess()
    requires ForwardShape(chapters, i + 1, chapters[i].process(v).value)
    ensures ForwardShape(chapters, i, v)
  {
    var r := chapters[i].process(v);
    var call := Call(Process, i, v, r);
    var rest := Drive(chapters, r.value, AsyncState(i + 1, true, FINISHED));
    var o := Drive(chapters, v, AsyncState(i, true, FINISHED));
    assert o == Prepend(call, rest);
    var (k, w) := SagaOrchestration.ProcessChain(chapters, i + 1, r.value);
    assert SagaOrchestration.ProcessChain(chapters, i, v) == (k, w);
    LabelsCons(call, rest.calls);
    assert Labels(o.calls) == [Label(Process, i)] + Labels(rest.calls);
    SagaOrchestration.ProcessesCons(i, k);
    if k < |chapters| {
      var back := BackWalk(chapters, k, w);
      assert rest.result == back.result && Labels(rest.calls) == Processes(i + 1, k + 1) + Labels(back.calls);
      assert [Label(Process, i)] + (Processes(i + 1, k + 1) + Labels(back.calls)) ==
        ([Label(Process, i)] + Processes(i + 1, k + 1)) + Labels(back.calls);
      assert o.result == back.result && Labels(o.calls) == Processes(i, k + 1) + Labels(back.calls);
    } else {
      assert o.result == FINISHED && Labels(o.calls) == Processes(i, |chapters|);
    }
  }

  lemma ForwardLast<V>(chapters: seq<Chapter<V>>, i: int, v: V)
    requires 0 <= i && i + 1 == |chapters| && chapters[i].process(v).IsSuccess()
    ensures ForwardShape(chapters, i, v)
  {
    var r := chapters[i].process(v);
    var call := Call(Process, i, v, r);
    assert Drive(chapters, r.value, AsyncState(i + 1, true, FINISHED)) == Outcome(FINISHED, []);
    assert Drive(chapters, v, AsyncState(i, true, FINISHED)) == Outcome(FINISHED, [call]);
    LabelsCons(call, []);
    assert [call] + [] == [call];
    assert Processes(i, |chapters|) == [Label(Process, i)] + Processes(i + 1, |chapters|);
  }

  lemma ForwardFails<V>(chapters: seq<Chapter<V>>, i: int, v: V)
    requires 0 <= i < |chapters| && !chapters[i].process(v).IsSuccess()
    ensures ForwardShape(chapters, i, v)
  {
    var r := chapters[i].process(v);
    var call := Call(Process, i, v, r);
    var rest := Drive(chapters, r.value, AsyncState(i, false, ROLLBACK));
    assert Drive(chapters, v, AsyncState(i, true, FINISHED)) == Prepend(call, rest);
    assert SagaOrchestration.ProcessChain(chapters, i, v) == (i, v);
    LabelsCons(call, rest.calls);
    assert Processes(i, i + 1) == [Label(Process, i)];
  }


  /**
   * What execute completes with: FINISHED after Process 0..n-1 if no process fails; for the
   * first failing chapter k, Process 0..k then Rollback k..0 with ROLLBACK when no rollback
   * fails and CRASHED when exactly one fails. A failing process always leads to a result other
   * than FINISHED.
   */
  lemma ExecutionAsyncOutcome<V>(chapters: seq<Chapter<V>>, v: V)
    requires |chapters| > 0
    ensures var (k, w) := SagaOrchestration.ProcessChain(chapters, 0, v);
      var o := ExecutionAsync(chapters, v);
      && (o.result == FINISHED <==> k == |chapters|)
      && (k == |chapters| ==> Labels(o.calls) == Processes(0, |chapters|))
      && (k < |chapters| && SagaOrchestration.RollbacksSucceed(chapters, k, chapters[k].process(w).value) ==>
            o.result == ROLLBACK && Labels(o.calls) == Processes(0, k + 1) + Rollbacks(k))
      && (k < |chapters| && RollbackFailures(chapters, k, chapters[k].process(w).value) == 1 ==>
            o.result == CRASHED && Labels(o.calls) == Processes(0, k + 1) + Rollbacks(k))
  {
    ForwardPhase(chapters, 0, v);
    assert ExecutionAsync(chapters, v) == Drive(chapters, v, AsyncState(0, true, FINISHED));
    var (k, w) := SagaOrchestration.ProcessChain(chapters, 0, v);
    if k < |chapters| {
      assert BackWalk(chapters, k, w) == Drive(chapters, chapters[k].process(w).value, AsyncState(k, false, ROLLBACK));
      RollbackPhase(chapters, k, ROLLBACK, chapters[k].process(w).value);
    }
  }

  /**
   * The test scenario: four chapters, the last one's process fails, every rollback succeeds;
   * the calls are Process 0..3 then Rollback 3..0 and the saga completes with ROLLBACK.
   */
  lemma LastChapterFailsScenario<V>(chapters: seq<Chapter<V>>, v: V)
    requires |chapters| == 4
    requires forall i, x :: 0 <= i < 3 ==> chapters[i].process(x).IsSuccess()
    requires forall x :: !chapters[3].process(x).IsSuccess()
    requires forall i, x :: 0 <= i < 4 ==> chapters[i].rollback(x).IsSuccess()
    ensures ExecutionAsync(chapters, v).result == ROLLBACK
    ensures Labels(ExecutionAsync(chapters, v).calls) ==
      [Label(Process, 0), Label(Process, 1), Label(Process, 2), Label(Process, 3),
       Label(Rollback, 3), Label(Rollback, 2), Label(Rollback, 1), Label(Rollback, 0)]
  {
    ExecutionAsyncOutcome(chapters, v);
    var v1 := chapters[0].process(v).value;
    var v2 := chapters[1].process(v1).value;
    var v3 := chapters[2].process(v2).value;
    assert SagaOrchestration.ProcessChain(chapters, 3, v3) == (3, v3);
    assert SagaOrchestration.ProcessChain(chapters, 2, v2) == (3, v3);
    assert SagaOrchestration.ProcessChain(chapters, 1, v1) == (3, v3);
    assert SagaOrchestration.ProcessChain(chapters, 0, v) == (3, v3);
    var u := chapters[3].process(v3).value;
    var w0 := chapters[3].rollback(u).value;
    var w1 := chapters[2].rollback(w0).value;
    var w2 := chapters[1].rollback(w1).value;
    assert SagaOrchestration.RollbacksSucceed(chapters, -1, chapters[0].rollback(w2).value);
    assert SagaOrchestration.RollbacksSucceed(chapters, 0, w2);
    assert SagaOrchestration.RollbacksSucceed(chapters, 1, w1);
    assert SagaOrchestration.RollbacksSucceed(chapters, 2, w0);
    assert SagaOrchestration.RollbacksSucceed(chapters, 3, u);
  }
}

/**
 * The step as evidently intended: a failure during the rollback walk makes the result CRASHED
 * and the walk moves on to the chapter below, as in the synchronous orchestrator, whatever the
 * result already was. The step above instead tests for the result ROLLBACK, so a second failed
 * rollback resets CRASHED to ROLLBACK and calls the same chapter's rollback again.
 */
module SagaOrchestrationAsyncCorrected {
  import opened Chapters
  import opened SagaAsync
  import opened SagaLog
  import opened SagaOrchestrationAsync
  import SagaOrchestration

  function StepCorrected(st: AsyncState, succeeded: bool): (s: AsyncState)
    ensures succeeded ==> s == Step(st, true)
    ensures !succeeded && st.forward ==> s == AsyncState(st.index, false, ROLLBACK)
    ensures !succeeded && !st.forward ==> s == AsyncState(st.index - 1, false, CRASHED)
  {
    var rollingBack := !st.forward;
    var forward := if succeeded then st.forward else false;
    var index := if !succeeded && !rollingBack then st.index + 1 else st.index;
    var result := if succeeded then st.result else if rollingBack then CRASHED else ROLLBACK;
    AsyncState(if forward then index + 1 else index - 1, forward, result)
  }

  function DriveCorrected<V>(chapters: seq<Chapter<V>>, value: V, st: AsyncState): Outcome<V>
    decreases Measure(|chapters|, st)
  {
    if !(0 <= st.index < |chapters|) then Outcome(st.result, [])
    else
      var kind := if st.forward then Process else Rollback;
      var r := Answer(chapters[st.index], kind, value);
      Prepend(Call(kind, st.index, value, r), DriveCorrected(chapters, r.value, StepCorrected(st, r.IsSuccess())))
  }

  /** With the corrected step every chapter top..0 is rolled back once; CRASHED iff one failed. */
  lemma {:induction false} RollbackPhaseCorrected<V>(chapters: seq<Chapter<V>>, top: int, result: SagaResult, v: V)
    requires 0 <= top < |chapters|
    ensures var o := DriveCorrected(chapters, v, AsyncState(top, false, result));
      && Labels(o.calls) == Rollbacks(top)
      && o.result == if SagaOrchestration.RollbacksSucceed(chapters, top, v) then result else CRASHED
    decreases top
  {
    var st := AsyncState(top, false, result);
    var r := chapters[top].rollback(v);
    var next := StepCorrected(st, r.IsSuccess());
    var o := DriveCorrected(chapters, v, st);
    var rest := DriveCorrected(chapters, r.value, next);
    assert o.calls == [Call(Rollback, top, v, r)] + rest.calls && o.result == rest.result;
    assert Labels(o.calls) == [Label(Rollback, top)] + Labels(rest.calls);
    if top > 0 {
      RollbackPhaseCorrected(chapters, top - 1, next.result, r.value);
    }
  }

  /**
   * With the corrected step, execute makes the calls Process 0..k then Rollback k..0 for the
   * first failing chapter k, and completes with CRASHED exactly when a rollback failed.
   */
  lemma {:induction false} ForwardPhaseCorrected<V>(chapters: seq<Chapter<V>>, i: int, v: V)
    requires 0 <= i < |chapters|
    ensures ForwardShapeCorrected(chapters, i, v)
    decreases |chapters| - i
  {
    var r := chapters[i].process(v);
    if r.IsSuccess() && i + 1 < |chapters| {
      ForwardPhaseCorrected(chapters, i + 1, r.value);
      ForwardStepCorrected(chapters, i, v);
    } else if r.IsSuccess() {
      ForwardLastCorrected(chapters, i, v);
    } else {
      ForwardFailsCorrected(chapters, i, v);
    }
  }

  /**
   * The statement of ForwardPhaseCorrected: FINISHED after processing every chapter when none
   * fails; otherwise Process i..k then Rollback k..0 for the first failing chapter k, with
   * ROLLBACK when every rollback succeeds and CRASHED when one fails.
   */
  ghost predicate ForwardShapeCorrected<V>(chapters: seq<Chapter<V>>, i: int, v: V)
    requires 0 <= i < |chapters|
  {
    var k := SagaOrchestration.ProcessChain(chapters, i, v).0;
    var w := SagaOrchestration.ProcessChain(chapters, i, v).1;
    var o := DriveCorrected(chapters, v, AsyncState(i, true, FINISHED));
    && (k == |chapters| ==> o.result == FINISHED && Labels(o.calls) == Processes(i, |chapters|))
    && (k < |chapters| ==>
          && Labels(o.calls) == Processes(i, k + 1) + Rollbacks(k)
          && o.result == if SagaOrchestration.RollbacksSucceed(chapters, k, chapters[k].process(w).value)
                         then ROLLBACK else CRASHED)
  }

  lemma ForwardStepCorrected<V>(chapters: seq<Chapter<V>>, i: int, v: V)
    requires 0 <= i && i + 1 < |chapters| && chapters[i].process(v).IsSuccess()
    requires ForwardShapeCorrected(chapters, i + 1, chapters[i].process(v).value)
    ensures ForwardShapeCorrected(chapters, i, v)
  {
    var r := chapters[i].process(v);
    var call := Call(Process, i, v, r);
    var rest := DriveCorrected(chapters, r.value, AsyncState(i + 1, true, FINISHED));
    var o := DriveCorrected(chapters, v, AsyncState(i, true, FINISHED));
    assert o == Prepend(call, rest);
    var k := SagaOrchestration.ProcessChain(chapters, i + 1, r.value).0;
    assert SagaOrchestration.ProcessChain(chapters, i, v) == SagaOrchestration.ProcessChain(chapters, i + 1, r.value);
    LabelsCons(call, rest.calls);
    assert Labels(o.calls) == [Label(Process, i)] + Labels(rest.calls);
    SagaOrchestration.ProcessesCons(i, k);
    if k < |chapters| {
      assert [Label(Process, i)] + (Processes(i + 1, k + 1) + Rollbacks(k)) ==
        ([Label(Process, i)] + Processes(i + 1, k + 1)) + Rollbacks(k);
    }
  }

  lemma ForwardLastCorrected<V>(chapters: seq<Chapter<V>>, i: int, v: V)
    requires 0 <= i && i + 1 == |chapters| && chapters[i].process(v).IsSuccess()
    ensures ForwardShapeCorrected(chapters, i, v)
  {
    var r := chapters[i].process(v);
    var call := Call(Process, i, v, r);
    assert DriveCorrected(chapters, r.value, AsyncState(i + 1, true, FINISHED)) == Outcome(FINISHED, []);
    assert DriveCorrected(chapters, v, AsyncState(i, true, FINISHED)) == Outcome(FINISHED, [call]);
    LabelsCons(call, []);
    assert [call] + [] == [call];
    assert Processes(i, |chapters|) == [Label(Process, i)] + Processes(i + 1, |chapters|);
  }

  lemma ForwardFailsCorrected<V>(chapters: seq<Chapter<V>>, i: int, v: V)
    requires 0 <= i < |chapters| && !chapters[i].process(v).IsSuccess()
    ensures ForwardShapeCorrected(chapters, i, v)
  {
    var r := chapters[i].process(v);
    var call := Call(Process, i, v, r);
    var rest := DriveCorrected(chapters, r.value, AsyncState(i, false, ROLLBACK));
    assert DriveCorrected(chapters, v, AsyncState(i, true, FINISHED)) == Prepend(call, rest);
    assert SagaOrchestration.ProcessChain(chapters, i, v) == (i, v);
    RollbackPhaseCorrected(chapters, i, ROLLBACK, r.value);
    LabelsCons(call, rest.calls);
    assert Processes(i, i + 1) == [Label(Process, i)];
  }


  /** Chapter A's rollback fails on 0 (answering 1) and succeeds otherwise. */
  function ChapterA(): Chapter<int>
  {
    Chapter("A", x => Success(x), x => if x == 0 then Failure(1) else Success(x))
  }

  /** Chapter B fails in both process and rollback. */
  function ChapterB(): Chapter<int>
  {
    Chapter("B", x => Failure(x), x => Failure(x))
  }

  /**
   * The discrepancy: B's process fails, B's rollback fails (CRASHED), A's rollback fails once
   * more. As written, the second failure resets the result to ROLLBACK and calls A's rollback
   * again, which now succeeds: the saga reports ROLLBACK although two rollbacks failed.
   */
  lemma CrashedResultIsOverwritten()
    ensures ExecutionAsync([ChapterA(), ChapterB()], 0).result == ROLLBACK
    ensures Labels(ExecutionAsync([ChapterA(), ChapterB()], 0).calls) ==
      [Label(Process, 0), Label(Process, 1), Label(Rollback, 1), Label(Rollback, 0), Label(Rollback, 0)]
  {
    var cs := [ChapterA(), ChapterB()];
    var tail := Drive(cs, 1, AsyncState(-1, false, ROLLBACK));
    assert tail == Outcome(ROLLBACK, []);
    var s4 := Drive(cs, 1, AsyncState(0, false, ROLLBACK));
    assert s4 == Prepend(Call(Rollback, 0, 1, Success(1)), tail);
    var s3 := Drive(cs, 0, AsyncState(0, false, CRASHED));
    assert s3 == Prepend(Call(Rollback, 0, 0, Failure(1)), s4);
    var s2 := Drive(cs, 0, AsyncState(1, false, ROLLBACK));
    assert s2 == Prepend(Call(Rollback, 1, 0, Failure(0)), s3);
    var s1 := Drive(cs, 0, AsyncState(1, true, FINISHED));
    assert s1 == Prepend(Call(Process, 1, 0, Failure(0)), s2);
    var s0 := Drive(cs, 0, Initial);
    assert s0 == Prepend(Call(Process, 0, 0, Success(0)), s1);
    assert s0.calls == [Call(Process, 0, 0, Success(0)), Call(Process, 1, 0, Failure(0)),
      Call(Rollback, 1, 0, Failure(0)), Call(Rollback, 0, 0, Failure(1)), Call(Rollback, 0, 1, Success(1))];
    LabelsAt(s0.calls);
  }

  /** On the same two chapters the corrected step rolls back each chapter once and reports CRASHED. */
  lemma CorrectedReportsCrash()
    ensures DriveCorrected([ChapterA(), ChapterB()], 0, Initial).result == CRASHED
    ensures Labels(DriveCorrected([ChapterA(), ChapterB()], 0, Initial).calls) ==
      [Label(Process, 0), Label(Process, 1), Label(Rollback, 1), Label(Rollback, 0)]
  {
    var cs := [ChapterA(), ChapterB()];
    var c3 := DriveCorrected(cs, 1, AsyncState(-1, false, CRASHED));
    assert c3 == Outcome(CRASHED, []);
    var c2 := DriveCorrected(cs, 0, AsyncState(0, false, CRASHED));
    assert c2 == Prepend(Call(Rollback, 0, 0, Failure(1)), c3);
    var c1 := DriveCorrected(cs, 0, AsyncState(1, false, ROLLBACK));
    assert c1 == Prepend(Call(Rollback, 1, 0, Failure(0)), c2);
    var c0 := DriveCorrected(cs, 0, AsyncState(1, true, FINISHED));
    assert c0 == Prepend(Call(Process, 1, 0, Failure(0)), c1);
    var d := DriveCorrected(cs, 0, Initial);
    assert d == Prepend(Call(Process, 0, 0, Success(0)), c0);
    assert d.calls == [Call(Process, 0, 0, Success(0)), Call(Process, 1, 0, Failure(0)),
      Call(Rollback, 1, 0, Failure(0)), Call(Rollback, 0, 0, Failure(1))];
    LabelsAt(d.calls);
  }
}
