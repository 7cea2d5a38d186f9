/**
 * MySagaOrchestrator: walks the saga's chapters forward calling process, and on the first
 * failure walks back down to chapter 0 calling rollback.
 */
module SagaOrchestration {
  import opened Wrappers
  import opened Chapters
  import opened SagaAsync
  import opened SagaLog

  /** The cursor of one execution: the chapter index and the direction. */
  class CurrentState {
    var currentNumber: int
    var isForward: bool

    constructor ()
      ensures currentNumber == 0 && isForward
    {
      currentNumber := 0;
      isForward := true;
    }

    /** The direction only ever changes from forward to backward. */
    method MustRollback()
      modifies this
      ensures !isForward && currentNumber == old(currentNumber)
    {
      isForward := false;
    }

    method Forward() returns (n: int)
      modifies this
      ensures currentNumber == old(currentNumber) + 1 && n == currentNumber
      ensures isForward == old(isForward)
    {
      currentNumber := currentNumber + 1;
      n := currentNumber;
    }

    method Back() returns (n: int)
      modifies this
      ensures currentNumber == old(currentNumber) - 1 && n == currentNumber
      ensures isForward == old(isForward)
    {
      currentNumber := currentNumber - 1;
      n := currentNumber;
    }
  }

  /**
   * getOrchestrationChapters: the registered service of every chapter name, in saga order;
   * a name without a registered service fails the construction.
   */
  function GetOrchestrationChapters<V>(saga: seq<MyChapter>, discovery: map<string, Chapter<V>>)
    : (r: Result<seq<Chapter<V>>>)
    ensures r.Success? <==> forall i :: 0 <= i < |saga| ==> saga[i].name in discovery
    ensures r.Failure? ==> r.error == InvalidConfiguration
    ensures r.Success? ==> |r.value| == |saga|
    ensures r.Success? ==> forall i :: 0 <= i < |saga| ==> r.value[i] == discovery[saga[i].name]
  {
    if saga == [] then Success([])
    else if saga[0].name !in discovery then Failure(InvalidConfiguration)
    else
      match GetOrchestrationChapters(saga[1..], discovery)
      case Failure(e) => Failure(e)
      case Success(rest) => Success([discovery[saga[0].name]] + rest)
  }

  /**
   * The spec of execute's loop from one iteration on: the call made at the current index, then
   * the rest of the run, or the result once the index leaves the saga's range.
   */
  function Run<V>(chapters: seq<Chapter<V>>, index: int, forward: bool, result: SagaResult, value: V)
    : Outcome<V>
    requires 0 <= index < |chapters|
    decreases if forward then 2 * |chapters| - index else index
  {
    if forward then
      var r := Answer(chapters[index], Process, value);
      var call := Call(Process, index, value, r);
      if r.IsSuccess() then
        if index + 1 < |chapters| then Prepend(call, Run(chapters, index + 1, true, result, r.value))
        else Outcome(result, [call])
      else
        Prepend(call, Run(chapters, index, false, ROLLBACK, value))
    else
      var r := Answer(chapters[index], Rollback, value);
      var call := Call(Rollback, index, value, r);
      var value' := if r.IsSuccess() then r.value else value;
      var result' := if r.IsSuccess() then result else CRASHED;
      if index - 1 >= 0 then Prepend(call, Run(chapters, index - 1, false, result', value'))
      else Outcome(result', [call])
  }

  /**
   * execute(value): the loop fetches the chapter at index 0 before any range check, so an
   * empty saga fails with an IndexOutOfBoundsException.
   */
  function Execution<V>(chapters: seq<Chapter<V>>, value: V): Result<Outcome<V>>
  {
    if |chapters| == 0 then Failure(IndexOutOfBounds)
    else Success(Run(chapters, 0, true, FINISHED, value))
  }

  /**
   * The loop of execute from one iteration on, as the source runs it: the service list was
   * fixed at construction (`chapters`), while the range check that ends the loop asks the saga
   * itself, which has n chapters now. An index with no service makes the list access throw.
   */
  function RunLive<V>(chapters: seq<Chapter<V>>, n: int, index: int, forward: bool, result: SagaResult, value: V)
    : Result<Outcome<V>>
    requires 0 <= index <= |chapters|
    decreases if forward then 2 * |chapters| + 1 - index else index
  {
    if index == |chapters| then Failure(IndexOutOfBounds)
    else if forward then
      var r := Answer(chapters[index], Process, value);
      var call := Call(Process, index, value, r);
      if r.IsSuccess() then
        if 0 <= index + 1 < n then PrependR(call, RunLive(chapters, n, index + 1, true, result, r.value))
        else Success(Outcome(result, [call]))
      else if 0 <= index < n then PrependR(call, RunLive(chapters, n, index, false, ROLLBACK, value))
      else Success(Outcome(ROLLBACK, [call]))
    else
      var r := Answer(chapters[index], Rollback, value);
      var call := Call(Rollback, index, value, r);
      var value' := if r.IsSuccess() then r.value else value;
      var result' := if r.IsSuccess() then result else CRASHED;
      if 0 <= index - 1 < n then PrependR(call, RunLive(chapters, n, index - 1, false, result', value'))
      else Success(Outcome(result', [call]))
  }

  /** execute(value) on a saga that has n chapters now and the services fetched at construction. */
  function ExecutionLive<V>(chapters: seq<Chapter<V>>, n: int, value: V): Result<Outcome<V>>
  {
    RunLive(chapters, n, 0, true, FINISHED, value)
  }

  /**
   * The orchestrator keeps the saga object itself, not a copy: chapters appended after
   * construction count in the range check but have no service.
   */
  datatype MySagaOrchestrator<!V> = MySagaOrchestrator(saga: MySagaAsync, servicesChapters: seq<Chapter<V>>)
  {
    /** The services cover a prefix of the saga, which only ever grows. */
    ghost predicate Valid()
      reads saga
    {
      |servicesChapters| <= |saga.chapters|
    }

    /** execute: the while(true) loop of the source over a CurrentState object. */
    method Execute(value: V) returns (r: Result<Outcome<V>>)
      ensures r == ExecutionLive(servicesChapters, |saga.chapters|, value)
    {
      var chapters := servicesChapters;
      ghost var n := |saga.chapters|;
      var state := new CurrentState();
      var result := FINISHED;
      var tempVal := value;
      var calls: seq<Call<V>> := [];
      ghost var run := RunLive(chapters, n, 0, true, FINISHED, value);
      assert run.Success? ==> [] + run.value.calls == run.value.calls;
      while true
        invariant 0 <= state.currentNumber <= |chapters|
        invariant RunLive(chapters, n, 0, true, FINISHED, value) ==
          ResumeR(calls, RunLive(chapters, n, state.currentNumber, state.isForward, result, tempVal))
        decreases if state.isForward then 2 * |chapters| + 1 - state.currentNumber else state.currentNumber
      {
        if state.currentNumber == |chapters| {
          return Failure(IndexOutOfBounds);
        }
        ghost var before := RunLive(chapters, n, state.currentNumber, state.isForward, result, tempVal);
        ghost var done := calls;
        var service := chapters[state.currentNumber];
        var index := state.currentNumber;
        var call: Call<V>;
        if state.isForward {
          var serviceResult := service.process(tempVal);
          call := Call(Process, index, tempVal, serviceResult);
          if serviceResult.IsSuccess() {
            tempVal := serviceResult.value;
            var _ := state.Forward();
          } else {
            state.MustRollback();
            result := ROLLBACK;
          }
        } else {
          var serviceResult := service.rollback(tempVal);
          call := Call(Rollback, index, tempVal, serviceResult);
          if serviceResult.IsSuccess() {
            tempVal := serviceResult.value;
          } else {
            result := CRASHED;
          }
          var _ := state.Back();
        }
        calls := calls + [call];
        if !saga.IsIndexInRange(state.currentNumber) {
          assert before == Success(Outcome(result, [call]));
          return Success(Outcome(result, calls));
        }
        assert before == PrependR(call, RunLive(chapters, n, state.currentNumber, state.isForward, result, tempVal));
        ResumeStep(done, call, RunLive(chapters, n, state.currentNumber, state.isForward, result, tempVal));
      }
    }
  }

  /** The outcome of a run of which the calls `done` have been made and `rest` remains. */
  function Resume<V>(done: seq<Call<V>>, rest: Outcome<V>): (o: Outcome<V>)
    ensures o.result == rest.result && |o.calls| == |done| + |rest.calls|
  {
    Outcome(rest.result, done + rest.calls)
  }

  /** Resume for a rest that may throw: an exception discards the calls made so far. */
  function ResumeR<V>(done: seq<Call<V>>, rest: Result<Outcome<V>>): Result<Outcome<V>>
  {
    match rest
    case Failure(e) => Failure(e)
    case Success(o) => Success(Resume(done, o))
  }

  lemma ResumeStep<V>(done: seq<Call<V>>, call: Call<V>, rest: Result<Outcome<V>>)
    ensures ResumeR(done, PrependR(call, rest)) == ResumeR(done + [call], rest)
  {
    if rest.Success? {
      assert done + ([call] + rest.value.calls) == (done + [call]) + rest.value.calls;
    }
  }

  /**
   * The constructor: both arguments must be non-null, and every chapter name must have a
   * registered service; the service of each chapter is the one registered under its name.
   */
  method NewOrchestrator<V>(saga: MySagaAsync?, discovery: Option<map<string, Chapter<V>>>)
    returns (r: Result<MySagaOrchestrator<V>>)
    ensures saga == null || discovery.None? ==> r == Failure(NullPointer)
    ensures saga != null && discovery.Some? ==>
      (r.Success? <==> forall i :: 0 <= i < |saga.chapters| ==> saga.chapters[i].name in discovery.value)
    ensures r.Failure? && saga != null && discovery.Some? ==> r.error == InvalidConfiguration
    ensures r.Success? ==> saga != null && discovery.Some? && r.value.saga == saga && r.value.Valid()
    ensures r.Success? ==> saga != null && discovery.Some? && |r.value.servicesChapters| == |saga.chapters|
    ensures r.Success? ==> forall i :: 0 <= i < |saga.chapters| ==>
      r.value.servicesChapters[i] == discovery.value[saga.chapters[i].name]
  {
    if discovery.None? || saga == null {
      return Failure(NullPointer);
    }
    var snapshot := saga.Iterator();
    var services := GetOrchestrationChapters(snapshot, discovery.value);
    if services.Failure? {
      return Failure(services.error);
    }
    return Success(MySagaOrchestrator(saga, services.value));
  }

  /**
   * A run over the saga as it is now equals the reference run over the services, except when
   * chapters were appended after construction and every process succeeds: the walk then
   * reaches a chapter without a service and the list access throws.
   */
  lemma LiveExecution<V>(chapters: seq<Chapter<V>>, n: int, v: V)
    requires |chapters| <= n
    ensures ExecutionLive(chapters, n, v) ==
      if n > |chapters| && ProcessChain(chapters, 0, v).0 == |chapters| then Failure(IndexOutOfBounds)
      else Execution(chapters, v)
  {
    if |chapters| > 0 {
      LiveForward(chapters, n, 0, FINISHED, v);
    }
  }

  lemma {:induction false} LiveForward<V>(chapters: seq<Chapter<V>>, n: int, index: int, result: SagaResult, v: V)
    requires |chapters| <= n && 0 <= index < |chapters|
    ensures RunLive(chapters, n, index, true, result, v) ==
      if n > |chapters| && ProcessChain(chapters, index, v).0 == |chapters| then Failure(IndexOutOfBounds)
      else Success(Run(chapters, index, true, result, v))
    decreases |chapters| - index
  {
    var r := chapters[index].process(v);
    var call := Call(Process, index, v, r);
    if r.IsSuccess() {
      assert ProcessChain(chapters, index, v) == ProcessChain(chapters, index + 1, r.value);
      if index + 1 < |chapters| {
        LiveForward(chapters, n, index + 1, result, r.value);
      } else {
        assert ProcessChain(chapters, index + 1, r.value).0 == |chapters|;
      }
    } else {
      LiveBackward(chapters, n, index, ROLLBACK, v);
    }
  }

  lemma {:induction false} LiveBackward<V>(chapters: seq<Chapter<V>>, n: int, index: int, result: SagaResult, v: V)
    requires |chapters| <= n && 0 <= index < |chapters|
    ensures RunLive(chapters, n, index, false, result, v) == Success(Run(chapters, index, false, result, v))
    decreases index
  {
    if index > 0 {
      var r := chapters[index].rollback(v);
      LiveBackward(chapters, n, index - 1, if r.IsSuccess() then result else CRASHED,
                   if r.IsSuccess() then r.value else v);
    }
  }

  // ---------------------------------------------------------------------------------------
  // Reference definitions of what a run does, independent of the loop's direction flag.

  /**
   * Walking process forward from chapter i with value v while it succeeds: the index of the
   * first failing chapter (|chapters| if none) and the value that chapter was given.
   */
  function ProcessChain<V>(chapters: seq<Chapter<V>>, i: int, v: V): (k: (int, V))
    requires 0 <= i <= |chapters|
    ensures i <= k.0 <= |chapters|
    decreases |chapters| - i
  {
    if i == |chapters| then (i, v)
    else
      var r := chapters[i].process(v);
      if r.IsSuccess() then ProcessChain(chapters, i + 1, r.value) else (i, v)
  }

  /** Rolling back chapters top, top-1, ..., 0 from value v, each rollback succeeds. */
  function RollbacksSucceed<V>(chapters: seq<Chapter<V>>, top: int, v: V): bool
    requires -1 <= top < |chapters|
    decreases top + 1
  {
    top < 0 || (var r := chapters[top].rollback(v); r.IsSuccess() && RollbacksSucceed(chapters, top - 1, r.value))
  }

  /**
   * The backward phase rolls back top, top-1, ..., 0 exactly once each; the result becomes
   * CRASHED if any rollback fails and is never changed back.
   */
  lemma {:induction false} RollbackPhase<V>(chapters: seq<Chapter<V>>, top: int, result: SagaResult, v: V)
    requires 0 <= top < |chapters|
    ensures Labels(Run(chapters, top, false, result, v).calls) == Rollbacks(top)
    ensures Run(chapters, top, false, result, v).result ==
      if RollbacksSucceed(chapters, top, v) then result else CRASHED
    decreases top
  {
    var r := chapters[top].rollback(v);
    if top > 0 {
      RollbackPhase(chapters, top - 1, if r.IsSuccess() then result else CRASHED,
                    if r.IsSuccess() then r.value else v);
    }
  }

  /**
   * The forward phase processes chapters in index order until the first failure k, and then
   * rolls back k, k-1, ..., 0; if nothing fails the result is left as it was.
   */
  lemma {:induction false} ForwardPhase<V>(chapters: seq<Chapter<V>>, i: int, result: SagaResult, v: V)
    requires 0 <= i < |chapters|
    ensures ForwardShape(chapters, i, result, v)
    decreases |chapters| - i
  {
    var r := chapters[i].process(v);
    if r.IsSuccess() && i + 1 < |chapters| {
      ForwardPhase(chapters, i + 1, result, r.value);
      ForwardStep(chapters, i, result, v);
    } else if r.IsSuccess() {
      ForwardLast(chapters, i, result, v);
    } else {
      ForwardFails(chapters, i, result, v);
    }
  }

  /** The statement of ForwardPhase for the run that starts processing at chapter i. */
  ghost predicate ForwardShape<V>(chapters: seq<Chapter<V>>, i: int, result: SagaResult, v: V)
    requires 0 <= i < |chapters|
  {
    var k := ProcessChain(chapters, i, v).0;
    var w := ProcessChain(chapters, i, v).1;
    Shape(|chapters|, i, k, k < |chapters| && RollbacksSucceed(chapters, k, w), result, Run(chapters, i, true, result, v))
  }

  /**
   * The calls and result of a run over n chapters that processes i..k-1 successfully and then
   * either stops (k == n, result kept) or fails at k and rolls back k..0, ok telling whether
   * every rollback succeeded.
   */
  ghost predicate Shape<V>(n: int, i: int, k: int, ok: bool, result: SagaResult, o: Outcome<V>)
  {
    && (k == n ==> o.result == result && Labels(o.calls) == Processes(i, n))
    && (k < n ==>
          && Labels(o.calls) == Processes(i, k + 1) + Rollbacks(k)
          && o.result == if ok then ROLLBACK else CRASHED)
  }

  lemma ShapeCons<V>(n: int, i: int, k: int, ok: bool, result: SagaResult, call: Call<V>, rest: Outcome<V>)
    requires i < k <= n && call.kind == Process && call.index == i
    requires Shape(n, i + 1, k, ok, result, rest)
    ensures Shape(n, i, k, ok, result, Prepend(call, rest))
  {
    var o := Prepend(call, rest);
    LabelsCons(call, rest.calls);
    assert Labels(o.calls) == [Label(Process, i)] + Labels(rest.calls);
    ProcessesCons(i, k);
    if k < n {
      assert [Label(Process, i)] + (Processes(i + 1, k + 1) + Rollbacks(k)) ==
        ([Label(Process, i)] + Processes(i + 1, k + 1)) + Rollbacks(k);
    }
  }

  lemma ForwardStep<V>(chapters: seq<Chapter<V>>, i: int, result: SagaResult, v: V)
    requires 0 <= i && i + 1 < |chapters| && chapters[i].process(v).IsSuccess()
    requires ForwardShape(chapters, i + 1, result, chapters[i].process(v).value)
    ensures ForwardShape(chapters, i, result, v)
  {
    var r := chapters[i].process(v);
    var call := Call(Process, i, v, r);
    var rest := Run(chapters, i + 1, true, result, r.value);
    assert Run(chapters, i, true, result, v) == Prepend(call, rest);
    var kw := ProcessChain(chapters, i + 1, r.value);
    assert ProcessChain(chapters, i, v) == kw;
    ShapeCons(|chapters|, i, kw.0, kw.0 < |chapters| && RollbacksSucceed(chapters, kw.0, kw.1), result, call, rest);
  }

  lemma ProcessesCons(i: int, k: int)
    requires i < k
    ensures Processes(i, k + 1) == [Label(Process, i)] + Processes(i + 1, k + 1)
    ensures Processes(i, k) == [Label(Process, i)] + Processes(i + 1, k)
  {
  }

  lemma ForwardLast<V>(chapters: seq<Chapter<V>>, i: int, result: SagaResult, v: V)
    requires 0 <= i && i + 1 == |chapters| && chapters[i].process(v).IsSuccess()
    ensures ForwardShape(chapters, i, result, v)
  {
    var call := Call(Process, i, v, chapters[i].process(v));
    assert Run(chapters, i, true, result, v) == Outcome(result, [call]);
    LabelsCons(call, []);
    assert [call] + [] == [call];
    assert Processes(i, |chapters|) == [Label(Process, i)] + Processes(i + 1, |chapters|);
  }

  lemma ForwardFails<V>(chapters: seq<Chapter<V>>, i: int, result: SagaResult, v: V)
    requires 0 <= i < |chapters| && !chapters[i].process(v).IsSuccess()
    ensures ForwardShape(chapters, i, result, v)
  {
    var call := Call(Process, i, v, chapters[i].process(v));
    var rest := Run(chapters, i, false, ROLLBACK, v);
    assert Run(chapters, i, true, result, v) == Prepend(call, rest);
    assert ProcessChain(chapters, i, v) == (i, v);
    RollbackPhase(chapters, i, ROLLBACK, v);
    LabelsCons(call, rest.calls);
    assert Processes(i, i + 1) == [Label(Process, i)];
  }

  /**
   * What execute returns: FINISHED after processing every chapter in order when no process
   * fails; otherwise, with k the first failing chapter, Process 0..k then Rollback k..0, and
   * ROLLBACK or CRASHED depending on whether every rollback succeeded. At most 2n calls are
   * made and every index used lies in the saga's range.
   */
  lemma ExecutionOutcome<V>(chapters: seq<Chapter<V>>, v: V)
    ensures |chapters| == 0 <==> Execution(chapters, v) == Failure(IndexOutOfBounds)
    ensures |chapters| > 0 ==>
      var o := Execution(chapters, v).value;
      var (k, w) := ProcessChain(chapters, 0, v);
      && (o.result == FINISHED <==> k == |chapters|)
      && (k == |chapters| ==> Labels(o.calls) == Processes(0, |chapters|))
      && (k < |chapters| ==>
            && Labels(o.calls) == Processes(0, k + 1) + Rollbacks(k)
            && (o.result == ROLLBACK <==> RollbacksSucceed(chapters, k, w))
            && (o.result == CRASHED <==> !RollbacksSucceed(chapters, k, w)))
      && |o.calls| <= 2 * |chapters|
      && forall j :: 0 <= j < |o.calls| ==> 0 <= o.calls[j].index < |chapters|
  {
    if |chapters| > 0 {
      ForwardPhase(chapters, 0, FINISHED, v);
      var o := Execution(chapters, v).value;
      var k := ProcessChain(chapters, 0, v).0;
      LabelsAt(o.calls);
      if k == |chapters| {
        ProcessesShape(0, |chapters|);
        forall j | 0 <= j < |o.calls|
          ensures 0 <= o.calls[j].index < |chapters|
        {
          assert Labels(o.calls)[j] == Processes(0, |chapters|)[j];
        }
      } else {
        ProcessesShape(0, k + 1);
        RollbacksShape(k);
        var ls := Processes(0, k + 1) + Rollbacks(k);
        forall j | 0 <= j < |o.calls|
          ensures 0 <= o.calls[j].index < |chapters|
        {
          assert Labels(o.calls)[j] == ls[j];
          if j >= k + 1 {
            assert ls[j] == Rollbacks(k)[j - (k + 1)];
          }
        }
      }
    }
  }


  /**
   * Every call receives the value of the last successful call before it (values of failed
   * calls are discarded), and every recorded answer is the chapter service's answer.
   */
  lemma RunThreadsValues<V>(chapters: seq<Chapter<V>>, index: int, forward: bool, result: SagaResult, v: V)
    requires 0 <= index < |chapters|
    ensures var o := Run(chapters, index, forward, result, v);
      && o.calls != [] && o.calls[0].input == v
      && HandsOnSuccessfulValues(o.calls)
      && Answered(chapters, o.calls)
  {
    if forward {
      ForwardThreadsValues(chapters, index, result, v);
    } else {
      BackwardThreadsValues(chapters, index, result, v);
    }
  }

  /** RunThreadsValues for the rollback run, by induction on the chapter rolled back. */
  lemma {:induction false} BackwardThreadsValues<V>(chapters: seq<Chapter<V>>, index: int, result: SagaResult, v: V)
    requires 0 <= index < |chapters|
    ensures Threaded(chapters, Run(chapters, index, false, result, v), v)
    decreases index
  {
    var r := chapters[index].rollback(v);
    var call := Call(Rollback, index, v, r);
    if index - 1 >= 0 {
      var result' := if r.IsSuccess() then result else CRASHED;
      var next := if r.IsSuccess() then r.value else v;
      var rest := Run(chapters, index - 1, false, result', next);
      assert Run(chapters, index, false, result, v) == Prepend(call, rest);
      BackwardThreadsValues(chapters, index - 1, result', next);
      AnsweredCons(chapters, call, rest.calls);
    } else {
      assert Run(chapters, index, false, result, v).calls == [call];
    }
  }

  /** RunThreadsValues for the forward run, by induction on the chapters still to process. */
  lemma {:induction false} ForwardThreadsValues<V>(chapters: seq<Chapter<V>>, index: int, result: SagaResult, v: V)
    requires 0 <= index < |chapters|
    ensures Threaded(chapters, Run(chapters, index, true, result, v), v)
    decreases |chapters| - index
  {
    var r := chapters[index].process(v);
    var call := Call(Process, index, v, r);
    if r.IsSuccess() && index + 1 < |chapters| {
      var rest := Run(chapters, index + 1, true, result, r.value);
      assert Run(chapters, index, true, result, v) == Prepend(call, rest);
      ForwardThreadsValues(chapters, index + 1, result, r.value);
      AnsweredCons(chapters, call, rest.calls);
    } else if r.IsSuccess() {
      assert Run(chapters, index, true, result, v).calls == [call];
    } else {
      var rest := Run(chapters, index, false, ROLLBACK, v);
      assert Run(chapters, index, true, result, v) == Prepend(call, rest);
      BackwardThreadsValues(chapters, index, ROLLBACK, v);
      AnsweredCons(chapters, call, rest.calls);
    }
  }

  ghost predicate Threaded<V>(chapters: seq<Chapter<V>>, o: Outcome<V>, v: V)
  {
    o.calls != [] && o.calls[0].input == v && HandsOnSuccessfulValues(o.calls) && Answered(chapters, o.calls)
  }

  lemma AnsweredCons<V>(chapters: seq<Chapter<V>>, call: Call<V>, rest: seq<Call<V>>)
    requires 0 <= call.index < |chapters| && call.output == Answer(chapters[call.index], call.kind, call.input)
    requires rest != [] && rest[0].input == KeptValue(call)
    requires HandsOnSuccessfulValues(rest) && Answered(chapters, rest)
    ensures HandsOnSuccessfulValues([call] + rest) && Answered(chapters, [call] + rest)
  {
    ConsThreads(call, rest);
    var all := [call] + rest;
    forall j | 0 <= j < |all|
      ensures 0 <= all[j].index < |chapters|
      ensures all[j].output == Answer(chapters[all[j].index], all[j].kind, all[j].input)
    {
      if j > 0 {
        assert all[j] == rest[j - 1];
      }
    }
  }

  lemma ConsThreads<V>(call: Call<V>, rest: seq<Call<V>>)
    requires rest != [] && rest[0].input == KeptValue(call)
    requires HandsOnSuccessfulValues(rest)
    ensures HandsOnSuccessfulValues([call] + rest)
  {
    var all := [call] + rest;
    forall j | 0 <= j < |all| - 1
      ensures all[j + 1].input == KeptValue(all[j])
    {
      if j > 0 {
        assert all[j + 1] == rest[j] && all[j] == rest[j - 1];
      }
    }
  }

  /**
   * The test scenario: four chapters, the last one's process fails, every rollback succeeds.
   * The calls are Process 0, 1, 2, 3 then Rollback 3, 2, 1, 0 and the result is ROLLBACK.
   */
  lemma LastChapterFailsScenario<V>(chapters: seq<Chapter<V>>, v: V)
    requires |chapters| == 4
    requires forall i, x :: 0 <= i < 3 ==> chapters[i].process(x).IsSuccess()
    requires forall x :: !chapters[3].process(x).IsSuccess()
    requires forall i, x :: 0 <= i < 4 ==> chapters[i].rollback(x).IsSuccess()
    ensures Execution(chapters, v).Success?
    ensures Execution(chapters, v).value.result == ROLLBACK
    ensures Labels(Execution(chapters, v).value.calls) ==
      [Label(Process, 0), Label(Process, 1), Label(Process, 2), Label(Process, 3),
       Label(Rollback, 3), Label(Rollback, 2), Label(Rollback, 1), Label(Rollback, 0)]
  {
    ExecutionOutcome(chapters, v);
    var v1 := chapters[0].process(v).value;
    var v2 := chapters[1].process(v1).value;
    var v3 := chapters[2].process(v2).value;
    assert ProcessChain(chapters, 3, v3) == (3, v3);
    assert ProcessChain(chapters, 2, v2) == (3, v3);
    assert ProcessChain(chapters, 1, v1) == (3, v3);
    assert ProcessChain(chapters, 0, v) == (3, v3);
    var w0 := chapters[3].rollback(v3).value;
    var w1 := chapters[2].rollback(w0).value;
    var w2 := chapters[1].rollback(w1).value;
    assert RollbacksSucceed(chapters, -1, chapters[0].rollback(w2).value);
    assert RollbacksSucceed(chapters, 0, w2);
    assert RollbacksSucceed(chapters, 1, w1);
    assert RollbacksSucceed(chapters, 2, w0);
    assert RollbacksSucceed(chapters, 3, v3);
  }
}
