/**
 * The record of one saga execution: which service call was made on which chapter, with which
 * input and answer (the test suites keep the same record as "Process X" / "Rollback X" lines),
 * and the saga result that execute returns.
 */
module SagaLog {
  import opened Wrappers
  import opened Chapters
  import opened SagaAsync

  datatype Kind = Process | Rollback

  /** One call of a chapter's service: its kind, the chapter index, the input and the answer. */
  datatype Call<V> = Call(kind: Kind, index: int, input: V, output: ChapterResult<V>)

  /** What the test suites record of a call. */
  datatype Label = Label(kind: Kind, index: int)

  datatype Outcome<V> = Outcome(result: SagaResult, calls: seq<Call<V>>)

  /** The answer of a chapter's service to a call of the given kind. */
  function Answer<V>(chapter: Chapter<V>, kind: Kind, input: V): ChapterResult<V>
  {
    match kind
    case Process => chapter.process(input)
    case Rollback => chapter.rollback(input)
  }

  function Prepend<V>(call: Call<V>, rest: Outcome<V>): (o: Outcome<V>)
    ensures o.result == rest.result && o.calls == [call] + rest.calls
  {
    Outcome(rest.result, [call] + rest.calls)
  }

  /** A call made before a run that may end in an exception: the exception propagates. */
  function PrependR<V>(call: Call<V>, rest: Result<Outcome<V>>): Result<Outcome<V>>
  {
    match rest
    case Failure(e) => Failure(e)
    case Success(o) => Success(Prepend(call, o))
  }

  function Labels<V>(calls: seq<Call<V>>): (ls: seq<Label>)
    ensures |ls| == |calls|
  {
    if calls == [] then [] else [Label(calls[0].kind, calls[0].index)] + Labels(calls[1..])
  }

  /** The labels of a record are the kind and index of each call, position by position. */
  lemma {:induction false} LabelsAt<V>(calls: seq<Call<V>>)
    ensures forall j :: 0 <= j < |calls| ==> Labels(calls)[j] == Label(calls[j].kind, calls[j].index)
    decreases |calls|
  {
    if calls != [] {
      LabelsAt(calls[1..]);
    }
  }

  lemma LabelsCons<V>(call: Call<V>, rest: seq<Call<V>>)
    ensures Labels([call] + rest) == [Label(call.kind, call.index)] + Labels(rest)
  {
    assert ([call] + rest)[1..] == rest;
  }

  /** Process lo, Process lo+1, ..., Process hi-1. */
  function Processes(lo: int, hi: int): (ls: seq<Label>)
    decreases hi - lo
  {
    if lo >= hi then [] else [Label(Process, lo)] + Processes(lo + 1, hi)
  }

  /** Rollback top, Rollback top-1, ..., Rollback 0. */
  function Rollbacks(top: int): (ls: seq<Label>)
    decreases top + 1
  {
    if top < 0 then [] else [Label(Rollback, top)] + Rollbacks(top - 1)
  }

  lemma {:induction false} ProcessesShape(lo: int, hi: int)
    requires lo <= hi
    ensures |Processes(lo, hi)| == hi - lo
    ensures forall j :: 0 <= j < hi - lo ==> Processes(lo, hi)[j] == Label(Process, lo + j)
    decreases hi - lo
  {
    if lo < hi {
      ProcessesShape(lo + 1, hi);
    }
  }

  lemma {:induction false} RollbacksShape(top: int)
    requires top >= -1
    ensures |Rollbacks(top)| == top + 1
    ensures forall j :: 0 <= j <= top ==> Rollbacks(top)[j] == Label(Rollback, top - j)
    decreases top + 1
  {
    if top >= 0 {
      RollbacksShape(top - 1);
    }
  }

  /** Every recorded answer is the one the chapter's service gives to the recorded input. */
  ghost predicate Answered<V>(chapters: seq<Chapter<V>>, calls: seq<Call<V>>)
  {
    forall j :: 0 <= j < |calls| ==>
      0 <= calls[j].index < |chapters| &&
      calls[j].output == Answer(chapters[calls[j].index], calls[j].kind, calls[j].input)
  }

  /** The value a call hands on when failed answers are discarded (synchronous orchestrator). */
  function KeptValue<V>(call: Call<V>): V
  {
    if call.output.IsSuccess() then call.output.value else call.input
  }

  /** Each call's input is the value of the last successful answer before it. */
  ghost predicate HandsOnSuccessfulValues<V>(calls: seq<Call<V>>)
  {
    forall j :: 0 <= j < |calls| - 1 ==> calls[j + 1].input == KeptValue(calls[j])
  }

  /** Each call's input is the value of the answer just before it, failed or not (asynchronous orchestrator). */
  ghost predicate HandsOnEveryValue<V>(calls: seq<Call<V>>)
  {
    forall j :: 0 <= j < |calls| - 1 ==> calls[j + 1].input == calls[j].output.value
  }
}
