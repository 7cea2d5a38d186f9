/**
 * MyChapterResult (the synchronous orchestrator's chapter result) and the orchestration
 * chapters it is returned by. The asynchronous variant MyChapterResultAsync has the same
 * shape; completed futures are modelled as plain values.
 */
module Chapters {

  datatype ChapterState = SUCCESS | FAILURE

  /** An immutable result: both fields are final in the source. */
  datatype ChapterResult<V> = ChapterResult(value: V, state: ChapterState) {
    /** isSuccess(): a result that is not a success is a failure. */
    predicate IsSuccess(): (b: bool)
      ensures b <==> state == SUCCESS
      ensures !b <==> state == FAILURE
    {
      state == SUCCESS
    }
  }

  function Success<V>(value: V): (r: ChapterResult<V>)
    ensures r.IsSuccess() && r.value == value
  {
    ChapterResult(value, SUCCESS)
  }

  function Failure<V>(value: V): (r: ChapterResult<V>)
    ensures !r.IsSuccess() && r.value == value
  {
    ChapterResult(value, FAILURE)
  }

  /**
   * An orchestration chapter (MyOrchestrationChapter / MyOrchestrationChapterAsync): a named
   * service whose process and rollback map an input value to a chapter result.
   */
  datatype Chapter<!V> = Chapter(
    name: string,
    process: V -> ChapterResult<V>,
    rollback: V -> ChapterResult<V>)
}
