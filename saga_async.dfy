/**
 * MySagaAsync: an append-only list of named chapters, the range check the orchestrators use,
 * and the saga result enumeration.
 */
module SagaAsync {
  import opened Wrappers

  /** MySagaAsync.Result; the synchronous orchestrator's result has the same three values. */
  datatype SagaResult = FINISHED | ROLLBACK | CRASHED

  /** A chapter only carries its (non-null) name. */
  datatype MyChapter = MyChapter(name: string)

  /** The MyChapter constructor: a null name is rejected with a NullPointerException. */
  function NewChapter(name: Option<string>): (r: Result<MyChapter>)
    ensures r.Failure? <==> name.None?
    ensures r.Failure? ==> r.error == NullPointer
    ensures r.Success? ==> r.value.name == name.value
  {
    match name
    case None => Failure(NullPointer)
    case Some(n) => Success(MyChapter(n))
  }

  class MySagaAsync {
    var chapters: seq<MyChapter>

    /** MySagaAsync.create(). */
    constructor Create()
      ensures chapters == []
    {
      chapters := [];
    }

    /**
     * chapter(name): appends exactly one chapter and returns this saga, so calls chain.
     * A null name fails in the MyChapter constructor before anything is appended.
     */
    method Chapter(name: Option<string>) returns (r: Result<MySagaAsync>)
      modifies this
      ensures name.Some? ==> chapters == old(chapters) + [MyChapter(name.value)] && r == Success(this)
      ensures name.None? ==> chapters == old(chapters) && r == Failure(NullPointer)
    {
      var chapter := NewChapter(name);
      if chapter.Failure? {
        return Failure(chapter.error);
      }
      chapters := chapters + [chapter.value];
      return Success(this);
    }

    /** isIndexInRange: the index addresses a chapter of the current list. */
    function IsIndexInRange(index: int): (r: bool)
      reads this
      ensures r <==> 0 <= index < |chapters|
    {
      index >= 0 && index < |chapters|
    }

    /**
     * iterator(): iterates over a copy of the list taken at the call. A sequence is a value,
     * so later calls of Chapter cannot change a snapshot already taken.
     */
    method Iterator() returns (snapshot: seq<MyChapter>)
      ensures snapshot == chapters
    {
      snapshot := chapters;
    }
  }

  /** Taking a snapshot, then appending: the snapshot keeps the old chapters in insertion order. */
  method SnapshotThenAppend(saga: MySagaAsync, name: string) returns (snapshot: seq<MyChapter>)
    modifies saga
    ensures snapshot == old(saga.chapters)
    ensures saga.chapters == snapshot + [MyChapter(name)]
  {
    snapshot := saga.Iterator();
    var _ := saga.Chapter(Some(name));
  }
}
