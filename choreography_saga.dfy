/**
 * The choreography saga (mychoreography/MySaga.java): a cursor `pos` over a list of chapter
 * cells, a direction flag that back() clears for good, and a finished flag. The services of
 * ChoreographyServices read and write the cell under the cursor.
 */
module ChoreographySaga {
  import opened Wrappers

  /** A chapter's in-value, a Java Object: null, a string, or some other object. */
  datatype Value = Null | Text(text: string) | Other(id: nat)

  datatype ChapterStatus = INIT | SUCCESS | ROLLBACK

  datatype MyResult = PROGRESS | FINISHED | ROLLBACK

  /** A chapter cell; a fresh cell has a null value and a null status (None). */
  datatype MyChapter = MyChapter(name: Option<string>, value: Value, status: Option<ChapterStatus>)
  {
    /** isSuccess(): only a SUCCESS status counts, so a fresh chapter's null status does not. */
    predicate IsSuccess(): (b: bool)
      ensures b <==> status == Some(ChapterStatus.SUCCESS)
      ensures status.None? ==> !b
    {
      status == Some(ChapterStatus.SUCCESS)
    }
  }

  class MySaga {
    var pos: int
    var forward: bool
    var finished: bool
    var chapters: seq<MyChapter>
    /** How many times back() has run; it gives the direction flag its meaning. */
    ghost var backs: nat

    /** The direction flag is true exactly until the first back(). */
    ghost predicate Valid()
      reads this
    {
      forward <==> backs == 0
    }

    /** create(): cursor at 0, moving forward, not finished, no chapters, in PROGRESS. */
    constructor Create()
      ensures Valid()
      ensures pos == 0 && forward && !finished && chapters == [] && backs == 0
      ensures GetResult() == MyResult.PROGRESS
    {
      pos := 0;
      forward := true;
      finished := false;
      chapters := [];
      backs := 0;
    }

    /**
     * getResult(): PROGRESS while not finished; once finished, FINISHED if back() never ran
     * and ROLLBACK if it ran at least once.
     */
    function GetResult(): (r: MyResult)
      reads this
      requires Valid()
      ensures r == MyResult.PROGRESS <==> !finished
      ensures r == MyResult.FINISHED <==> finished && backs == 0
      ensures r == MyResult.ROLLBACK <==> finished && backs > 0
    {
      if finished then (if forward then MyResult.FINISHED else MyResult.ROLLBACK) else MyResult.PROGRESS
    }

    /** inRange(): the cursor designates a chapter. */
    predicate InRange(): (b: bool)
      reads this
      ensures b <==> 0 <= pos < |chapters|
    {
      0 <= pos < |chapters|
    }

    /** chapter(name): appends one fresh chapter and returns this saga. */
    method Chapter(name: Option<string>) returns (self: MySaga)
      modifies this
      ensures self == this
      ensures chapters == old(chapters) + [MyChapter(name, Null, None)]
      ensures !chapters[|chapters| - 1].IsSuccess()
      ensures pos == old(pos) && forward == old(forward) && finished == old(finished) && backs == old(backs)
    {
      chapters := chapters + [MyChapter(name, Null, None)];
      return this;
    }

    /** setInValue(value): sets the value of the last chapter; nothing changes when there is none. */
    method SetInValue(value: Value) returns (self: MySaga)
      modifies this
      ensures self == this
      ensures |old(chapters)| == 0 ==> chapters == old(chapters)
      ensures |old(chapters)| > 0 ==>
        chapters == old(chapters)[|old(chapters)| - 1 := old(chapters)[|old(chapters)| - 1].(value := value)]
      ensures pos == old(pos) && forward == old(forward) && finished == old(finished) && backs == old(backs)
    {
      if |chapters| == 0 {
        return this;
      }
      var last := |chapters| - 1;
      chapters := chapters[last := chapters[last].(value := value)];
      return this;
    }

    /** getCurrent(): the chapter under the cursor; out of range the list access throws. */
    function GetCurrent(): (r: Result<MyChapter>)
      reads this
      ensures r.Success? <==> InRange()
      ensures r.Success? ==> r.value == chapters[pos]
      ensures r.Failure? ==> r.error == IndexOutOfBounds
    {
      if InRange() then Success(chapters[pos]) else Failure(IndexOutOfBounds)
    }

    /** getCurrentValue(): the value of the chapter under the cursor. */
    function GetCurrentValue(): (r: Result<Value>)
      reads this
      ensures r.Success? <==> InRange()
      ensures r.Success? ==> r.value == chapters[pos].value
      ensures r.Failure? ==> r.error == IndexOutOfBounds
    {
      match GetCurrent()
      case Success(c) => Success(c.value)
      case Failure(e) => Failure(e)
    }

    /**
     * isCurrentSuccess(): whether the chapter under the cursor has status SUCCESS; a fresh
     * chapter, whose status is null, is not successful.
     */
    function IsCurrentSuccess(): (r: Result<bool>)
      reads this
      ensures r.Success? <==> InRange()
      ensures r.Success? ==> (r.value <==> chapters[pos].status == Some(ChapterStatus.SUCCESS))
      ensures r.Failure? ==> r.error == IndexOutOfBounds
    {
      match GetCurrent()
      case Success(c) => Success(c.IsSuccess())
      case Failure(e) => Failure(e)
    }

    /**
     * setCurrentValue(value): replaces the value of the chapter under the cursor only, so that
     * getCurrentValue() then yields it; out of range nothing changes and the access throws.
     */
    method SetCurrentValue(value: Value) returns (r: Result<MySaga>)
      modifies this
      ensures pos == old(pos) && forward == old(forward) && finished == old(finished) && backs == old(backs)
      ensures old(InRange()) ==> r == Success(this)
      ensures old(InRange()) ==> chapters == old(chapters)[pos := old(chapters)[pos].(value := value)]
      ensures old(InRange()) ==> GetCurrentValue() == Success(value)
      ensures !old(InRange()) ==> r == Failure(IndexOutOfBounds) && chapters == old(chapters)
    {
      if !InRange() {
        return Failure(IndexOutOfBounds);
      }
      chapters := chapters[pos := chapters[pos].(value := value)];
      return Success(this);
    }

    /**
     * setCurrentStatus(status): replaces the status of the chapter under the cursor only; a
     * null status (None) is stored as given, like a fresh chapter's. isCurrentSuccess() then
     * holds exactly for SUCCESS.
     */
    method SetCurrentStatus(status: Option<ChapterStatus>) returns (r: Result<MySaga>)
      modifies this
      ensures pos == old(pos) && forward == old(forward) && finished == old(finished) && backs == old(backs)
      ensures old(InRange()) ==> r == Success(this)
      ensures old(InRange()) ==> chapters == old(chapters)[pos := old(chapters)[pos].(status := status)]
      ensures old(InRange()) ==> IsCurrentSuccess() == Success(status == Some(ChapterStatus.SUCCESS))
      ensures !old(InRange()) ==> r == Failure(IndexOutOfBounds) && chapters == old(chapters)
    {
      if !InRange() {
        return Failure(IndexOutOfBounds);
      }
      chapters := chapters[pos := chapters[pos].(status := status)];
      return Success(this);
    }

    /** setFinished(flag): sets the finished flag and nothing else. */
    method SetFinished(flag: bool) returns (self: MySaga)
      modifies this
      ensures self == this && finished == flag
      ensures pos == old(pos) && forward == old(forward) && chapters == old(chapters) && backs == old(backs)
    {
      finished := flag;
      return this;
    }

    /** forward(): moves the cursor up one and returns it; the direction is untouched. */
    method Forward() returns (p: int)
      modifies this
      ensures pos == old(pos) + 1 && p == pos
      ensures forward == old(forward) && finished == old(finished) && chapters == old(chapters) && backs == old(backs)
    {
      pos := pos + 1;
      return pos;
    }

    /** back(): turns the saga backward for good, moves the cursor down one and returns it. */
    method Back() returns (p: int)
      requires Valid()
      modifies this
      ensures Valid()
      ensures pos == old(pos) - 1 && p == pos
      ensures !forward && backs == old(backs) + 1
      ensures finished == old(finished) && chapters == old(chapters)
    {
      forward := false;
      backs := backs + 1;
      pos := pos - 1;
      return pos;
    }
  }
}
