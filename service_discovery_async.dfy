/**
 * MyServiceDiscoveryAsync: the registry mapping a chapter name to the orchestration chapter
 * (service) registered under it.
 */
module ServiceDiscoveryAsync {
  import opened Wrappers
  import opened Chapters

  class MyServiceDiscoveryAsync<V> {
    var orchestrations: map<string, Chapter<V>>

    /** Every chapter is registered under its own name. */
    ghost predicate Valid()
      reads this
    {
      forall name :: name in orchestrations ==> orchestrations[name].name == name
    }

    /** create(): an empty registry. */
    constructor Create()
      ensures Valid() && orchestrations == map[]
    {
      orchestrations := map[];
    }

    /**
     * find(chapterName): a null name is rejected; otherwise the chapter registered under the
     * name, if any, and that chapter carries the name asked for.
     */
    function Find(chapterName: Option<string>): (r: Result<Option<Chapter<V>>>)
      reads this
      requires Valid()
      ensures chapterName.None? ==> r == Failure(NullPointer)
      ensures chapterName.Some? ==> r.Success?
      ensures chapterName.Some? ==> (r.value.Some? <==> chapterName.value in orchestrations)
      ensures chapterName.Some? && r.value.Some? ==>
        r.value.value.name == chapterName.value && r.value.value == orchestrations[chapterName.value]
    {
      match chapterName
      case None => Failure(NullPointer)
      case Some(name) => Success(if name in orchestrations then Some(orchestrations[name]) else None)
    }

    /**
     * discover(chapter): registers the chapter under its name, replacing an earlier chapter
     * of the same name and leaving every other name as it was; returns this registry so that
     * calls chain. A null chapter is rejected and the registry is unchanged.
     */
    method Discover(chapter: Option<Chapter<V>>) returns (r: Result<MyServiceDiscoveryAsync<V>>)
      requires Valid()
      modifies this
      ensures Valid()
      ensures chapter.None? ==> r == Failure(NullPointer) && orchestrations == old(orchestrations)
      ensures chapter.Some? ==> r == Success(this)
      ensures chapter.Some? ==> orchestrations == old(orchestrations)[chapter.value.name := chapter.value]
      ensures chapter.Some? ==> Find(Some(chapter.value.name)) == Success(Some(chapter.value))
      ensures chapter.Some? ==> forall name :: name != chapter.value.name ==>
        Find(Some(name)) == old(Find(Some(name)))
    {
      if chapter.None? {
        return Failure(NullPointer);
      }
      orchestrations := orchestrations[chapter.value.name := chapter.value];
      return Success(this);
    }
  }
}
