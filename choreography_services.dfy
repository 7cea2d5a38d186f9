/**
 * The choreography services (mychoreography/MyService.java and its subclasses) and the two
 * name-to-service registries (MyServiceDiscovery.java, MyDiscoveryService.java). A service
 * works on the chapter under the saga's cursor and never moves the cursor.
 */
module ChoreographyServices {
  import opened Wrappers
  import opened ChoreographySaga

  /**
   * Which concrete service: the withdrawal, the hotel booking, or a service that keeps the
   * base behaviour under a name of its own (the order and flight services).
   */
  datatype ServiceKind = WithdrawMoney | HotelBooking | Plain(name: string)

  const RollbackOrder := "must_rollback_order"

  class MyService {
    const kind: ServiceKind
    const discoveryService: MyDiscoveryService

    constructor (kind: ServiceKind, discoveryService: MyDiscoveryService)
      ensures this.kind == kind && this.discoveryService == discoveryService
    {
      this.kind := kind;
      this.discoveryService := discoveryService;
    }

    /** getName() of each subclass. */
    function GetName(): (n: string)
      ensures kind == WithdrawMoney ==> n == "withdrawing Money"
      ensures kind == HotelBooking ==> n == "booking a Hotel"
      ensures kind.Plain? ==> n == kind.name
    {
      match kind
      case WithdrawMoney => "withdrawing Money"
      case HotelBooking => "booking a Hotel"
      case Plain(name) => name
    }

    /**
     * MyService.process: keeps the current chapter's value and marks it SUCCESS; the cursor,
     * the flags and the other chapters are untouched. Out of range the access throws.
     */
    method BaseProcess(saga: MySaga) returns (r: Result<MySaga>)
      modifies saga
      ensures saga.pos == old(saga.pos) && saga.forward == old(saga.forward)
      ensures saga.finished == old(saga.finished) && saga.backs == old(saga.backs)
      ensures !old(saga.InRange()) ==> r == Failure(IndexOutOfBounds) && saga.chapters == old(saga.chapters)
      ensures old(saga.InRange()) ==> r == Success(saga)
      ensures old(saga.InRange()) ==>
        saga.chapters == old(saga.chapters)[saga.pos := old(saga.chapters)[saga.pos].(status := Some(ChapterStatus.SUCCESS))]
    {
      r := Mark(saga, ChapterStatus.SUCCESS);
    }

    /**
     * process as overridden by MyWithdrawMoneyService: the value "must_rollback_order" marks
     * the chapter ROLLBACK, a null value throws (equals is called on it) and changes nothing,
     * and any other value is processed as by the base service.
     */
    method Process(saga: MySaga) returns (r: Result<MySaga>)
      modifies saga
      ensures saga.pos == old(saga.pos) && saga.forward == old(saga.forward)
      ensures saga.finished == old(saga.finished) && saga.backs == old(saga.backs)
      ensures !old(saga.InRange()) ==> r == Failure(IndexOutOfBounds) && saga.chapters == old(saga.chapters)
      ensures old(saga.InRange()) && kind == WithdrawMoney && old(saga.chapters[saga.pos].value) == Null ==>
        r == Failure(NullPointer) && saga.chapters == old(saga.chapters)
      ensures old(saga.InRange()) && (kind != WithdrawMoney || old(saga.chapters[saga.pos].value) != Null) ==>
        r == Success(saga)
      ensures old(saga.InRange()) && kind == WithdrawMoney && old(saga.chapters[saga.pos].value) == Text(RollbackOrder) ==>
        saga.chapters == old(saga.chapters)[saga.pos := old(saga.chapters)[saga.pos].(status := Some(ChapterStatus.ROLLBACK))]
      ensures old(saga.InRange()) && (kind != WithdrawMoney || old(saga.chapters[saga.pos].value) !in {Null, Text(RollbackOrder)}) ==>
        saga.chapters == old(saga.chapters)[saga.pos := old(saga.chapters)[saga.pos].(status := Some(ChapterStatus.SUCCESS))]
    {
      if kind != WithdrawMoney {
        r := BaseProcess(saga);
        return;
      }
      var current := saga.GetCurrentValue();
      if current.Failure? {
        return Failure(current.error);
      }
      var value := current.value;
      if value == Null {
        return Failure(NullPointer);
      }
      if value == Text(RollbackOrder) {
        r := Mark(saga, ChapterStatus.ROLLBACK);
        return;
      }
      r := BaseProcess(saga);
    }

    /** rollback: keeps the current chapter's value and marks it ROLLBACK. */
    method Rollback(saga: MySaga) returns (r: Result<MySaga>)
      modifies saga
      ensures saga.pos == old(saga.pos) && saga.forward == old(saga.forward)
      ensures saga.finished == old(saga.finished) && saga.backs == old(saga.backs)
      ensures !old(saga.InRange()) ==> r == Failure(IndexOutOfBounds) && saga.chapters == old(saga.chapters)
      ensures old(saga.InRange()) ==> r == Success(saga)
      ensures old(saga.InRange()) ==>
        saga.chapters == old(saga.chapters)[saga.pos := old(saga.chapters)[saga.pos].(status := Some(ChapterStatus.ROLLBACK))]
    {
      r := Mark(saga, ChapterStatus.ROLLBACK);
    }

    /**
     * isSagaFinished: a cursor that has left the chapters finishes the saga; inside them the
     * flag is left as it was. Returns the flag.
     */
    method IsSagaFinished(saga: MySaga) returns (b: bool)
      modifies saga
      ensures !old(saga.InRange()) ==> saga.finished
      ensures old(saga.InRange()) ==> saga.finished == old(saga.finished)
      ensures b == saga.finished
      ensures saga.pos == old(saga.pos) && saga.forward == old(saga.forward)
      ensures saga.chapters == old(saga.chapters) && saga.backs == old(saga.backs)
    {
      if !saga.InRange() {
        var _ := saga.SetFinished(true);
      }
      return saga.finished;
    }
  }

  /**
   * The shared step of process and rollback: read the current value, write it back and set
   * the given status.
   */
  method Mark(saga: MySaga, status: ChapterStatus) returns (r: Result<MySaga>)
    modifies saga
    ensures saga.pos == old(saga.pos) && saga.forward == old(saga.forward)
    ensures saga.finished == old(saga.finished) && saga.backs == old(saga.backs)
    ensures !old(saga.InRange()) ==> r == Failure(IndexOutOfBounds) && saga.chapters == old(saga.chapters)
    ensures old(saga.InRange()) ==> r == Success(saga)
    ensures old(saga.InRange()) ==>
      saga.chapters == old(saga.chapters)[saga.pos := old(saga.chapters)[saga.pos].(status := Some(status))]
  {
    var current := saga.GetCurrentValue();
    if current.Failure? {
      return Failure(current.error);
    }
    var _ := saga.SetCurrentValue(current.value);
    r := saga.SetCurrentStatus(Some(status));
  }

  /**
   * The constructor's null check: a service needs a discovery service.
   */
  method NewService(kind: ServiceKind, discoveryService: MyDiscoveryService?) returns (r: Result<MyService>)
    ensures discoveryService == null ==> r == Failure(NullPointer)
    ensures discoveryService != null ==> r.Success? && fresh(r.value)
    ensures discoveryService != null ==> r.value.kind == kind && r.value.discoveryService == discoveryService
  {
    if discoveryService == null {
      return Failure(NullPointer);
    }
    var s := new MyService(kind, discoveryService);
    return Success(s);
  }

  /** Every service is registered under its own name. */
  ghost predicate KeyedByName(services: map<string, MyService>)
  {
    forall name :: name in services ==> services[name].GetName() == name
  }

  /** MyServiceDiscovery: a registry built by create(). */
  class MyServiceDiscovery {
    var services: map<string, MyService>

    ghost predicate Valid()
      reads this
    {
      KeyedByName(services)
    }

    /** create(): an empty registry. */
    constructor Create()
      ensures Valid() && services == map[]
    {
      services := map[];
    }

    /** findAny(): some registered service; on an empty registry the iterator throws. */
    method FindAny() returns (r: Result<MyService>)
      ensures |services| == 0 <==> r.Failure?
      ensures r.Failure? ==> r.error == NoSuchElement
      ensures r.Success? ==> r.value in services.Values
    {
      if |services| == 0 {
        return Failure(NoSuchElement);
      }
      var name :| name in services;
      return Success(services[name]);
    }

    /** find(name): the service registered under the name; nothing for an unknown or null name. */
    function Find(name: Option<string>): (r: Option<MyService>)
      reads this
      requires Valid()
      ensures r.Some? <==> name.Some? && name.value in services
      ensures r.Some? ==> r.value == services[name.value] && r.value.GetName() == name.value
    {
      if name.Some? && name.value in services then Some(services[name.value]) else None
    }

    /**
     * discover(service): registers the service under its name, replacing an earlier one of
     * that name and leaving the others; returns this registry. A null service throws.
     */
    method Discover(service: MyService?) returns (r: Result<MyServiceDiscovery>)
      requires Valid()
      modifies this
      ensures Valid()
      ensures service == null ==> r == Failure(NullPointer) && services == old(services)
      ensures service != null ==> r == Success(this)
      ensures service != null ==> services == old(services)[service.GetName() := service]
      ensures service != null ==> Find(Some(service.GetName())) == Some(service)
      ensures service != null ==> forall name :: name != service.GetName() ==>
        Find(Some(name)) == old(Find(Some(name)))
    {
      if service == null {
        return Failure(NullPointer);
      }
      services := services[service.GetName() := service];
      return Success(this);
    }
  }

  /** MyDiscoveryService: the same registry, built by its public constructor. */
  class MyDiscoveryService {
    var services: map<string, MyService>

    ghost predicate Valid()
      reads this
    {
      KeyedByName(services)
    }

    constructor ()
      ensures Valid() && services == map[]
    {
      services := map[];
    }

    /** findAny(): some registered service; on an empty registry the iterator throws. */
    method FindAny() returns (r: Result<MyService>)
      ensures |services| == 0 <==> r.Failure?
      ensures r.Failure? ==> r.error == NoSuchElement
      ensures r.Success? ==> r.value in services.Values
    {
      if |services| == 0 {
        return Failure(NoSuchElement);
      }
      var name :| name in services;
      return Success(services[name]);
    }

    /** find(name): the service registered under the name; nothing for an unknown or null name. */
    function Find(name: Option<string>): (r: Option<MyService>)
      reads this
      requires Valid()
      ensures r.Some? <==> name.Some? && name.value in services
      ensures r.Some? ==> r.value == services[name.value] && r.value.GetName() == name.value
    {
      if name.Some? && name.value in services then Some(services[name.value]) else None
    }

    /**
     * discover(service): registers the service under its name, replacing an earlier one of
     * that name and leaving the others; returns this registry. A null service throws.
     */
    method Discover(service: MyService?) returns (r: Result<MyDiscoveryService>)
      requires Valid()
      modifies this
      ensures Valid()
      ensures service == null ==> r == Failure(NullPointer) && services == old(services)
      ensures service != null ==> r == Success(this)
      ensures service != null ==> services == old(services)[service.GetName() := service]
      ensures service != null ==> Find(Some(service.GetName())) == Some(service)
      ensures service != null ==> forall name :: name != service.GetName() ==>
        Find(Some(name)) == old(Find(Some(name)))
    {
      if service == null {
        return Failure(NullPointer);
      }
      services := services[service.GetName() := service];
      return Success(this);
    }
  }
}
