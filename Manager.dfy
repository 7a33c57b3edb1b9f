/**
 * The order manager: the persistent order entity, the order repository
 * (an identity map from id to entity object, so two lookups of one id
 * return the same object) and the orchestrator operations that rebuild a
 * machine from the stored status, submit one event, and update line
 * allocations in place.
 */
module Manager {
  import opened Wrappers
  import opened Domain
  import opened Actions
  import opened StateMachineConfig
  import opened AllocationMerge
  import opened Saga

  /** The persistent order entity; the manager updates its status and lines in place. */
  class BeerOrder {
    var id: Uuid
    var customerRef: Option<string>
    var orderStatus: Status
    var lines: seq<OrderLine>

    constructor (id: Uuid, customerRef: Option<string>, orderStatus: Status, lines: seq<OrderLine>)
      ensures this.id == id && this.customerRef == customerRef
      ensures this.orderStatus == orderStatus && this.lines == lines
    {
      this.id := id;
      this.customerRef := customerRef;
      this.orderStatus := orderStatus;
      this.lines := lines;
    }

    /** The order's current data as a value. */
    function ToDto(): BeerOrderDto
      reads this
    {
      BeerOrderDto(id, customerRef, orderStatus, lines)
    }
  }

  class BeerOrderManagerImpl {
    /** The order repository: each stored id maps to its one managed entity object. */
    var store: map<Uuid, BeerOrder>
    /** The next id the repository hands out when a new order is saved. */
    var nextId: Uuid
    /** The outbound message channel the actions send to. */
    const jms: JmsTemplate

    /** Every stored entity carries its own key, and every key was handed out already. */
    ghost predicate Valid()
      reads this, store.Values
    {
      forall i | i in store :: store[i].id == i && i < nextId
    }

    constructor ()
      ensures Valid() && store == map[] && nextId == 0 && fresh(jms) && jms.sent == []
    {
      store := map[];
      nextId := 0;
      jms := new JmsTemplate();
    }

    /** The entity the repository manages under `id`, as a one-element frame (empty when there is none). */
    function Managed(id: Uuid): set<BeerOrder>
      reads this
    {
      if id in store then {store[id]} else {}
    }

    /** Repository lookup by id (getOne / findOneById): the same managed object every time, or None. */
    function FindOneById(id: Uuid): (r: Option<BeerOrder>)
      reads this
      ensures r.Some? <==> id in store
      ensures r.Some? ==> r.value == store[id]
    {
      if id in store then Some(store[id]) else None
    }

    /**
     * Rebuilds a machine at the order's stored status, submits `e`, and on
     * acceptance runs the attached action and commits the target status to
     * the stored order. Whether the event was accepted is not reported.
     */
    method SendBeerOrderEvent(beerOrder: BeerOrder, e: Event)
      requires Valid() && beerOrder.id in store && store[beerOrder.id] == beerOrder
      modifies jms, beerOrder
      ensures Valid()
      ensures beerOrder.ToDto() == Fire(old(beerOrder.ToDto()), e).0
      ensures jms.sent == old(jms.sent) + Fire(old(beerOrder.ToDto()), e).1
    {
      // the machine is reset to the status read from the order, never to a cached state
      var machineState := beerOrder.orderStatus;
      match Step(machineState, e)
      case None =>
      case Some((target, action)) =>
        var snapshot := beerOrder.ToDto();
        if action.Some? {
          Execute(jms, action.value, snapshot, beerOrder.id);
        }
        // the state-change interceptor looks the order up by the header id and commits the target
        var stored := store[beerOrder.id];
        stored.orderStatus := target;
    }

    /** Saves `beerOrder` under a fresh id with status NEW, then submits VALIDATE_ORDER. */
    method NewBeerOrder(beerOrder: BeerOrder) returns (saved: BeerOrder)
      requires Valid() && beerOrder !in store.Values
      modifies this, beerOrder, jms
      ensures Valid() && saved == beerOrder
      ensures saved.id == old(nextId) && saved.id !in old(store)
      ensures store == old(store)[saved.id := saved]
      ensures saved.customerRef == old(beerOrder.customerRef) && saved.lines == old(beerOrder.lines)
      ensures saved.orderStatus == ValidationPending
      ensures jms.sent == old(jms.sent)
        + [Envelope(ValidateOrderQueue, ValidateOrderRequest(BeerOrderDto(saved.id, saved.customerRef, New, saved.lines)))]
    {
      beerOrder.orderStatus := Initial;
      // saving a new entity assigns it the next id and makes it the managed object for that id
      beerOrder.id := nextId;
      store := store[nextId := beerOrder];
      nextId := nextId + 1;
      saved := beerOrder;
      NewOrderRequestsValidation(saved.ToDto());
      SendBeerOrderEvent(saved, ValidateOrder);
    }

    /**
     * Submits VALIDATION_PASSED and then ALLOCATE_ORDER to the re-read order,
     * or VALIDATION_FAILED alone. An unknown id fails before anything changes.
     */
    method ProcessValidationResult(beerOrderId: Uuid, isValid: bool) returns (found: bool)
      requires Valid()
      modifies jms, Managed(beerOrderId)
      ensures Valid() && store == old(store)
      ensures found <==> beerOrderId in store
      ensures !found ==> jms.sent == old(jms.sent)
      ensures found ==>
        var outcome := ValidationOutcome(old(store[beerOrderId].ToDto()), isValid);
        store[beerOrderId].ToDto() == outcome.0 && jms.sent == old(jms.sent) + outcome.1
    {
      var lookup := FindOneById(beerOrderId);
      if lookup.None? {
        return false;
      }
      var beerOrder := lookup.value;
      if isValid {
        PassValidationThenAllocate(beerOrder);
      } else {
        SendBeerOrderEvent(beerOrder, ValidationFailed);
      }
      found := true;
    }

    /** The passing branch of ProcessValidationResult: VALIDATION_PASSED, a fresh read of the order, then ALLOCATE_ORDER. */
    method PassValidationThenAllocate(beerOrder: BeerOrder)
      requires Valid() && beerOrder.id in store && store[beerOrder.id] == beerOrder
      modifies jms, beerOrder
      ensures Valid()
      ensures var outcome := ValidationOutcome(old(beerOrder.ToDto()), true);
        beerOrder.ToDto() == outcome.0 && jms.sent == old(jms.sent) + outcome.1
    {
      ghost var first := Fire(beerOrder.ToDto(), ValidationPassed);
      SendBeerOrderEvent(beerOrder, ValidationPassed);
      // the order is read again; the identity map hands back the same, already updated object
      var validatedOrder := FindOneById(beerOrder.id).value;
      ghost var second := Fire(validatedOrder.ToDto(), AllocateOrder);
      SendBeerOrderEvent(validatedOrder, AllocateOrder);
      assert jms.sent == old(jms.sent) + first.1 + second.1;
      assert jms.sent == old(jms.sent) + (first.1 + second.1);
    }

    /** Submits ALLOCATION_SUCCESS, then merges the reply's allocated quantities. */
    method BeerOrderAllocationPassed(beerOrderDto: BeerOrderDto) returns (found: bool)
      requires Valid()
      modifies this, jms, Managed(beerOrderDto.id)
      ensures Valid() && store == old(store) && nextId == old(nextId)
      ensures found <==> beerOrderDto.id in store
      ensures !found ==> jms.sent == old(jms.sent)
      ensures found ==>
        var outcome := MergingOutcome(old(store[beerOrderDto.id].ToDto()), AllocationSuccess, beerOrderDto);
        store[beerOrderDto.id].ToDto() == outcome.0 && jms.sent == old(jms.sent) + outcome.1
    {
      found := AllocationReply(beerOrderDto, AllocationSuccess);
    }

    /** Submits ALLOCATION_NO_INVENTORY, then merges the reply's allocated quantities. */
    method BeerOrderAllocationPendingInventory(beerOrderDto: BeerOrderDto) returns (found: bool)
      requires Valid()
      modifies this, jms, Managed(beerOrderDto.id)
      ensures Valid() && store == old(store) && nextId == old(nextId)
      ensures found <==> beerOrderDto.id in store
      ensures !found ==> jms.sent == old(jms.sent)
      ensures found ==>
        var outcome := MergingOutcome(old(store[beerOrderDto.id].ToDto()), AllocationNoInventory, beerOrderDto);
        store[beerOrderDto.id].ToDto() == outcome.0 && jms.sent == old(jms.sent) + outcome.1
    {
      found := AllocationReply(beerOrderDto, AllocationNoInventory);
    }

    /** The shared body of the two merging allocation replies. */
    method AllocationReply(beerOrderDto: BeerOrderDto, e: Event) returns (found: bool)
      requires Valid()
      modifies this, jms, Managed(beerOrderDto.id)
      ensures Valid() && store == old(store) && nextId == old(nextId)
      ensures found <==> beerOrderDto.id in store
      ensures !found ==> jms.sent == old(jms.sent)
      ensures found ==>
        var outcome := MergingOutcome(old(store[beerOrderDto.id].ToDto()), e, beerOrderDto);
        store[beerOrderDto.id].ToDto() == outcome.0 && jms.sent == old(jms.sent) + outcome.1
    {
      var lookup := FindOneById(beerOrderDto.id);
      if lookup.None? {
        return false;
      }
      var beerOrder := lookup.value;
      SendBeerOrderEvent(beerOrder, e);
      UpdateAllocatedQty(beerOrderDto, beerOrder);
      found := true;
    }

    /** Submits ALLOCATION_FAILED; no line changes. */
    method BeerOrderAllocationFailed(beerOrderDto: BeerOrderDto) returns (found: bool)
      requires Valid()
      modifies jms, Managed(beerOrderDto.id)
      ensures Valid() && store == old(store)
      ensures found <==> beerOrderDto.id in store
      ensures !found ==> jms.sent == old(jms.sent)
      ensures found ==>
        var outcome := Fire(old(store[beerOrderDto.id].ToDto()), AllocationFailed);
        store[beerOrderDto.id].ToDto() == outcome.0 && jms.sent == old(jms.sent) + outcome.1
    {
      var lookup := FindOneById(beerOrderDto.id);
      if lookup.None? {
        return false;
      }
      SendBeerOrderEvent(lookup.value, AllocationFailed);
      found := true;
    }

    /**
     * Sets each stored line's allocated quantity from every snapshot line
     * with the same id, comparing every stored line with every snapshot line,
     * then saves the order.
     */
    method UpdateAllocatedQty(beerOrderDto: BeerOrderDto, beerOrder: BeerOrder)
      requires Valid() && beerOrderDto.id in store && store[beerOrderDto.id] == beerOrder
      modifies this, beerOrder
      ensures Valid() && store == old(store) && nextId == old(nextId)
      ensures beerOrder.ToDto() == old(beerOrder.ToDto()).(lines := MergeAllocated(old(beerOrder.lines), beerOrderDto.lines))
    {
      var allocatedOrder := FindOneById(beerOrderDto.id).value;
      var snapshot := beerOrderDto.lines;
      var lines := allocatedOrder.lines;
      var i := 0;
      while i < |lines|
        invariant 0 <= i <= |lines| == |old(beerOrder.lines)|
        invariant forall k | 0 <= k < i :: lines[k] == ApplySnapshot(old(beerOrder.lines)[k], snapshot)
        invariant forall k | i <= k < |lines| :: lines[k] == old(beerOrder.lines)[k]
      {
        var line := lines[i];
        var j := 0;
        while j < |snapshot|
          invariant 0 <= j <= |snapshot|
          invariant line == ApplySnapshot(lines[i], snapshot[..j])
        {
          assert snapshot[..j + 1][..j] == snapshot[..j];
          if line.id == snapshot[j].id {
            line := line.(quantityAllocated := snapshot[j].quantityAllocated);
          }
          j := j + 1;
        }
        assert snapshot[..|snapshot|] == snapshot;
        lines := lines[i := line];
        i := i + 1;
      }
      allocatedOrder.lines := lines;
      // saveAndFlush: the managed object is already the stored one
      store := store[beerOrder.id := beerOrder];
    }
  }
}
