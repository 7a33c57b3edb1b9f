/**
 * The integration-test flows, run against the model: an order is placed,
 * the validation stand-in answers the request the saga sent, and the
 * answer is fed back to the manager. Under the configured table every flow
 * stops in VALIDATION_PENDING, because the validation outcomes are only
 * accepted from NEW; the flows the tests expect are recovered only for an
 * order whose validation result arrives while it is still NEW.
 */
module Scenarios {
  import opened Wrappers
  import opened Domain
  import opened StateMachineConfig
  import opened AllocationMerge
  import opened Saga
  import opened Manager
  import opened TestListeners

  /** The one line the integration tests order: one unit of product "12345". */
  const TestLine: OrderLine := OrderLine(0, 1, "12345", 1, 0)

  /**
   * Places an order with routing token `customerRef` and delivers the
   * validation stand-in's reply, if it sends one. Whatever the token, the
   * order ends in VALIDATION_PENDING and the only message ever sent is the
   * validation request: no allocation request and no failure event.
   */
  method PlaceOrderAndValidate(customerRef: Option<string>) returns (status: Status, replied: bool, sent: seq<Envelope>)
    ensures replied <==> customerRef != Some(DontValidate)
    ensures status == ValidationPending
    ensures sent == [Envelope(ValidateOrderQueue, ValidateOrderRequest(BeerOrderDto(0, customerRef, New, [TestLine])))]
  {
    var manager := new BeerOrderManagerImpl();
    var order := new BeerOrder(0, customerRef, New, [TestLine]);
    var saved := manager.NewBeerOrder(order);
    assert manager.jms.sent == [Envelope(ValidateOrderQueue, ValidateOrderRequest(BeerOrderDto(0, customerRef, New, [TestLine])))];
    var request := manager.jms.sent[0].payload.beerOrder;
    var reply := ValidationListener(request);
    replied := reply.Some?;
    if reply.Some? {
      assert reply.value.orderId == saved.id && manager.store[saved.id] == saved;
      ValidationResultRejectedWhilePending(saved.ToDto(), reply.value.isValid);
      ghost var sentBefore := manager.jms.sent;
      var _ := manager.ProcessValidationResult(reply.value.orderId, reply.value.isValid);
      assert manager.jms.sent == sentBefore + [];
    }
    // no allocation request was sent, so the allocation stand-in is never asked
    status := saved.orderStatus;
    sent := manager.jms.sent;
  }

  /** Whether the ids of `lines` are pairwise distinct. */
  ghost predicate DistinctLineIds(lines: seq<OrderLine>)
  {
    forall i, j | 0 <= i < j < |lines| :: lines[i].id != lines[j].id
  }

  /**
   * For an order still in NEW with no routing token, a passing validation
   * sends one allocation request, the allocation stand-in answers with no
   * flags set, and delivering that answer as a success leaves the order
   * ALLOCATED with every line allocated in full.
   */
  lemma HappyPathFromNew(order: BeerOrderDto)
    requires order.orderStatus == New && order.customerRef == None
    requires DistinctLineIds(order.lines)
    ensures ValidationListener(order) == Some(ValidateOrderResult(order.id, true))
    ensures var validation := ValidationOutcome(order, true);
      && |validation.1| == 1
      && var reply := AllocationListener(validation.1[0].payload.beerOrderDto);
      && reply.Some? && !reply.value.allocationError && !reply.value.pendingInventory
      && var done := MergingOutcome(validation.0, AllocationSuccess, reply.value.beerOrderDto).0;
      && done.orderStatus == Allocated
      && |done.lines| == |order.lines|
      && forall i | 0 <= i < |done.lines| ::
           done.lines[i] == order.lines[i].(quantityAllocated := order.lines[i].orderQuantity)
  {
    PassedValidationFromNewRequestsAllocation(order);
    var validation := ValidationOutcome(order, true);
    var request := validation.1[0].payload.beerOrderDto;
    assert request == order.(orderStatus := Validated);
    var reply := AllocationListener(request);
    AllocationPassedFromPending(validation.0, reply.value.beerOrderDto);
    var snapshot := reply.value.beerOrderDto.lines;
    forall i | 0 <= i < |order.lines|
      ensures MergeAllocated(order.lines, snapshot)[i]
        == order.lines[i].(quantityAllocated := order.lines[i].orderQuantity)
    {
      MergeTakesMatchedQuantity(order.lines, snapshot, i, i);
    }
  }

  /**
   * For an order still in NEW routed "partial-allocation", the same flow
   * ends in PENDING_INVENTORY with every line allocated one short.
   */
  lemma PartialAllocationFromNew(order: BeerOrderDto)
    requires order.orderStatus == New && order.customerRef == Some(PartialAllocation)
    requires DistinctLineIds(order.lines)
    ensures var validation := ValidationOutcome(order, true);
      && |validation.1| == 1
      && var reply := AllocationListener(validation.1[0].payload.beerOrderDto);
      && reply.Some? && !reply.value.allocationError && reply.value.pendingInventory
      && var done := MergingOutcome(validation.0, AllocationNoInventory, reply.value.beerOrderDto).0;
      && done.orderStatus == PendingInventory
      && |done.lines| == |order.lines|
      && forall i | 0 <= i < |done.lines| ::
           done.lines[i] == order.lines[i].(quantityAllocated := order.lines[i].orderQuantity - 1)
  {
    PassedValidationFromNewRequestsAllocation(order);
    var validation := ValidationOutcome(order, true);
    var request := validation.1[0].payload.beerOrderDto;
    assert request == order.(orderStatus := Validated);
    var reply := AllocationListener(request);
    AllocationPendingInventoryFromPending(validation.0, reply.value.beerOrderDto);
    var snapshot := reply.value.beerOrderDto.lines;
    forall i | 0 <= i < |order.lines|
      ensures MergeAllocated(order.lines, snapshot)[i]
        == order.lines[i].(quantityAllocated := order.lines[i].orderQuantity - 1)
    {
      MergeTakesMatchedQuantity(order.lines, snapshot, i, i);
    }
  }
}
