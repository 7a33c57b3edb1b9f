/**
 * What one orchestrator operation does to an order and to the outbound
 * channel, as values: an event is submitted to a machine rebuilt from the
 * order's stored status; when the table accepts it, the attached action
 * sends its message (built from the order as it was before the commit) and
 * the new status is committed; a rejected event changes nothing and raises
 * no error.
 */
module Saga {
  import opened Wrappers
  import opened Domain
  import opened Actions
  import opened StateMachineConfig
  import opened AllocationMerge

  /** Submits `e` for `order`: the order afterwards and the messages its action sent. */
  function Fire(order: BeerOrderDto, e: Event): (BeerOrderDto, seq<Envelope>)
  {
    match Step(order.orderStatus, e)
    case None => (order, [])
    case Some((target, action)) =>
      (order.(orderStatus := target),
       match action
       case None => []
       case Some(a) => Emitted(a, order, order.id))
  }

  /** processValidationResult: VALIDATION_PASSED then ALLOCATE_ORDER on the re-read order, or VALIDATION_FAILED alone. */
  function ValidationOutcome(order: BeerOrderDto, isValid: bool): (BeerOrderDto, seq<Envelope>)
  {
    if isValid then
      var first := Fire(order, ValidationPassed);
      var second := Fire(first.0, AllocateOrder);
      (second.0, first.1 + second.1)
    else
      Fire(order, ValidationFailed)
  }

  /** An allocation reply: submit `e`, then merge the snapshot's allocated quantities whether or not `e` was accepted. */
  function MergingOutcome(order: BeerOrderDto, e: Event, snapshot: BeerOrderDto): (BeerOrderDto, seq<Envelope>)
  {
    var fired := Fire(order, e);
    (fired.0.(lines := MergeAllocated(fired.0.lines, snapshot.lines)), fired.1)
  }

  /** Submitting an event moves the status as the machine does and touches nothing else of the order. */
  lemma FireMovesStatusOnly(order: BeerOrderDto, e: Event)
    ensures Fire(order, e).0 == order.(orderStatus := Next(order.orderStatus, e))
    ensures |Fire(order, e).1| <= 1
  {
  }

  /** A rejected event is silent: the order is unchanged and nothing is sent. */
  lemma RejectedEventIsSilent(order: BeerOrderDto, e: Event)
    requires Step(order.orderStatus, e).None?
    ensures Fire(order, e) == (order, [])
  {
  }

  /** The statuses reached by submitting a sequence of events one at a time are those of Run. */
  function FireAll(order: BeerOrderDto, events: seq<Event>): BeerOrderDto
    decreases |events|
  {
    if events == [] then order else FireAll(Fire(order, events[0]).0, events[1..])
  }

  /** Every submission rehydrates from the status the previous one committed, so a chain of submissions follows Run. */
  lemma {:induction false} FireAllFollowsRun(order: BeerOrderDto, events: seq<Event>)
    ensures FireAll(order, events) == order.(orderStatus := Run(order.orderStatus, events))
    decreases |events|
  {
    if events != [] {
      FireMovesStatusOnly(order, events[0]);
      FireAllFollowsRun(Fire(order, events[0]).0, events[1..]);
    }
  }

  /** A new order in NEW moves to VALIDATION_PENDING and sends one validation request carrying the order as it was. */
  lemma NewOrderRequestsValidation(order: BeerOrderDto)
    requires order.orderStatus == New
    ensures Fire(order, ValidateOrder)
      == (order.(orderStatus := ValidationPending), [Envelope(ValidateOrderQueue, ValidateOrderRequest(order))])
  {
  }

  /** A passing validation of an order in NEW ends in ALLOCATION_PENDING with exactly one allocation request, built from the re-read VALIDATED order. */
  lemma PassedValidationFromNewRequestsAllocation(order: BeerOrderDto)
    requires order.orderStatus == New
    ensures ValidationOutcome(order, true)
      == (order.(orderStatus := AllocationPending),
          [Envelope(AllocateOrderQueue, AllocateOrderRequest(order.(orderStatus := Validated)))])
  {
    var validated := order.(orderStatus := Validated);
    assert Fire(order, ValidationPassed) == (validated, []);
    var request := [Envelope(AllocateOrderQueue, AllocateOrderRequest(validated))];
    assert Fire(validated, AllocateOrder) == (order.(orderStatus := AllocationPending), request);
    var none: seq<Envelope> := [];
    assert none + request == request;
  }

  /** A failing validation only submits VALIDATION_FAILED: from NEW the order ends in VALIDATION_EXCEPTION and nothing is sent. */
  lemma FailedValidationFromNew(order: BeerOrderDto)
    requires order.orderStatus == New
    ensures ValidationOutcome(order, false) == (order.(orderStatus := ValidationException), [])
  {
  }

  /** A failing validation never sends an allocation request, whatever the order's status. */
  lemma FailedValidationNeverAllocates(order: BeerOrderDto)
    ensures forall k | 0 <= k < |ValidationOutcome(order, false).1| ::
      ValidationOutcome(order, false).1[k].queue != AllocateOrderQueue
  {
    OnlyRequestTransitionsRunActions(order.orderStatus, ValidationFailed);
  }

  /**
   * A passing validation for an order already in VALIDATED: VALIDATION_PASSED
   * is rejected, yet the ALLOCATE_ORDER submitted after it still goes ahead
   * and sends one allocation request built from the order.
   */
  lemma RejectedPassStillAllocates(order: BeerOrderDto)
    requires order.orderStatus == Validated
    ensures ValidationOutcome(order, true)
      == (order.(orderStatus := AllocationPending),
          [Envelope(AllocateOrderQueue, AllocateOrderRequest(order))])
  {
    RejectedEventIsSilent(order, ValidationPassed);
    var request := [Envelope(AllocateOrderQueue, AllocateOrderRequest(order))];
    assert Fire(order, AllocateOrder) == (order.(orderStatus := AllocationPending), request);
    var none: seq<Envelope> := [];
    assert none + request == request;
  }

  /**
   * Under the configured table a validation result for an order in
   * VALIDATION_PENDING is rejected, and so is the ALLOCATE_ORDER that
   * follows a passing one: the order stays where it is and nothing is sent.
   */
  lemma ValidationResultRejectedWhilePending(order: BeerOrderDto, isValid: bool)
    requires order.orderStatus == ValidationPending
    ensures ValidationOutcome(order, isValid) == (order, [])
  {
    RejectedEventIsSilent(order, ValidationPassed);
    RejectedEventIsSilent(order, ValidationFailed);
    RejectedEventIsSilent(order, AllocateOrder);
    var none: seq<Envelope> := [];
    assert none + none == none;
  }

  /** A successful allocation of an order in ALLOCATION_PENDING sets ALLOCATED and merges the snapshot's quantities. */
  lemma AllocationPassedFromPending(order: BeerOrderDto, snapshot: BeerOrderDto)
    requires order.orderStatus == AllocationPending
    ensures MergingOutcome(order, AllocationSuccess, snapshot)
      == (order.(orderStatus := Allocated, lines := MergeAllocated(order.lines, snapshot.lines)), [])
  {
  }

  /** Pending inventory moves ALLOCATION_PENDING to PENDING_INVENTORY and merges the snapshot's quantities. */
  lemma AllocationPendingInventoryFromPending(order: BeerOrderDto, snapshot: BeerOrderDto)
    requires order.orderStatus == AllocationPending
    ensures MergingOutcome(order, AllocationNoInventory, snapshot)
      == (order.(orderStatus := PendingInventory, lines := MergeAllocated(order.lines, snapshot.lines)), [])
  {
  }

  /** A failed allocation moves ALLOCATION_PENDING to ALLOCATION_EXCEPTION, changes no line and sends nothing. */
  lemma AllocationFailedFromPending(order: BeerOrderDto)
    requires order.orderStatus == AllocationPending
    ensures Fire(order, AllocationFailed) == (order.(orderStatus := AllocationException), [])
  {
  }

  /** A rejected allocation reply still merges the quantities: only the status stays put. */
  lemma RejectedAllocationReplyStillMerges(order: BeerOrderDto, e: Event, snapshot: BeerOrderDto)
    requires e == AllocationSuccess || e == AllocationNoInventory
    requires order.orderStatus != AllocationPending
    ensures MergingOutcome(order, e, snapshot)
      == (order.(lines := MergeAllocated(order.lines, snapshot.lines)), [])
  {
  }

  /** A duplicate ALLOCATION_SUCCESS is not applied twice: the second one finds ALLOCATED and is rejected. */
  lemma DuplicateAllocationSuccessRejected(order: BeerOrderDto)
    requires order.orderStatus == AllocationPending
    ensures var once := Fire(order, AllocationSuccess).0;
      once.orderStatus == Allocated && Fire(once, AllocationSuccess) == (once, [])
  {
  }
}
