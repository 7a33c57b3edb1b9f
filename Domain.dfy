/**
 * The values the order saga works on: order statuses, the closed set of
 * lifecycle events, order lines, the order data-transfer object and the
 * messages exchanged with the validation and allocation collaborators.
 */
module Domain {
  import opened Wrappers

  /** Order and line identifiers. UUIDs are opaque; naturals keep them comparable and fresh ones easy to make. */
  type Uuid = nat

  /** The twelve order statuses referenced by the state machine configuration and the integration test. */
  datatype Status =
    | New
    | Validated
    | ValidationPending
    | ValidationException
    | AllocationPending
    | Allocated
    | AllocationException
    | PendingInventory
    | PickedUp
    | Delivered
    | DeliveryException
    | Cancelled

  /**
   * The lifecycle events. There is no allocation event of its own (allocation
   * is requested by ALLOCATE_ORDER after VALIDATION_PASSED) and no cancel event.
   */
  datatype Event =
    | ValidateOrder
    | ValidationPassed
    | ValidationFailed
    | AllocateOrder
    | AllocationSuccess
    | AllocationNoInventory
    | AllocationFailed
    | BeerOrderPickedUp

  /** The event constants in declaration order. */
  const AllEvents: seq<Event> := [
    ValidateOrder, ValidationPassed, ValidationFailed,
    AllocateOrder, AllocationSuccess, AllocationNoInventory, AllocationFailed,
    BeerOrderPickedUp
  ]

  /** The event type is a closed set of exactly eight distinct constants. */
  lemma EventsAreClosed(e: Event)
    ensures |AllEvents| == 8
    ensures forall i, j | 0 <= i < j < |AllEvents| :: AllEvents[i] != AllEvents[j]
    ensures e in AllEvents
  {
  }

  /** One order line; the entity and its DTO carry the same fields here. */
  datatype OrderLine = OrderLine(
    id: Uuid,
    beerId: Uuid,
    upc: string,
    orderQuantity: int,
    quantityAllocated: int)

  /** A snapshot of an order as it travels in messages. `customerRef` is the free-form routing token (nullable). */
  datatype BeerOrderDto = BeerOrderDto(
    id: Uuid,
    customerRef: Option<string>,
    orderStatus: Status,
    lines: seq<OrderLine>)

  /** The reply of the validation collaborator. */
  datatype ValidateOrderResult = ValidateOrderResult(orderId: Uuid, isValid: bool)

  /** The reply of the allocation collaborator. */
  datatype AllocateOrderResult = AllocateOrderResult(
    beerOrderDto: BeerOrderDto,
    pendingInventory: bool,
    allocationError: bool)

  /** The outbound queues the saga's actions write to. */
  datatype Queue = ValidateOrderQueue | AllocateOrderQueue | AllocateFailureQueue

  /** Outbound message payloads. */
  datatype Payload =
    | ValidateOrderRequest(beerOrder: BeerOrderDto)
    | AllocateOrderRequest(beerOrderDto: BeerOrderDto)
    | AllocationFailureEvent(orderId: Uuid)

  /** A payload together with the queue it was sent to. */
  datatype Envelope = Envelope(queue: Queue, payload: Payload)
}
