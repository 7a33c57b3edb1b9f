/**
 * The transition actions and the outbound message channel they write to.
 * Each action reads the order id from the event's header and sends at most
 * one message; none of them touches an order.
 */
module Actions {
  import opened Domain

  /** The action beans that can be attached to a transition. */
  datatype ActionName =
    | ValidateOrderAction
    | AllocateOrderAction
    | AllocationFailureAction
    | ValidationFailureAction

  /** The message broker as seen by the saga: the messages sent so far, in order. */
  class JmsTemplate {
    var sent: seq<Envelope>

    constructor ()
      ensures sent == []
    {
      sent := [];
    }

    /** Sends one payload to one queue. */
    method ConvertAndSend(queue: Queue, payload: Payload)
      modifies this
      ensures sent == old(sent) + [Envelope(queue, payload)]
    {
      sent := sent + [Envelope(queue, payload)];
    }
  }

  /**
   * What action `a` sends when it runs for the order `snapshot` whose id was
   * put in the event header as `orderIdHeader`.
   */
  function Emitted(a: ActionName, snapshot: BeerOrderDto, orderIdHeader: Uuid): (r: seq<Envelope>)
    ensures |r| <= 1
    ensures a == ValidationFailureAction <==> r == []
  {
    match a
    case ValidateOrderAction => [Envelope(ValidateOrderQueue, ValidateOrderRequest(snapshot))]
    case AllocateOrderAction => [Envelope(AllocateOrderQueue, AllocateOrderRequest(snapshot))]
    case AllocationFailureAction => [Envelope(AllocateFailureQueue, AllocationFailureEvent(orderIdHeader))]
    case ValidationFailureAction => []
  }

  /**
   * The allocation-failure action sends exactly one failure event, to the
   * allocate-failure queue only, keyed by the id from the header and
   * independent of the order's data.
   */
  lemma AllocationFailureEmitsOneEvent(snapshot: BeerOrderDto, orderIdHeader: Uuid)
    ensures var r := Emitted(AllocationFailureAction, snapshot, orderIdHeader);
      && |r| == 1
      && r[0].queue == AllocateFailureQueue
      && r[0].payload == AllocationFailureEvent(orderIdHeader)
      && forall other: BeerOrderDto :: Emitted(AllocationFailureAction, other, orderIdHeader) == r
  {
  }

  /** The validate and allocate actions each send one request carrying the order snapshot. */
  lemma RequestActionsCarrySnapshot(snapshot: BeerOrderDto, orderIdHeader: Uuid)
    ensures Emitted(ValidateOrderAction, snapshot, orderIdHeader)
      == [Envelope(ValidateOrderQueue, ValidateOrderRequest(snapshot))]
    ensures Emitted(AllocateOrderAction, snapshot, orderIdHeader)
      == [Envelope(AllocateOrderQueue, AllocateOrderRequest(snapshot))]
  {
  }

  /** Sends the validation request for the order (the bean itself is not part of this model; see README). */
  method ExecuteValidateOrder(jms: JmsTemplate, snapshot: BeerOrderDto)
    modifies jms
    ensures jms.sent == old(jms.sent) + Emitted(ValidateOrderAction, snapshot, snapshot.id)
  {
    jms.ConvertAndSend(ValidateOrderQueue, ValidateOrderRequest(snapshot));
  }

  /** Sends the allocation request for the order (the bean itself is not part of this model; see README). */
  method ExecuteAllocateOrder(jms: JmsTemplate, snapshot: BeerOrderDto)
    modifies jms
    ensures jms.sent == old(jms.sent) + Emitted(AllocateOrderAction, snapshot, snapshot.id)
  {
    jms.ConvertAndSend(AllocateOrderQueue, AllocateOrderRequest(snapshot));
  }

  /** Sends one allocation-failure event keyed by the order id taken from the header. */
  method ExecuteAllocationFailure(jms: JmsTemplate, orderIdHeader: Uuid)
    modifies jms
    ensures jms.sent == old(jms.sent) + [Envelope(AllocateFailureQueue, AllocationFailureEvent(orderIdHeader))]
  {
    jms.ConvertAndSend(AllocateFailureQueue, AllocationFailureEvent(orderIdHeader));
  }

  /** The validation-failure compensation only logs: it sends nothing. */
  method ExecuteValidationFailure(jms: JmsTemplate, orderIdHeader: Uuid)
  {
  }

  /** Runs the action bean named `a`. */
  method Execute(jms: JmsTemplate, a: ActionName, snapshot: BeerOrderDto, orderIdHeader: Uuid)
    requires orderIdHeader == snapshot.id
    modifies jms
    ensures jms.sent == old(jms.sent) + Emitted(a, snapshot, orderIdHeader)
  {
    match a
    case ValidateOrderAction => ExecuteValidateOrder(jms, snapshot);
    case AllocateOrderAction => ExecuteAllocateOrder(jms, snapshot);
    case AllocationFailureAction => ExecuteAllocationFailure(jms, orderIdHeader);
    case ValidationFailureAction => ExecuteValidationFailure(jms, orderIdHeader);
  }
}
