/**
 * The collaborator stand-ins the integration tests run against. Each one
 * decides its reply from the order's routing token (`customerRef`) alone.
 */
module TestListeners {
  import opened Wrappers
  import opened Domain

  const FailValidation: string := "fail-validation"
  const DontValidate: string := "dont-validate"
  const FailAllocation: string := "fail-allocation"
  const PartialAllocation: string := "partial-allocation"
  const DontAllocate: string := "dont-allocate"

  /** The validation stand-in: the reply it sends for a validation request, or None when it sends none. */
  function ValidationListener(request: BeerOrderDto): (reply: Option<ValidateOrderResult>)
    ensures reply.None? <==> request.customerRef == Some(DontValidate)
    ensures reply.Some? ==> reply.value.orderId == request.id
    ensures reply.Some? ==> (reply.value.isValid <==> request.customerRef != Some(FailValidation))
  {
    var flags :=
      (match request.customerRef
      case None => (true, true)
      case Some(ref) =>
        if ref == FailValidation then (false, true)
        else if ref == DontValidate then (true, false)
        else (true, true));
    var isValid, sendResponse := flags.0, flags.1;
    if sendResponse then Some(ValidateOrderResult(request.id, isValid)) else None
  }

  /** Every line allocated in full, or one short of its order quantity when inventory is pending. */
  function FillAllocated(lines: seq<OrderLine>, pendingInventory: bool): seq<OrderLine>
  {
    seq(|lines|, i requires 0 <= i < |lines| =>
      lines[i].(quantityAllocated := if pendingInventory then lines[i].orderQuantity - 1 else lines[i].orderQuantity))
  }

  /** The allocation stand-in: the reply it sends for an allocation request, or None when it sends none. */
  function AllocationListener(request: BeerOrderDto): (reply: Option<AllocateOrderResult>)
    ensures reply.None? <==> request.customerRef == Some(DontAllocate)
    ensures reply.Some? ==> (reply.value.allocationError <==> request.customerRef == Some(FailAllocation))
    ensures reply.Some? ==> (reply.value.pendingInventory <==> request.customerRef == Some(PartialAllocation))
    ensures reply.Some? ==> !(reply.value.allocationError && reply.value.pendingInventory)
    ensures reply.Some? ==>
      var dto := reply.value.beerOrderDto;
      && dto == request.(lines := dto.lines)
      && |dto.lines| == |request.lines|
      && forall i | 0 <= i < |dto.lines| ::
           dto.lines[i] == request.lines[i].(quantityAllocated :=
             if reply.value.pendingInventory then request.lines[i].orderQuantity - 1
             else request.lines[i].orderQuantity)
  {
    var flags :=
      (match request.customerRef
      case None => (false, false, true)
      case Some(ref) =>
        if ref == FailAllocation then (false, true, true)
        else if ref == PartialAllocation then (true, false, true)
        else if ref == DontAllocate then (false, false, false)
        else (false, false, true));
    var pendingInventory, allocationError, sendResponse := flags.0, flags.1, flags.2;
    var filled := request.(lines := FillAllocated(request.lines, pendingInventory));
    if sendResponse then Some(AllocateOrderResult(filled, pendingInventory, allocationError)) else None
  }
}
