# Beer-order saga: a Dafny model

This project models the order-processing core of the beer-order service.
A `BeerOrder` moves through a life cycle of `BeerOrderStatusEnum` statuses.
`BeerOrderEventEnum` events drive it through a Spring state machine.
`BeerOrderManagerImpl` rebuilds that machine from the stored status every time it fires an event.
The actions attached to transitions send JMS messages to the validation and allocation services.
Replies from those services come back into the manager.
The allocation reply also copies the allocated quantities onto the stored order lines.

The modules:

- `Domain`: the statuses, the events, order lines, the order DTO and the JMS message payloads.
- `StateMachineConfig`: the transition table exactly as configured.
  - `Step` is one lookup in that table.
  - `Next` and `Run` give the status after one event or after a sequence of events.
  - The lemmas cover determinism, end states, reachability and which transitions run actions.
- `Actions`: the JMS template as an outbox (`sent`) and the effect of each action.
  - `AllocationFailureAction` sends one `AllocationFailureEvent` carrying the order-id header.
  - `ValidationFailureAction` only logs, so it sends nothing.
- `AllocationMerge`: the nested loop of `updateAllocatedQty` as a function. The last snapshot line with a matching id wins.
- `Saga`: one fired event as a value, `Fire`, plus the compound flows of the manager's entry points on values.
- `Manager`: `BeerOrderManagerImpl` as a class.
  - The repository is a map from id to entity object (an identity map).
  - `getOne` returns the same object that the caller then mutates.
  - The state-change interceptor's commit writes the new status into that object.
  - Every entry point is proved against the functions in `Saga`.
- `TestListeners`: the validation and allocation test listeners. Each is a function from the request to an optional reply; `None` means no reply is sent.
- `CustomerPaging`: the page-number and page-size defaults of `CustomerController.listCustomers`.
- `Scenarios`: the integration-test flows composed from the pieces above.

Design decisions in the model:

- The transition table is modelled as written in `BeerOrderStateMachineConfig`.
  - `VALIDATION_PASSED` and `VALIDATION_FAILED` leave from `NEW`, not from `VALIDATION_PENDING`.
  - No transition carries `AllocationFailureAction` or `ValidationFailureAction`.
  - There is no cancel event.
  - Consequence: `newBeerOrder` moves the order to `VALIDATION_PENDING`. The validation reply is then rejected in that state, so every order stays in `VALIDATION_PENDING`.
  - The integration tests expect `ALLOCATED`, `VALIDATION_EXCEPTION`, `ALLOCATION_EXCEPTION` or `PENDING_INVENTORY` (BeerOrderManagerImplIT.java:99-103, 134-138, 185-189, 214-218).
  - The tests also cancel orders and pick them up. The event enum declares `BEERORDER_PICKED_UP`, but no transition accepts it, and the manager interface has no pick-up operation. There is no cancel event and no cancel operation at all.
  - The allocation-failure test (BeerOrderManagerImplIT.java:194-198) expects an `AllocationFailureEvent` on the allocate-failure queue. The configuration injects only the validate and allocate actions (BeerOrderStateMachineConfig.java:25-26). So no transition ever sends that event, not even `ALLOCATION_FAILED` from `ALLOCATION_PENDING`. `StateMachineConfig.OnlyRequestTransitionsRunActions` proves this.
  - The model follows the configuration. `Saga.ValidationResultRejectedWhilePending` and `Scenarios.PlaceOrderAndValidate` prove the stall.
  - `Scenarios.HappyPathFromNew` and `Scenarios.PartialAllocationFromNew` start from a hypothetical order still in `NEW` when its validation reply arrives. The program never takes that path: `newBeerOrder` always leaves the order in `VALIDATION_PENDING`, and no transition leads back to `NEW` (`StateMachineConfig.NoTransitionTargetsNew`). These two lemmas only show where the listener-and-merge chain would end from such a start.
- A rejected event leaves the status unchanged and runs no action. The state machine's `sendEvent` result is ignored by the manager.
- An action runs before the interceptor commits the new status, so the snapshot an action sends carries the source status. For example, the validation request carries a `NEW` order.
- `getOne` of an id that is not stored is modelled as an entry point returning `found == false` and changing nothing. Java would throw `EntityNotFoundException` when the proxy is first used.
- The id that `save` generates is modelled as a counter, `nextId`, which never repeats.

## Model

| member | source | states |
|---|---|---|
| Domain.EventsAreClosed | src/main/java/guru/sfg/beer/order/service/domain/BeerOrderEventEnum.java:7-12 | There are exactly eight distinct events and every event is one of them |
| StateMachineConfig.TableIsDeterministic | src/main/java/guru/sfg/beer/order/service/sm/BeerOrderStateMachineConfig.java:45-72 | The table has seven transitions and no two share a (source, event) pair |
| StateMachineConfig.StepIsTableEntry | src/main/java/guru/sfg/beer/order/service/sm/BeerOrderStateMachineConfig.java:45-72 | A step from s on e reaches target t with action a if and only if (s, e, t, a) is a configured transition |
| StateMachineConfig.StepRejectsOutsideTable | src/main/java/guru/sfg/beer/order/service/sm/BeerOrderStateMachineConfig.java:45-72 | An event is rejected in a state if and only if no configured transition has that source and event |
| StateMachineConfig.OnlyThreeStatesAcceptEvents | src/main/java/guru/sfg/beer/order/service/sm/BeerOrderStateMachineConfig.java:45-72 | Only NEW, VALIDATED and ALLOCATION_PENDING accept any event |
| StateMachineConfig.EndStatesAcceptNothing | src/main/java/guru/sfg/beer/order/service/sm/BeerOrderStateMachineConfig.java:33-37 | Each of the five end states rejects every event |
| StateMachineConfig.WaitingStatesAcceptNothing | src/main/java/guru/sfg/beer/order/service/sm/BeerOrderStateMachineConfig.java:45-72 | VALIDATION_PENDING, ALLOCATED and PENDING_INVENTORY are not end states, yet they reject every event |
| StateMachineConfig.PickedUpEventAlwaysRejected | src/main/java/guru/sfg/beer/order/service/domain/BeerOrderEventEnum.java:11 | BEERORDER_PICKED_UP is declared but no state accepts it, so it never changes a status |
| StateMachineConfig.OnlyRequestTransitionsRunActions | src/main/java/guru/sfg/beer/order/service/sm/BeerOrderStateMachineConfig.java:45-63 | Only NEW on VALIDATE_ORDER runs the validate action, only VALIDATED on ALLOCATE_ORDER runs the allocate action, and no transition runs the allocation-failure action |
| StateMachineConfig.NoTransitionTargetsNew | src/main/java/guru/sfg/beer/order/service/sm/BeerOrderStateMachineConfig.java:45-72 | No accepted event leads back to NEW |
| StateMachineConfig.NextStaysReachable | src/main/java/guru/sfg/beer/order/service/sm/BeerOrderStateMachineConfig.java:45-72 | One event from a state reachable from NEW stays among the eight reachable states |
| StateMachineConfig.RunStaysReachable | src/main/java/guru/sfg/beer/order/service/sm/BeerOrderStateMachineConfig.java:31-72 | Any event sequence from a reachable state stays among the reachable states |
| StateMachineConfig.ReachableFromNewExactly | src/main/java/guru/sfg/beer/order/service/sm/BeerOrderStateMachineConfig.java:31-72 | A status is reached by some event sequence from the initial NEW if and only if it is one of eight named states; PICKED_UP, DELIVERED, DELIVERY_EXCEPTION and CANCELLED are unreachable |
| Actions.JmsTemplate.ConvertAndSend | src/main/java/guru/sfg/beer/order/service/sm/actions/AllocationFailureAction.java:38-41 | Sending appends exactly one message, with its queue and payload, to the outbox |
| Actions.Emitted | src/main/java/guru/sfg/beer/order/service/sm/actions/ValidationFailureAction.java:19-25 | An action emits at most one message, and it emits none exactly when it is the validation-failure action |
| Actions.AllocationFailureEmitsOneEvent | src/main/java/guru/sfg/beer/order/service/sm/actions/AllocationFailureAction.java:32-43 | The allocation-failure action sends exactly one AllocationFailureEvent, on the allocate-failure queue, carrying the order-id header, whatever the order snapshot |
| Actions.RequestActionsCarrySnapshot | src/main/java/guru/sfg/brewery/model/events/ValidateOrderRequest.java:17-20 | The validate and allocate actions send the order snapshot as their request, each on its own queue |
| Actions.ExecuteAllocationFailure | src/main/java/guru/sfg/beer/order/service/sm/actions/AllocationFailureAction.java:32-43 | Executing the action appends the allocation-failure event for the header id to the outbox and nothing else |
| Actions.ExecuteValidateOrder | src/main/java/guru/sfg/beer/order/service/sm/BeerOrderStateMachineConfig.java:47-50 | Executing the validate action appends the validation request for the snapshot |
| Actions.ExecuteAllocateOrder | src/main/java/guru/sfg/beer/order/service/sm/BeerOrderStateMachineConfig.java:60-63 | Executing the allocate action appends the allocation request for the snapshot |
| Actions.Execute | src/main/java/guru/sfg/beer/order/service/sm/BeerOrderStateMachineConfig.java:25-26 | Running any action appends exactly what that action emits |
| AllocationMerge.ApplySnapshot | src/main/java/guru/sfg/beer/order/service/services/BeerOrderManagerImpl.java:99-103 | Merging a snapshot into one line changes at most its allocated quantity |
| AllocationMerge.ApplySnapshotTakesLastMatch | src/main/java/guru/sfg/beer/order/service/services/BeerOrderManagerImpl.java:99-103 | A line takes the allocated quantity of the last snapshot line with the same id, or keeps its own when no snapshot line matches |
| AllocationMerge.MergeKeepsLines | src/main/java/guru/sfg/beer/order/service/services/BeerOrderManagerImpl.java:98-104 | The merge keeps the number of lines and every field except the allocated quantity |
| AllocationMerge.MergeTakesMatchedQuantity | src/main/java/guru/sfg/beer/order/service/services/BeerOrderManagerImpl.java:100-101 | A stored line matched by exactly one snapshot line takes that line's allocated quantity |
| AllocationMerge.MergeLeavesUnmatched | src/main/java/guru/sfg/beer/order/service/services/BeerOrderManagerImpl.java:98-104 | A stored line that no snapshot line matches is unchanged |
| AllocationMerge.MergeIgnoresExtraLine | src/main/java/guru/sfg/beer/order/service/services/BeerOrderManagerImpl.java:98-104 | A snapshot line whose id matches no stored line has no effect, wherever it stands in the snapshot |
| Saga.FireMovesStatusOnly | src/main/java/guru/sfg/beer/order/service/services/BeerOrderManagerImpl.java:116-127 | Firing an event changes only the order status, to the next status of the table, and emits at most one message |
| Saga.RejectedEventIsSilent | src/main/java/guru/sfg/beer/order/service/services/BeerOrderManagerImpl.java:116-127 | An event the current status rejects changes nothing and sends nothing |
| Saga.FireAllFollowsRun | src/main/java/guru/sfg/beer/order/service/services/BeerOrderManagerImpl.java:130-148 | Firing a sequence of events, each on a machine rebuilt from the stored status, ends at the status the table's run gives |
| Saga.NewOrderRequestsValidation | src/main/java/guru/sfg/beer/order/service/services/BeerOrderManagerImpl.java:36-49 | A NEW order fired with VALIDATE_ORDER becomes VALIDATION_PENDING and sends one validation request carrying the NEW snapshot |
| Saga.PassedValidationFromNewRequestsAllocation | src/main/java/guru/sfg/beer/order/service/services/BeerOrderManagerImpl.java:56-68 | A passed validation applied to a NEW order ends in ALLOCATION_PENDING and sends one allocation request carrying the VALIDATED snapshot |
| Saga.FailedValidationFromNew | src/main/java/guru/sfg/beer/order/service/services/BeerOrderManagerImpl.java:70-72 | A failed validation applied to a NEW order ends in VALIDATION_EXCEPTION and sends nothing |
| Saga.FailedValidationNeverAllocates | src/main/java/guru/sfg/beer/order/service/services/BeerOrderManagerImpl.java:70-72 | A failed validation never sends an allocation request, whatever the order's status |
| Saga.RejectedPassStillAllocates | src/main/java/guru/sfg/beer/order/service/services/BeerOrderManagerImpl.java:56-68 | For an order already in VALIDATED, the rejected VALIDATION_PASSED does not stop the ALLOCATE_ORDER that follows: the order ends in ALLOCATION_PENDING after one allocation request carrying the order |
| Saga.ValidationResultRejectedWhilePending | src/main/java/guru/sfg/beer/order/service/services/BeerOrderManagerImpl.java:52-72 | For an order in VALIDATION_PENDING, either validation result leaves the order unchanged and sends nothing |
| Saga.AllocationPassedFromPending | src/main/java/guru/sfg/beer/order/service/services/BeerOrderManagerImpl.java:76-82 | A successful allocation moves ALLOCATION_PENDING to ALLOCATED, merges the allocated quantities and sends nothing |
| Saga.AllocationPendingInventoryFromPending | src/main/java/guru/sfg/beer/order/service/services/BeerOrderManagerImpl.java:85-91 | A partial allocation moves ALLOCATION_PENDING to PENDING_INVENTORY, merges the allocated quantities and sends nothing |
| Saga.AllocationFailedFromPending | src/main/java/guru/sfg/beer/order/service/services/BeerOrderManagerImpl.java:111-114 | A failed allocation moves ALLOCATION_PENDING to ALLOCATION_EXCEPTION and sends nothing |
| Saga.RejectedAllocationReplyStillMerges | src/main/java/guru/sfg/beer/order/service/services/BeerOrderManagerImpl.java:76-91 | An allocation reply the status rejects keeps the status, but the allocated quantities are still merged |
| Saga.DuplicateAllocationSuccessRejected | src/main/java/guru/sfg/beer/order/service/sm/BeerOrderStateMachineConfig.java:65-66 | A second ALLOCATION_SUCCESS after the first is rejected and leaves ALLOCATED in place |
| Manager.BeerOrderManagerImpl.SendBeerOrderEvent | src/main/java/guru/sfg/beer/order/service/services/BeerOrderManagerImpl.java:116-148 | The stored order's new state and the messages sent are exactly those of firing the event from the stored status; the store invariant holds |
| Manager.BeerOrderManagerImpl.NewBeerOrder | src/main/java/guru/sfg/beer/order/service/services/BeerOrderManagerImpl.java:36-49 | The order is saved under a fresh id with its reference and lines, fired with VALIDATE_ORDER from NEW, and ends in VALIDATION_PENDING after one validation request |
| Manager.BeerOrderManagerImpl.ProcessValidationResult | src/main/java/guru/sfg/beer/order/service/services/BeerOrderManagerImpl.java:51-73 | For a stored id the order and outbox follow the validation outcome; for an unknown id nothing changes |
| Manager.BeerOrderManagerImpl.PassValidationThenAllocate | src/main/java/guru/sfg/beer/order/service/services/BeerOrderManagerImpl.java:56-68 | VALIDATION_PASSED and then ALLOCATE_ORDER on the re-read order give the passed validation outcome |
| Manager.BeerOrderManagerImpl.BeerOrderAllocationPassed | src/main/java/guru/sfg/beer/order/service/services/BeerOrderManagerImpl.java:76-82 | For a stored id the order moves by ALLOCATION_SUCCESS and takes the reply's allocated quantities; for an unknown id nothing changes |
| Manager.BeerOrderManagerImpl.BeerOrderAllocationPendingInventory | src/main/java/guru/sfg/beer/order/service/services/BeerOrderManagerImpl.java:85-91 | For a stored id the order moves by ALLOCATION_NO_INVENTORY and takes the reply's allocated quantities; for an unknown id nothing changes |
| Manager.BeerOrderManagerImpl.AllocationReply | src/main/java/guru/sfg/beer/order/service/services/BeerOrderManagerImpl.java:76-91 | The shared body of the two allocation replies: fire the event, then merge the quantities |
| Manager.BeerOrderManagerImpl.BeerOrderAllocationFailed | src/main/java/guru/sfg/beer/order/service/services/BeerOrderManagerImpl.java:111-114 | For a stored id the order moves by ALLOCATION_FAILED; for an unknown id nothing changes |
| Manager.BeerOrderManagerImpl.UpdateAllocatedQty | src/main/java/guru/sfg/beer/order/service/services/BeerOrderManagerImpl.java:95-107 | The stored order's lines become the allocation merge of its old lines with the reply's lines; everything else is kept |
| TestListeners.ValidationListener | src/test/java/guru/sfg/beer/order/service/services/testcomponets/BeerOrderValidationListener.java:25-52 | No reply exactly for "dont-validate"; otherwise a reply for the order's id that is valid exactly when the reference is not "fail-validation" |
| TestListeners.AllocationListener | src/test/java/guru/sfg/beer/order/service/services/testcomponets/BeerOrderAllocationListener.java:24-69 | No reply exactly for "dont-allocate"; otherwise an allocation error exactly for "fail-allocation", pending inventory exactly for "partial-allocation", never both, and the order echoed with each line allocated its full quantity, or one short when pending |
| CustomerPaging.Normalize | src/main/java/guru/sfg/beer/order/service/web/controllers/CustomerController.java:34-40 | A missing or negative page number becomes 0 and a missing or non-positive page size becomes 25; valid values are kept |
| CustomerPaging.NormalizeIsIdempotent | src/main/java/guru/sfg/beer/order/service/web/controllers/CustomerController.java:34-40 | Normalising an already normalised request changes nothing |
| CustomerPaging.ListCustomers | src/main/java/guru/sfg/beer/order/service/web/controllers/CustomerController.java:31-43 | The service is always asked for a page with number at least 0 and size at least 1 |
| Scenarios.PlaceOrderAndValidate | src/test/java/guru/sfg/beer/order/service/services/BeerOrderManagerImplIT.java:89-103 | Placing an order and feeding back the validation listener's reply leaves it in VALIDATION_PENDING with one validation request sent, and a reply comes exactly when the reference is not "dont-validate" |
| Scenarios.HappyPathFromNew | src/test/java/guru/sfg/beer/order/service/services/BeerOrderManagerImplIT.java:99-117 | An order in NEW with no test reference, driven by the listeners' replies, ends ALLOCATED with every line's allocated quantity equal to its ordered quantity |
| Scenarios.PartialAllocationFromNew | src/test/java/guru/sfg/beer/order/service/services/BeerOrderManagerImplIT.java:202-218 | An order in NEW routed "partial-allocation" ends PENDING_INVENTORY with every line allocated one short |

## Left out

- Spring State Machine internals are not modelled: factory caching, `stop`/`start`, region access and interceptor registration. Each event fires on a machine rebuilt from the stored status, which is what `build` achieves.
- `BeerOrderStateChangeInterceptor` is not part of this model. Its effect is modelled as writing the new status into the stored entity after the action has run.
- The bodies of `ValidateOrderAction` and `AllocateOrderAction` are not part of this model. Each is modelled as sending one request, carrying the order snapshot, to its own queue.
- `Actions.ExecuteValidationFailure`: it only logs, so it is modelled as a method that changes nothing and states nothing.
- The JMS transport is not modelled: message conversion, queue names as strings, delivery and redelivery. Queues are three constructors and sending appends to an outbox.
- The order-id header is modelled as the id itself. Its UUID-to-string-and-back conversion is not modelled.
- `ValidationResultListener` only forwards the order id and the validity flag to `processValidationResult`. The allocation-result listener is not part of this model. By design it dispatches on the reply's two flags: `allocationError` takes precedence over `pendingInventory`, and with both false the allocation passed. `Scenarios` makes that choice by hand: each allocation lemma there names the event that matches the flags the test listener set.
- JPA is not modelled: transactions, pessimistic locking, Hibernate proxies and the staleness of `getOne` results. Concurrency between listeners is not modelled either; every operation runs to completion alone.
- `Manager.BeerOrderManagerImpl.NewBeerOrder`: `setId(null)` and the database-generated UUID are modelled as assigning the next counter value. The precondition that the entity is not already stored stands for "a new entity".
- Entry points given an unknown id: Java throws `EntityNotFoundException`, while the model reports `found == false` and changes nothing.
- Order lines are a `HashSet` in Java and a sequence here, so iteration order is fixed by the sequence.
- Null values are not modelled. This covers null ids and null quantities. It also covers a null `isValid`, whose `Boolean` unboxing at BeerOrderManagerImpl.java:56 would throw, and a null line collection in an allocation reply, which would throw at BeerOrderManagerImpl.java:99. A null customer reference is `None`.
- `TestListeners.AllocationListener`: `orderQuantity - 1` is taken on unbounded integers. The 32-bit wrap-around at `Integer.MIN_VALUE` is not modelled.
- Entity fields that no core operation reads are not modelled: customer, version, timestamps, UPC lookups and prices.
- The cancel, pick-up and deallocation flows used by the integration tests are not modelled. The event enum declares `BEERORDER_PICKED_UP`, but no transition accepts it and the manager interface (BeerOrderManager.java:15-24) has no pick-up operation. There is no cancel event, transition or operation.
- `CustomerService.listCustomers` is a call into code that is not part of this model. `ListCustomers` returns the page request it would be called with.
- Logging is not modelled.
