/**
 * The order state machine: its initial state, its end states and the
 * seven-entry transition table, in the order the configuration declares
 * them. The table is modelled exactly as configured; in particular the
 * validation outcomes leave from NEW, not from VALIDATION_PENDING.
 */
module StateMachineConfig {
  import opened Wrappers
  import opened Domain
  import opened Actions

  /** The state a freshly built machine starts in. */
  const Initial: Status := New

  /** The states declared as end states. */
  const EndStates: set<Status> :=
    {PickedUp, Delivered, DeliveryException, ValidationException, AllocationException}

  /** One external transition: source and event lead to target, optionally running an action. */
  datatype Transition = Transition(source: Status, event: Event, target: Status, action: Option<ActionName>)

  /** The transition table, entry by entry as the builder chain declares it. */
  const Table: seq<Transition> := [
    Transition(New, ValidateOrder, ValidationPending, Some(ValidateOrderAction)),
    Transition(New, ValidationPassed, Validated, None),
    Transition(New, ValidationFailed, ValidationException, None),
    Transition(Validated, AllocateOrder, AllocationPending, Some(AllocateOrderAction)),
    Transition(AllocationPending, AllocationSuccess, Allocated, None),
    Transition(AllocationPending, AllocationFailed, AllocationException, None),
    Transition(AllocationPending, AllocationNoInventory, PendingInventory, None)
  ]

  /** Submitting `e` to a machine in `s`: the target and attached action, or None when the event is not accepted. */
  function Step(s: Status, e: Event): Option<(Status, Option<ActionName>)>
  {
    match (s, e)
    case (New, ValidateOrder) => Some((ValidationPending, Some(ValidateOrderAction)))
    case (New, ValidationPassed) => Some((Validated, None))
    case (New, ValidationFailed) => Some((ValidationException, None))
    case (Validated, AllocateOrder) => Some((AllocationPending, Some(AllocateOrderAction)))
    case (AllocationPending, AllocationSuccess) => Some((Allocated, None))
    case (AllocationPending, AllocationFailed) => Some((AllocationException, None))
    case (AllocationPending, AllocationNoInventory) => Some((PendingInventory, None))
    case _ => None
  }

  /** The state after submitting `e` in `s`; a rejected event leaves the state as it was. */
  function Next(s: Status, e: Event): Status
  {
    match Step(s, e)
    case None => s
    case Some((target, _)) => target
  }

  /** The state after submitting `events` one by one, each to a machine in the previous state. */
  function Run(s: Status, events: seq<Event>): Status
    decreases |events|
  {
    if events == [] then s else Run(Next(s, events[0]), events[1..])
  }

  /** No two entries of the table share a source and an event: the machine is deterministic. */
  lemma TableIsDeterministic()
    ensures |Table| == 7
    ensures forall i, j | 0 <= i < j < |Table| ::
      Table[i].source != Table[j].source || Table[i].event != Table[j].event
  {
  }

  /** Step accepts a pair exactly when the configured table holds an entry for it, and then reports that entry's target and action. */
  lemma StepIsTableEntry(s: Status, e: Event, target: Status, action: Option<ActionName>)
    ensures Step(s, e) == Some((target, action)) <==> Transition(s, e, target, action) in Table
  {
  }

  /** Step rejects a pair exactly when no entry of the configured table has that source and event. */
  lemma StepRejectsOutsideTable(s: Status, e: Event)
    ensures Step(s, e).None? <==> forall k | 0 <= k < |Table| :: Table[k].source != s || Table[k].event != e
  {
    if Step(s, e).Some? {
      var (target, action) := Step(s, e).value;
      StepIsTableEntry(s, e, target, action);
      var k :| 0 <= k < |Table| && Table[k] == Transition(s, e, target, action);
    } else {
      forall k | 0 <= k < |Table| ensures Table[k].source != s || Table[k].event != e {
        StepIsTableEntry(s, e, Table[k].target, Table[k].action);
      }
    }
  }

  /** Only NEW, VALIDATED and ALLOCATION_PENDING accept any event. */
  lemma OnlyThreeStatesAcceptEvents(s: Status, e: Event)
    ensures Step(s, e).Some? ==> s == New || s == Validated || s == AllocationPending
  {
  }

  /** The declared end states accept no event. */
  lemma EndStatesAcceptNothing(s: Status, e: Event)
    requires s in EndStates
    ensures Step(s, e).None?
  {
    assert s != New && s != Validated && s != AllocationPending;
    OnlyThreeStatesAcceptEvents(s, e);
  }

  /** VALIDATION_PENDING, ALLOCATED and PENDING_INVENTORY are not end states, yet they accept no event either. */
  lemma WaitingStatesAcceptNothing(s: Status, e: Event)
    requires s == ValidationPending || s == Allocated || s == PendingInventory
    ensures s !in EndStates
    ensures Step(s, e).None?
  {
    OnlyThreeStatesAcceptEvents(s, e);
  }

  /** BEERORDER_PICKED_UP labels no transition, so it is always rejected. */
  lemma PickedUpEventAlwaysRejected(s: Status)
    ensures Step(s, BeerOrderPickedUp).None?
    ensures Next(s, BeerOrderPickedUp) == s
  {
  }

  /**
   * Only VALIDATE_ORDER out of NEW and ALLOCATE_ORDER out of VALIDATED carry
   * an action, and these are the validate and allocate actions; the
   * allocation-failure action is attached to no transition.
   */
  lemma OnlyRequestTransitionsRunActions(s: Status, e: Event)
    ensures Step(s, e).Some? && Step(s, e).value.1.Some? ==>
      (s == New && e == ValidateOrder && Step(s, e).value.1.value == ValidateOrderAction) ||
      (s == Validated && e == AllocateOrder && Step(s, e).value.1.value == AllocateOrderAction)
    ensures Step(s, e).Some? ==> Step(s, e).value.1 != Some(AllocationFailureAction)
  {
  }

  /** No transition targets NEW. */
  lemma NoTransitionTargetsNew(s: Status, e: Event)
    ensures Step(s, e).Some? ==> Step(s, e).value.0 != New
  {
  }

  /** The states reachable from NEW. */
  const ReachableFromNew: set<Status> := {
    New, ValidationPending, Validated, ValidationException,
    AllocationPending, Allocated, AllocationException, PendingInventory
  }

  /** One step never leaves the reachable set. */
  lemma NextStaysReachable(s: Status, e: Event)
    requires s in ReachableFromNew
    ensures Next(s, e) in ReachableFromNew
  {
  }

  /** Any sequence of events submitted from a reachable state ends in a reachable state. */
  lemma {:induction false} RunStaysReachable(s: Status, events: seq<Event>)
    requires s in ReachableFromNew
    ensures Run(s, events) in ReachableFromNew
    decreases |events|
  {
    if events != [] {
      NextStaysReachable(s, events[0]);
      RunStaysReachable(Next(s, events[0]), events[1..]);
    }
  }

  /** Submitting `first` and then `rest` is the same as running the concatenation. */
  lemma {:induction false} RunAppend(s: Status, first: seq<Event>, rest: seq<Event>)
    ensures Run(s, first + rest) == Run(Run(s, first), rest)
    decreases |first|
  {
    if first == [] {
      assert first + rest == rest;
    } else {
      assert (first + rest)[0] == first[0];
      assert (first + rest)[1..] == first[1..] + rest;
      RunAppend(Next(s, first[0]), first[1..], rest);
    }
  }

  /** A sequence of events that drives NEW to `t`, for each reachable `t`. */
  function PathTo(t: Status): seq<Event>
  {
    match t
    case ValidationPending => [ValidateOrder]
    case Validated => [ValidationPassed]
    case ValidationException => [ValidationFailed]
    case AllocationPending => [ValidationPassed, AllocateOrder]
    case Allocated => [ValidationPassed, AllocateOrder, AllocationSuccess]
    case AllocationException => [ValidationPassed, AllocateOrder, AllocationFailed]
    case PendingInventory => [ValidationPassed, AllocateOrder, AllocationNoInventory]
    case _ => []
  }

  /** The seven accepted steps, as Next reports them. */
  lemma AcceptedNextSteps()
    ensures Next(New, ValidateOrder) == ValidationPending
    ensures Next(New, ValidationPassed) == Validated
    ensures Next(New, ValidationFailed) == ValidationException
    ensures Next(Validated, AllocateOrder) == AllocationPending
    ensures Next(AllocationPending, AllocationSuccess) == Allocated
    ensures Next(AllocationPending, AllocationFailed) == AllocationException
    ensures Next(AllocationPending, AllocationNoInventory) == PendingInventory
  {
  }

  /** Running a one-event sequence is one Next step. */
  lemma RunOne(s: Status, e: Event)
    ensures Run(s, [e]) == Next(s, e)
  {
    assert [e][1..] == [];
  }

  /** A three-event run, one Next step at a time. */
  lemma RunThree(s: Status, e1: Event, e2: Event, e3: Event)
    ensures Run(s, [e1, e2, e3]) == Next(Next(Next(s, e1), e2), e3)
  {
    RunAppend(s, [e1], [e2, e3]);
    RunAppend(Next(s, e1), [e2], [e3]);
    assert [e1, e2, e3] == [e1] + [e2, e3];
    assert [e2, e3] == [e2] + [e3];
    RunOne(s, e1);
    RunOne(Next(s, e1), e2);
    RunOne(Next(Next(s, e1), e2), e3);
  }

  /** A two-event run, one Next step at a time. */
  lemma RunTwo(s: Status, e1: Event, e2: Event)
    ensures Run(s, [e1, e2]) == Next(Next(s, e1), e2)
  {
    RunAppend(s, [e1], [e2]);
    assert [e1, e2] == [e1] + [e2];
    RunOne(s, e1);
    RunOne(Next(s, e1), e2);
  }

  /** Each path of PathTo drives NEW to its state. */
  lemma PathToReaches(t: Status)
    requires t in ReachableFromNew
    ensures Run(New, PathTo(t)) == t
  {
    assert t != PickedUp && t != Delivered && t != DeliveryException && t != Cancelled;
    match t
    case New =>
    case ValidationPending =>
      AcceptedNextSteps();
      RunOne(New, ValidateOrder);
    case Validated =>
      AcceptedNextSteps();
      RunOne(New, ValidationPassed);
    case ValidationException =>
      AcceptedNextSteps();
      RunOne(New, ValidationFailed);
    case AllocationPending =>
      AcceptedNextSteps();
      RunTwo(New, ValidationPassed, AllocateOrder);
    case Allocated =>
      AcceptedNextSteps();
      RunThree(New, ValidationPassed, AllocateOrder, AllocationSuccess);
    case AllocationException =>
      AcceptedNextSteps();
      RunThree(New, ValidationPassed, AllocateOrder, AllocationFailed);
    case PendingInventory =>
      AcceptedNextSteps();
      RunThree(New, ValidationPassed, AllocateOrder, AllocationNoInventory);
  }

  /** The states reachable from the initial state NEW are exactly the eight in ReachableFromNew. */
  lemma ReachableFromNewExactly(t: Status)
    ensures t in ReachableFromNew <==> exists events :: Run(Initial, events) == t
  {
    if t in ReachableFromNew {
      PathToReaches(t);
    } else {
      forall events ensures Run(New, events) != t {
        RunStaysReachable(New, events);
      }
    }
  }
}
