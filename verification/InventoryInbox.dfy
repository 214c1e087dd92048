/**
 The inventory consumer's dedup table forgets an event id after its time to
 live.  That forgetting cannot change what becomes of the orders.
 */
module InventoryInbox {
  import opened Common
  import opened Orders
  import opened OrderHistory

  datatype InventoryType = InventoryReserved | InventoryReservationFailed | Unknown

  datatype InventoryEvent = InventoryEvent(eventId: Option<nat>, eventType: InventoryType, orderId: nat)

  // One delivery: when it is looked at, when it would be marked, and whether the
  // consumer lives (and the save succeeds) to mark it.
  datatype Input =
    | Deliver(event: InventoryEvent, now: int, later: int, marks: bool)
    | UserCancel(orderId: nat)
    | NewOrder(head: Head, items: seq<Item>)

  datatype Inbox = Inbox(s: State, processed: map<nat, int>)

  function Dispatch(s: State, event: InventoryEvent): State {
    match event.eventType
    case InventoryReserved => SerialStep(s, Handle(Confirm, event.orderId))
    case InventoryReservationFailed => SerialStep(s, Handle(CancelByInventory, event.orderId))
    case Unknown => s
  }

  // isEventProcessed: a row whose expiry has passed does not count, and is removed.
  predicate Remembered(processed: map<nat, int>, id: nat, now: int) {
    id in processed && now <= processed[id]
  }

  function Process(b: Inbox, event: InventoryEvent, now: int, later: int, marks: bool, ttl: int): Inbox {
    if event.eventId.None? || Remembered(b.processed, event.eventId.value, now) then b
    else
      var id := event.eventId.value;
      var kept := b.processed - {id};
      Inbox(Dispatch(b.s, event), if marks then kept[id := later + ttl] else kept)
  }

  function Accept(b: Inbox, input: Input, ttl: int): Inbox {
    match input
    case Deliver(event, now, later, marks) => Process(b, event, now, later, marks, ttl)
    case UserCancel(o) => b.(s := SerialStep(b.s, Handle(CancelByUser, o)))
    case NewOrder(head, items) => b.(s := SerialStep(b.s, Place(head, items)))
  }

  function AcceptAll(b: Inbox, inputs: seq<Input>, ttl: int): Inbox
    decreases inputs
  {
    if inputs == [] then b else AcceptAll(Accept(b, inputs[0], ttl), inputs[1..], ttl)
  }

  /* ----- the same inputs with no table at all ----- */

  function Apply(s: State, input: Input): State {
    match input
    case Deliver(event, _, _, _) => if event.eventId.None? then s else Dispatch(s, event)
    case UserCancel(o) => SerialStep(s, Handle(CancelByUser, o))
    case NewOrder(head, items) => SerialStep(s, Place(head, items))
  }

  function ApplyAll(s: State, inputs: seq<Input>): State
    decreases inputs
  {
    if inputs == [] then s else ApplyAll(Apply(s, inputs[0]), inputs[1..])
  }

  // Every id names one event, whose order exists by the time it is delivered.
  ghost predicate Identified(s: State, inputs: seq<Input>, names: map<nat, InventoryEvent>)
    decreases inputs
  {
    inputs == [] ||
    (&& (inputs[0].Deliver? && inputs[0].event.eventId.Some? ==>
           && inputs[0].event.eventId.value in names && names[inputs[0].event.eventId.value] == inputs[0].event
           && (inputs[0].event.eventType != Unknown ==> inputs[0].event.orderId < |s.orders|))
     && Identified(Apply(s, inputs[0]), inputs[1..], names))
  }

  // Handling the event again would do nothing.
  predicate Done(s: State, event: InventoryEvent) {
    event.eventType == Unknown || (event.orderId < |s.orders| && s.orders[event.orderId].status != PENDING)
  }

  lemma DoneIsNoOp(s: State, event: InventoryEvent)
    requires Done(s, event)
    ensures Dispatch(s, event) == s
  {
    HandleEffect(s, Confirm, event.orderId);
    HandleEffect(s, CancelByInventory, event.orderId);
  }

  lemma ApplyKeepsDone(s: State, input: Input, event: InventoryEvent)
    requires Done(s, event)
    ensures Done(Apply(s, input), event) && |s.orders| <= |Apply(s, input).orders|
  {
    match input
    case Deliver(e, _, _, _) =>
      HandleEffect(s, Confirm, e.orderId);
      HandleEffect(s, CancelByInventory, e.orderId);
    case UserCancel(o) => HandleEffect(s, CancelByUser, o);
    case NewOrder(head, items) => PlaceEffect(s, head, items);
  }

  lemma ApplyGrows(s: State, input: Input)
    ensures |s.orders| <= |Apply(s, input).orders|
  {
    ApplyKeepsDone(s, input, InventoryEvent(None, Unknown, 0));
  }

  lemma DispatchIsDone(s: State, event: InventoryEvent)
    requires event.eventType != Unknown ==> event.orderId < |s.orders|
    ensures Done(Dispatch(s, event), event)
  {
    HandleEffect(s, Confirm, event.orderId);
    HandleEffect(s, CancelByInventory, event.orderId);
  }

  // With any clock, any time to live and any failure to mark, the orders and the
  // outbox are what they would be if every delivery were handled.
  lemma {:induction false} TableIsTransparent(b: Inbox, inputs: seq<Input>, ttl: int, names: map<nat, InventoryEvent>)
    requires Identified(b.s, inputs, names)
    requires forall id <- b.processed :: id in names && Done(b.s, names[id])
    ensures AcceptAll(b, inputs, ttl).s == ApplyAll(b.s, inputs)
    decreases inputs
  {
    if inputs != [] {
      var input, next := inputs[0], Accept(b, inputs[0], ttl);
      ApplyGrows(b.s, input);
      if input.Deliver? && input.event.eventId.Some? {
        if Remembered(b.processed, input.event.eventId.value, input.now) {
          DoneIsNoOp(b.s, input.event);
        }
        DispatchIsDone(b.s, input.event);
      }
      assert next.s == Apply(b.s, input);
      forall id | id in next.processed ensures id in names && Done(next.s, names[id]) {
        if id in b.processed { ApplyKeepsDone(b.s, input, names[id]); }
      }
      TableIsTransparent(next, inputs[1..], ttl, names);
    }
  }

  /* ----- duplicates ----- */

  // The inputs without the deliveries whose id came before (or is in `seen`).
  function FirstDeliveries(inputs: seq<Input>, seen: set<nat>): seq<Input> {
    if inputs == [] then []
    else if !inputs[0].Deliver? || inputs[0].event.eventId.None? then
      [inputs[0]] + FirstDeliveries(inputs[1..], seen)
    else if inputs[0].event.eventId.value in seen then FirstDeliveries(inputs[1..], seen)
    else [inputs[0]] + FirstDeliveries(inputs[1..], seen + {inputs[0].event.eventId.value})
  }

  lemma {:induction false} DuplicatesChangeNothing(s: State, inputs: seq<Input>, seen: set<nat>,
                                                   names: map<nat, InventoryEvent>)
    requires Identified(s, inputs, names)
    requires forall id <- seen :: id in names && Done(s, names[id])
    ensures ApplyAll(s, inputs) == ApplyAll(s, FirstDeliveries(inputs, seen))
    ensures Identified(s, FirstDeliveries(inputs, seen), names)
    decreases inputs
  {
    if inputs != [] {
      var input, rest := inputs[0], inputs[1..];
      ApplyGrows(s, input);
      forall id | id in seen ensures Done(Apply(s, input), names[id]) {
        ApplyKeepsDone(s, input, names[id]);
      }
      if !input.Deliver? || input.event.eventId.None? {
        DuplicatesChangeNothing(Apply(s, input), rest, seen, names);
        assert ([input] + FirstDeliveries(rest, seen))[1..] == FirstDeliveries(rest, seen);
      } else {
        var id := input.event.eventId.value;
        if id in seen {
          DoneIsNoOp(s, input.event);
          DuplicatesChangeNothing(s, rest, seen, names);
        } else {
          DispatchIsDone(s, input.event);
          DuplicatesChangeNothing(Apply(s, input), rest, seen + {id}, names);
          assert ([input] + FirstDeliveries(rest, seen + {id}))[1..] == FirstDeliveries(rest, seen + {id});
        }
      }
    }
  }

  // The expiring table cannot change outcomes: with duplicates anywhere later,
  // after expiry or not, and orders cancelled or created in between, the orders
  // and the outbox are those of the list without duplicates, whatever the times.
  lemma DuplicatesAreHarmless(s: State, inputs: seq<Input>, ttl: int, otherTtl: int, names: map<nat, InventoryEvent>)
    requires Identified(s, inputs, names)
    ensures AcceptAll(Inbox(s, map[]), inputs, ttl).s
         == AcceptAll(Inbox(s, map[]), FirstDeliveries(inputs, {}), otherTtl).s
  {
    DuplicatesChangeNothing(s, inputs, {}, names);
    TableIsTransparent(Inbox(s, map[]), inputs, ttl, names);
    TableIsTransparent(Inbox(s, map[]), FirstDeliveries(inputs, {}), otherTtl, names);
  }

  /* ----- what becomes of an order ----- */

  // The status that inputs lead to: a reservation confirms and a failed one
  // cancels an order that is PENDING, its user cancels it in either status.
  function StatusAfter(start: Status, inputs: seq<Input>, o: nat): Status
    decreases inputs
  {
    if inputs == [] then start
    else
      var next := match inputs[0]
        case Deliver(event, _, _, _) =>
          if event.eventId.Some? && event.orderId == o && start == PENDING && event.eventType == InventoryReserved
          then CONFIRMED
          else if event.eventId.Some? && event.orderId == o && start == PENDING
                  && event.eventType == InventoryReservationFailed
          then CANCELLED
          else start
        case UserCancel(p) => if p == o && (start == PENDING || start == CONFIRMED) then CANCELLED else start
        case NewOrder(_, _) => start;
      StatusAfter(next, inputs[1..], o)
  }

  lemma {:induction false} StatusIsFolded(s: State, inputs: seq<Input>, o: nat)
    requires o < |s.orders|
    ensures o < |ApplyAll(s, inputs).orders|
    ensures ApplyAll(s, inputs).orders[o].status == StatusAfter(s.orders[o].status, inputs, o)
    decreases inputs
  {
    if inputs != [] {
      var t := Apply(s, inputs[0]);
      match inputs[0] {
        case Deliver(event, _, _, _) =>
          HandleEffect(s, Confirm, event.orderId);
          HandleEffect(s, CancelByInventory, event.orderId);
        case UserCancel(p) => HandleEffect(s, CancelByUser, p);
        case NewOrder(head, items) => PlaceEffect(s, head, items);
      }
      assert t.orders[o].status == StatusAfter(s.orders[o].status, [inputs[0]], o) by {
        assert [inputs[0]][1..] == [];
      }
      StatusIsFolded(t, inputs[1..], o);
    }
  }

  // Duplicates, expiry and failures to mark included, an order that exists ends in
  // the status that its deliveries and cancellations lead to, in their order.
  lemma StatusIsDecided(s: State, inputs: seq<Input>, ttl: int, names: map<nat, InventoryEvent>, o: nat)
    requires Identified(s, inputs, names) && o < |s.orders|
    ensures var t := AcceptAll(Inbox(s, map[]), inputs, ttl).s;
      o < |t.orders| && t.orders[o].status == StatusAfter(s.orders[o].status, inputs, o)
  {
    TableIsTransparent(Inbox(s, map[]), inputs, ttl, names);
    StatusIsFolded(s, inputs, o);
  }

  lemma {:induction false} ApplyConcat(s: State, inputs: seq<Input>, rest: seq<Input>, names: map<nat, InventoryEvent>)
    requires Identified(s, inputs + rest, names)
    ensures ApplyAll(s, inputs + rest) == ApplyAll(ApplyAll(s, inputs), rest)
    ensures Identified(s, inputs, names) && Identified(ApplyAll(s, inputs), rest, names)
    decreases inputs
  {
    if inputs == [] {
      assert inputs + rest == rest;
    } else {
      assert (inputs + rest)[1..] == inputs[1..] + rest;
      ApplyConcat(Apply(s, inputs[0]), inputs[1..], rest, names);
    }
  }

  // And an order created on the way begins PENDING.
  lemma CreatedIsDecided(s: State, before: seq<Input>, head: Head, items: seq<Item>, after: seq<Input>,
                         ttl: int, names: map<nat, InventoryEvent>)
    requires Identified(s, before + [NewOrder(head, items)] + after, names)
    ensures var o := |AcceptAll(Inbox(s, map[]), before, ttl).s.orders|;
      var t := AcceptAll(Inbox(s, map[]), before + [NewOrder(head, items)] + after, ttl).s;
      o < |t.orders| && t.orders[o].status == StatusAfter(PENDING, after, o)
  {
    var all := before + [NewOrder(head, items)] + after;
    assert all == before + ([NewOrder(head, items)] + after);
    ApplyConcat(s, before, [NewOrder(head, items)] + after, names);
    TableIsTransparent(Inbox(s, map[]), all, ttl, names);
    TableIsTransparent(Inbox(s, map[]), before, ttl, names);
    var mid := ApplyAll(s, before);
    assert ([NewOrder(head, items)] + after)[1..] == after;
    PlaceEffect(mid, head, items);
    StatusIsFolded(Apply(mid, NewOrder(head, items)), after, |mid.orders|);
  }

  predicate Reserves(input: Input, o: nat) {
    input.Deliver? && input.event.orderId == o && input.event.eventType == InventoryReserved
  }

  predicate Cancels(input: Input, o: nat) {
    || (input.Deliver? && input.event.orderId == o && input.event.eventType == InventoryReservationFailed)
    || (input.UserCancel? && input.orderId == o)
  }

  // Whatever the table forgets and whenever orders are created: an order is
  // CONFIRMED only if it was or a reservation of it came in, and CANCELLED only if
  // it was, or a reservation of it failed, or its user cancelled it.
  lemma {:induction false} StatusHasCause(b: Inbox, inputs: seq<Input>, ttl: int, o: nat)
    requires o < |AcceptAll(b, inputs, ttl).s.orders|
    ensures var status := AcceptAll(b, inputs, ttl).s.orders[o].status;
      && (status == CONFIRMED ==>
            (o < |b.s.orders| && b.s.orders[o].status == CONFIRMED) || exists i <- inputs :: Reserves(i, o))
      && (status == CANCELLED ==>
            (o < |b.s.orders| && b.s.orders[o].status == CANCELLED) || exists i <- inputs :: Cancels(i, o))
    decreases inputs
  {
    if inputs != [] {
      var input, next := inputs[0], Accept(b, inputs[0], ttl);
      assert input in inputs && forall i <- inputs[1..] :: i in inputs;
      match input {
        case Deliver(event, _, _, _) =>
          HandleEffect(b.s, Confirm, event.orderId);
          HandleEffect(b.s, CancelByInventory, event.orderId);
        case UserCancel(p) => HandleEffect(b.s, CancelByUser, p);
        case NewOrder(head, items) => PlaceEffect(b.s, head, items);
      }
      StatusHasCause(next, inputs[1..], ttl, o);
    }
  }

  /* ----- events that overtake ----- */

  // The order has to exist: an event that overtakes the creation of its order is
  // marked and dropped.  Whether its redelivery is a duplicate like any other
  // then depends on the expiry.
  function Overtaking(s: State, id: nat, head: Head, items: seq<Item>, now: int, later: int): seq<Input> {
    [Deliver(InventoryEvent(Some(id), InventoryReserved, |s.orders|), now, later, true), NewOrder(head, items)]
  }

  lemma AcceptTwo(b: Inbox, x: Input, y: Input, ttl: int)
    ensures AcceptAll(b, [x, y], ttl) == Accept(Accept(b, x, ttl), y, ttl)
  {
    assert [x, y][1..] == [y] && [y][1..] == [];
    assert AcceptAll(Accept(b, x, ttl), [y], ttl) == Accept(Accept(b, x, ttl), y, ttl);
  }

  lemma {:induction false} AcceptPush(b: Inbox, inputs: seq<Input>, x: Input, ttl: int)
    ensures AcceptAll(b, inputs + [x], ttl) == Accept(AcceptAll(b, inputs, ttl), x, ttl)
    decreases inputs
  {
    if inputs == [] {
      assert inputs + [x] == [x] && [x][1..] == [];
      assert AcceptAll(Accept(b, x, ttl), [], ttl) == Accept(b, x, ttl);
    } else {
      assert (inputs + [x])[1..] == inputs[1..] + [x];
      AcceptPush(Accept(b, inputs[0], ttl), inputs[1..], x, ttl);
    }
  }

  // With and without the redelivery the state is the same if and only if the
  // first mark is still there; otherwise the redelivery confirms the order.
  lemma OvertakingIff(b: Inbox, id: nat, head: Head, items: seq<Item>, now: int, later: int,
                      again: int, laterAgain: int, marks: bool, ttl: int)
    requires !Remembered(b.processed, id, now)
    ensures var once := Overtaking(b.s, id, head, items, now, later);
      var redelivery := Deliver(once[0].event, again, laterAgain, marks);
      AcceptAll(b, once + [redelivery], ttl).s == AcceptAll(b, once, ttl).s <==> again <= later + ttl
  {
    var once := Overtaking(b.s, id, head, items, now, later);
    var o := |b.s.orders|;
    AcceptTwo(b, once[0], once[1], ttl);
    AcceptPush(b, once, Deliver(once[0].event, again, laterAgain, marks), ttl);
    HandleEffect(b.s, Confirm, o);
    PlaceEffect(b.s, head, items);
    var placed := AcceptAll(b, once, ttl);
    assert placed.s == CreateStep(b.s, head, items) && placed.processed[id] == later + ttl;
    HandleEffect(placed.s, Confirm, o);
    assert placed.s.orders[o].status == PENDING;
  }
}
