/**
 Orders when each operation runs to its end before the next begins: the order's
 outbox rows are then a faithful history of its status.
 */
module OrderHistory {
  import opened Common
  import opened Orders

  datatype Command =
    | Place(head: Head, items: seq<Item>)
    | Handle(kind: Kind, orderId: nat)

  function ActionsOf(s: State, command: Command): seq<Action> {
    match command
    case Place(head, items) => [Create(head, items)]
    case Handle(kind, o) => [Begin(kind, o), Update(|s.ops|), Announce(|s.ops|)]
  }

  function SerialStep(s: State, command: Command): State {
    Run(s, ActionsOf(s, command))
  }

  function SerialRun(s: State, commands: seq<Command>): State {
    if commands == [] then s
    else SerialStep(SerialRun(s, commands[..|commands| - 1]), commands[|commands| - 1])
  }

  function Moved(order: Order, kind: Kind): Order {
    order.(status := Target(kind), version := order.version + 1)
  }

  // A whole creation adds one order, PENDING and for what its lines cost, and its
  // OrderCreated row, and nothing else.
  lemma PlaceEffect(s: State, head: Head, items: seq<Item>)
    ensures var t := SerialStep(s, Place(head, items));
      && t == CreateStep(s, head, items) && t.ops == s.ops
      && |t.orders| == |s.orders| + 1 && t.orders[..|s.orders|] == s.orders
      && var order := t.orders[|s.orders|];
      && order.status == PENDING && order.version == 0 && order.head == head && Priced(order)
      && |order.lines| == |items|
      && (forall i | 0 <= i < |items| ::
            order.lines[i] == Line(items[i].productId, items[i].sku, items[i].name, items[i].quantity,
                                   items[i].price, items[i].price * items[i].quantity))
      && t.outbox == s.outbox + [Event(|s.orders|, OrderCreated, head.customer, head.orderNumber,
                                       Some(Money(order.total, "USD")),
                                       Some(Details(order.lines, head.addressId, head.paymentMethod)))]
  {
    LinesAddUp(items);
    var a := Create(head, items);
    assert [a][..0] == [];
    assert Run(s, [a]) == Step(s, a);
  }

  // A whole operation either fails its guard and changes nothing, or moves the
  // order once and announces it once.
  lemma HandleEffect(s: State, kind: Kind, o: nat)
    ensures SerialStep(s, Handle(kind, o)) ==
      if o < |s.orders|
         && (s.orders[o].status == PENDING || (kind == CancelByUser && s.orders[o].status == CONFIRMED))
      then
        var order := s.orders[o];
        State(s.orders[o := order.(status := if kind == Confirm then CONFIRMED else CANCELLED,
                                   version := order.version + 1)],
              s.outbox + [Event(o, if kind == Confirm then OrderConfirmed else OrderCancelled,
                                order.head.customer, order.head.orderNumber,
                                if kind == Confirm then Some(Money(order.total, order.currency)) else None, None)],
              s.ops + [Op(kind, o, Announced)])
      else s
  {
    var i := |s.ops|;
    Run3(s, Begin(kind, o), Update(i), Announce(i));
    if o < |s.orders| && Allows(kind, s.orders[o].status) {
      var began := BeginStep(s, kind, o);
      var updated := UpdateStep(began, i);
      assert updated.ops == s.ops + [Op(kind, o, Updated)];
      var announced := AnnounceStep(updated, i);
      assert announced.ops == s.ops + [Op(kind, o, Announced)];
    }
  }

  /* ----- replaying an order's rows ----- */

  function Types(outbox: seq<Event>, o: nat): seq<EventType> {
    if outbox == [] then []
    else
      var before, e := Types(outbox[..|outbox| - 1], o), outbox[|outbox| - 1];
      if e.orderId == o then before + [e.eventType] else before
  }

  lemma TypesPush(outbox: seq<Event>, e: Event, o: nat)
    ensures Types(outbox + [e], o) == if e.orderId == o then Types(outbox, o) + [e.eventType] else Types(outbox, o)
  {
    assert (outbox + [e])[..|outbox|] == outbox;
  }

  // The order state machine as a reader of the topic sees it.
  datatype Replayed = Missing | In(status: Status) | Broken

  function Next(r: Replayed, e: EventType): Replayed {
    match e
    case OrderCreated => if r == Missing then In(PENDING) else Broken
    case OrderConfirmed => if r == In(PENDING) then In(CONFIRMED) else Broken
    case OrderCancelled => if r == In(PENDING) || r == In(CONFIRMED) then In(CANCELLED) else Broken
  }

  function Replay(types: seq<EventType>): Replayed {
    if types == [] then Missing else Next(Replay(types[..|types| - 1]), types[|types| - 1])
  }

  lemma ReplayPush(types: seq<EventType>, e: EventType)
    ensures Replay(types + [e]) == Next(Replay(types), e)
  {
    assert (types + [e])[..|types|] == types;
  }

  predicate Legal(types: seq<EventType>) {
    types <= [OrderCreated, OrderConfirmed, OrderCancelled] || types <= [OrderCreated, OrderCancelled]
  }

  predicate Faithful(s: State, o: nat) {
    var types := Types(s.outbox, o);
    if o < |s.orders| then
      && types != [] && Legal(types)
      && |types| == s.orders[o].version + 1
      && Replay(types) == In(s.orders[o].status)
    else types == []
  }

  // What replaying leaves in each status.
  lemma LegalShape(types: seq<EventType>)
    requires Legal(types) && types != []
    ensures Replay(types) == In(PENDING) ==> types == [OrderCreated]
    ensures Replay(types) == In(CONFIRMED) ==> types == [OrderCreated, OrderConfirmed]
  {
    var created, confirmed := [OrderCreated], [OrderCreated, OrderConfirmed];
    ReplayPush([], OrderCreated);
    ReplayPush(created, OrderConfirmed);
    ReplayPush(created, OrderCancelled);
    ReplayPush(confirmed, OrderCancelled);
    assert [] + [OrderCreated] == created;
    if |types| == 1 {
      assert types == created;
    } else if |types| == 2 {
      assert types == confirmed || types == created + [OrderCancelled];
    } else {
      assert types == confirmed + [OrderCancelled];
    }
  }

  lemma PlaceIsFaithful(s: State, head: Head, items: seq<Item>, o: nat)
    requires Faithful(s, o)
    ensures Faithful(CreateStep(s, head, items), o)
  {
    var e := EventOf(|s.orders|, NewOrder(head, items), OrderCreated);
    TypesPush(s.outbox, e, o);
    ReplayPush([], OrderCreated);
    assert [] + [OrderCreated] == [OrderCreated];
  }

  lemma MoveIsFaithful(s: State, t: State, kind: Kind, o: nat)
    requires Faithful(s, o) && o < |s.orders| && Allows(kind, s.orders[o].status)
    requires t.orders == s.orders[o := Moved(s.orders[o], kind)]
    requires t.outbox == s.outbox + [EventOf(o, s.orders[o], EventTypeOf(kind))]
    ensures Faithful(t, o)
  {
    var types := Types(s.outbox, o);
    TypesPush(s.outbox, EventOf(o, s.orders[o], EventTypeOf(kind)), o);
    ReplayPush(types, EventTypeOf(kind));
    LegalShape(types);
  }

  lemma StepIsFaithful(s: State, command: Command, o: nat)
    requires Faithful(s, o)
    ensures Faithful(SerialStep(s, command), o)
  {
    match command
    case Place(head, items) =>
      PlaceEffect(s, head, items);
      PlaceIsFaithful(s, head, items, o);
    case Handle(kind, p) =>
      HandleEffect(s, kind, p);
      if p < |s.orders| && Allows(kind, s.orders[p].status) {
        TypesPush(s.outbox, EventOf(p, s.orders[p], EventTypeOf(kind)), o);
        if p == o {
          MoveIsFaithful(s, SerialStep(s, command), kind, o);
        }
      }
  }

  // In serial runs the rows of an order replay to its stored status, are a prefix
  // of one of the two legal histories, and number one more than its version.
  lemma {:induction false} RowsReplayToStatus(commands: seq<Command>, o: nat)
    ensures Faithful(SerialRun(Init(), commands), o)
  {
    if commands != [] {
      var before := commands[..|commands| - 1];
      RowsReplayToStatus(before, o);
      StepIsFaithful(SerialRun(Init(), before), commands[|commands| - 1], o);
    }
  }

  lemma {:induction false} CancelledAbsorbs(s: State, commands: seq<Command>, o: nat)
    requires Cancelled(s, o)
    ensures Cancelled(SerialRun(s, commands), o)
    ensures SerialRun(s, commands).orders[o] == s.orders[o]
    ensures Types(SerialRun(s, commands).outbox, o) == Types(s.outbox, o)
  {
    if commands != [] {
      var before := SerialRun(s, commands[..|commands| - 1]);
      CancelledAbsorbs(s, commands[..|commands| - 1], o);
      match commands[|commands| - 1]
      case Place(head, items) =>
        PlaceEffect(before, head, items);
        TypesPush(before.outbox, SerialRun(s, commands).outbox[|before.outbox|], o);
      case Handle(kind, p) =>
        HandleEffect(before, kind, p);
        if SerialRun(s, commands) != before {
          TypesPush(before.outbox, SerialRun(s, commands).outbox[|before.outbox|], o);
        }
    }
  }
}
