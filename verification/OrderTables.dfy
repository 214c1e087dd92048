/**
 The order service and its inventory consumer as objects over one set of
 tables.  Each status change is three steps; run in a row they are the serial
 operation of OrderHistory.
 */
module OrderTables {
  import opened Common
  import opened Orders
  import opened OrderHistory
  import opened InventoryInbox
  import Sums

  datatype OrderError = NotFound | Forbidden | NotCancellable(status: Status) | RolledBack

  class OrderService {
    var orders: seq<Order>
    var outbox: seq<Event>
    var processed: map<nat, int>   // event id -> expires at
    ghost var ops: seq<Op>

    ghost function Abs(): State
      reads this
    {
      State(orders, outbox, ops)
    }

    constructor ()
      ensures Abs() == Init() && processed == map[]
    {
      orders, outbox, processed, ops := [], [], map[], [];
    }

    /* ----- createOrder ----- */

    // The reduce over the validated items.
    method TotalOf(items: seq<Item>) returns (total: int)
      ensures total == Sums.Sum(LineCost(), LinesOf(items))
    {
      total := 0;
      for i := 0 to |items|
        invariant total == Sums.Sum(ItemTotal(), items[..i])
      {
        assert items[..i + 1] == items[..i] + [items[i]];
        Sums.Push(ItemTotal(), items[..i], items[i]);
        total := total + items[i].price * items[i].quantity;
      }
      assert items[..|items|] == items;
      LinesAddUp(items);
    }

    // One transaction: the order, its lines and its OrderCreated row, or nothing.
    method CreateOrder(head: Head, items: seq<Item>, commits: bool) returns (r: Result<nat, OrderError>)
      modifies this`orders, this`outbox
      ensures commits ==>
        && r == Ok(|old(orders)|) && |orders| == |old(orders)| + 1
        && Abs() == SerialStep(old(Abs()), Place(head, items))
      ensures commits ==>
        var id := |old(orders)|;
        var order := orders[id];
        && orders[..id] == old(orders) && Priced(order)
        && order.head == head && order.currency == "USD" && order.status == PENDING && order.version == 0
        && |order.lines| == |items|
        && (forall i | 0 <= i < |items| ::
              order.lines[i] == Line(items[i].productId, items[i].sku, items[i].name, items[i].quantity,
                                     items[i].price, items[i].price * items[i].quantity))
        && outbox == old(outbox) + [Event(id, OrderCreated, head.customer, head.orderNumber,
                                          Some(Money(order.total, "USD")),
                                          Some(Details(order.lines, head.addressId, head.paymentMethod)))]
      ensures !commits ==> r == Err(RolledBack) && Abs() == old(Abs())
    {
      var total := TotalOf(items);
      var lines := [];
      for i := 0 to |items|
        invariant lines == LinesOf(items)[..i]
      {
        lines := lines + [Line(items[i].productId, items[i].sku, items[i].name, items[i].quantity,
                               items[i].price, items[i].price * items[i].quantity)];
      }
      assert lines == LinesOf(items);
      LinesAddUp(items);
      if !commits {
        return Err(RolledBack);
      }
      var id := |orders|;
      PlaceEffect(Abs(), head, items);
      orders := orders + [Order(head, total, "USD", lines, PENDING, 0)];
      outbox := outbox + [Event(id, OrderCreated, head.customer, head.orderNumber, Some(Money(total, "USD")),
                                Some(Details(lines, head.addressId, head.paymentMethod)))];
      r := Ok(id);
    }

    /* ----- the three steps of a status change ----- */

    method FindById(o: nat, kind: Kind) returns (order: Option<Order>, proceeds: bool, ghost i: nat)
      modifies this`ops
      ensures Abs() == Step(old(Abs()), Begin(kind, o)) && i == |old(ops)|
      ensures order == if o < |orders| then Some(orders[o]) else None
      ensures ops == if proceeds then old(ops) + [Op(kind, o, Read)] else old(ops)
      ensures proceeds <==> o < |orders| && (orders[o].status == PENDING
                                             || (kind == CancelByUser && orders[o].status == CONFIRMED))
    {
      i := |ops|;
      if o >= |orders| {
        return None, false, i;
      }
      order := Some(orders[o]);
      proceeds := orders[o].status == PENDING || (kind == CancelByUser && orders[o].status == CONFIRMED);
      if proceeds {
        ops := ops + [Op(kind, o, Read)];
      }
    }

    // The blind write: the status it overwrites is whatever it is by now.
    method UpdateStatus(o: nat, status: Status, ghost i: nat) returns (updated: Order)
      requires InPhase(Abs(), i, Read) && ops[i].orderId == o < |orders| && Target(ops[i].kind) == status
      modifies this`orders, this`ops
      ensures Abs() == Step(old(Abs()), Update(i))
      ensures updated == old(orders)[o].(status := status, version := old(orders)[o].version + 1)
      ensures orders == old(orders)[o := updated] && ops == old(ops)[i := old(ops)[i].(phase := Updated)]
    {
      updated := orders[o].(status := status, version := orders[o].version + 1);
      orders := orders[o := updated];
      ops := ops[i := ops[i].(phase := Updated)];
    }

    method CreateEntry(o: nat, eventType: EventType, order: Order, ghost i: nat)
      requires InPhase(Abs(), i, Updated) && ops[i].orderId == o < |orders|
      requires eventType != OrderCreated && EventTypeOf(ops[i].kind) == eventType
      requires order.head == orders[o].head && order.total == orders[o].total
               && order.currency == orders[o].currency
      modifies this`outbox, this`ops
      ensures Abs() == Step(old(Abs()), Announce(i))
      ensures outbox == old(outbox) +
        [Event(o, eventType, orders[o].head.customer, orders[o].head.orderNumber,
               if eventType == OrderCancelled then None else Some(Money(orders[o].total, orders[o].currency)), None)]
    {
      outbox := outbox + [Event(o, eventType, order.head.customer, order.head.orderNumber,
                                if eventType == OrderCancelled then None
                                else Some(Money(order.total, order.currency)), None)];
      ops := ops[i := ops[i].(phase := Announced)];
    }

    /* ----- the operations, uninterrupted ----- */

    method HandleInventoryReserved(o: nat)
      modifies this
      ensures Abs() == SerialStep(old(Abs()), Handle(Confirm, o)) && processed == old(processed)
      ensures if o < |old(orders)| && old(orders)[o].status == PENDING then
                var order := old(orders)[o];
                && orders == old(orders)[o := order.(status := CONFIRMED, version := order.version + 1)]
                && outbox == old(outbox) + [Event(o, OrderConfirmed, order.head.customer, order.head.orderNumber,
                                                  Some(Money(order.total, order.currency)), None)]
              else orders == old(orders) && outbox == old(outbox)
    {
      hide Run, Step;
      ghost var s := Abs();
      Run3(s, Begin(Confirm, o), Update(|s.ops|), Announce(|s.ops|));
      HandleEffect(s, Confirm, o);
      var order, proceeds, i := FindById(o, Confirm);
      if proceeds {
        var _ := UpdateStatus(o, CONFIRMED, i);
        CreateEntry(o, OrderConfirmed, order.value, i);
      }
    }

    method HandleInventoryReservationFailed(o: nat)
      modifies this
      ensures Abs() == SerialStep(old(Abs()), Handle(CancelByInventory, o)) && processed == old(processed)
      ensures if o < |old(orders)| && old(orders)[o].status == PENDING then
                var order := old(orders)[o];
                && orders == old(orders)[o := order.(status := CANCELLED, version := order.version + 1)]
                && outbox == old(outbox) + [Event(o, OrderCancelled, order.head.customer, order.head.orderNumber,
                                                  None, None)]
              else orders == old(orders) && outbox == old(outbox)
    {
      hide Run, Step;
      ghost var s := Abs();
      Run3(s, Begin(CancelByInventory, o), Update(|s.ops|), Announce(|s.ops|));
      HandleEffect(s, CancelByInventory, o);
      var order, proceeds, i := FindById(o, CancelByInventory);
      if proceeds {
        var _ := UpdateStatus(o, CANCELLED, i);
        CreateEntry(o, OrderCancelled, order.value, i);
      }
    }

    method CancelOrder(o: nat, permitted: bool) returns (r: Result<Order, OrderError>)
      modifies this
      ensures o >= |old(orders)| ==> r == Err(NotFound) && Abs() == old(Abs())
      ensures o < |old(orders)| && !permitted ==> r == Err(Forbidden) && Abs() == old(Abs())
      ensures o < |old(orders)| && permitted ==>
        && Abs() == SerialStep(old(Abs()), Handle(CancelByUser, o))
        && var order := old(orders)[o];
           if order.status == PENDING || order.status == CONFIRMED then
             && r == Ok(order.(status := CANCELLED, version := order.version + 1))
             && orders == old(orders)[o := r.value]
             && outbox == old(outbox) + [Event(o, OrderCancelled, order.head.customer, order.head.orderNumber,
                                               None, None)]
           else r == Err(NotCancellable(order.status)) && orders == old(orders) && outbox == old(outbox)
      ensures processed == old(processed)
    {
      if o >= |orders| {
        return Err(NotFound);
      }
      if !permitted {
        return Err(Forbidden);
      }
      hide Run, Step;
      ghost var s := Abs();
      Run3(s, Begin(CancelByUser, o), Update(|s.ops|), Announce(|s.ops|));
      HandleEffect(s, CancelByUser, o);
      var order, proceeds, i := FindById(o, CancelByUser);
      if !proceeds {
        return Err(NotCancellable(order.value.status));
      }
      var updated := UpdateStatus(o, CANCELLED, i);
      CreateEntry(o, OrderCancelled, order.value, i);
      r := Ok(updated);
    }

    /* ----- the inventory consumer ----- */

    method IsEventProcessed(id: nat, now: int) returns (found: bool)
      modifies this`processed
      ensures found <==> id in old(processed) && now <= old(processed)[id]
      ensures processed == if found then old(processed) else old(processed) - {id}
    {
      if id !in processed {
        assert processed - {id} == processed;
        return false;
      }
      if processed[id] < now {
        processed := processed - {id};
        return false;
      }
      return true;
    }

    method MarkEventProcessed(id: nat, now: int, ttl: int)
      modifies this`processed
      ensures forall t :: Remembered(processed, id, t) <==> t <= now + ttl
      ensures processed == old(processed)[id := now + ttl]
    {
      processed := processed[id := now + ttl];
    }

    method ProcessInventoryEvent(event: InventoryEvent, now: int, later: int, marks: bool, ttl: int)
      modifies this
      ensures Inbox(Abs(), processed) == Process(Inbox(old(Abs()), old(processed)), event, now, later, marks, ttl)
      ensures var id := event.eventId;
        var o := event.orderId;
        if id.None? || (id.value in old(processed) && now <= old(processed)[id.value]) then
          orders == old(orders) && outbox == old(outbox) && processed == old(processed)
        else
          && processed == (if marks then (old(processed) - {id.value})[id.value := later + ttl]
                           else old(processed) - {id.value})
          && if event.eventType == Unknown || o >= |old(orders)| || old(orders)[o].status != PENDING then
               orders == old(orders) && outbox == old(outbox)
             else
               var order := old(orders)[o];
               var reserved := event.eventType == InventoryReserved;
               && orders == old(orders)[o := order.(status := if reserved then CONFIRMED else CANCELLED,
                                                    version := order.version + 1)]
               && outbox == old(outbox) + [Event(o, if reserved then OrderConfirmed else OrderCancelled,
                                                 order.head.customer, order.head.orderNumber,
                                                 if reserved then Some(Money(order.total, order.currency)) else None,
                                                 None)]
    {
      if event.eventId.None? {
        return;
      }
      var seen := IsEventProcessed(event.eventId.value, now);
      if seen {
        return;
      }
      match event.eventType {
        case InventoryReserved => HandleInventoryReserved(event.orderId);
        case InventoryReservationFailed => HandleInventoryReservationFailed(event.orderId);
        case Unknown =>
      }
      if marks {
        MarkEventProcessed(event.eventId.value, later, ttl);
      }
    }
  }
}
