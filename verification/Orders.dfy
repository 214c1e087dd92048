/**
 Orders and their outbox, cut at the awaits of the three status-changing
 operations: read and check, blind `updateStatus`, outbox insert.  Creation is
 one transaction.  Operations interleave freely and stop anywhere.

 An order is named by its place in creation order; `ops` is the history.
 */
module Orders {
  import opened Common
  import Sums

  datatype Status = PENDING | CONFIRMED | CANCELLED | FAILED

  // What validation returns: the server's price for a requested quantity.
  datatype Item = Item(productId: nat, sku: string, name: string, quantity: int, price: int)

  datatype Line = Line(productId: nat, sku: string, name: string, quantity: int, unitPrice: int, lineTotal: int)

  // What the request and the number generator give an order.
  datatype Head = Head(customer: nat, orderNumber: string, addressId: nat, paymentMethod: Option<string>)

  datatype Order = Order(head: Head, total: int, currency: string, lines: seq<Line>, status: Status, version: nat)

  datatype EventType = OrderCreated | OrderConfirmed | OrderCancelled

  datatype Money = Money(total: int, currency: string)

  datatype Details = Details(lines: seq<Line>, addressId: nat, paymentMethod: Option<string>)

  // A cancellation's payload carries a reason instead of the money; only a creation's has the details.
  datatype Event = Event(
    orderId: nat,
    eventType: EventType,
    customer: nat,
    orderNumber: string,
    money: Option<Money>,
    details: Option<Details>)

  datatype Kind = Confirm | CancelByInventory | CancelByUser

  datatype Phase = Read | Updated | Announced | Stopped(at: Phase)

  datatype Op = Op(kind: Kind, orderId: nat, phase: Phase)

  datatype State = State(orders: seq<Order>, outbox: seq<Event>, ops: seq<Op>)

  function Init(): State { State([], [], []) }

  /* ----- creation ----- */

  function LineOf(item: Item): Line {
    Line(item.productId, item.sku, item.name, item.quantity, item.price, item.price * item.quantity)
  }

  function LinesOf(items: seq<Item>): (lines: seq<Line>)
    ensures |lines| == |items|
  {
    seq(|items|, i requires 0 <= i < |items| => LineOf(items[i]))
  }

  function ItemTotal(): Item -> int { (item: Item) => item.price * item.quantity }
  function LineTotal(): Line -> int { (line: Line) => line.lineTotal }
  function LineCost(): Line -> int { (line: Line) => line.unitPrice * line.quantity }

  function NewOrder(head: Head, items: seq<Item>): Order {
    Order(head, Sums.Sum(ItemTotal(), items), "USD", LinesOf(items), PENDING, 0)
  }

  function EventOf(o: nat, order: Order, eventType: EventType): Event {
    Event(o, eventType, order.head.customer, order.head.orderNumber,
          if eventType == OrderCancelled then None else Some(Money(order.total, order.currency)),
          if eventType == OrderCreated
          then Some(Details(order.lines, order.head.addressId, order.head.paymentMethod)) else None)
  }

  /* ----- the actions ----- */

  datatype Action =
    | Create(head: Head, items: seq<Item>)
    | Begin(kind: Kind, orderId: nat)
    | Update(op: nat)
    | Announce(op: nat)
    | Stop(op: nat)

  // The guard each operation applies to the status it read.
  predicate Allows(kind: Kind, status: Status) {
    status == PENDING || (kind == CancelByUser && status == CONFIRMED)
  }

  function Target(kind: Kind): Status {
    if kind == Confirm then CONFIRMED else CANCELLED
  }

  function EventTypeOf(kind: Kind): EventType {
    if kind == Confirm then OrderConfirmed else OrderCancelled
  }

  predicate InPhase(s: State, i: nat, phase: Phase) {
    i < |s.ops| && s.ops[i].phase == phase
  }

  function WithPhase(s: State, i: nat, phase: Phase): seq<Op>
    requires i < |s.ops|
  {
    s.ops[i := s.ops[i].(phase := phase)]
  }

  function CreateStep(s: State, head: Head, items: seq<Item>): State {
    var order := NewOrder(head, items);
    s.(orders := s.orders + [order], outbox := s.outbox + [EventOf(|s.orders|, order, OrderCreated)])
  }

  function BeginStep(s: State, kind: Kind, o: nat): State {
    if o < |s.orders| && Allows(kind, s.orders[o].status)
    then s.(ops := s.ops + [Op(kind, o, Read)])
    else s
  }

  // updateStatus overwrites whatever the status is by now.
  function UpdateStep(s: State, i: nat): State {
    if !InPhase(s, i, Read) || s.ops[i].orderId >= |s.orders| then s
    else
      var o := s.ops[i].orderId;
      var order := s.orders[o].(status := Target(s.ops[i].kind), version := s.orders[o].version + 1);
      s.(orders := s.orders[o := order], ops := WithPhase(s, i, Updated))
  }

  function AnnounceStep(s: State, i: nat): State {
    if !InPhase(s, i, Updated) || s.ops[i].orderId >= |s.orders| then s
    else
      var o := s.ops[i].orderId;
      s.(outbox := s.outbox + [EventOf(o, s.orders[o], EventTypeOf(s.ops[i].kind))],
         ops := WithPhase(s, i, Announced))
  }

  function StopStep(s: State, i: nat): State {
    if InPhase(s, i, Read) || InPhase(s, i, Updated)
    then s.(ops := WithPhase(s, i, Stopped(s.ops[i].phase)))
    else s
  }

  function Step(s: State, a: Action): State {
    match a
    case Create(head, items) => CreateStep(s, head, items)
    case Begin(kind, o) => BeginStep(s, kind, o)
    case Update(i) => UpdateStep(s, i)
    case Announce(i) => AnnounceStep(s, i)
    case Stop(i) => StopStep(s, i)
  }

  function Run(s: State, actions: seq<Action>): State {
    if actions == [] then s else Step(Run(s, actions[..|actions| - 1]), actions[|actions| - 1])
  }

  /* ----- what every interleaved, crashing run keeps ----- */

  function RowFor(o: nat, eventType: EventType): Event -> int {
    (e: Event) => if e.orderId == o && e.eventType == eventType then 1 else 0
  }

  // Operations that changed the status and have not announced it: in flight or crashed there.
  function Unannounced(o: nat): Op -> int {
    (op: Op) => if op.orderId == o && (op.phase == Updated || op.phase == Stopped(Updated)) then 1 else 0
  }

  function Rows(s: State, o: nat, eventType: EventType): int { Sums.Sum(RowFor(o, eventType), s.outbox) }
  function Silent(s: State, o: nat): int { Sums.Sum(Unannounced(o), s.ops) }

  ghost predicate Counted(s: State, o: nat) {
    && Rows(s, o, OrderCreated) == (if o < |s.orders| then 1 else 0)
    && Rows(s, o, OrderConfirmed) + Rows(s, o, OrderCancelled) + Silent(s, o)
       == (if o < |s.orders| then s.orders[o].version else 0)
  }

  // An order's money is fixed at creation and every row of the outbox repeats it.
  predicate Priced(order: Order) {
    && order.currency == "USD"
    && order.total == Sums.Sum(LineTotal(), order.lines) == Sums.Sum(LineCost(), order.lines)
  }

  ghost predicate Inv(s: State) {
    && (forall op <- s.ops :: op.orderId < |s.orders|)
    && (forall e <- s.outbox :: e.orderId < |s.orders| && e == EventOf(e.orderId, s.orders[e.orderId], e.eventType))
    && (forall order <- s.orders :: Priced(order))
    && (forall o: nat :: Counted(s, o))
  }

  lemma {:induction false} LinesAddUp(items: seq<Item>)
    ensures Sums.Sum(ItemTotal(), items) == Sums.Sum(LineTotal(), LinesOf(items))
            == Sums.Sum(LineCost(), LinesOf(items))
  {
    if items != [] {
      var front := items[..|items| - 1];
      LinesAddUp(front);
      assert LinesOf(items)[..|items| - 1] == LinesOf(front);
    }
  }

  lemma RowsPush(s: State, t: State, e: Event)
    requires t.outbox == s.outbox + [e]
    ensures forall o: nat, k: EventType :: Rows(t, o, k) == Rows(s, o, k) + RowFor(o, k)(e)
  {
    forall o: nat, k: EventType
      ensures Rows(t, o, k) == Rows(s, o, k) + RowFor(o, k)(e)
    {
      Sums.Push(RowFor(o, k), s.outbox, e);
    }
  }

  lemma CreateKeepsInv(s: State, head: Head, items: seq<Item>)
    requires Inv(s)
    ensures Inv(CreateStep(s, head, items))
  {
    var t := CreateStep(s, head, items);
    LinesAddUp(items);
    RowsPush(s, t, t.outbox[|s.outbox|]);
    forall o: nat ensures Counted(t, o) {
      assert Counted(s, o);
    }
  }

  // How an operation's own move shifts the count of silent changes.
  lemma SilentSet(s: State, t: State, i: nat)
    requires i < |s.ops| == |t.ops| && t.ops == s.ops[i := t.ops[i]]
    ensures forall o: nat :: Silent(t, o) == Silent(s, o) - Unannounced(o)(s.ops[i]) + Unannounced(o)(t.ops[i])
  {
    forall o: nat ensures Silent(t, o) == Silent(s, o) - Unannounced(o)(s.ops[i]) + Unannounced(o)(t.ops[i]) {
      Sums.Set(Unannounced(o), s.ops, i, t.ops[i]);
    }
  }

  lemma BeginKeepsCounts(s: State, kind: Kind, p: nat)
    requires Inv(s)
    ensures forall o: nat :: Counted(BeginStep(s, kind, p), o)
  {
    var t := BeginStep(s, kind, p);
    forall o: nat ensures Counted(t, o) {
      assert Counted(s, o);
      if t != s {
        Sums.Push(Unannounced(o), s.ops, t.ops[|s.ops|]);
      }
    }
  }

  lemma AnnounceKeepsCounts(s: State, i: nat)
    requires Inv(s)
    ensures forall o: nat :: Counted(AnnounceStep(s, i), o)
  {
    var t := AnnounceStep(s, i);
    if t != s {
      SilentSet(s, t, i);
      RowsPush(s, t, t.outbox[|s.outbox|]);
    }
    forall o: nat ensures Counted(t, o) {
      assert Counted(s, o);
    }
  }

  lemma OpKeepsCounts(s: State, a: Action)
    requires Inv(s) && !a.Create?
    ensures forall o: nat :: Counted(Step(s, a), o)
  {
    if a.Begin? {
      BeginKeepsCounts(s, a.kind, a.orderId);
    } else if a.Announce? {
      AnnounceKeepsCounts(s, a.op);
    } else {
      var t := Step(s, a);
      if t != s { SilentSet(s, t, a.op); }
      forall o: nat ensures Counted(t, o) {
        assert Counted(s, o);
        assert forall k: EventType :: Rows(t, o, k) == Rows(s, o, k);
      }
    }
  }

  lemma OpKeepsOrders(s: State, a: Action)
    requires Inv(s) && !a.Create?
    ensures var t := Step(s, a);
      && |t.orders| == |s.orders|
      && (forall i | 0 <= i < |s.orders| ::
            t.orders[i] == s.orders[i].(status := t.orders[i].status, version := t.orders[i].version))
      && (forall op <- t.ops :: op.orderId < |t.orders|)
      && (forall e <- t.outbox :: e.orderId < |t.orders| && e == EventOf(e.orderId, t.orders[e.orderId], e.eventType))
  {
  }

  lemma OpKeepsInv(s: State, a: Action)
    requires Inv(s) && !a.Create?
    ensures Inv(Step(s, a))
  {
    var t := Step(s, a);
    OpKeepsCounts(s, a);
    OpKeepsOrders(s, a);
    forall i | 0 <= i < |t.orders| ensures Priced(t.orders[i]) {
      assert Priced(s.orders[i]);
    }
  }

  lemma {:induction false} RunKeepsInv(s: State, actions: seq<Action>)
    requires Inv(s)
    ensures Inv(Run(s, actions))
  {
    if actions != [] {
      RunKeepsInv(s, actions[..|actions| - 1]);
      var a := actions[|actions| - 1];
      if a.Create? {
        CreateKeepsInv(Run(s, actions[..|actions| - 1]), a.head, a.items);
      } else {
        OpKeepsInv(Run(s, actions[..|actions| - 1]), a);
      }
    }
  }

  lemma InitHolds()
    ensures Inv(Init())
  {
    forall o: nat ensures Counted(Init(), o) {}
  }

  // In every interleaved, crashing run each order has exactly one OrderCreated
  // row, and its version counts its status rows plus the changes nobody announced.
  lemma VersionCounts(actions: seq<Action>, o: nat)
    requires o < |Run(Init(), actions).orders|
    ensures var s := Run(Init(), actions);
      && Rows(s, o, OrderCreated) == 1
      && s.orders[o].version == Rows(s, o, OrderConfirmed) + Rows(s, o, OrderCancelled) + Silent(s, o)
  {
    InitHolds();
    RunKeepsInv(Init(), actions);
    assert Counted(Run(Init(), actions), o);
  }

  // Every outbox row carries the customer and the number of its order, unless it
  // announces a cancellation its total and currency, and if it announces the
  // creation its lines, address and payment method; the total is what the lines cost.
  lemma RowsCarryTheOrder(actions: seq<Action>, e: Event)
    requires e in Run(Init(), actions).outbox
    ensures var s := Run(Init(), actions);
      && e.orderId < |s.orders|
      && var order := s.orders[e.orderId];
         && e.customer == order.head.customer && e.orderNumber == order.head.orderNumber
         && (e.eventType != OrderCancelled ==> e.money == Some(Money(order.total, "USD")))
         && (e.eventType == OrderCreated ==>
               e.details == Some(Details(order.lines, order.head.addressId, order.head.paymentMethod)))
         && order.total == Sums.Sum(LineCost(), order.lines) == Sums.Sum(LineTotal(), order.lines)
  {
    InitHolds();
    RunKeepsInv(Init(), actions);
    assert Priced(Run(Init(), actions).orders[e.orderId]);
  }

  /* ----- is CANCELLED final? ----- */

  predicate Cancelled(s: State, o: nat) {
    o < |s.orders| && s.orders[o].status == CANCELLED
  }

  // A confirmation that read the order while it was PENDING and has yet to write.
  predicate ConfirmPending(s: State, o: nat) {
    exists i: nat | i < |s.ops| :: InPhase(s, i, Read) && s.ops[i].orderId == o && s.ops[i].kind == Confirm
  }

  lemma {:induction false} StaysCancelled(s: State, actions: seq<Action>, o: nat)
    requires Cancelled(s, o) && !ConfirmPending(s, o)
    ensures Cancelled(Run(s, actions), o) && !ConfirmPending(Run(s, actions), o)
  {
    if actions != [] {
      var before := Run(s, actions[..|actions| - 1]);
      var a := actions[|actions| - 1];
      StaysCancelled(s, actions[..|actions| - 1], o);
      if ConfirmPending(Step(before, a), o) {
        var i: nat :| i < |Step(before, a).ops| && InPhase(Step(before, a), i, Read)
                      && Step(before, a).ops[i].orderId == o && Step(before, a).ops[i].kind == Confirm;
        assert InPhase(before, i, Read);
        assert false;
      }
    }
  }

  lemma ConfirmOverwrites(s: State, o: nat) returns (actions: seq<Action>)
    requires Cancelled(s, o) && ConfirmPending(s, o)
    ensures !Cancelled(Run(s, actions), o)
  {
    var i: nat :| i < |s.ops| && InPhase(s, i, Read) && s.ops[i].orderId == o && s.ops[i].kind == Confirm;
    actions := [Update(i)];
    assert actions[..0] == [];
    assert Run(s, actions) == UpdateStep(s, i);
  }

  // CANCELLED is final exactly when no confirmation is between its read and its write.
  lemma CancelledIsFinalIff(s: State, o: nat)
    requires Cancelled(s, o)
    ensures (forall actions :: Cancelled(Run(s, actions), o)) <==> !ConfirmPending(s, o)
  {
    if ConfirmPending(s, o) {
      var actions := ConfirmOverwrites(s, o);
      assert !Cancelled(Run(s, actions), o);
    } else {
      forall actions ensures Cancelled(Run(s, actions), o) {
        StaysCancelled(s, actions, o);
      }
    }
  }

  lemma Run3(s: State, a: Action, b: Action, c: Action)
    ensures Run(s, [a, b, c]) == Step(Step(Step(s, a), b), c)
  {
    assert [a, b, c][..2] == [a, b] && [a, b][..1] == [a];
    assert Run(s, [a]) == Step(s, a);
    assert Run(s, [a, b]) == Step(Step(s, a), b);
  }
}
