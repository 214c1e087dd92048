/**
 From the order to its payment: the order tables, the order relay with its
 topic, the payment consumer's duplicate check and the payment service, all
 interleaved.  Rows may be published many times, messages delivered many times
 and in any order, and every process may stop anywhere.
 */
module Pipeline {
  import opened Common
  import Orders
  import OrderRelay
  import PaymentInbox
  import Payments
  import PaymentCharges
  import Sums

  // `fromOrders` are the charge attempts that were begun for an OrderCreated message.
  datatype State = State(
    orders: Orders.State,
    relay: OrderRelay.State,
    dedup: map<nat, int>,
    pay: Payments.State,
    fromOrders: set<nat>)

  datatype Action =
    | OnOrders(order: Orders.Action, eventId: nat)
    | OnRelay(relay: OrderRelay.Action)
    | Deliver(message: nat, now: int, key: nat, survives: bool)
    | OnPayments(payment: Payments.Action)

  function Init(pollers: nat): State {
    State(Orders.Init(), OrderRelay.Init(pollers), map[], Payments.Init(), {})
  }

  // The order tables and the outbox share a database: a row that the outbox
  // refuses takes the change that came with it back.
  function OrderStep(s: State, a: Orders.Action, eventId: nat): State {
    var t := Orders.Step(s.orders, a);
    if |t.outbox| <= |s.orders.outbox| then s.(orders := t)
    else if !OrderRelay.FreshEvent(s.relay, eventId) then s
    else s.(orders := t, relay := OrderRelay.InsertStep(s.relay, eventId, t.outbox[|t.outbox| - 1]))
  }

  // processOrderCreated: the message's own total, currency and customer.
  function CallFor(e: Orders.Event, key: nat): Payments.ChargeCall
    requires e.money.Some?
  {
    Payments.ChargeCall(e.orderId, e.customer, e.money.value.total, e.money.value.currency, key)
  }

  // The key is taken before the handler starts; a consumer that does not survive stops in between.
  ghost function DeliverStep(s: State, m: nat, now: int, key: nat, survives: bool): State {
    if m >= |s.relay.topic| then s
    else
      var e := s.relay.topic[m];
      var d := PaymentInbox.Delivery(e.eventId, now);
      if PaymentInbox.Seen(s.dedup, d) then s
      else
        var taken := s.(dedup := PaymentInbox.SetIfAbsent(s.dedup, d));
        if survives && e.eventType == Orders.OrderCreated && e.value.money.Some? then
          var pay := Payments.StartChargeStep(s.pay, CallFor(e.value, key));
          taken.(pay := pay,
                 fromOrders := if |pay.ops| > |s.pay.ops| then s.fromOrders + {|s.pay.ops|} else s.fromOrders)
        else taken
  }

  ghost function Step(s: State, a: Action): State {
    match a
    case OnOrders(order, eventId) => OrderStep(s, order, eventId)
    case OnRelay(relay) => if relay.Insert? then s else s.(relay := OrderRelay.Step(s.relay, relay))
    case Deliver(m, now, key, survives) => DeliverStep(s, m, now, key, survives)
    case OnPayments(payment) => s.(pay := Payments.Step(s.pay, payment))
  }

  ghost function Run(s: State, actions: seq<Action>): State {
    if actions == [] then s else Step(Run(s, actions[..|actions| - 1]), actions[|actions| - 1])
  }

  /* ----- what every run keeps ----- */

  // The charge asks for what the persisted order says.
  predicate AsOrdered(orders: Orders.State, call: Payments.ChargeCall) {
    && call.orderId < |orders.orders|
    && var order := orders.orders[call.orderId];
    && call.customer == order.head.customer && call.amount == order.total && call.currency == order.currency
  }

  predicate SameTable(s: State) {
    && |s.relay.rows| == |s.orders.outbox|
    && forall i | 0 <= i < |s.relay.rows| :: s.relay.rows[i].payload == s.orders.outbox[i]
  }

  predicate ChargesAsOrdered(s: State) {
    forall i <- s.fromOrders ::
      i < |s.pay.ops| && s.pay.ops[i].work.Charge? && AsOrdered(s.orders, s.pay.ops[i].work.call)
  }

  ghost predicate Inv(s: State) {
    && Orders.Inv(s.orders) && OrderRelay.Faithful(s.relay) && PaymentCharges.Inv(s.pay)
    && SameTable(s) && ChargesAsOrdered(s)
  }

  // An order's customer and money never change.
  lemma OrdersStay(s: Orders.State, a: Orders.Action, call: Payments.ChargeCall)
    requires Orders.Inv(s) && AsOrdered(s, call)
    ensures AsOrdered(Orders.Step(s, a), call)
  {
    if !a.Create? { Orders.OpKeepsOrders(s, a); }
  }

  lemma OrdersKeepInv(s: Orders.State, a: Orders.Action)
    requires Orders.Inv(s)
    ensures Orders.Inv(Orders.Step(s, a))
  {
    if a.Create? { Orders.CreateKeepsInv(s, a.head, a.items); } else { Orders.OpKeepsInv(s, a); }
  }

  // An order action adds at most one outbox row, at the end.
  lemma OutboxGrows(s: Orders.State, a: Orders.Action)
    ensures var t := Orders.Step(s, a);
      t.outbox == s.outbox || (t.outbox != [] && t.outbox == s.outbox + [t.outbox[|t.outbox| - 1]])
  {
  }

  lemma OrderStepKeepsInv(s: State, a: Orders.Action, eventId: nat)
    requires Inv(s)
    ensures Inv(OrderStep(s, a, eventId))
  {
    hide Orders.Step, Orders.Inv, PaymentCharges.Inv, AsOrdered, OrderRelay.Faithful;
    OrdersKeepInv(s.orders, a);
    OutboxGrows(s.orders, a);
    forall i <- s.fromOrders ensures AsOrdered(Orders.Step(s.orders, a), s.pay.ops[i].work.call) {
      OrdersStay(s.orders, a, s.pay.ops[i].work.call);
    }
    var t := Orders.Step(s.orders, a);
    if |t.outbox| > |s.orders.outbox| {
      var e := t.outbox[|t.outbox| - 1];
      assert OrderRelay.InsertStep(s.relay, eventId, e) == OrderRelay.Step(s.relay, OrderRelay.Insert(eventId, e));
      OrderRelay.StepKeepsFaithful(s.relay, OrderRelay.Insert(eventId, e));
    }
  }

  lemma RelayStepKeepsRows(s: OrderRelay.State, a: OrderRelay.Action)
    requires !a.Insert?
    ensures var t := OrderRelay.Step(s, a);
      |t.rows| == |s.rows| && forall i | 0 <= i < |s.rows| :: t.rows[i].payload == s.rows[i].payload
  {
  }

  // No payment action changes what an earlier attempt charges for.
  lemma CallsStay(s: Payments.State, a: Payments.Action)
    ensures var t := Payments.Step(s, a);
      && |s.ops| <= |t.ops|
      && (forall i | 0 <= i < |s.ops| ::
            && t.ops[i].work.Charge? == s.ops[i].work.Charge?
            && (s.ops[i].work.Charge? ==> t.ops[i].work.call == s.ops[i].work.call))
      && (forall i | |s.ops| <= i < |t.ops| && t.ops[i].work.Charge? ::
            i == |s.ops| && a.StartCharge?
            && t.ops[i].work.call == a.call.(currency := Payments.EffectiveCurrency(a.call.currency)))
  {
  }

  lemma PayStepKeepsInv(s: Payments.State, a: Payments.Action)
    requires PaymentCharges.Inv(s)
    ensures PaymentCharges.Inv(Payments.Step(s, a))
  {
    PaymentCharges.StepKeepsRows(s, a);
    PaymentCharges.StepKeepsUnique(s, a);
    PaymentCharges.StepKeepsProvider(s, a);
    PaymentCharges.StepKeepsLedger(s, a);
  }

  // Every message speaks for an order: its customer, and its money unless it cancels.
  lemma MessageSpeaksForOrder(s: State, m: nat, key: nat)
    requires Inv(s) && m < |s.relay.topic| && s.relay.topic[m].eventType == Orders.OrderCreated
    ensures var e := s.relay.topic[m].value;
      && e.money.Some? && e.money.value.currency == "USD" && AsOrdered(s.orders, CallFor(e, key))
  {
    var i := s.relay.source[m];
    assert s.relay.topic[m] == OrderRelay.MessageOf(s.relay.rows[i]);
    assert s.orders.outbox[i] in s.orders.outbox;
    assert Orders.Priced(s.orders.orders[s.orders.outbox[i].orderId]);
  }

  lemma DeliverKeepsInv(s: State, m: nat, now: int, key: nat, survives: bool)
    requires Inv(s)
    ensures Inv(DeliverStep(s, m, now, key, survives))
  {
    hide PaymentCharges.Inv, Orders.Inv, OrderRelay.Faithful, PaymentInbox.Seen, PaymentInbox.SetIfAbsent;
    hide Payments.Exists;
    if m < |s.relay.topic| && s.relay.topic[m].eventType == Orders.OrderCreated {
      MessageSpeaksForOrder(s, m, key);
      var a := Payments.StartCharge(CallFor(s.relay.topic[m].value, key));
      PayStepKeepsInv(s.pay, a);
    }
  }

  lemma StepKeepsInv(s: State, a: Action)
    requires Inv(s)
    ensures Inv(Step(s, a))
  {
    hide PaymentCharges.Inv, Orders.Inv, OrderRelay.Faithful, DeliverStep, OrderStep, Payments.Step, OrderRelay.Step;
    match a
    case OnOrders(order, eventId) => OrderStepKeepsInv(s, order, eventId);
    case OnRelay(relay) =>
      OrderRelay.StepKeepsFaithful(s.relay, relay);
      if !relay.Insert? { RelayStepKeepsRows(s.relay, relay); }
    case Deliver(m, now, key, survives) => DeliverKeepsInv(s, m, now, key, survives);
    case OnPayments(payment) =>
      CallsStay(s.pay, payment);
      PayStepKeepsInv(s.pay, payment);
  }

  lemma InitHolds(pollers: nat)
    ensures Inv(Init(pollers))
  {
    Orders.InitHolds();
    PaymentCharges.InitHolds();
  }

  lemma {:induction false} RunKeepsInv(s: State, actions: seq<Action>)
    requires Inv(s)
    ensures Inv(Run(s, actions))
  {
    hide Inv, Step;
    if actions != [] {
      RunKeepsInv(s, actions[..|actions| - 1]);
      StepKeepsInv(Run(s, actions[..|actions| - 1]), actions[|actions| - 1]);
    }
  }

  /* ----- the payment of an order ----- */

  // The payment row p says what its order says, and the order's total is what its lines cost.
  predicate PaysItsOrder(s: State, p: nat)
    requires p in s.pay.payments
  {
    var payment := s.pay.payments[p];
    && payment.orderId < |s.orders.orders|
    && var order := s.orders.orders[payment.orderId];
    && payment.customer == order.head.customer && payment.currency == order.currency
    && payment.amount == order.total
       == Sums.Sum(Orders.LineCost(), order.lines) == Sums.Sum(Orders.LineTotal(), order.lines)
  }

  lemma RowPaysItsOrder(s: State, p: nat)
    requires Inv(s) && p in s.pay.payments && p in s.fromOrders
    ensures PaysItsOrder(s, p)
  {
    assert PaymentCharges.RowOfCharge(s.pay, p);
    var order := s.orders.orders[s.pay.payments[p].orderId];
    assert order in s.orders.orders && Orders.Priced(order);
  }

  // However often rows are published and messages delivered, and whoever stops
  // where: each payment begun by an OrderCreated message has the customer, the
  // currency and the total of a persisted order, it is that order's only payment,
  // and its one CHARGE row is for the sum of the order's lines.
  lemma PaidAsOrdered(pollers: nat, actions: seq<Action>, p: nat)
    requires var s := Run(Init(pollers), actions);
      p in s.pay.payments && p in s.fromOrders
    ensures var s := Run(Init(pollers), actions);
      && PaysItsOrder(s, p)
      && (forall q <- s.pay.payments :: s.pay.payments[q].orderId == s.pay.payments[p].orderId ==> q == p)
      && PaymentCharges.ChargeRows(s.pay, p) == 1
      && PaymentCharges.LedgerCharged(s.pay, p) == s.pay.payments[p].amount
  {
    InitHolds(pollers);
    RunKeepsInv(Init(pollers), actions);
    var s := Run(Init(pollers), actions);
    RowPaysItsOrder(s, p);
    assert PaymentCharges.ChargeRows(s.pay, p) == 1;
    forall q | q in s.pay.payments && s.pay.payments[q].orderId == s.pay.payments[p].orderId ensures q == p {
      assert Payments.Matches(s.pay.payments[p], s.pay.payments[q].orderId, s.pay.payments[q].key);
    }
  }

  /* ----- when orders are charged only through their events ----- */

  // Nobody uses the synchronous charge endpoint.
  predicate NoDirectCharge(a: Action) {
    a.OnPayments? ==> !a.payment.StartCharge?
  }

  predicate AllFromOrders(s: State) {
    && (forall i: nat | i < |s.pay.ops| && s.pay.ops[i].work.Charge? :: i in s.fromOrders)
    && (forall o <- s.pay.charged :: o < |s.orders.orders| && s.pay.charged[o].amount == s.orders.orders[o].total)
  }

  // The provider only ever gains entries that some attempt asked for.
  lemma ChargedComesFrom(s: Payments.State, a: Payments.Action)
    ensures var t := Payments.Step(s, a);
      forall o <- t.charged ::
        || (o in s.charged && t.charged[o] == s.charged[o])
        || exists i: nat | i < |s.ops| && s.ops[i].work.Charge? ::
             s.ops[i].work.call.orderId == o && s.ops[i].work.call.amount == t.charged[o].amount
  {
  }

  lemma OrderTotalsStay(s: State, a: Orders.Action, eventId: nat)
    requires Inv(s)
    ensures var t := OrderStep(s, a, eventId);
      && |s.orders.orders| <= |t.orders.orders|
      && forall o | 0 <= o < |s.orders.orders| :: t.orders.orders[o].total == s.orders.orders[o].total
  {
    if !a.Create? { Orders.OpKeepsOrders(s.orders, a); }
  }

  lemma PayStepKeepsSource(s: State, a: Payments.Action)
    requires Inv(s) && AllFromOrders(s) && !a.StartCharge?
    ensures AllFromOrders(s.(pay := Payments.Step(s.pay, a)))
  {
    hide PaymentCharges.Inv, Orders.Inv, OrderRelay.Faithful, Payments.Step;
    CallsStay(s.pay, a);
    ChargedComesFrom(s.pay, a);
    var t := Payments.Step(s.pay, a);
    forall o | o in t.charged
      ensures o < |s.orders.orders| && t.charged[o].amount == s.orders.orders[o].total
    {
      if !(o in s.pay.charged && t.charged[o] == s.pay.charged[o]) {
        var i: nat :| i < |s.pay.ops| && s.pay.ops[i].work.Charge?
                      && s.pay.ops[i].work.call.orderId == o && s.pay.ops[i].work.call.amount == t.charged[o].amount;
        assert AsOrdered(s.orders, s.pay.ops[i].work.call);
      }
    }
  }

  lemma StepKeepsSource(s: State, a: Action)
    requires Inv(s) && AllFromOrders(s) && NoDirectCharge(a)
    ensures AllFromOrders(Step(s, a))
  {
    hide PaymentCharges.Inv, Orders.Inv, OrderRelay.Faithful, Payments.Step, Orders.Step, OrderRelay.Step;
    hide PaymentInbox.Seen, PaymentInbox.SetIfAbsent, Inv;
    match a
    case OnOrders(order, eventId) => OrderTotalsStay(s, order, eventId);
    case OnRelay(_) =>
    case Deliver(_, _, _, _) =>
    case OnPayments(payment) => PayStepKeepsSource(s, payment);
  }

  lemma {:induction false} RunKeepsSource(s: State, actions: seq<Action>)
    requires Inv(s) && AllFromOrders(s) && forall a <- actions :: NoDirectCharge(a)
    ensures AllFromOrders(Run(s, actions))
  {
    hide Inv, Step, AllFromOrders;
    if actions != [] {
      var front := actions[..|actions| - 1];
      assert forall a <- front :: a in actions;
      RunKeepsInv(s, front);
      RunKeepsSource(s, front);
      StepKeepsSource(Run(s, front), actions[|actions| - 1]);
    }
  }

  // With no direct charges every payment pays its order, every order the
  // provider was asked to charge exists and was charged its own total, and a
  // PROCESSED payment stands for such a charge.
  lemma ProviderTookTheTotal(pollers: nat, actions: seq<Action>)
    requires forall a <- actions :: NoDirectCharge(a)
    ensures var s := Run(Init(pollers), actions);
      && (forall p <- s.pay.payments :: PaysItsOrder(s, p))
      && (forall o <- s.pay.charged :: o < |s.orders.orders| && s.pay.charged[o].amount == s.orders.orders[o].total)
      && (forall p <- s.pay.payments | s.pay.payments[p].status == Payments.PROCESSED ::
            s.pay.payments[p].orderId in s.pay.charged
            && s.pay.charged[s.pay.payments[p].orderId].amount == s.pay.payments[p].amount)
  {
    InitHolds(pollers);
    RunKeepsInv(Init(pollers), actions);
    RunKeepsSource(Init(pollers), actions);
    var s := Run(Init(pollers), actions);
    forall p | p in s.pay.payments
      ensures PaysItsOrder(s, p)
      ensures s.pay.payments[p].status == Payments.PROCESSED ==> s.pay.payments[p].orderId in s.pay.charged
    {
      assert PaymentCharges.RowOfCharge(s.pay, p);
      RowPaysItsOrder(s, p);
    }
  }
}
