/**
 The payment service as it is written: an object over its tables and its
 provider.  Each await is a method of its own, so that the step system of
 Payments is what the class does; each public call, when nothing comes between
 its awaits, is the run of those steps.

 The provider's behaviour and the clock are parameters.  `ops` is what the calls
 in flight hold in local variables, and with it which inserts and row locks the
 database has open: a call that meets one waits there.
 */
module PaymentService {
  import opened Common
  import opened Payments
  import PaymentRefunds

  datatype RefundError =
    | NotFound
    | NoTransaction
    | NotRefundable(status: PaymentStatus)
    | NotPositive
    | ExceedsAvailable
    | ProviderFailed
    | Waiting // for the transaction that holds the payment's row

  datatype Append = Done | Duplicate | Waits

  class PaymentsService {
    var payments: map<nat, Payment>
    var ledger: seq<LedgerEntry>
    var outbox: seq<OutboxRow>
    var charged: map<nat, Charged>
    var refunds: seq<Moved>
    var drawn: nat              // uuids drawn so far
    var ops: seq<Op>

    predicate Valid()
      reads this
    {
      drawn == |ops|
    }

    function Abs(): State
      reads this
    {
      State(payments, ledger, outbox, charged, refunds, ops)
    }

    constructor ()
      ensures Valid() && Abs() == Init()
    {
      payments, ledger, outbox, charged, refunds, drawn, ops := map[], [], [], map[], [], 0, [];
    }

    /* ----- charge, await by await ----- */

    method CheckExisting(call: ChargeCall) returns (existing: Option<Payment>, id: nat)
      requires Valid()
      modifies this
      ensures Valid() && Abs() == Step(old(Abs()), StartCharge(call))
      ensures existing.Some? <==> exists p <- old(payments) ::
                old(payments)[p].orderId == call.orderId || old(payments)[p].key == call.key
      ensures existing.Some? ==> (existing.value.orderId == call.orderId || existing.value.key == call.key)
                                 && existing.value in old(payments).Values
      ensures existing.None? ==> id == old(drawn) && drawn == id + 1
    {
      id := drawn;
      if exists p <- payments :: Matches(payments[p], call.orderId, call.key) {
        var p :| p in payments && Matches(payments[p], call.orderId, call.key);
        existing := Some(payments[p]);
      } else {
        existing := None;
        drawn := drawn + 1;
        ops := ops + [Op(Work.Charge(call.(currency := EffectiveCurrency(call.currency)), Answer(false, None)), Asked)];
      }
    }

    method ChargeProvider(id: nat, call: ChargeCall, answer: Answer, reaches: bool, heard: bool) returns (told: Answer)
      requires Valid() && InPhase(Abs(), id, true, Asked) && ops[id].work.call == call
      modifies this
      ensures Valid() && Abs() == Step(old(Abs()), AnswerCharge(id, answer, reaches, heard))
      ensures InPhase(Abs(), id, true, Answered) && ops[id].work == Work.Charge(call, told)
      ensures told == if !reaches || !heard then Answer(false, None)
                      else if call.orderId in old(charged) then old(charged)[call.orderId].answer
                      else answer
      ensures charged == if !reaches || call.orderId in old(charged) then old(charged)
                         else old(charged)[call.orderId := Charged(call.amount, call.currency, answer)]
    {
      if reaches && call.orderId !in charged {
        charged := charged[call.orderId := Charged(call.amount, call.currency, answer)];
      }
      told := if reaches && heard then charged[call.orderId].answer else Answer(false, None);
      ops := ops[id := Op(Work.Charge(call, told), Answered)];
    }

    // Insert the payment row, then append the event on a connection of its own.
    // The insert fails on a duplicate, and waits while another insert of the order or the key is open.
    method AppendChargeEvent(id: nat, call: ChargeCall, told: Answer) returns (r: Append)
      requires Valid() && InPhase(Abs(), id, true, Answered) && ops[id].work == Work.Charge(call, told)
      modifies this`outbox, this`ops
      ensures Valid()
      ensures r == Waits <==> ChargeLocked(old(Abs()), call)
      ensures r == Duplicate <==> !ChargeLocked(old(Abs()), call) && Exists(payments, call.orderId, call.key)
      ensures Abs() == Step(old(Abs()), if r == Duplicate then Stop(id) else AppendCharge(id))
      ensures r == Waits ==> Abs() == old(Abs())
      ensures r == Done ==> InPhase(Abs(), id, true, Appended)
      ensures r == Done ==>
        outbox == old(outbox) + [OutboxRow(id, id, if told.success then PaymentSucceeded else PaymentFailed,
                                           call.orderId, call.customer, call.amount, Some(call.currency), 0,
                                           if told.success then PROCESSED else FAILED, told.txn)]
    {
      if ChargeLocked(Abs(), call) {
        return Waits;
      }
      if exists p <- payments :: Matches(payments[p], call.orderId, call.key) {
        ops := ops[id := ops[id].(phase := Stopped(Answered))];
        return Duplicate;
      }
      var row := OutboxRow(id, id, if told.success then PaymentSucceeded else PaymentFailed,
                           call.orderId, call.customer, call.amount, Some(call.currency), 0,
                           if told.success then PROCESSED else FAILED, told.txn);
      outbox := outbox + [row];
      ops := ops[id := ops[id].(phase := Appended)];
      r := Done;
    }

    method CommitPayment(id: nat, call: ChargeCall, told: Answer) returns (row: Payment)
      requires Valid() && InPhase(Abs(), id, true, Appended) && ops[id].work == Work.Charge(call, told)
      modifies this`payments, this`ledger, this`ops
      ensures Valid() && Abs() == Step(old(Abs()), CommitCharge(id))
      ensures row == Payment(call.orderId, call.customer, call.amount, call.currency,
                             if told.success then PROCESSED else FAILED, told.txn, call.key, 0)
      ensures payments == old(payments)[id := row]
      ensures ledger == old(ledger) + [LedgerEntry(id, id, CHARGE, call.amount)]
    {
      row := Payment(call.orderId, call.customer, call.amount, call.currency,
                     if told.success then PROCESSED else FAILED, told.txn, call.key, 0);
      payments := payments[id := row];
      ledger := ledger + [LedgerEntry(id, id, CHARGE, call.amount)];
      ops := ops[id := ops[id].(phase := Committed)];
    }

    // A whole call: the existing payment, or the four steps above in a row.  None
    // stands for a call that got as far as waiting for another insert of the order or the key.
    method Charge(orderId: nat, customer: nat, amount: int, currency: string, key: Option<nat>, generated: nat,
                  answer: Answer, reaches: bool, heard: bool) returns (row: Option<Payment>)
      requires Valid()
      modifies this
      ensures Valid()
      ensures var k := if key.Some? then key.value else generated;
        var call := ChargeCall(orderId, customer, amount, currency, k);
        var effective := if currency != "" then currency else "USD";
        var id := old(drawn);
        var told := if !reaches || !heard then Answer(false, None)
                    else if orderId in old(charged) then old(charged)[orderId].answer
                    else answer;
        var status := if told.success then PROCESSED else FAILED;
        if exists p <- old(payments) :: old(payments)[p].orderId == orderId || old(payments)[p].key == k then
          && Abs() == old(Abs())
          && row.Some? && row.value in payments.Values && (row.value.orderId == orderId || row.value.key == k)
        else
          && charged == (if !reaches || orderId in old(charged) then old(charged)
                         else old(charged)[orderId := Charged(amount, effective, answer)])
          && if ChargeLocked(old(Abs()), call) then
               && Abs() == Step(Step(old(Abs()), StartCharge(call)), AnswerCharge(id, answer, reaches, heard))
               && row == None && payments == old(payments) && ledger == old(ledger) && outbox == old(outbox)
             else
               && Abs() == Run(old(Abs()), [StartCharge(call), AnswerCharge(id, answer, reaches, heard),
                                            AppendCharge(id), CommitCharge(id)])
               && row == Some(Payment(orderId, customer, amount, effective, status, told.txn, k, 0))
               && payments == old(payments)[id := row.value]
               && ledger == old(ledger) + [LedgerEntry(id, id, CHARGE, amount)]
               && outbox == old(outbox) + [OutboxRow(id, id, if told.success then PaymentSucceeded else PaymentFailed,
                                                     orderId, customer, amount, Some(effective), 0, status, told.txn)]
    {
      var call := ChargeCall(orderId, customer, amount, currency, if key.Some? then key.value else generated);
      var existing, id := CheckExisting(call);
      if existing.Some? {
        return existing;
      }
      var c := call.(currency := EffectiveCurrency(currency));
      ghost var s0 := old(Abs());
      ghost var s1 := Abs();
      assert ChargeLocked(s1, c) <==> ChargeLocked(s0, call) by { LockedAfter(s0, s1, call, c); }
      var told := ChargeProvider(id, c, answer, reaches, heard);
      assert ChargeLocked(Abs(), c) <==> ChargeLocked(s1, c) by { LockedAfter(s1, Abs(), c, c); }
      var appended := AppendChargeEvent(id, c, told);
      if appended == Waits {
        return None;
      }
      var committed := CommitPayment(id, c, told);
      Run4(s0, StartCharge(call), AnswerCharge(id, answer, reaches, heard), AppendCharge(id), CommitCharge(id));
      row := Some(committed);
    }

    /* ----- refunds, await by await ----- */

    method ReadSnapshot(paymentId: nat, amount: int) returns (snap: Result<Payment, RefundError>, id: nat)
      requires Valid()
      modifies this`drawn, this`ops
      ensures Valid() && Abs() == Step(old(Abs()), StartRefund(paymentId, amount))
      ensures snap == if paymentId !in payments then Err(NotFound)
                      else if payments[paymentId].txn.None? then Err(NoTransaction)
                      else Ok(payments[paymentId])
      ensures snap.Ok? ==> id == old(drawn) && ops == old(ops) + [Op(Refund(paymentId, amount, snap.value, 0), Asked)]
      ensures snap.Err? ==> Abs() == old(Abs())
    {
      id := drawn;
      if paymentId !in payments {
        return Err(NotFound), id;
      }
      if payments[paymentId].txn.None? {
        return Err(NoTransaction), id;
      }
      snap := Ok(payments[paymentId]);
      drawn := drawn + 1;
      ops := ops + [Op(Refund(paymentId, amount, payments[paymentId], 0), Asked)];
    }

    method RefundProvider(id: nat, paymentId: nat, amount: int, millis: int, reaches: bool, success: bool)
      returns (told: bool)
      requires Valid() && InPhase(Abs(), id, false, Asked)
      requires ops[id].work.paymentId == paymentId && ops[id].work.amount == amount
      modifies this`refunds, this`ops
      ensures Valid() && Abs() == Step(old(Abs()), AnswerRefund(id, millis, reaches, success))
      ensures told == (reaches && success && 0 <= amount) == InPhase(Abs(), id, false, Answered)
      ensures refunds == if reaches && 0 <= amount
                            && !exists m <- old(refunds) :: m.paymentId == paymentId && m.millis == millis
                         then old(refunds) + [Moved(paymentId, millis, amount)] else old(refunds)
      ensures id < |ops| && ops[id].work == old(ops)[id].work.(moved := ops[id].work.moved)
      ensures ops == old(ops)[id := ops[id]] && (told || ops[id].phase == Stopped(Asked))
    {
      told := reaches && 0 <= amount && success;
      var moved := 0;
      if reaches && 0 <= amount && !exists m <- refunds :: m.paymentId == paymentId && m.millis == millis {
        refunds := refunds + [Moved(paymentId, millis, amount)];
        moved := amount;
      }
      ops := ops[id := Op(ops[id].work.(moved := moved), if told then Answered else Stopped(Asked))];
    }

    // The update before the append waits while another transaction holds the row.
    method AppendRefundEvent(id: nat, paymentId: nat, amount: int, snap: Payment) returns (waits: bool)
      requires Valid() && InPhase(Abs(), id, false, Answered)
      requires ops[id].work == Refund(paymentId, amount, snap, ops[id].work.moved)
      modifies this`outbox, this`ops
      ensures Valid() && Abs() == Step(old(Abs()), AppendRefund(id))
      ensures waits == RowLocked(old(Abs()), paymentId)
      ensures if waits then Abs() == old(Abs()) else InPhase(Abs(), id, false, Appended)
      ensures !waits ==> ops == old(ops)[id := old(ops)[id].(phase := Appended)]
      ensures !waits ==>
        var total := snap.refunded + amount;
        outbox == old(outbox) + [
          OutboxRow(id, paymentId, RefundIssued, snap.orderId, snap.customer, amount, None, total,
                    if total >= snap.amount then REFUNDED else PARTIALLY_REFUNDED, snap.txn)]
    {
      if RowLocked(Abs(), paymentId) {
        return true;
      }
      var total := snap.refunded + amount;
      outbox := outbox + [OutboxRow(id, paymentId, RefundIssued, snap.orderId, snap.customer, amount, None, total,
                                    if total >= snap.amount then REFUNDED else PARTIALLY_REFUNDED, snap.txn)];
      ops := ops[id := ops[id].(phase := Appended)];
      waits := false;
    }

    method CommitRefundRow(id: nat, paymentId: nat, amount: int, snap: Payment) returns (row: Payment)
      requires Valid() && InPhase(Abs(), id, false, Appended) && paymentId in payments
      requires ops[id].work == Refund(paymentId, amount, snap, ops[id].work.moved)
      modifies this`payments, this`ledger, this`ops
      ensures Valid() && Abs() == Step(old(Abs()), CommitRefund(id))
      ensures var total := snap.refunded + amount;
        row == old(payments)[paymentId].(refunded := total,
                                         status := if total >= snap.amount then REFUNDED else PARTIALLY_REFUNDED)
      ensures payments == old(payments)[paymentId := row]
      ensures ledger == old(ledger) + [LedgerEntry(id, paymentId, REFUND, amount)]
    {
      var total := snap.refunded + amount;
      row := payments[paymentId].(refunded := total,
                                  status := if total >= snap.amount then REFUNDED else PARTIALLY_REFUNDED);
      payments := payments[paymentId := row];
      ledger := ledger + [LedgerEntry(id, paymentId, REFUND, amount)];
      ops := ops[id := ops[id].(phase := Committed)];
    }

    // A whole refund with nothing in between: the four steps, or none past the provider's refusal.
    method ExecuteRefund(paymentId: nat, amount: int, millis: int, reaches: bool, success: bool)
      returns (r: Result<Payment, RefundError>)
      requires Valid()
      modifies this
      ensures Valid() && charged == old(charged)
      ensures var id := old(drawn);
        if paymentId !in old(payments) then r == Err(NotFound) && Abs() == old(Abs())
        else if old(payments)[paymentId].txn.None? then r == Err(NoTransaction) && Abs() == old(Abs())
        else if reaches && success && 0 <= amount && !RowLocked(old(Abs()), paymentId) then
          && Abs() == Run(old(Abs()), [StartRefund(paymentId, amount), AnswerRefund(id, millis, reaches, success),
                                       AppendRefund(id), CommitRefund(id)])
          && Abs() == RefundDone(old(Abs()), paymentId, amount, millis)
          && r.Ok?
        else
          && r == Err(if reaches && success && 0 <= amount then Waiting else ProviderFailed)
          && Abs() == Step(Step(old(Abs()), StartRefund(paymentId, amount)), AnswerRefund(id, millis, reaches, success))
      // What is written, field by field.
      ensures r.Ok? ==>
        var row := old(payments)[paymentId];
        var total := row.refunded + amount;
        var status := if total >= row.amount then REFUNDED else PARTIALLY_REFUNDED;
        && r == Ok(row.(refunded := total, status := status))
        && payments == old(payments)[paymentId := r.value]
        && ledger == old(ledger) + [LedgerEntry(old(drawn), paymentId, REFUND, amount)]
        && outbox == old(outbox) + [OutboxRow(old(drawn), paymentId, RefundIssued, row.orderId, row.customer,
                                              amount, None, total, status, row.txn)]
      ensures r.Err? ==> payments == old(payments) && ledger == old(ledger) && outbox == old(outbox)
      // What the provider is asked for, whatever comes of it.
      ensures paymentId in old(payments) && old(payments)[paymentId].txn.Some? ==>
        refunds == if reaches && 0 <= amount
                      && !exists m <- old(refunds) :: m.paymentId == paymentId && m.millis == millis
                   then old(refunds) + [Moved(paymentId, millis, amount)] else old(refunds)
    {
      hide Step, Run, RefundDone, RowLocked, KeySeen;
      ghost var s0 := Abs();
      var snap, id := ReadSnapshot(paymentId, amount);
      if snap.Err? {
        return Err(snap.error);
      }
      var told := RefundProvider(id, paymentId, amount, millis, reaches, success);
      if !told {
        return Err(ProviderFailed);
      }
      assert RowLocked(Abs(), paymentId) <==> RowLocked(s0, paymentId) by { RowLockedAfter(s0, Abs(), paymentId); }
      var waits := AppendRefundEvent(id, paymentId, amount, snap.value);
      if waits {
        return Err(Waiting);
      }
      var row := CommitRefundRow(id, paymentId, amount, snap.value);
      Run4(s0, StartRefund(paymentId, amount), AnswerRefund(id, millis, reaches, success),
           AppendRefund(id), CommitRefund(id));
      RefundAlone(s0, paymentId, amount, millis);
      return Ok(row);
    }

    // The REST endpoint: a refund goes through exactly when the payment was charged,
    // the amount is in (0, remaining], and the provider and the row allow it.
    method RequestRefund(paymentId: nat, requested: Option<int>, millis: int, reaches: bool, success: bool)
      returns (r: Result<Payment, RefundError>)
      requires Valid()
      modifies this
      ensures Valid()
      ensures paymentId !in old(payments) ==> r == Err(NotFound) && Abs() == old(Abs())
      ensures paymentId in old(payments) ==>
        var row := old(payments)[paymentId];
        var amount := if requested.Some? then requested.value else row.amount - row.refunded;
        if row.status != PROCESSED && row.status != PARTIALLY_REFUNDED
        then r == Err(NotRefundable(row.status)) && Abs() == old(Abs())
        else if amount <= 0 then r == Err(NotPositive) && Abs() == old(Abs())
        else if amount > row.amount - row.refunded then r == Err(ExceedsAvailable) && Abs() == old(Abs())
        else if row.txn.None? then r == Err(NoTransaction) && Abs() == old(Abs())
        else if !reaches || !success then r == Err(ProviderFailed)
        else if RowLocked(old(Abs()), paymentId) then r == Err(Waiting)
        else
          && r == Ok(row.(refunded := row.refunded + amount,
                          status := if row.refunded + amount == row.amount then REFUNDED else PARTIALLY_REFUNDED))
          && payments == old(payments)[paymentId := r.value]
          && ledger == old(ledger) + [LedgerEntry(old(drawn), paymentId, REFUND, amount)]
          && Abs() == RefundDone(old(Abs()), paymentId, amount, millis)
      ensures r.Err? ==> payments == old(payments) && ledger == old(ledger) && outbox == old(outbox)
    {
      hide RefundDone, RowLocked;
      if paymentId !in payments {
        return Err(NotFound);
      }
      var row := payments[paymentId];
      if row.status != PROCESSED && row.status != PARTIALLY_REFUNDED {
        return Err(NotRefundable(row.status));
      }
      var amount := if requested.Some? then requested.value else row.amount - row.refunded;
      if amount <= 0 {
        return Err(NotPositive);
      }
      if amount > row.amount - row.refunded {
        return Err(ExceedsAvailable);
      }
      r := ExecuteRefund(paymentId, amount, millis, reaches, success);
    }

    // The event's amount goes straight on.
    method ProcessRefundRequired(paymentId: nat, amount: int, millis: int, reaches: bool, success: bool)
      returns (r: Result<Payment, RefundError>)
      requires Valid()
      modifies this
      ensures Valid()
      ensures r.Ok? <==> paymentId in old(payments) && old(payments)[paymentId].txn.Some?
                         && reaches && success && 0 <= amount && !RowLocked(old(Abs()), paymentId)
      ensures r.Ok? ==>
        && r == Ok(old(payments)[paymentId].(refunded := r.value.refunded, status := r.value.status))
        && r.value.refunded == old(payments)[paymentId].refunded + amount
        && r.value.status == (if r.value.refunded >= r.value.amount then REFUNDED else PARTIALLY_REFUNDED)
        && payments == old(payments)[paymentId := r.value]
        && ledger == old(ledger) + [LedgerEntry(old(drawn), paymentId, REFUND, amount)]
        && Abs() == RefundDone(old(Abs()), paymentId, amount, millis)
      ensures r.Err? ==> payments == old(payments) && ledger == old(ledger) && outbox == old(outbox)
    {
      hide RefundDone, RowLocked;
      r := ExecuteRefund(paymentId, amount, millis, reaches, success);
    }

    // The saga compensation: the order's payment, if it has one, is refunded what remains.
    method ProcessInventoryReservationFailed(orderId: nat, millis: int, reaches: bool, success: bool)
      returns (ghost paymentId: nat, r: Result<Payment, RefundError>)
      requires Valid()
      modifies this
      ensures Valid()
      ensures (forall p <- old(payments) :: old(payments)[p].orderId != orderId) ==>
              r == Err(NotFound) && Abs() == old(Abs())
      ensures (exists p <- old(payments) :: old(payments)[p].orderId == orderId) ==>
        && paymentId in old(payments) && old(payments)[paymentId].orderId == orderId
        && var row := old(payments)[paymentId];
           var rest := row.amount - row.refunded;
        && (r.Ok? <==> row.txn.Some? && reaches && success && 0 <= rest && !RowLocked(old(Abs()), paymentId))
        && (r.Ok? ==>
              && r == Ok(row.(refunded := row.amount, status := REFUNDED))
              && payments == old(payments)[paymentId := r.value]
              && ledger == old(ledger) + [LedgerEntry(old(drawn), paymentId, REFUND, rest)]
              && Abs() == Run(old(Abs()), PaymentRefunds.Compensation(old(Abs()), paymentId, millis)))
        && (row.txn.Some? ==>
              refunds == if reaches && 0 <= rest
                            && !exists m <- old(refunds) :: m.paymentId == paymentId && m.millis == millis
                         then old(refunds) + [Moved(paymentId, millis, rest)] else old(refunds))
      ensures r.Err? ==> payments == old(payments) && ledger == old(ledger) && outbox == old(outbox)
    {
      hide RefundDone, RowLocked, Run;
      if p :| p in payments && payments[p].orderId == orderId {
        paymentId := p;
        r := ExecuteRefund(p, payments[p].amount - payments[p].refunded, millis, reaches, success);
      } else {
        paymentId, r := 0, Err(NotFound);
      }
    }

    // The OrderCreated handler passes `amount`, or `totalAmount` when that is missing.
    method ProcessOrderCreated(orderId: nat, customer: nat, amount: Option<int>, totalAmount: int, currency: string,
                               key: Option<nat>, generated: nat, answer: Answer, reaches: bool, heard: bool)
      returns (row: Option<Payment>)
      requires Valid()
      modifies this
      ensures Valid()
      ensures var k := if key.Some? then key.value else generated;
        var total := if amount.Some? then amount.value else totalAmount;
        var effective := if currency != "" then currency else "USD";
        var told := if !reaches || !heard then Answer(false, None)
                    else if orderId in old(charged) then old(charged)[orderId].answer
                    else answer;
        if exists p <- old(payments) :: old(payments)[p].orderId == orderId || old(payments)[p].key == k then
          Abs() == old(Abs())
        else
          && charged == (if !reaches || orderId in old(charged) then old(charged)
                         else old(charged)[orderId := Charged(total, effective, answer)])
          && if row.None? then
               && ChargeLocked(old(Abs()), ChargeCall(orderId, customer, total, currency, k))
               && payments == old(payments) && ledger == old(ledger) && outbox == old(outbox)
             else
               && row == Some(Payment(orderId, customer, total, effective,
                                      if told.success then PROCESSED else FAILED, told.txn, k, 0))
               && payments == old(payments)[old(drawn) := row.value]
               && ledger == old(ledger) + [LedgerEntry(old(drawn), old(drawn), CHARGE, total)]
    {
      row := Charge(orderId, customer, if amount.Some? then amount.value else totalAmount, currency, key, generated,
                    answer, reaches, heard);
    }
  }

  // A call that is asking or has its answer holds no insert.
  lemma LockedAfter(s: State, t: State, call: ChargeCall, c: ChargeCall)
    requires c == call.(currency := c.currency) && |s.ops| <= |t.ops|
    requires forall i | 0 <= i < |s.ops| ::
      t.ops[i] == s.ops[i] || (s.ops[i].phase == Asked && t.ops[i].phase == Answered)
    requires forall i | |s.ops| <= i < |t.ops| :: t.ops[i].phase == Asked
    ensures ChargeLocked(t, c) <==> ChargeLocked(s, call)
  {
    if ChargeLocked(s, call) {
      var j: nat :| j < |s.ops| && s.ops[j].work.Charge? && s.ops[j].phase == Appended
                    && (s.ops[j].work.call.orderId == call.orderId || s.ops[j].work.call.key == call.key);
      assert t.ops[j] == s.ops[j];
    }
  }

  lemma RowLockedAfter(s: State, t: State, p: nat)
    requires |s.ops| <= |t.ops|
    requires forall i | 0 <= i < |s.ops| :: t.ops[i] == s.ops[i]
    requires forall i | |s.ops| <= i < |t.ops| :: t.ops[i].phase != Appended
    ensures RowLocked(t, p) <==> RowLocked(s, p)
  {
    if RowLocked(s, p) {
      var j: nat :| j < |s.ops| && s.ops[j].work.Refund? && s.ops[j].phase == Appended && s.ops[j].work.paymentId == p;
      assert t.ops[j] == s.ops[j];
    }
  }
}
