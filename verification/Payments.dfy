/**
 The payment service cut at its awaits.  One action is one answered await: a
 row read, a provider call, the outbox append (which commits by itself) or the
 commit of the payment transaction.  Any number of charges and refunds are in
 flight at once, actions of different operations interleave freely, and Stop
 drops an operation at any await (a crash, or an exception).

 Operations are never forgotten: `ops` is the history, and the position of an
 operation in it stands for the uuids that the operation draws (payment id,
 ledger id and event id).
 */
module Payments {
  import opened Common

  datatype PaymentStatus = PENDING | PROCESSED | FAILED | REFUNDED | PARTIALLY_REFUNDED

  datatype Payment = Payment(
    orderId: nat,
    customer: nat,
    amount: int,
    currency: string,
    status: PaymentStatus,
    txn: Option<nat>,
    key: nat,
    refunded: int)

  datatype EntryType = CHARGE | REFUND

  datatype LedgerEntry = LedgerEntry(id: nat, paymentId: nat, kind: EntryType, amount: int)

  datatype EventType = PaymentSucceeded | PaymentFailed | RefundIssued

  datatype OutboxRow = OutboxRow(
    eventId: nat,
    aggregateId: nat,
    eventType: EventType,
    orderId: nat,
    customer: nat,
    amount: int,
    currency: Option<string>, // a refund's payload has none
    refunded: int,
    status: PaymentStatus,
    txn: Option<nat>)

  // What the provider tells the caller, and what it keeps under an idempotency key.
  datatype Answer = Answer(success: bool, txn: Option<nat>)
  datatype Charged = Charged(amount: int, currency: string, answer: Answer)
  datatype Moved = Moved(paymentId: nat, millis: int, amount: int)

  datatype ChargeCall = ChargeCall(orderId: nat, customer: nat, amount: int, currency: string, key: nat)

  datatype Phase =
    | Asked              // the first read is done, the provider call is out
    | Answered           // the provider reported success (refund) or anything (charge)
    | Appended           // the transaction holds its row, the outbox row is committed
    | Committed
    | Stopped(at: Phase) // crashed or threw while in phase `at`

  datatype Work =
    | Charge(call: ChargeCall, answer: Answer)
    | Refund(paymentId: nat, amount: int, snap: Payment, moved: int)

  datatype Op = Op(work: Work, phase: Phase)

  datatype State = State(
    payments: map<nat, Payment>,
    ledger: seq<LedgerEntry>,
    outbox: seq<OutboxRow>,
    charged: map<nat, Charged>,
    refunds: seq<Moved>,
    ops: seq<Op>)

  function Init(): State {
    State(map[], [], [], map[], [], [])
  }

  /* ----- the actions ----- */

  datatype Action =
    | StartCharge(call: ChargeCall)
    | AnswerCharge(op: nat, answer: Answer, reaches: bool, heard: bool)
    | AppendCharge(op: nat)
    | CommitCharge(op: nat)
    | StartRefund(paymentId: nat, amount: int)
    | AnswerRefund(op: nat, millis: int, reaches: bool, success: bool)
    | AppendRefund(op: nat)
    | CommitRefund(op: nat)
    | Stop(op: nat)

  predicate InPhase(s: State, i: nat, charge: bool, phase: Phase) {
    i < |s.ops| && s.ops[i].work.Charge? == charge && s.ops[i].phase == phase
  }

  // findOne with `where: [{ orderId }, { idempotencyKey }]` matches on either column.
  predicate Matches(p: Payment, orderId: nat, key: nat) {
    p.orderId == orderId || p.key == key
  }

  predicate Exists(payments: map<nat, Payment>, orderId: nat, key: nat) {
    exists p <- payments :: Matches(payments[p], orderId, key)
  }

  function EffectiveCurrency(currency: string): string {
    if currency == "" then "USD" else currency
  }

  function StartChargeStep(s: State, call: ChargeCall): State {
    if Exists(s.payments, call.orderId, call.key) then s
    else s.(ops := s.ops + [Op(Charge(call.(currency := EffectiveCurrency(call.currency)),
                                      Answer(false, None)), Asked)])
  }

  // The provider call is keyed by the order.  Under a key it has seen the
  // provider repeats its first answer; the call may also fail to reach it, or
  // the answer may be lost, and then the caller sees a plain failure.
  function ChargedAfter(s: State, call: ChargeCall, answer: Answer, reaches: bool): map<nat, Charged> {
    if reaches && call.orderId !in s.charged
    then s.charged[call.orderId := Charged(call.amount, call.currency, answer)]
    else s.charged
  }

  function HeardAnswer(charged: map<nat, Charged>, orderId: nat, heard: bool): Answer {
    if heard && orderId in charged then charged[orderId].answer else Answer(false, None)
  }

  function AnswerChargeStep(s: State, i: nat, answer: Answer, reaches: bool, heard: bool): State {
    if !InPhase(s, i, true, Asked) then s
    else
      var call := s.ops[i].work.call;
      var charged := ChargedAfter(s, call, answer, reaches);
      s.(charged := charged,
         ops := s.ops[i := Op(Charge(call, HeardAnswer(charged, call.orderId, reaches && heard)), Answered)])
  }

  // Another transaction that has inserted a row with the same unique value.
  predicate ChargeLocked(s: State, call: ChargeCall) {
    exists j: nat | j < |s.ops| ::
      s.ops[j].work.Charge? && s.ops[j].phase == Appended &&
      (s.ops[j].work.call.orderId == call.orderId || s.ops[j].work.call.key == call.key)
  }

  function ChargeStatus(answer: Answer): PaymentStatus {
    if answer.success then PROCESSED else FAILED
  }

  function ChargeEvent(i: nat, call: ChargeCall, answer: Answer): OutboxRow {
    OutboxRow(i, i, if answer.success then PaymentSucceeded else PaymentFailed,
              call.orderId, call.customer, call.amount, Some(call.currency), 0, ChargeStatus(answer), answer.txn)
  }

  // The insert waits for the unique index and fails on a duplicate, so the
  // append that follows it happens only while neither is in the way.
  function AppendChargeStep(s: State, i: nat): State {
    if !InPhase(s, i, true, Answered) || ChargeLocked(s, s.ops[i].work.call)
       || Exists(s.payments, s.ops[i].work.call.orderId, s.ops[i].work.call.key) then s
    else s.(outbox := s.outbox + [ChargeEvent(i, s.ops[i].work.call, s.ops[i].work.answer)],
            ops := s.ops[i := s.ops[i].(phase := Appended)])
  }

  function NewPayment(call: ChargeCall, answer: Answer): Payment {
    Payment(call.orderId, call.customer, call.amount, call.currency,
            ChargeStatus(answer), answer.txn, call.key, 0)
  }

  function CommitChargeStep(s: State, i: nat): State {
    if !InPhase(s, i, true, Appended) then s
    else s.(payments := s.payments[i := NewPayment(s.ops[i].work.call, s.ops[i].work.answer)],
            ledger := s.ledger + [LedgerEntry(i, i, CHARGE, s.ops[i].work.call.amount)],
            ops := s.ops[i := s.ops[i].(phase := Committed)])
  }

  // executeRefund reads its snapshot; without a row or a provider transaction it throws.
  function StartRefundStep(s: State, p: nat, amount: int): State {
    if p !in s.payments || s.payments[p].txn.None? then s
    else s.(ops := s.ops + [Op(Refund(p, amount, s.payments[p], 0), Asked)])
  }

  predicate KeySeen(refunds: seq<Moved>, p: nat, millis: int) {
    exists m <- refunds :: m.paymentId == p && m.millis == millis
  }

  // The refund key is the payment id and the clock reading.  A provider that
  // has seen the key moves no money; success implies a non-negative amount.
  function AnswerRefundStep(s: State, i: nat, millis: int, reaches: bool, success: bool): State {
    if !InPhase(s, i, false, Asked) then s
    else
      var Refund(p, amount, snap, _) := s.ops[i].work;
      var accepted := reaches && 0 <= amount;
      var moves := accepted && !KeySeen(s.refunds, p, millis);
      s.(refunds := if moves then s.refunds + [Moved(p, millis, amount)] else s.refunds,
         ops := s.ops[i := Op(Refund(p, amount, snap, if moves then amount else 0),
                              if accepted && success then Answered else Stopped(Asked))])
  }

  predicate RowLocked(s: State, p: nat) {
    exists j: nat | j < |s.ops| ::
      s.ops[j].work.Refund? && s.ops[j].phase == Appended && s.ops[j].work.paymentId == p
  }

  function RefundTotal(w: Work): int
    requires w.Refund?
  {
    w.snap.refunded + w.amount
  }

  function RefundStatus(w: Work): PaymentStatus
    requires w.Refund?
  {
    if RefundTotal(w) >= w.snap.amount then REFUNDED else PARTIALLY_REFUNDED
  }

  function RefundEvent(i: nat, w: Work): OutboxRow
    requires w.Refund?
  {
    OutboxRow(i, w.paymentId, RefundIssued, w.snap.orderId, w.snap.customer,
              w.amount, None, RefundTotal(w), RefundStatus(w), w.snap.txn)
  }

  // The update takes the payment's row lock before the append and keeps it until the commit.
  function AppendRefundStep(s: State, i: nat): State {
    if !InPhase(s, i, false, Answered) || RowLocked(s, s.ops[i].work.paymentId) then s
    else s.(outbox := s.outbox + [RefundEvent(i, s.ops[i].work)],
            ops := s.ops[i := s.ops[i].(phase := Appended)])
  }

  function CommitRefundStep(s: State, i: nat): State {
    if !InPhase(s, i, false, Appended) || s.ops[i].work.paymentId !in s.payments then s
    else
      var w := s.ops[i].work;
      s.(payments := s.payments[w.paymentId := s.payments[w.paymentId].(refunded := RefundTotal(w),
                                                                        status := RefundStatus(w))],
         ledger := s.ledger + [LedgerEntry(i, w.paymentId, REFUND, w.amount)],
         ops := s.ops[i := s.ops[i].(phase := Committed)])
  }

  predicate Live(op: Op) {
    op.phase == Asked || op.phase == Answered || op.phase == Appended
  }

  function StopStep(s: State, i: nat): State {
    if i < |s.ops| && Live(s.ops[i])
    then s.(ops := s.ops[i := s.ops[i].(phase := Stopped(s.ops[i].phase))])
    else s
  }

  // An action whose operation is not at that await changes nothing.
  function Step(s: State, a: Action): State {
    match a
    case StartCharge(call) => StartChargeStep(s, call)
    case AnswerCharge(i, answer, reaches, heard) => AnswerChargeStep(s, i, answer, reaches, heard)
    case AppendCharge(i) => AppendChargeStep(s, i)
    case CommitCharge(i) => CommitChargeStep(s, i)
    case StartRefund(p, amount) => StartRefundStep(s, p, amount)
    case AnswerRefund(i, millis, reaches, success) => AnswerRefundStep(s, i, millis, reaches, success)
    case AppendRefund(i) => AppendRefundStep(s, i)
    case CommitRefund(i) => CommitRefundStep(s, i)
    case Stop(i) => StopStep(s, i)
  }

  function Run(s: State, actions: seq<Action>): State {
    if actions == [] then s else Step(Run(s, actions[..|actions| - 1]), actions[|actions| - 1])
  }

  // Every action of the run meets the condition in the state it is taken in.
  ghost predicate Throughout(s: State, actions: seq<Action>, allowed: (State, Action) -> bool) {
    actions == [] ||
    (var before := actions[..|actions| - 1];
     Throughout(s, before, allowed) && allowed(Run(s, before), actions[|actions| - 1]))
  }

  lemma {:induction false} RunConcat(s: State, first: seq<Action>, rest: seq<Action>)
    ensures Run(s, first + rest) == Run(Run(s, first), rest)
  {
    if rest == [] {
      assert first + rest == first;
    } else {
      var before := rest[..|rest| - 1];
      assert (first + rest)[..|first + rest| - 1] == first + before;
      RunConcat(s, first, before);
    }
  }

  lemma Run4(s: State, a: Action, b: Action, c: Action, d: Action)
    ensures Run(s, [a, b, c, d]) == Step(Step(Step(Step(s, a), b), c), d)
  {
    assert [a, b, c, d][..3] == [a, b, c] && [a, b, c][..2] == [a, b] && [a, b][..1] == [a];
    assert Run(s, [a]) == Step(s, a);
    assert Run(s, [a, b]) == Step(Step(s, a), b);
    assert Run(s, [a, b, c]) == Step(Step(Step(s, a), b), c);
  }

  /* ----- one operation run to its end with nothing in between ----- */

  function ChargeActions(call: ChargeCall, i: nat, answer: Answer): seq<Action> {
    [StartCharge(call), AnswerCharge(i, answer, true, true), AppendCharge(i), CommitCharge(i)]
  }

  function RefundActions(p: nat, amount: int, i: nat, millis: int): seq<Action> {
    [StartRefund(p, amount), AnswerRefund(i, millis, true, true), AppendRefund(i), CommitRefund(i)]
  }

  lemma SetLast<T>(s: seq<T>, x: T, y: T)
    ensures (s + [x])[|s| := y] == s + [y]
  {
  }

  function RefundDone(s: State, p: nat, amount: int, millis: int): State
    requires p in s.payments
  {
    var snap := s.payments[p];
    var moves := !KeySeen(s.refunds, p, millis);
    var w := Refund(p, amount, snap, if moves then amount else 0);
    State(
      s.payments[p := snap.(refunded := snap.refunded + amount, status := RefundStatus(w))],
      s.ledger + [LedgerEntry(|s.ops|, p, REFUND, amount)],
      s.outbox + [RefundEvent(|s.ops|, w)],
      s.charged,
      if moves then s.refunds + [Moved(p, millis, amount)] else s.refunds,
      s.ops + [Op(w, Committed)])
  }

  // The read and the accepted provider call.
  lemma AnswerAlone(s: State, p: nat, amount: int, millis: int)
    requires p in s.payments && s.payments[p].txn.Some? && 0 <= amount
    ensures var moves := !KeySeen(s.refunds, p, millis);
      Step(Step(s, StartRefund(p, amount)), AnswerRefund(|s.ops|, millis, true, true)) ==
      s.(refunds := if moves then s.refunds + [Moved(p, millis, amount)] else s.refunds,
         ops := s.ops + [Op(Refund(p, amount, s.payments[p], if moves then amount else 0), Answered)])
  {
    var moves := !KeySeen(s.refunds, p, millis);
    var asked := s.(ops := s.ops + [Op(Refund(p, amount, s.payments[p], 0), Asked)]);
    assert Step(s, StartRefund(p, amount)) == asked;
    SetLast(s.ops, Op(Refund(p, amount, s.payments[p], 0), Asked),
            Op(Refund(p, amount, s.payments[p], if moves then amount else 0), Answered));
  }

  // A refund the provider accepts, started while no transaction holds the row.
  lemma RefundAlone(s: State, p: nat, amount: int, millis: int)
    requires p in s.payments && s.payments[p].txn.Some? && 0 <= amount && !RowLocked(s, p)
    ensures var t, row := Run(s, RefundActions(p, amount, |s.ops|, millis)), s.payments[p];
      var total := row.refunded + amount;
      var status := if total >= row.amount then REFUNDED else PARTIALLY_REFUNDED;
      && t == RefundDone(s, p, amount, millis)
      && t.payments == s.payments[p := row.(refunded := total, status := status)]
      && t.ledger == s.ledger + [LedgerEntry(|s.ops|, p, REFUND, amount)]
      && t.outbox == s.outbox + [OutboxRow(|s.ops|, p, RefundIssued, row.orderId, row.customer, amount, None,
                                           total, status, row.txn)]
      && t.refunds == (if KeySeen(s.refunds, p, millis) then s.refunds else s.refunds + [Moved(p, millis, amount)])
      && t.charged == s.charged
  {
    hide Step, KeySeen, Run;
    var i := |s.ops|;
    Run4(s, StartRefund(p, amount), AnswerRefund(i, millis, true, true), AppendRefund(i), CommitRefund(i));
    AnswerAlone(s, p, amount, millis);
    var answered := Step(Step(s, StartRefund(p, amount)), AnswerRefund(i, millis, true, true));
    CommitAlone(s, answered, answered.ops[i].work);
  }

  // The append and the commit of the last operation.
  lemma CommitAlone(s: State, answered: State, w: Work)
    requires w.Refund? && w.paymentId in s.payments && !RowLocked(s, w.paymentId)
    requires answered == s.(refunds := answered.refunds, ops := s.ops + [Op(w, Answered)])
    ensures Step(Step(answered, AppendRefund(|s.ops|)), CommitRefund(|s.ops|)) == State(
      s.payments[w.paymentId := s.payments[w.paymentId].(refunded := RefundTotal(w), status := RefundStatus(w))],
      s.ledger + [LedgerEntry(|s.ops|, w.paymentId, REFUND, w.amount)],
      s.outbox + [RefundEvent(|s.ops|, w)],
      s.charged,
      answered.refunds,
      s.ops + [Op(w, Committed)])
  {
    var i := |s.ops|;
    SetLast(s.ops, Op(w, Answered), Op(w, Appended));
    SetLast(s.ops, Op(w, Appended), Op(w, Committed));
    assert !RowLocked(answered, w.paymentId);
    var appended := answered.(outbox := s.outbox + [RefundEvent(i, w)], ops := s.ops + [Op(w, Appended)]);
    assert Step(answered, AppendRefund(i)) == appended;
  }

  // A charge of an order without a payment, the provider reached and heard; if it
  // has charged the order before, it says what it said then.
  lemma ChargeAlone(s: State, call: ChargeCall, answer: Answer)
    requires !Exists(s.payments, call.orderId, call.key) && !ChargeLocked(s, call)
    ensures var i, told := |s.ops|, if call.orderId in s.charged then s.charged[call.orderId].answer else answer;
      var currency := if call.currency != "" then call.currency else "USD";
      var status := if told.success then PROCESSED else FAILED;
      Run(s, ChargeActions(call, i, answer)) == State(
        s.payments[i := Payment(call.orderId, call.customer, call.amount, currency, status, told.txn, call.key, 0)],
        s.ledger + [LedgerEntry(i, i, CHARGE, call.amount)],
        s.outbox + [OutboxRow(i, i, if told.success then PaymentSucceeded else PaymentFailed,
                              call.orderId, call.customer, call.amount, Some(currency), 0, status, told.txn)],
        if call.orderId in s.charged then s.charged
        else s.charged[call.orderId := Charged(call.amount, currency, answer)],
        s.refunds,
        s.ops + [Op(Charge(call.(currency := currency), told), Committed)])
  {
    Run4(s, StartCharge(call), AnswerCharge(|s.ops|, answer, true, true), AppendCharge(|s.ops|), CommitCharge(|s.ops|));
    ChargeWritten(s, call, answer, true, true);
  }

  // What the caller of a charge is told.
  function Told(s: State, orderId: nat, answer: Answer, reaches: bool, heard: bool): Answer {
    if !reaches || !heard then Answer(false, None)
    else if orderId in s.charged then s.charged[orderId].answer
    else answer
  }

  // The four steps of a charge that nothing stands in the way of, the call
  // reaching the provider or not, its answer coming back or not.
  lemma ChargeWritten(s: State, call: ChargeCall, answer: Answer, reaches: bool, heard: bool)
    requires !Exists(s.payments, call.orderId, call.key) && !ChargeLocked(s, call)
    ensures var i, told := |s.ops|, Told(s, call.orderId, answer, reaches, heard);
      var currency := if call.currency != "" then call.currency else "USD";
      var status := if told.success then PROCESSED else FAILED;
      Step(Step(Step(Step(s, StartCharge(call)), AnswerCharge(i, answer, reaches, heard)),
                AppendCharge(i)), CommitCharge(i)) == State(
        s.payments[i := Payment(call.orderId, call.customer, call.amount, currency, status, told.txn, call.key, 0)],
        s.ledger + [LedgerEntry(i, i, CHARGE, call.amount)],
        s.outbox + [OutboxRow(i, i, if told.success then PaymentSucceeded else PaymentFailed,
                              call.orderId, call.customer, call.amount, Some(currency), 0, status, told.txn)],
        if !reaches || call.orderId in s.charged then s.charged
        else s.charged[call.orderId := Charged(call.amount, currency, answer)],
        s.refunds,
        s.ops + [Op(Charge(call.(currency := currency), told), Committed)])
  {
    var i, told := |s.ops|, Told(s, call.orderId, answer, reaches, heard);
    var c := call.(currency := if call.currency != "" then call.currency else "USD");
    ChargeAsked(s, call, answer, reaches, heard);
    var s2 := Step(Step(s, StartCharge(call)), AnswerCharge(i, answer, reaches, heard));
    assert !ChargeLocked(s2, c);
    var s3 := AppendChargeStep(s2, i);
    SetLast(s.ops, Op(Charge(c, told), Answered), Op(Charge(c, told), Appended));
    assert s3.ops == s.ops + [Op(Charge(c, told), Appended)];
    SetLast(s.ops, Op(Charge(c, told), Appended), Op(Charge(c, told), Committed));
  }

  // The lookup that finds nothing, and the provider call.
  lemma ChargeAsked(s: State, call: ChargeCall, answer: Answer, reaches: bool, heard: bool)
    requires !Exists(s.payments, call.orderId, call.key)
    ensures var i, told := |s.ops|, Told(s, call.orderId, answer, reaches, heard);
      var currency := if call.currency != "" then call.currency else "USD";
      Step(Step(s, StartCharge(call)), AnswerCharge(i, answer, reaches, heard)) ==
      s.(charged := if !reaches || call.orderId in s.charged then s.charged
                    else s.charged[call.orderId := Charged(call.amount, currency, answer)],
         ops := s.ops + [Op(Charge(call.(currency := currency), told), Answered)])
  {
    var c := call.(currency := if call.currency != "" then call.currency else "USD");
    SetLast(s.ops, Op(Charge(c, Answer(false, None)), Asked),
            Op(Charge(c, Told(s, call.orderId, answer, reaches, heard)), Answered));
  }
}
