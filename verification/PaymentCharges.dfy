/**
 Charging at most once per order, in every interleaving of racing, repeated and
 crashing charge attempts.
 */
module PaymentCharges {
  import opened Payments
  import Sums

  function ChargeRow(p: nat): LedgerEntry -> int {
    (e: LedgerEntry) => if e.paymentId == p && e.kind == CHARGE then 1 else 0
  }

  function ChargeAmount(p: nat): LedgerEntry -> int {
    (e: LedgerEntry) => if e.paymentId == p && e.kind == CHARGE then e.amount else 0
  }

  function ChargeRows(s: State, p: nat): int { Sums.Sum(ChargeRow(p), s.ledger) }
  function LedgerCharged(s: State, p: nat): int { Sums.Sum(ChargeAmount(p), s.ledger) }

  // The row a committed charge left behind; refunds change only `status` and `refunded`.
  predicate RowOfCharge(s: State, p: nat)
    requires p in s.payments
  {
    && p < |s.ops| && s.ops[p].work.Charge? && s.ops[p].phase == Committed
    && s.payments[p] == NewPayment(s.ops[p].work.call, s.ops[p].work.answer)
                        .(status := s.payments[p].status, refunded := s.payments[p].refunded)
    && (s.payments[p].status == PROCESSED ==> s.ops[p].work.answer.success)
    && (s.payments[p].status == FAILED ==> !s.ops[p].work.answer.success)
  }

  predicate HoldsInsert(s: State, i: nat) {
    i < |s.ops| && s.ops[i].work.Charge? && s.ops[i].phase == Appended
  }

  predicate Clash(c: ChargeCall, d: ChargeCall) {
    c.orderId == d.orderId || c.key == d.key
  }

  ghost predicate Rows(s: State) {
    && (forall p <- s.payments :: RowOfCharge(s, p))
    && (forall i | 0 <= i < |s.ops| && s.ops[i].work.Charge? && s.ops[i].phase == Committed :: i in s.payments)
    && (forall i | 0 <= i < |s.ops| && s.ops[i].work.Refund? :: s.ops[i].work.paymentId in s.payments)
  }

  ghost predicate Unique(s: State) {
    && (forall p, q | p in s.payments && q in s.payments && p != q ::
          !Matches(s.payments[p], s.payments[q].orderId, s.payments[q].key))
    && (forall i: nat, p | HoldsInsert(s, i) && p in s.payments ::
          !Matches(s.payments[p], s.ops[i].work.call.orderId, s.ops[i].work.call.key))
    && (forall i: nat, j: nat | HoldsInsert(s, i) && HoldsInsert(s, j) && i != j ::
          !Clash(s.ops[i].work.call, s.ops[j].work.call))
  }

  ghost predicate Provider(s: State) {
    forall i | 0 <= i < |s.ops| && s.ops[i].work.Charge? && s.ops[i].work.answer.success ::
      var o := s.ops[i].work.call.orderId;
      o in s.charged && s.charged[o].answer == s.ops[i].work.answer
  }

  ghost predicate Ledger(s: State) {
    forall p: nat ::
      && ChargeRows(s, p) == (if p in s.payments then 1 else 0)
      && LedgerCharged(s, p) == (if p in s.payments then s.payments[p].amount else 0)
  }

  ghost predicate Inv(s: State) {
    Rows(s) && Unique(s) && Provider(s) && Ledger(s)
  }

  // What the commit of a charge, the commit of a refund and anything else do to the two tables.
  predicate ChargeCommitted(s: State, t: State, i: nat) {
    && HoldsInsert(s, i)
    && t.payments == s.payments[i := NewPayment(s.ops[i].work.call, s.ops[i].work.answer)]
    && t.ledger == s.ledger + [LedgerEntry(i, i, CHARGE, s.ops[i].work.call.amount)]
  }

  predicate RefundCommitted(s: State, t: State, i: nat) {
    && i < |s.ops| && s.ops[i].work.Refund? && s.ops[i].work.paymentId in s.payments
    && var p := s.ops[i].work.paymentId;
    && p in t.payments
    && t.payments == s.payments[p := s.payments[p].(status := t.payments[p].status, refunded := t.payments[p].refunded)]
    && t.ledger == s.ledger + [LedgerEntry(i, p, REFUND, s.ops[i].work.amount)]
  }

  lemma StepOnTables(s: State, a: Action)
    ensures var t := Step(s, a);
      || (t.payments == s.payments && t.ledger == s.ledger)
      || (a.CommitCharge? && ChargeCommitted(s, t, a.op))
      || (a.CommitRefund? && RefundCommitted(s, t, a.op))
  {
  }

  lemma ChargeKeepsLedger(s: State, t: State, i: nat)
    requires Rows(s) && Ledger(s) && ChargeCommitted(s, t, i)
    ensures Ledger(t)
  {
    assert i !in s.payments;
    LedgerPush(s, t);
  }

  lemma RefundKeepsLedger(s: State, t: State, i: nat)
    requires Ledger(s) && RefundCommitted(s, t, i)
    ensures Ledger(t)
  {
    LedgerPush(s, t);
  }

  lemma LedgerPush(s: State, t: State)
    requires t.ledger != [] && t.ledger == s.ledger + [t.ledger[|t.ledger| - 1]]
    ensures var e := t.ledger[|t.ledger| - 1];
      forall p: nat :: ChargeRows(t, p) == ChargeRows(s, p) + ChargeRow(p)(e)
                       && LedgerCharged(t, p) == LedgerCharged(s, p) + ChargeAmount(p)(e)
  {
    forall p: nat
      ensures ChargeRows(t, p) == ChargeRows(s, p) + ChargeRow(p)(t.ledger[|t.ledger| - 1])
      ensures LedgerCharged(t, p) == LedgerCharged(s, p) + ChargeAmount(p)(t.ledger[|t.ledger| - 1])
    {
      Sums.Push(ChargeRow(p), s.ledger, t.ledger[|t.ledger| - 1]);
      Sums.Push(ChargeAmount(p), s.ledger, t.ledger[|t.ledger| - 1]);
    }
  }

  lemma StepKeepsLedger(s: State, a: Action)
    requires Rows(s) && Ledger(s)
    ensures Ledger(Step(s, a))
  {
    hide Step, ChargeCommitted, RefundCommitted, Rows;
    var t := Step(s, a);
    StepOnTables(s, a);
    if t.payments == s.payments && t.ledger == s.ledger {
      assert forall p: nat :: ChargeRows(t, p) == ChargeRows(s, p) && LedgerCharged(t, p) == LedgerCharged(s, p);
    } else if a.CommitCharge? {
      ChargeKeepsLedger(s, t, a.op);
    } else {
      RefundKeepsLedger(s, t, a.op);
    }
  }

  lemma CommittedStays(s: State, a: Action)
    ensures var t := Step(s, a);
      && |s.ops| <= |t.ops|
      && (forall i | 0 <= i < |s.ops| && s.ops[i].phase == Committed :: t.ops[i] == s.ops[i])
  {
  }

  lemma CommittedComesFrom(s: State, a: Action)
    ensures var t := Step(s, a);
      forall i: nat | i < |t.ops| && t.ops[i].work.Charge? && t.ops[i].phase == Committed ::
        && i < |s.ops| && t.ops[i].work == s.ops[i].work
        && (t.ops[i] == s.ops[i] || a == CommitCharge(i))
  {
  }

  lemma CommitChargeCommits(s: State, i: nat)
    requires CommitChargeStep(s, i) != s
    ensures var t := CommitChargeStep(s, i);
      ChargeCommitted(s, t, i) && i < |t.ops| && t.ops[i] == Op(s.ops[i].work, Committed)
  {
  }

  lemma RefundsNameRows(s: State, a: Action)
    requires Rows(s)
    ensures var t := Step(s, a);
      forall i | 0 <= i < |t.ops| && t.ops[i].work.Refund? :: t.ops[i].work.paymentId in s.payments
  {
  }

  lemma RefundLeavesStatus(s: State, a: Action)
    ensures var t := Step(s, a);
      a.CommitRefund? && RefundCommitted(s, t, a.op) ==>
        var p := s.ops[a.op].work.paymentId;
        p in t.payments && t.payments[p].status != PROCESSED && t.payments[p].status != FAILED
  {
  }

  lemma StepKeepsRows(s: State, a: Action)
    requires Rows(s)
    ensures Rows(Step(s, a))
  {
    StepOnTables(s, a);
    CommittedStays(s, a);
    CommittedComesFrom(s, a);
    RefundsNameRows(s, a);
    RefundLeavesStatus(s, a);
    if a.CommitCharge? && Step(s, a) != s { CommitChargeCommits(s, a.op); }
    if Step(s, a) != s { RowsFrom(s, Step(s, a), a); }
  }

  lemma RowsFrom(s: State, t: State, a: Action)
    requires Rows(s) && |s.ops| <= |t.ops|
    requires || t.payments == s.payments
             || a.CommitCharge?
             || (a.CommitRefund? && RefundCommitted(s, t, a.op)
                 && t.payments[s.ops[a.op].work.paymentId].status != PROCESSED
                 && t.payments[s.ops[a.op].work.paymentId].status != FAILED)
    requires a.CommitCharge? ==>
               ChargeCommitted(s, t, a.op) && a.op < |t.ops| && t.ops[a.op] == Op(s.ops[a.op].work, Committed)
    requires forall i | 0 <= i < |s.ops| && s.ops[i].phase == Committed :: t.ops[i] == s.ops[i]
    requires forall i: nat | i < |t.ops| && t.ops[i].work.Charge? && t.ops[i].phase == Committed ::
        && i < |s.ops| && t.ops[i].work == s.ops[i].work && (t.ops[i] == s.ops[i] || a == CommitCharge(i))
    requires forall i | 0 <= i < |t.ops| && t.ops[i].work.Refund? :: t.ops[i].work.paymentId in s.payments
    ensures Rows(t)
  {
  }

  // Inserts are held by the same operations as before, except that an append
  // adds its own, which clashes with nothing, and a commit turns its own into a row.
  lemma StepOnInserts(s: State, a: Action)
    ensures var t := Step(s, a);
      forall i: nat | HoldsInsert(t, i) ::
        && (a.CommitCharge? && a.op == i && t != s ==> false)
        && i < |s.ops| && s.ops[i].work.Charge? && t.ops[i].work.call == s.ops[i].work.call
        && (HoldsInsert(s, i) || (a == AppendCharge(i) && t.payments == s.payments
                                  && !ChargeLocked(s, s.ops[i].work.call)
                                  && !Exists(s.payments, s.ops[i].work.call.orderId, s.ops[i].work.call.key)))
  {
  }

  lemma InsertsApart(s: State, t: State, a: Action)
    requires Unique(s)
    requires forall i: nat | HoldsInsert(t, i) ::
        && i < |s.ops| && s.ops[i].work.Charge? && t.ops[i].work.call == s.ops[i].work.call
        && (HoldsInsert(s, i) || (a == AppendCharge(i) && !ChargeLocked(s, s.ops[i].work.call)))
    ensures forall i: nat, j: nat | HoldsInsert(t, i) && HoldsInsert(t, j) && i != j ::
              !Clash(t.ops[i].work.call, t.ops[j].work.call)
  {
    forall i: nat, j: nat | HoldsInsert(t, i) && HoldsInsert(t, j) && i != j
      ensures !Clash(t.ops[i].work.call, t.ops[j].work.call)
    {
      if !HoldsInsert(s, i) {
        assert HoldsInsert(s, j) && !ChargeLocked(s, s.ops[i].work.call);
      } else if !HoldsInsert(s, j) {
        assert !ChargeLocked(s, s.ops[j].work.call);
      }
    }
  }

  lemma RowsApart(s: State, t: State, a: Action, k: nat)
    requires Rows(s) && Unique(s)
    requires forall i: nat | HoldsInsert(t, i) ::
        && i < |s.ops| && s.ops[i].work.Charge? && t.ops[i].work.call == s.ops[i].work.call
        && (ChargeCommitted(s, t, k) ==> i != k)
        && (HoldsInsert(s, i) || (t.payments == s.payments
                                  && !Exists(s.payments, s.ops[i].work.call.orderId, s.ops[i].work.call.key)))
    requires || t.payments == s.payments || ChargeCommitted(s, t, k) || RefundCommitted(s, t, k)
    ensures forall p, q | p in t.payments && q in t.payments && p != q ::
          !Matches(t.payments[p], t.payments[q].orderId, t.payments[q].key)
    ensures forall i: nat, p | HoldsInsert(t, i) && p in t.payments ::
          !Matches(t.payments[p], t.ops[i].work.call.orderId, t.ops[i].work.call.key)
  {
  }

  lemma StepKeepsUnique(s: State, a: Action)
    requires Rows(s) && Unique(s)
    ensures Unique(Step(s, a))
  {
    StepOnTables(s, a);
    StepOnInserts(s, a);
    var t := Step(s, a);
    InsertsApart(s, t, a);
    RowsApart(s, t, a, if a.CommitCharge? || a.CommitRefund? then a.op else 0);
  }

  lemma StepKeepsProvider(s: State, a: Action)
    requires Provider(s)
    ensures Provider(Step(s, a))
  {
  }

  lemma {:induction false} RunKeepsInv(s: State, actions: seq<Action>)
    requires Inv(s)
    ensures Inv(Run(s, actions))
  {
    if actions != [] {
      var before := Run(s, actions[..|actions| - 1]);
      var a := actions[|actions| - 1];
      RunKeepsInv(s, actions[..|actions| - 1]);
      StepKeepsRows(before, a);
      StepKeepsUnique(before, a);
      StepKeepsProvider(before, a);
      StepKeepsLedger(before, a);
    }
  }

  /* ----- every run ----- */

  lemma InitHolds()
    ensures Inv(Init())
  {
  }

  // Two payments never share an order or an idempotency key; each has exactly
  // one CHARGE row, of its own amount; and a PROCESSED one was really charged:
  // the provider keeps that very answer under the order's key.
  lemma ChargedOnce(actions: seq<Action>, p: nat)
    requires p in Run(Init(), actions).payments
    ensures var s := Run(Init(), actions);
      var row := s.payments[p];
      && (forall q <- s.payments :: s.payments[q].orderId == row.orderId || s.payments[q].key == row.key ==> q == p)
      && ChargeRows(s, p) == 1 && LedgerCharged(s, p) == row.amount
      && (row.status == PROCESSED ==>
            row.orderId in s.charged && s.charged[row.orderId].answer == Answer(true, row.txn))
  {
    InitHolds();
    RunKeepsInv(Init(), actions);
    var s := Run(Init(), actions);
    assert Ledger(s) && ChargeRows(s, p) == 1;
    forall q | q in s.payments && Matches(s.payments[q], s.payments[p].orderId, s.payments[p].key)
      ensures q == p
    {
    }
  }

  // A ledger row of type CHARGE always belongs to a committed payment.
  lemma {:induction false} NoStrayCharge(actions: seq<Action>, p: nat)
    requires p !in Run(Init(), actions).payments
    ensures ChargeRows(Run(Init(), actions), p) == 0 && LedgerCharged(Run(Init(), actions), p) == 0
  {
    InitHolds();
    RunKeepsInv(Init(), actions);
    assert Ledger(Run(Init(), actions));
  }

  /* ----- attempts that agree on the amount ----- */

  function Costs(o: nat, amount: int): (State, Action) -> bool {
    (s: State, a: Action) => a.StartCharge? && a.call.orderId == o ==> a.call.amount == amount
  }

  ghost predicate Agreed(s: State, o: nat, amount: int) {
    && (forall i | 0 <= i < |s.ops| && s.ops[i].work.Charge? && s.ops[i].work.call.orderId == o ::
          s.ops[i].work.call.amount == amount)
    && (o in s.charged ==> s.charged[o].amount == amount)
  }

  lemma StepAgrees(s: State, a: Action, o: nat, amount: int)
    requires Agreed(s, o, amount) && Costs(o, amount)(s, a)
    ensures Agreed(Step(s, a), o, amount)
  {
  }

  lemma {:induction false} RunAgrees(s: State, actions: seq<Action>, o: nat, amount: int)
    requires Agreed(s, o, amount) && Throughout(s, actions, Costs(o, amount))
    ensures Agreed(Run(s, actions), o, amount)
  {
    if actions != [] {
      RunAgrees(s, actions[..|actions| - 1], o, amount);
      StepAgrees(Run(s, actions[..|actions| - 1]), actions[|actions| - 1], o, amount);
    }
  }

  // If every attempt for an order carries one amount, then the payment of that
  // order is recorded and entered in the ledger with exactly it, and so is the
  // provider's charge, whatever has been refunded since.
  lemma AmountCharged(actions: seq<Action>, p: nat, amount: int)
    requires var s := Run(Init(), actions);
      p in s.payments && Throughout(Init(), actions, Costs(s.payments[p].orderId, amount))
    ensures var s := Run(Init(), actions);
      var o := s.payments[p].orderId;
      && s.payments[p].amount == amount == LedgerCharged(s, p)
      && (o in s.charged ==> s.charged[o].amount == amount)
      && (s.payments[p].status == PROCESSED ==> o in s.charged)
  {
    ChargedOnce(actions, p);
    InitHolds();
    RunKeepsInv(Init(), actions);
    RunAgrees(Init(), actions, Run(Init(), actions).payments[p].orderId, amount);
  }

  /* ----- attempts that agree on the currency ----- */

  // Every attempt for the order names the currency, or none when it is dollars.
  function Names(o: nat, currency: string): (State, Action) -> bool {
    (s: State, a: Action) => a.StartCharge? && a.call.orderId == o ==>
      a.call.currency == currency || (a.call.currency == "" && currency == "USD")
  }

  ghost predicate InCurrency(s: State, o: nat, currency: string) {
    && (forall i | 0 <= i < |s.ops| && s.ops[i].work.Charge? && s.ops[i].work.call.orderId == o ::
          s.ops[i].work.call.currency == currency)
    && (o in s.charged ==> s.charged[o].currency == currency)
  }

  lemma StepInCurrency(s: State, a: Action, o: nat, currency: string)
    requires InCurrency(s, o, currency) && Names(o, currency)(s, a) && currency != ""
    ensures InCurrency(Step(s, a), o, currency)
  {
  }

  lemma {:induction false} RunInCurrency(s: State, actions: seq<Action>, o: nat, currency: string)
    requires InCurrency(s, o, currency) && Throughout(s, actions, Names(o, currency)) && currency != ""
    ensures InCurrency(Run(s, actions), o, currency)
  {
    if actions != [] {
      RunInCurrency(s, actions[..|actions| - 1], o, currency);
      StepInCurrency(Run(s, actions[..|actions| - 1]), actions[|actions| - 1], o, currency);
    }
  }

  // If every attempt for an order carries one currency, then the payment of that
  // order is recorded in it and the provider was asked to charge in it, in every
  // interleaving; an attempt that names none asks for dollars.
  lemma {:induction false} CurrencyCharged(actions: seq<Action>, o: nat, currency: string)
    requires Throughout(Init(), actions, Names(o, currency)) && currency != ""
    ensures var s := Run(Init(), actions);
      && (forall p <- s.payments | s.payments[p].orderId == o :: s.payments[p].currency == currency)
      && (o in s.charged ==> s.charged[o].currency == currency)
  {
    InitHolds();
    RunKeepsInv(Init(), actions);
    RunInCurrency(Init(), actions, o, currency);
    var s := Run(Init(), actions);
    hide Run, Throughout;
    forall p | p in s.payments && s.payments[p].orderId == o ensures s.payments[p].currency == currency {
      assert RowOfCharge(s, p);
    }
  }

  /* ----- after the commit ----- */

  lemma {:induction false} RowsKept(s: State, actions: seq<Action>)
    requires Rows(s)
    ensures Rows(Run(s, actions))
  {
    if actions != [] {
      RowsKept(s, actions[..|actions| - 1]);
      StepKeepsRows(Run(s, actions[..|actions| - 1]), actions[|actions| - 1]);
    }
  }

  // From s to t the row p keeps everything but its refund columns, no new
  // charge operation is for its order or key, and the provider keeps its answers.
  ghost predicate Later(s: State, t: State, p: nat)
    requires p in s.payments
  {
    && p in t.payments
    && t.payments[p] == s.payments[p].(status := t.payments[p].status, refunded := t.payments[p].refunded)
    && NewChargesElsewhere(s, t, s.payments[p])
    && (forall o <- s.charged :: o in t.charged && t.charged[o] == s.charged[o])
  }

  ghost predicate NewChargesElsewhere(s: State, t: State, row: Payment) {
    && |s.ops| <= |t.ops|
    && (forall i | 0 <= i < |s.ops| && t.ops[i].work.Charge? ::
          s.ops[i].work.Charge? && t.ops[i].work.call == s.ops[i].work.call)
    && (forall i | |s.ops| <= i < |t.ops| && t.ops[i].work.Charge? ::
          !Matches(row, t.ops[i].work.call.orderId, t.ops[i].work.call.key))
  }

  lemma StepOnOps(s: State, a: Action, p: nat)
    requires p in s.payments
    ensures NewChargesElsewhere(s, Step(s, a), s.payments[p])
  {
  }

  lemma StepOnCharged(s: State, a: Action)
    ensures forall o <- s.charged :: o in Step(s, a).charged && Step(s, a).charged[o] == s.charged[o]
  {
  }

  lemma StepIsLater(s: State, a: Action, p: nat)
    requires p in s.payments && Rows(s)
    ensures Later(s, Step(s, a), p)
  {
    StepOnTables(s, a);
    StepOnOps(s, a, p);
    StepOnCharged(s, a);
  }

  lemma LaterLater(s: State, t: State, u: State, p: nat)
    requires p in s.payments && Later(s, t, p) && Later(t, u, p)
    ensures Later(s, u, p)
  {
  }

  // From the commit on no later attempt for the order or the key of a payment
  // becomes an operation: it neither calls the provider nor writes.
  lemma {:induction false} CommittedIsFinal(s: State, actions: seq<Action>, p: nat)
    requires p in s.payments && Rows(s)
    ensures Later(s, Run(s, actions), p)
  {
    if actions != [] {
      var before := actions[..|actions| - 1];
      CommittedIsFinal(s, before, p);
      RowsKept(s, before);
      StepIsLater(Run(s, before), actions[|actions| - 1], p);
      LaterLater(s, Run(s, before), Run(s, actions), p);
    }
  }
}
