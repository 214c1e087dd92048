/**
 Refunds of one payment that do not overlap: `refunded` is then the ledger's
 total, stays within the amount when each refund was checked against it, and
 the saga compensation settles the payment for good.  The commit of a refund
 shows exactly what overlapping ones lose.
 */
module PaymentRefunds {
  import opened Common
  import opened Payments
  import opened PaymentMoney
  import PaymentCharges
  import Sums

  /* ----- what one commit loses ----- */

  // The write-back is `snapshot + amount`, so a commit leaves `refunded` short
  // of the ledger by exactly the refunds its snapshot had not seen.
  lemma {:induction false} CommitGap(s: State, i: nat)
    requires InPhase(s, i, false, Appended) && s.ops[i].work.paymentId in s.payments
    ensures var t := Step(s, CommitRefund(i));
      var p := s.ops[i].work.paymentId;
      && LedgerRefunded(t, p) - t.payments[p].refunded == LedgerRefunded(s, p) - s.ops[i].work.snap.refunded
      && (t.payments[p].refunded == LedgerRefunded(t, p) <==> s.ops[i].work.snap.refunded == LedgerRefunded(s, p))
  {
    var t := Step(s, CommitRefund(i));
    LedgerPush(s, t, t.ledger[|s.ledger|]);
  }

  /* ----- windows that do not overlap ----- */

  predicate LiveRefund(s: State, i: nat) {
    i < |s.ops| && s.ops[i].work.Refund? && Live(s.ops[i])
  }

  predicate Busy(s: State, p: nat) {
    exists i: nat | i < |s.ops| :: LiveRefund(s, i) && s.ops[i].work.paymentId == p
  }

  // No refund of a payment starts while another is between its read and its commit.
  predicate OneAtATime(s: State, a: Action) {
    a.StartRefund? ==> !Busy(s, a.paymentId)
  }

  ghost predicate Exclusive(s: State) {
    && (forall i: nat | LiveRefund(s, i) ::
          s.ops[i].work.paymentId in s.payments && s.ops[i].work.snap == s.payments[s.ops[i].work.paymentId])
    && (forall i: nat, j: nat | LiveRefund(s, i) && LiveRefund(s, j) && i != j ::
          s.ops[i].work.paymentId != s.ops[j].work.paymentId)
  }

  ghost predicate Settled(s: State) {
    forall p: nat :: LedgerRefunded(s, p) == if p in s.payments then s.payments[p].refunded else 0
  }

  ghost predicate Orderly(s: State) {
    PaymentCharges.Rows(s) && Exclusive(s) && Settled(s)
  }

  predicate SameRefund(s: State, t: State, i: nat) {
    LiveRefund(s, i) && LiveRefund(t, i)
    && s.ops[i].work.paymentId == t.ops[i].work.paymentId
    && s.ops[i].work.amount == t.ops[i].work.amount
    && s.ops[i].work.snap == t.ops[i].work.snap
  }

  predicate NewRefund(s: State, t: State, p: nat, amount: int, i: nat) {
    i == |s.ops| < |t.ops| && p in s.payments && t.ops[i] == Op(Refund(p, amount, s.payments[p], 0), Asked)
  }

  lemma StepOnRefunds(s: State, a: Action)
    ensures var t := Step(s, a);
      forall i: nat | LiveRefund(t, i) ::
        && (SameRefund(s, t, i) || (a.StartRefund? && NewRefund(s, t, a.paymentId, a.amount, i)))
        && (a.CommitRefund? && PaymentCharges.RefundCommitted(s, t, a.op) ==> i != a.op)
    ensures var t := Step(s, a);
      a.CommitRefund? && PaymentCharges.RefundCommitted(s, t, a.op) ==>
        && LiveRefund(s, a.op)
        && t.payments[s.ops[a.op].work.paymentId].refunded == RefundTotal(s.ops[a.op].work)
        && t.payments[s.ops[a.op].work.paymentId].status == RefundStatus(s.ops[a.op].work)
  {
  }

  // The tables after an action, without looking at the operations.
  predicate TablesStep(s: State, t: State, k: nat) {
    || (t.payments == s.payments && t.ledger == s.ledger)
    || PaymentCharges.ChargeCommitted(s, t, k)
    || (PaymentCharges.RefundCommitted(s, t, k) && LiveRefund(s, k)
        && t.payments[s.ops[k].work.paymentId].refunded == RefundTotal(s.ops[k].work)
        && t.payments[s.ops[k].work.paymentId].status == RefundStatus(s.ops[k].work))
  }

  lemma TablesKeepSettled(s: State, t: State, k: nat)
    requires Orderly(s) && TablesStep(s, t, k)
    ensures Settled(t)
  {
    if t.ledger != s.ledger {
      LedgerPush(s, t, t.ledger[|s.ledger|]);
    }
    forall p: nat
      ensures LedgerRefunded(t, p) == if p in t.payments then t.payments[p].refunded else 0
    {
      assert LedgerRefunded(s, p) == if p in s.payments then s.payments[p].refunded else 0;
    }
  }

  ghost predicate RefundsStep(s: State, t: State, a: Action, k: nat) {
    forall i: nat | LiveRefund(t, i) ::
      && (SameRefund(s, t, i)
          || (a.StartRefund? && NewRefund(s, t, a.paymentId, a.amount, i) && t.payments == s.payments))
      && (PaymentCharges.RefundCommitted(s, t, k) ==> i != k)
  }

  lemma StepKeepsExclusive(s: State, t: State, a: Action, k: nat)
    requires Orderly(s) && OneAtATime(s, a)
    requires TablesStep(s, t, k) && RefundsStep(s, t, a, k)
    ensures Exclusive(t)
  {
    forall i: nat | LiveRefund(t, i)
      ensures t.ops[i].work.paymentId in t.payments && t.ops[i].work.snap == t.payments[t.ops[i].work.paymentId]
    {
      if SameRefund(s, t, i) {
        assert s.ops[i].work.snap == s.payments[s.ops[i].work.paymentId];
        if PaymentCharges.ChargeCommitted(s, t, k) {
          assert k !in s.payments;
        }
      }
    }
  }

  lemma StepKeepsOrderly(s: State, a: Action)
    requires Orderly(s) && OneAtATime(s, a)
    ensures Orderly(Step(s, a))
  {
    var t := Step(s, a);
    var k := if a.CommitCharge? || a.CommitRefund? then a.op else 0;
    PaymentCharges.StepKeepsRows(s, a);
    PaymentCharges.StepOnTables(s, a);
    StepOnRefunds(s, a);
    TablesKeepSettled(s, t, k);
    StepKeepsExclusive(s, t, a, k);
  }

  lemma {:induction false} RunKeepsOrderly(s: State, actions: seq<Action>)
    requires Orderly(s) && Throughout(s, actions, OneAtATime)
    ensures Orderly(Run(s, actions))
  {
    if actions != [] {
      RunKeepsOrderly(s, actions[..|actions| - 1]);
      StepKeepsOrderly(Run(s, actions[..|actions| - 1]), actions[|actions| - 1]);
    }
  }

  lemma InitOrderly()
    ensures Orderly(Init())
  {
  }

  // Without overlap, but with any interleaving across payments and any crash,
  // the column is exactly the ledger's total.
  lemma ColumnIsLedger(actions: seq<Action>, p: nat)
    requires Throughout(Init(), actions, OneAtATime) && p in Run(Init(), actions).payments
    ensures var s := Run(Init(), actions); s.payments[p].refunded == LedgerRefunded(s, p)
  {
    InitOrderly();
    RunKeepsOrderly(Init(), actions);
    assert Settled(Run(Init(), actions));
  }

  /* ----- refunds checked against what remains ----- */

  // The check of requestRefund: a charged payment and an amount in (0, remaining].
  predicate Checked(row: Payment, amount: int) {
    row.status != FAILED && 0 < amount <= row.amount - row.refunded
  }

  predicate Careful(s: State, a: Action) {
    && OneAtATime(s, a)
    && (a.StartCharge? ==> 0 <= a.call.amount)
    && (a.StartRefund? && a.paymentId in s.payments ==> Checked(s.payments[a.paymentId], a.amount))
  }

  // The status of a charged payment is a function of what was refunded.
  function StatusOf(refunded: int, amount: int): PaymentStatus {
    if refunded == 0 then PROCESSED else if refunded >= amount then REFUNDED else PARTIALLY_REFUNDED
  }

  predicate RowInRange(row: Payment) {
    && 0 <= row.refunded <= row.amount
    && row.status == (if row.status == FAILED then FAILED else StatusOf(row.refunded, row.amount))
    && (row.status == FAILED ==> row.refunded == 0)
  }

  ghost predicate InRange(s: State) {
    && (forall p <- s.payments :: RowInRange(s.payments[p]))
    && (forall i: nat | LiveRefund(s, i) :: Checked(s.ops[i].work.snap, s.ops[i].work.amount))
    && (forall i | 0 <= i < |s.ops| && s.ops[i].work.Charge? :: 0 <= s.ops[i].work.call.amount)
  }

  lemma StepOnCalls(s: State, a: Action)
    requires forall i | 0 <= i < |s.ops| && s.ops[i].work.Charge? :: 0 <= s.ops[i].work.call.amount
    requires a.StartCharge? ==> 0 <= a.call.amount
    ensures var t := Step(s, a);
      forall i | 0 <= i < |t.ops| && t.ops[i].work.Charge? :: 0 <= t.ops[i].work.call.amount
  {
  }

  lemma TablesKeepRange(s: State, t: State, a: Action, k: nat)
    requires Orderly(s) && InRange(s) && Careful(s, a)
    requires TablesStep(s, t, k) && RefundsStep(s, t, a, k)
    ensures forall p <- t.payments :: RowInRange(t.payments[p])
    ensures forall i: nat | LiveRefund(t, i) :: Checked(t.ops[i].work.snap, t.ops[i].work.amount)
  {
    forall i: nat | LiveRefund(t, i)
      ensures Checked(t.ops[i].work.snap, t.ops[i].work.amount)
    {
      if SameRefund(s, t, i) { assert Checked(s.ops[i].work.snap, s.ops[i].work.amount); }
    }
  }

  lemma {:induction false} RunKeepsRange(s: State, actions: seq<Action>)
    requires Orderly(s) && InRange(s) && Throughout(s, actions, Careful)
    ensures Orderly(Run(s, actions)) && InRange(Run(s, actions))
  {
    if actions != [] {
      var a, k := actions[|actions| - 1], 0;
      RunKeepsRange(s, actions[..|actions| - 1]);
      var before := Run(s, actions[..|actions| - 1]);
      if a.CommitCharge? || a.CommitRefund? { k := a.op; }
      StepKeepsOrderly(before, a);
      PaymentCharges.StepOnTables(before, a);
      StepOnRefunds(before, a);
      StepOnCalls(before, a);
      TablesKeepRange(before, Step(before, a), a, k);
    }
  }

  // Checked refunds that do not overlap: what was refunded is the ledger's total,
  // lies between nothing and the amount, and determines the status.
  lemma RefundedWithinAmount(actions: seq<Action>, p: nat)
    requires Throughout(Init(), actions, Careful) && p in Run(Init(), actions).payments
    ensures var s := Run(Init(), actions);
      var row := s.payments[p];
      && row.refunded == LedgerRefunded(s, p) && 0 <= row.refunded <= row.amount
      && (row.status != FAILED ==> row.status == StatusOf(row.refunded, row.amount))
      && (row.status == FAILED ==> row.refunded == 0)
  {
    InitOrderly();
    RunKeepsRange(Init(), actions);
    var s := Run(Init(), actions);
    assert Settled(s) && RowInRange(s.payments[p]);
  }

  // RefundRequired is not checked.  The column stays within the amount exactly
  // when the event asks for no more than what remains.
  lemma UncheckedWithinIff(s: State, p: nat, amount: int, millis: int)
    requires p in s.payments && s.payments[p].txn.Some? && 0 <= amount && !RowLocked(s, p)
    ensures var t := Run(s, RefundActions(p, amount, |s.ops|, millis));
      && p in t.payments
      && (t.payments[p].refunded <= t.payments[p].amount <==> amount <= s.payments[p].amount - s.payments[p].refunded)
  {
    hide Run;
    RefundAlone(s, p, amount, millis);
  }

  /* ----- the saga compensation ----- */

  // processInventoryReservationFailed refunds whatever remains; without a payment it does nothing.
  function Compensation(s: State, p: nat, millis: int): seq<Action> {
    if p in s.payments
    then RefundActions(p, s.payments[p].amount - s.payments[p].refunded, |s.ops|, millis)
    else []
  }

  function Net(s: State, p: nat): int {
    PaymentCharges.LedgerCharged(s, p) - LedgerRefunded(s, p)
  }

  // A payment that nothing is refunding, in a state that checked runs reach.
  ghost predicate Ready(s: State, p: nat) {
    && PaymentCharges.Inv(s) && Settled(s)
    && p in s.payments && s.payments[p].txn.Some? && s.payments[p].refunded <= s.payments[p].amount
    && !RowLocked(s, p)
  }

  predicate Compensated(s: State, t: State, p: nat)
    requires p in s.payments
  {
    && t.payments == s.payments[p := s.payments[p].(refunded := s.payments[p].amount, status := REFUNDED)]
    && Net(t, p) == 0
    && (s.payments[p].refunded == s.payments[p].amount ==>
          LedgerRefunded(t, p) == LedgerRefunded(s, p) && ProviderRefunded(t, p) == ProviderRefunded(s, p))
  }

  lemma RefundDoneTotals(s: State, p: nat, amount: int, millis: int)
    requires Settled(s) && p in s.payments
    ensures var t := RefundDone(s, p, amount, millis);
      && Settled(t)
      && LedgerRefunded(t, p) == LedgerRefunded(s, p) + amount
      && (amount == 0 ==> ProviderRefunded(t, p) == ProviderRefunded(s, p))
  {
    var t := RefundDone(s, p, amount, millis);
    LedgerPush(s, t, LedgerEntry(|s.ops|, p, REFUND, amount));
    if t.refunds != s.refunds {
      Sums.Push(MovedFor(p), s.refunds, Moved(p, millis, amount));
    }
    forall q: nat
      ensures LedgerRefunded(t, q) == if q in t.payments then t.payments[q].refunded else 0
    {
      assert LedgerRefunded(s, q) == if q in s.payments then s.payments[q].refunded else 0;
    }
  }

  lemma CompensationDone(s: State, p: nat, millis: int)
    requires p in s.payments && s.payments[p].txn.Some? && s.payments[p].refunded <= s.payments[p].amount
    requires !RowLocked(s, p)
    ensures Run(s, Compensation(s, p, millis))
            == RefundDone(s, p, s.payments[p].amount - s.payments[p].refunded, millis)
  {
    hide Step, Run, RefundDone;
    var rest := s.payments[p].amount - s.payments[p].refunded;
    RefundAlone(s, p, rest, millis);
    assert Compensation(s, p, millis) == RefundActions(p, rest, |s.ops|, millis);
  }

  lemma CompensatedTables(s: State, t: State, p: nat, millis: int)
    requires Ready(s, p) && PaymentCharges.Inv(t) && Settled(t)
    requires t == RefundDone(s, p, s.payments[p].amount - s.payments[p].refunded, millis)
    requires var rest := s.payments[p].amount - s.payments[p].refunded;
      rest == 0 ==> LedgerRefunded(t, p) == LedgerRefunded(s, p) && ProviderRefunded(t, p) == ProviderRefunded(s, p)
    ensures Ready(t, p) && Compensated(s, t, p)
  {
    hide Sums.Sum;
    assert LedgerRefunded(t, p) == t.payments[p].refunded == t.payments[p].amount;
    assert PaymentCharges.Ledger(t) && PaymentCharges.LedgerCharged(t, p) == t.payments[p].amount;
  }

  lemma DoneIsReady(s: State, t: State, p: nat, millis: int)
    requires Ready(s, p) && PaymentCharges.Inv(t)
    requires t == RefundDone(s, p, s.payments[p].amount - s.payments[p].refunded, millis)
    ensures Ready(t, p) && Compensated(s, t, p)
  {
    hide PaymentCharges.Inv, Sums.Sum;
    RefundDoneTotals(s, p, s.payments[p].amount - s.payments[p].refunded, millis);
    CompensatedTables(s, t, p, millis);
  }

  lemma CompensateOnce(s: State, p: nat, millis: int)
    requires Ready(s, p)
    ensures var t := Run(s, Compensation(s, p, millis)); Ready(t, p) && Compensated(s, t, p)
  {
    PaymentCharges.RunKeepsInv(s, Compensation(s, p, millis));
    CompensationDone(s, p, millis);
    DoneIsReady(s, Run(s, Compensation(s, p, millis)), p, millis);
  }

  lemma IdleIsUnlocked(s: State, p: nat)
    requires !Busy(s, p)
    ensures !RowLocked(s, p)
  {
  }

  lemma CarefulIsReady(actions: seq<Action>, p: nat)
    requires Throughout(Init(), actions, Careful)
    requires var s := Run(Init(), actions); p in s.payments && s.payments[p].txn.Some? && !Busy(s, p)
    ensures Ready(Run(Init(), actions), p)
  {
    RefundedWithinAmount(actions, p);
    InitOrderly();
    RunKeepsRange(Init(), actions);
    PaymentCharges.InitHolds();
    PaymentCharges.RunKeepsInv(Init(), actions);
    IdleIsUnlocked(Run(Init(), actions), p);
  }

  // After any history of checked, non-overlapping refunds a successful
  // compensation leaves the payment REFUNDED with CHARGE - REFUND = 0, and a
  // repeated one changes no payment and no total.
  lemma {:induction false} CompensationSettles(actions: seq<Action>, p: nat, millis: int, again: int)
    requires Throughout(Init(), actions, Careful)
    requires var s := Run(Init(), actions);
      p in s.payments && s.payments[p].status != FAILED && s.payments[p].txn.Some? && !Busy(s, p)
    ensures var s := Run(Init(), actions);
      var t := Run(s, Compensation(s, p, millis));
      var u := Run(t, Compensation(t, p, again));
      && t.payments == s.payments[p := s.payments[p].(refunded := s.payments[p].amount, status := REFUNDED)]
      && Net(t, p) == 0
      && u.payments == t.payments && Net(u, p) == 0
      && LedgerRefunded(u, p) == LedgerRefunded(t, p) && ProviderRefunded(u, p) == ProviderRefunded(t, p)
  {
    var s := Run(Init(), actions);
    CarefulIsReady(actions, p);
    var t := Run(s, Compensation(s, p, millis));
    CompensateOnce(s, p, millis);
    var u := Run(t, Compensation(t, p, again));
    CompensateOnce(t, p, again);
    assert t.payments[p].refunded == t.payments[p].amount && t.payments[p].status == REFUNDED;
  }

  /* ----- and refunds that do overlap ----- */

  // Both reads come before either commit.
  function Reads(p: nat, first: int, second: int, i: nat): seq<Action> {
    [StartRefund(p, first), StartRefund(p, second), AnswerRefund(i, 1, true, true), AnswerRefund(i + 1, 2, true, true)]
  }

  function Commits(i: nat): seq<Action> {
    [AppendRefund(i), CommitRefund(i), AppendRefund(i + 1), CommitRefund(i + 1)]
  }

  lemma AfterReads(s: State, p: nat, first: int, second: int)
    requires p in s.payments && s.payments[p].txn.Some? && 0 <= first && 0 <= second
    ensures var t := Run(s, Reads(p, first, second, |s.ops|));
      && t.payments == s.payments && t.ledger == s.ledger
      && |t.ops| == |s.ops| + 2 && t.ops[..|s.ops|] == s.ops
      && InPhase(t, |s.ops|, false, Answered) && InPhase(t, |s.ops| + 1, false, Answered)
      && t.ops[|s.ops|].work == Refund(p, first, s.payments[p], t.ops[|s.ops|].work.moved)
      && t.ops[|s.ops| + 1].work == Refund(p, second, s.payments[p], t.ops[|s.ops| + 1].work.moved)
  {
    var i := |s.ops|;
    var a := Reads(p, first, second, i);
    Run4(s, a[0], a[1], a[2], a[3]);
    var asked := s.(ops := s.ops + [Op(Refund(p, first, s.payments[p], 0), Asked)]
                                 + [Op(Refund(p, second, s.payments[p], 0), Asked)]);
    assert StartRefundStep(StartRefundStep(s, p, first), p, second) == asked;
    var half := AnswerRefundStep(asked, i, 1, true, true);
    assert InPhase(half, i + 1, false, Asked) && half.ops[..i] == s.ops;
  }

  lemma AfterCommits(s: State, i: nat)
    requires InPhase(s, i, false, Answered) && InPhase(s, i + 1, false, Answered)
    requires s.ops[i].work.paymentId == s.ops[i + 1].work.paymentId && s.ops[i].work.paymentId in s.payments
    requires !RowLocked(s, s.ops[i].work.paymentId)
    ensures var t := Run(s, Commits(i));
      var p := s.ops[i].work.paymentId;
      && p in t.payments && t.payments[p].refunded == RefundTotal(s.ops[i + 1].work)
      && LedgerRefunded(t, p) == LedgerRefunded(s, p) + s.ops[i].work.amount + s.ops[i + 1].work.amount
  {
    var a := Commits(i);
    var p := s.ops[i].work.paymentId;
    Run4(s, a[0], a[1], a[2], a[3]);
    var s1 := AppendRefundStep(s, i);
    var s2 := CommitRefundStep(s1, i);
    assert s2.ops == s.ops[i := Op(s.ops[i].work, Committed)];
    assert !RowLocked(s2, p);
    LedgerPush(s1, s2, LedgerEntry(i, p, REFUND, s.ops[i].work.amount));
    var s3 := AppendRefundStep(s2, i + 1);
    var s4 := CommitRefundStep(s3, i + 1);
    LedgerPush(s3, s4, LedgerEntry(i + 1, p, REFUND, s.ops[i + 1].work.amount));
  }

  // Two accepted refunds whose windows overlap: the ledger records both, the
  // column only the one that commits last.  The first one's amount is lost, so
  // the column can stay within the amount while the customer gets back more.
  lemma OverlapLosesARefund(s: State, p: nat, first: int, second: int)
    requires p in s.payments && s.payments[p].txn.Some? && !RowLocked(s, p) && 0 <= first && 0 <= second
    ensures var t := Run(s, Reads(p, first, second, |s.ops|) + Commits(|s.ops|));
      && p in t.payments
      && t.payments[p].refunded == s.payments[p].refunded + second
      && LedgerRefunded(t, p) == LedgerRefunded(s, p) + first + second
  {
    var i := |s.ops|;
    AfterReads(s, p, first, second);
    var t := Run(s, Reads(p, first, second, i));
    assert forall j | 0 <= j < i :: t.ops[j] == t.ops[..i][j] == s.ops[j];
    assert !RowLocked(t, p);
    AfterCommits(t, i);
    RunConcat(s, Reads(p, first, second, i), Commits(i));
  }
}
