/**
 Provider charges and what the payment service made of them.  The provider keeps
 its answer; a call may be lost on the way there or back, and an operation may
 stop anywhere.  So a charge can be without a payment that says so: exactly when
 nobody who heard the answer has committed.
 */
module PaymentAnswers {
  import opened Common
  import opened Payments
  import PaymentCharges

  const UNHEARD: Answer := Answer(false, None)

  predicate ChargeOf(op: Op, o: nat) {
    op.work.Charge? && op.work.call.orderId == o
  }

  // The operation's provider call is over.
  predicate Called(phase: Phase) {
    phase == Answered || phase == Appended || phase == Committed
    || phase == Stopped(Answered) || phase == Stopped(Appended)
  }

  // An operation holds what the provider keeps for its order, or has heard nothing.
  predicate Hears(s: State, op: Op)
    requires op.work.Charge?
  {
    var o := op.work.call.orderId;
    op.work.answer == UNHEARD || (Called(op.phase) && o in s.charged && op.work.answer == s.charged[o].answer)
  }

  ghost predicate Answers(s: State) {
    && (forall i | 0 <= i < |s.ops| && s.ops[i].work.Charge? :: Hears(s, s.ops[i]))
    && (forall o <- s.charged :: exists i: nat | i < |s.ops| :: ChargeOf(s.ops[i], o) && Called(s.ops[i].phase))
  }

  // Refunds are only of rows with a provider transaction; a row without one keeps its first status.
  ghost predicate Untouched(s: State) {
    && (forall i | 0 <= i < |s.ops| && s.ops[i].work.Refund? ::
          s.ops[i].work.paymentId in s.payments && s.payments[s.ops[i].work.paymentId].txn.Some?)
    && (forall p <- s.payments | s.payments[p].txn.None? ::
          p < |s.ops| && s.ops[p].work.Charge? && s.payments[p].status == ChargeStatus(s.ops[p].work.answer))
  }

  ghost predicate Inv(s: State) {
    PaymentCharges.Rows(s) && Answers(s) && Untouched(s)
  }

  lemma StepOnAnswers(s: State, a: Action)
    requires Answers(s)
    ensures var t := Step(s, a);
      forall i | 0 <= i < |t.ops| && t.ops[i].work.Charge? :: Hears(t, t.ops[i])
  {
  }

  // Calls that are over stay over, and a new entry at the provider is some call's.
  lemma StepOnCalls(s: State, a: Action)
    ensures var t := Step(s, a);
      && |s.ops| <= |t.ops|
      && (forall i: nat, o: nat | i < |s.ops| && ChargeOf(s.ops[i], o) && Called(s.ops[i].phase) ::
            ChargeOf(t.ops[i], o) && Called(t.ops[i].phase))
      && (forall o <- t.charged | o !in s.charged ::
            a.AnswerCharge? && a.op < |t.ops| && ChargeOf(t.ops[a.op], o) && Called(t.ops[a.op].phase))
  {
  }

  lemma StepKeepsAnswers(s: State, a: Action)
    requires Answers(s)
    ensures Answers(Step(s, a))
  {
    hide Step;
    StepOnAnswers(s, a);
    StepOnCalls(s, a);
    var t := Step(s, a);
    forall o | o in t.charged
      ensures exists i: nat | i < |t.ops| :: ChargeOf(t.ops[i], o) && Called(t.ops[i].phase)
    {
      if o in s.charged {
        var i: nat :| i < |s.ops| && ChargeOf(s.ops[i], o) && Called(s.ops[i].phase);
        assert ChargeOf(t.ops[i], o) && Called(t.ops[i].phase);
      }
    }
  }

  lemma StepOnRefunds(s: State, a: Action)
    requires Untouched(s)
    ensures var t := Step(s, a);
      forall i | 0 <= i < |t.ops| && t.ops[i].work.Refund? ::
        t.ops[i].work.paymentId in s.payments && s.payments[t.ops[i].work.paymentId].txn.Some?
  {
  }

  // A charge commits a row of its answer, a refund changes a row that has a transaction.
  lemma TablesKeepUntouched(s: State, t: State, i: nat)
    requires PaymentCharges.Rows(s) && Untouched(s) && |s.ops| <= |t.ops|
    requires || t.payments == s.payments
             || (PaymentCharges.ChargeCommitted(s, t, i) && t.ops[i] == Op(s.ops[i].work, Committed))
             || PaymentCharges.RefundCommitted(s, t, i)
    requires forall j | 0 <= j < |s.ops| && s.ops[j].phase == Committed :: t.ops[j] == s.ops[j]
    ensures forall p <- t.payments | t.payments[p].txn.None? ::
      p < |t.ops| && t.ops[p].work.Charge? && t.payments[p].status == ChargeStatus(t.ops[p].work.answer)
    ensures forall p <- s.payments | s.payments[p].txn.Some? :: p in t.payments && t.payments[p].txn.Some?
  {
    forall p | p in s.payments
      ensures p < |s.ops| && s.ops[p].work.Charge? && s.ops[p].phase == Committed
    {
      assert PaymentCharges.RowOfCharge(s, p);
    }
    hide PaymentCharges.Rows;
  }

  lemma StepKeepsUntouched(s: State, a: Action)
    requires Inv(s)
    ensures Untouched(Step(s, a))
  {
    var t := Step(s, a);
    StepOnRefunds(s, a);
    PaymentCharges.StepOnTables(s, a);
    PaymentCharges.CommittedStays(s, a);
    if a.CommitCharge? && t != s { PaymentCharges.CommitChargeCommits(s, a.op); }
    hide Step, Answers, PaymentCharges.Rows, PaymentCharges.ChargeCommitted, PaymentCharges.RefundCommitted;
    TablesKeepUntouched(s, t, if a.CommitCharge? || a.CommitRefund? then a.op else 0);
  }

  lemma {:induction false} RunKeepsInv(s: State, actions: seq<Action>)
    requires Inv(s)
    ensures Inv(Run(s, actions))
  {
    hide Answers, Untouched, PaymentCharges.Rows, Step;
    if actions != [] {
      RunKeepsInv(s, actions[..|actions| - 1]);
      var before := Run(s, actions[..|actions| - 1]);
      PaymentCharges.StepKeepsRows(before, actions[|actions| - 1]);
      StepKeepsAnswers(before, actions[|actions| - 1]);
      StepKeepsUntouched(before, actions[|actions| - 1]);
    }
  }

  /* ----- charges without a payment that says so ----- */

  predicate Charged(s: State, o: nat) {
    o in s.charged && s.charged[o].answer.success
  }

  // Money was taken for the order, and no payment of it is anything but FAILED.
  ghost predicate Unrecorded(s: State, o: nat) {
    Charged(s, o) && forall p <- s.payments | s.payments[p].orderId == o :: s.payments[p].status == FAILED
  }

  lemma RecordedRow(s: State, i: nat, o: nat)
    requires Inv(s) && Charged(s, o) && i < |s.ops| && ChargeOf(s.ops[i], o) && s.ops[i].phase == Committed
    ensures i in s.payments && s.payments[i].orderId == o
    ensures s.payments[i].status == FAILED <==> s.ops[i].work.answer == UNHEARD
    ensures s.ops[i].work.answer == UNHEARD || s.ops[i].work.answer == s.charged[o].answer
  {
    assert PaymentCharges.RowOfCharge(s, i);
    assert Hears(s, s.ops[i]);
  }

  lemma CommittedDecides(s: State, o: nat)
    requires Inv(s) && Charged(s, o)
    ensures Unrecorded(s, o) <==>
      forall i: nat | i < |s.ops| && ChargeOf(s.ops[i], o) ::
        s.ops[i].phase != Committed || s.ops[i].work.answer == UNHEARD
    ensures exists i: nat | i < |s.ops| :: ChargeOf(s.ops[i], o) && Called(s.ops[i].phase)
  {
    hide Untouched;
    forall i: nat | i < |s.ops| && ChargeOf(s.ops[i], o) && s.ops[i].phase == Committed
      ensures i in s.payments && s.payments[i].orderId == o
      ensures s.payments[i].status == FAILED <==> s.ops[i].work.answer == UNHEARD
    {
      RecordedRow(s, i, o);
    }
    forall p | p in s.payments && s.payments[p].orderId == o
      ensures p < |s.ops| && ChargeOf(s.ops[p], o) && s.ops[p].phase == Committed
    {
      assert PaymentCharges.RowOfCharge(s, p);
    }
  }

  // In every run a charge of the provider is unrecorded if and only if each
  // operation of the order is in flight, has stopped before its commit, or never
  // heard the answer; and some operation of the order is past its call.
  lemma {:induction false} UnrecordedIff(actions: seq<Action>, o: nat)
    requires Charged(Run(Init(), actions), o)
    ensures var s := Run(Init(), actions);
      && (Unrecorded(s, o) <==>
            forall i: nat | i < |s.ops| && ChargeOf(s.ops[i], o) ::
              s.ops[i].phase != Committed || s.ops[i].work.answer == UNHEARD)
      && exists i: nat | i < |s.ops| :: ChargeOf(s.ops[i], o) && Called(s.ops[i].phase)
  {
    PaymentCharges.InitHolds();
    RunKeepsInv(Init(), actions);
    hide Run, Inv;
    CommittedDecides(Run(Init(), actions), o);
  }

  // Once such a charge has its payment, it has it for good: in every further run
  // the payment is FAILED and the provider keeps the charge.
  lemma {:induction false} UnrecordedStays(s: State, actions: seq<Action>, p: nat)
    requires Inv(s) && p in s.payments && s.payments[p].status == FAILED && s.payments[p].txn.None?
    requires Charged(s, s.payments[p].orderId)
    ensures var t := Run(s, actions);
      && p in t.payments && t.payments[p] == s.payments[p]
      && Charged(t, s.payments[p].orderId)
  {
    RunKeepsInv(s, actions);
    PaymentCharges.CommittedIsFinal(s, actions, p);
    RefundedNeedsTxn(s, actions, p);
  }

  lemma {:induction false} RefundedNeedsTxn(s: State, actions: seq<Action>, p: nat)
    requires Inv(s) && p in s.payments && s.payments[p].txn.None?
    ensures var t := Run(s, actions); p in t.payments && t.payments[p] == s.payments[p]
  {
    hide Answers;
    if actions != [] {
      var before, a := Run(s, actions[..|actions| - 1]), actions[|actions| - 1];
      RefundedNeedsTxn(s, actions[..|actions| - 1], p);
      RunKeepsInv(s, actions[..|actions| - 1]);
      PaymentCharges.StepOnTables(before, a);
    }
  }

  function LostAnswer(call: ChargeCall, i: nat, answer: Answer): seq<Action> {
    [StartCharge(call), AnswerCharge(i, answer, true, false), AppendCharge(i), CommitCharge(i)]
  }

  // And that happens: whenever an order without a payment is charged, an answer
  // that is lost on its way back leaves such a payment.
  lemma LostAnswerFails(s: State, call: ChargeCall, answer: Answer)
    requires Inv(s) && !Exists(s.payments, call.orderId, call.key) && !ChargeLocked(s, call)
    requires answer.success && (call.orderId in s.charged ==> s.charged[call.orderId].answer.success)
    ensures var t := Run(s, LostAnswer(call, |s.ops|, answer));
      && |s.ops| in t.payments && t.payments[|s.ops|].status == FAILED && t.payments[|s.ops|].txn.None?
      && t.payments[|s.ops|].orderId == call.orderId && Charged(t, call.orderId)
  {
    var i := |s.ops|;
    Run4(s, StartCharge(call), AnswerCharge(i, answer, true, false), AppendCharge(i), CommitCharge(i));
    ChargeWritten(s, call, answer, true, false);
  }
}
