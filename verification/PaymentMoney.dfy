/**
 Where refunded money is, in every interleaving of any number of refunds with
 crashes anywhere: at the provider, in the ledger, in `refunded`, and in the
 operations in between.
 */
module PaymentMoney {
  import opened Common
  import opened Payments
  import Sums

  /* ----- the totals of one payment ----- */

  function MovedFor(p: nat): Moved -> int {
    (m: Moved) => if m.paymentId == p then m.amount else 0
  }

  function RefundRow(p: nat): LedgerEntry -> int {
    (e: LedgerEntry) => if e.paymentId == p && e.kind == REFUND then e.amount else 0
  }

  // Money the provider has moved for an operation that has not committed.
  function AtRiskOf(p: nat): Op -> int {
    (op: Op) => if op.work.Refund? && op.work.paymentId == p && op.phase != Committed then op.work.moved else 0
  }

  // Money a committed operation recorded without the provider moving it.
  function UnmovedOf(p: nat): Op -> int {
    (op: Op) => if op.work.Refund? && op.work.paymentId == p && op.phase == Committed
          then op.work.amount - op.work.moved else 0
  }

  function ProviderRefunded(s: State, p: nat): int { Sums.Sum(MovedFor(p), s.refunds) }
  function LedgerRefunded(s: State, p: nat): int { Sums.Sum(RefundRow(p), s.ledger) }
  function AtRisk(s: State, p: nat): int { Sums.Sum(AtRiskOf(p), s.ops) }
  function Unmoved(s: State, p: nat): int { Sums.Sum(UnmovedOf(p), s.ops) }

  predicate Accepted(phase: Phase) {
    phase == Answered || phase == Appended || phase == Committed
    || phase == Stopped(Answered) || phase == Stopped(Appended)
  }

  predicate RefundOk(s: State, op: Op)
    requires op.work.Refund?
  {
    && op.work.paymentId in s.payments
    && 0 <= op.work.moved
    && op.work.snap.refunded <= LedgerRefunded(s, op.work.paymentId)
    && (op.phase == Asked ==> op.work.moved == 0)
    && (Accepted(op.phase) ==> op.work.moved <= op.work.amount)
  }

  ghost predicate Balanced(s: State, p: nat) {
    ProviderRefunded(s, p) + Unmoved(s, p) == LedgerRefunded(s, p) + AtRisk(s, p)
  }

  ghost predicate Totals(s: State) {
    forall p: nat :: Balanced(s, p) && 0 <= LedgerRefunded(s, p)
  }

  ghost predicate OpsOk(s: State) {
    forall i | 0 <= i < |s.ops| && s.ops[i].work.Refund? :: RefundOk(s, s.ops[i])
  }

  ghost predicate Columns(s: State) {
    forall p <- s.payments :: s.payments[p].refunded <= LedgerRefunded(s, p)
  }

  ghost predicate Inv(s: State) { Totals(s) && OpsOk(s) && Columns(s) }

  /* ----- how one action moves the totals ----- */

  lemma LedgerPush(s: State, t: State, e: LedgerEntry)
    requires t.ledger == s.ledger + [e]
    ensures forall p: nat :: LedgerRefunded(t, p) == LedgerRefunded(s, p) + RefundRow(p)(e)
  {
    forall p: nat
      ensures LedgerRefunded(t, p) == LedgerRefunded(s, p) + RefundRow(p)(e)
    {
      Sums.Push(RefundRow(p), s.ledger, e);
    }
  }

  lemma OpPush(s: State, t: State, op: Op)
    requires t.ops == s.ops + [op]
    ensures forall p: nat :: AtRisk(t, p) == AtRisk(s, p) + AtRiskOf(p)(op)
    ensures forall p: nat :: Unmoved(t, p) == Unmoved(s, p) + UnmovedOf(p)(op)
  {
    forall p: nat
      ensures AtRisk(t, p) == AtRisk(s, p) + AtRiskOf(p)(op)
      ensures Unmoved(t, p) == Unmoved(s, p) + UnmovedOf(p)(op)
    {
      Sums.Push(AtRiskOf(p), s.ops, op);
      Sums.Push(UnmovedOf(p), s.ops, op);
    }
  }

  lemma OpSet(s: State, t: State, i: nat, op: Op)
    requires i < |s.ops| && t.ops == s.ops[i := op]
    ensures forall p: nat :: AtRisk(t, p) == AtRisk(s, p) - AtRiskOf(p)(s.ops[i]) + AtRiskOf(p)(op)
    ensures forall p: nat :: Unmoved(t, p) == Unmoved(s, p) - UnmovedOf(p)(s.ops[i]) + UnmovedOf(p)(op)
  {
    forall p: nat
      ensures AtRisk(t, p) == AtRisk(s, p) - AtRiskOf(p)(s.ops[i]) + AtRiskOf(p)(op)
      ensures Unmoved(t, p) == Unmoved(s, p) - UnmovedOf(p)(s.ops[i]) + UnmovedOf(p)(op)
    {
      Sums.Set(AtRiskOf(p), s.ops, i, op);
      Sums.Set(UnmovedOf(p), s.ops, i, op);
    }
  }

  /* ----- the invariant ----- */

  lemma StartKeepsTotals(s: State, a: Action)
    requires Totals(s) && (a.StartCharge? || a.StartRefund?)
    ensures Totals(Step(s, a))
  {
    var t := Step(s, a);
    if t != s {
      OpPush(s, t, t.ops[|s.ops|]);
    }
    forall p: nat ensures Balanced(t, p) && 0 <= LedgerRefunded(t, p) {
      assert Balanced(s, p) && LedgerRefunded(t, p) == LedgerRefunded(s, p)
             && ProviderRefunded(t, p) == ProviderRefunded(s, p);
    }
  }

  lemma AnswerRefundKeepsTotals(s: State, i: nat, millis: int, reaches: bool, success: bool)
    requires Totals(s) && OpsOk(s)
    ensures Totals(AnswerRefundStep(s, i, millis, reaches, success))
  {
    var t := AnswerRefundStep(s, i, millis, reaches, success);
    if InPhase(s, i, false, Asked) {
      OpSet(s, t, i, t.ops[i]);
      forall p: nat ensures Balanced(t, p) && 0 <= LedgerRefunded(t, p) {
        assert Balanced(s, p) && LedgerRefunded(t, p) == LedgerRefunded(s, p);
        if t.refunds != s.refunds {
          Sums.Push(MovedFor(p), s.refunds, t.refunds[|s.refunds|]);
        }
      }
    }
  }

  // Appends, charge answers and stops move no money and keep every weight.
  lemma QuietKeepsTotals(s: State, a: Action)
    requires Totals(s) && (a.AnswerCharge? || a.AppendCharge? || a.AppendRefund? || a.Stop?)
    ensures Totals(Step(s, a))
  {
    var t := Step(s, a);
    if t != s {
      var i := a.op;
      OpSet(s, t, i, t.ops[i]);
      forall p: nat ensures Balanced(t, p) && 0 <= LedgerRefunded(t, p) {
        assert Balanced(s, p) && LedgerRefunded(t, p) == LedgerRefunded(s, p)
               && ProviderRefunded(t, p) == ProviderRefunded(s, p);
        assert AtRiskOf(p)(t.ops[i]) == AtRiskOf(p)(s.ops[i]) && UnmovedOf(p)(t.ops[i]) == UnmovedOf(p)(s.ops[i]);
      }
    }
  }

  lemma CommitKeepsTotals(s: State, a: Action)
    requires Totals(s) && OpsOk(s) && (a.CommitCharge? || a.CommitRefund?)
    ensures Totals(Step(s, a))
    ensures forall p: nat :: LedgerRefunded(s, p) <= LedgerRefunded(Step(s, a), p)
  {
    var t := Step(s, a);
    if t != s {
      var i := a.op;
      OpSet(s, t, i, t.ops[i]);
      LedgerPush(s, t, t.ledger[|s.ledger|]);
      forall p: nat ensures Balanced(t, p) && 0 <= LedgerRefunded(s, p) <= LedgerRefunded(t, p) {
        assert Balanced(s, p) && ProviderRefunded(t, p) == ProviderRefunded(s, p);
      }
    }
  }

  lemma StepKeepsTotals(s: State, a: Action)
    requires Totals(s) && OpsOk(s)
    ensures Totals(Step(s, a))
    ensures forall p: nat :: LedgerRefunded(s, p) <= LedgerRefunded(Step(s, a), p)
  {
    match a
    case StartCharge(_) => StartKeepsTotals(s, a);
    case StartRefund(_, _) => StartKeepsTotals(s, a);
    case AnswerRefund(i, millis, reaches, success) => AnswerRefundKeepsTotals(s, i, millis, reaches, success);
    case CommitCharge(_) => CommitKeepsTotals(s, a);
    case CommitRefund(_) => CommitKeepsTotals(s, a);
    case _ => QuietKeepsTotals(s, a);
  }

  lemma StepKeepsOps(s: State, a: Action)
    requires OpsOk(s) && Columns(s)
    requires forall p: nat :: LedgerRefunded(s, p) <= LedgerRefunded(Step(s, a), p)
    ensures OpsOk(Step(s, a))
  {
    hide LedgerRefunded;
  }

  lemma StepKeepsColumns(s: State, a: Action)
    requires OpsOk(s) && Columns(s) && Totals(s)
    requires forall p: nat :: LedgerRefunded(s, p) <= LedgerRefunded(Step(s, a), p)
    ensures Columns(Step(s, a))
  {
    var t := Step(s, a);
    if a.CommitRefund? && t != s {
      LedgerPush(s, t, t.ledger[|s.ledger|]);
    }
  }

  lemma StepKeepsInv(s: State, a: Action)
    requires Inv(s)
    ensures Inv(Step(s, a))
  {
    StepKeepsTotals(s, a);
    StepKeepsOps(s, a);
    StepKeepsColumns(s, a);
  }

  lemma {:induction false} RunKeepsInv(s: State, actions: seq<Action>)
    requires Inv(s)
    ensures Inv(Run(s, actions))
  {
    if actions != [] {
      RunKeepsInv(s, actions[..|actions| - 1]);
      StepKeepsInv(Run(s, actions[..|actions| - 1]), actions[|actions| - 1]);
    }
  }

  /* ----- every run ----- */

  lemma InitHolds()
    ensures Inv(Init())
  {
    forall p: nat ensures Balanced(Init(), p) {}
  }

  ghost predicate Accounted(s: State, p: nat) {
    && Balanced(s, p)
    && 0 <= AtRisk(s, p) && 0 <= Unmoved(s, p) && 0 <= LedgerRefunded(s, p)
    && (p in s.payments ==> s.payments[p].refunded <= LedgerRefunded(s, p))
  }

  // In every run: what the provider has given back, plus what was recorded
  // under a key the provider had already seen, is what the ledger records plus
  // what uncommitted operations have already moved.  The stored column never
  // exceeds the ledger.
  lemma {:induction false} RefundMoney(actions: seq<Action>, p: nat)
    ensures Accounted(Run(Init(), actions), p)
  {
    InitHolds();
    RunKeepsInv(Init(), actions);
    var s := Run(Init(), actions);
    assert Balanced(s, p);
    Sums.NonNegative(AtRiskOf(p), s.ops);
    Sums.NonNegative(UnmovedOf(p), s.ops);
  }

  // In every run the gap between provider and ledger is the money at risk if and
  // only if the provider moved all that was ever committed.
  lemma {:induction false} FirstGapIff(actions: seq<Action>, p: nat)
    ensures var s := Run(Init(), actions);
      ProviderRefunded(s, p) - LedgerRefunded(s, p) == AtRisk(s, p)
      <==> forall op <- s.ops :: UnmovedOf(p)(op) == 0
  {
    RunKeepsInv(Init(), actions);
    var s := Run(Init(), actions);
    hide Run, Sums.Sum;
    RefundMoney(actions, p);
    Sums.NonNegative(UnmovedOf(p), s.ops);
    Sums.Zero(UnmovedOf(p), s.ops);
  }

  /* ----- keys of distinct milliseconds ----- */

  predicate FreshKey(s: State, a: Action) {
    a.AnswerRefund? && InPhase(s, a.op, false, Asked) ==> !KeySeen(s.refunds, s.ops[a.op].work.paymentId, a.millis)
  }

  ghost predicate AllMoved(s: State) {
    forall i | 0 <= i < |s.ops| && s.ops[i].work.Refund? && Accepted(s.ops[i].phase) ::
      s.ops[i].work.moved == s.ops[i].work.amount
  }

  lemma FreshKeyMovesAll(s: State, a: Action)
    requires AllMoved(s) && FreshKey(s, a)
    ensures AllMoved(Step(s, a))
  {
  }

  lemma {:induction false} FreshKeysMoveAll(s: State, actions: seq<Action>)
    requires AllMoved(s) && Throughout(s, actions, FreshKey)
    ensures AllMoved(Run(s, actions))
  {
    if actions != [] {
      FreshKeysMoveAll(s, actions[..|actions| - 1]);
      FreshKeyMovesAll(Run(s, actions[..|actions| - 1]), actions[|actions| - 1]);
    }
  }

  // When every refund call carries a key the provider has not seen, the three
  // totals are ordered and the first gap is exactly the money at risk.
  lemma {:induction false} ProviderLedgerColumn(actions: seq<Action>, p: nat)
    requires Throughout(Init(), actions, FreshKey)
    ensures var s := Run(Init(), actions);
      && ProviderRefunded(s, p) - LedgerRefunded(s, p) == AtRisk(s, p) >= 0
      && (p in s.payments ==> s.payments[p].refunded <= LedgerRefunded(s, p) <= ProviderRefunded(s, p))
  {
    hide Run, Sums.Sum;
    RefundMoney(actions, p);
    FreshKeysMoveAll(Init(), actions);
    FirstGapIff(actions, p);
  }

  // So one accepted refund keeps the provider and the ledger in step if and only
  // if its key is new to the provider, or it moves nothing.
  lemma UnseenKeyIff(s: State, p: nat, amount: int, millis: int)
    requires p in s.payments && s.payments[p].txn.Some? && 0 <= amount && !RowLocked(s, p)
    ensures var t := Run(s, RefundActions(p, amount, |s.ops|, millis));
      ProviderRefunded(t, p) - LedgerRefunded(t, p) == ProviderRefunded(s, p) - LedgerRefunded(s, p)
      <==> amount == 0 || !KeySeen(s.refunds, p, millis)
  {
    hide Run, KeySeen, Sums.Sum, RowLocked;
    RefundAlone(s, p, amount, millis);
    var t := RefundDone(s, p, amount, millis);
    LedgerPush(s, t, LedgerEntry(|s.ops|, p, REFUND, amount));
    Sums.Push(MovedFor(p), s.refunds, Moved(p, millis, amount));
  }

  // For instance, two refunds of 60 in the same millisecond: the ledger records 120, the provider gave back 60.
  lemma SameMillisecondLosesMoney(call: ChargeCall, txn: nat, millis: int)
    requires call.amount == 200
    ensures var actions := ChargeActions(call, 0, Answer(true, Some(txn)))
                           + RefundActions(0, 60, 1, millis) + RefundActions(0, 60, 2, millis);
      var s := Run(Init(), actions);
      ProviderRefunded(s, 0) == 60 && LedgerRefunded(s, 0) == 120
  {
    hide Run, Step;
    var charge := ChargeActions(call, 0, Answer(true, Some(txn)));
    var first := RefundActions(0, 60, 1, millis);
    var second := RefundActions(0, 60, 2, millis);
    ChargeAlone(Init(), call, Answer(true, Some(txn)));
    var s1 := Run(Init(), charge);
    RefundAlone(s1, 0, 60, millis);
    RunConcat(Init(), charge, first);
    var s2 := Run(s1, first);
    assert s2.refunds == [Moved(0, millis, 60)];
    RefundAlone(s2, 0, 60, millis);
    RunConcat(Init(), charge + first, second);
    var s3 := Run(s2, second);
    assert s3.ledger == (s1.ledger + [LedgerEntry(1, 0, REFUND, 60)]) + [LedgerEntry(2, 0, REFUND, 60)];
    Sums.Push(RefundRow(0), s1.ledger, LedgerEntry(1, 0, REFUND, 60));
    Sums.Push(RefundRow(0), s1.ledger + [LedgerEntry(1, 0, REFUND, 60)], LedgerEntry(2, 0, REFUND, 60));
    Sums.Push(RefundRow(0), [], LedgerEntry(0, 0, CHARGE, 200));
    Sums.Push(MovedFor(0), [], Moved(0, millis, 60));
  }
}
