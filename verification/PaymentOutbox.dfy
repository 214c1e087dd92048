/**
 The outbox append commits on its own, before the transaction that it
 announces.  So no committed row is ever unannounced, and the announcements of
 nothing are counted exactly by the operations stopped (or sitting) in between.
 */
module PaymentOutbox {
  import opened Common
  import opened Payments
  import PaymentCharges
  import Sums

  predicate Announced(phase: Phase) {
    phase == Appended || phase == Committed || phase == Stopped(Appended)
  }

  function EventOf(i: nat, w: Work): OutboxRow {
    match w
    case Charge(call, answer) => ChargeEvent(i, call, answer)
    case Refund(_, _, _, _) => RefundEvent(i, w)
  }

  function EntryOf(i: nat, w: Work): LedgerEntry {
    match w
    case Charge(call, _) => LedgerEntry(i, i, CHARGE, call.amount)
    case Refund(p, amount, _, _) => LedgerEntry(i, p, REFUND, amount)
  }

  function AnnouncedOp(): Op -> int { (op: Op) => if Announced(op.phase) then 1 else 0 }
  function CommittedOp(): Op -> int { (op: Op) => if op.phase == Committed then 1 else 0 }
  function SurplusOp(): Op -> int {
    (op: Op) => if op.phase == Appended || op.phase == Stopped(Appended) then 1 else 0
  }

  // Outbox rows and announced operations correspond one to one.
  ghost predicate Events(s: State) {
    && (forall r <- s.outbox :: r.eventId < |s.ops| && Announced(s.ops[r.eventId].phase)
                                && r == EventOf(r.eventId, s.ops[r.eventId].work))
    && (forall k, l | 0 <= k < l < |s.outbox| :: s.outbox[k].eventId != s.outbox[l].eventId)
    && (forall i | 0 <= i < |s.ops| && Announced(s.ops[i].phase) :: EventOf(i, s.ops[i].work) in s.outbox)
    && |s.outbox| == Sums.Sum(AnnouncedOp(), s.ops)
  }

  // Ledger rows and committed operations correspond one to one.
  ghost predicate Entries(s: State) {
    && (forall e <- s.ledger :: e.id < |s.ops| && s.ops[e.id].phase == Committed
                                && e == EntryOf(e.id, s.ops[e.id].work))
    && (forall k, l | 0 <= k < l < |s.ledger| :: s.ledger[k].id != s.ledger[l].id)
    && (forall i | 0 <= i < |s.ops| && s.ops[i].phase == Committed :: EntryOf(i, s.ops[i].work) in s.ledger)
    && |s.ledger| == Sums.Sum(CommittedOp(), s.ops)
  }

  ghost predicate Inv(s: State) { Events(s) && Entries(s) }

  // The only ways an action changes the operations and the two tables.
  predicate Begins(s: State, t: State) {
    t.outbox == s.outbox && t.ledger == s.ledger
    && |t.ops| == |s.ops| + 1 && t.ops == s.ops + [t.ops[|s.ops|]] && t.ops[|s.ops|].phase == Asked
  }

  predicate Moves(s: State, t: State, i: nat, op: Op) {
    i < |s.ops| && t.ops == s.ops[i := op]
  }

  predicate Quiet(s: State, t: State, i: nat, op: Op) {
    Moves(s, t, i, op) && t.outbox == s.outbox && t.ledger == s.ledger
    && Announced(op.phase) == Announced(s.ops[i].phase)
    && op.phase != Committed && s.ops[i].phase != Committed
    && (Announced(op.phase) ==> op.work == s.ops[i].work)
  }

  predicate Appends(s: State, t: State, i: nat) {
    i < |s.ops| && s.ops[i].phase == Answered && Moves(s, t, i, Op(s.ops[i].work, Appended))
    && t.outbox == s.outbox + [EventOf(i, s.ops[i].work)] && t.ledger == s.ledger
  }

  predicate Commits(s: State, t: State, i: nat) {
    i < |s.ops| && s.ops[i].phase == Appended && Moves(s, t, i, Op(s.ops[i].work, Committed))
    && t.outbox == s.outbox && t.ledger == s.ledger + [EntryOf(i, s.ops[i].work)]
  }

  lemma StepOnOps(s: State, a: Action)
    ensures var t := Step(s, a);
      || (t.ops == s.ops && t.outbox == s.outbox && t.ledger == s.ledger)
      || Begins(s, t)
      || (!a.StartCharge? && !a.StartRefund? && a.op < |t.ops|
          && (Quiet(s, t, a.op, t.ops[a.op]) || Appends(s, t, a.op) || Commits(s, t, a.op)))
  {
  }

  lemma OpSums(s: State, t: State, i: nat)
    requires i < |s.ops| == |t.ops| && Moves(s, t, i, t.ops[i])
    ensures forall f: Op -> int :: Sums.Sum(f, t.ops) == Sums.Sum(f, s.ops) - f(s.ops[i]) + f(t.ops[i])
  {
    forall f: Op -> int
      ensures Sums.Sum(f, t.ops) == Sums.Sum(f, s.ops) - f(s.ops[i]) + f(t.ops[i])
    {
      Sums.Set(f, s.ops, i, t.ops[i]);
    }
  }

  lemma StepKeepsInv(s: State, a: Action)
    requires Inv(s)
    ensures Inv(Step(s, a))
  {
    var t := Step(s, a);
    StepOnOps(s, a);
    if t.ops == s.ops && t.outbox == s.outbox && t.ledger == s.ledger {
    } else if Begins(s, t) {
      Sums.Push(AnnouncedOp(), s.ops, t.ops[|s.ops|]);
      Sums.Push(CommittedOp(), s.ops, t.ops[|s.ops|]);
    } else {
      MoveKeepsEvents(s, t, a.op);
      MoveKeepsEntries(s, t, a.op);
    }
  }

  lemma MoveKeepsEvents(s: State, t: State, i: nat)
    requires Events(s) && i < |t.ops|
    requires Quiet(s, t, i, t.ops[i]) || Appends(s, t, i) || Commits(s, t, i)
    ensures Events(t)
  {
    OpSums(s, t, i);
  }

  lemma MoveKeepsEntries(s: State, t: State, i: nat)
    requires Entries(s) && i < |t.ops|
    requires Quiet(s, t, i, t.ops[i]) || Appends(s, t, i) || Commits(s, t, i)
    ensures Entries(t)
  {
    OpSums(s, t, i);
  }

  lemma {:induction false} RunKeepsInv(s: State, actions: seq<Action>)
    requires Inv(s)
    ensures Inv(Run(s, actions))
  {
    if actions != [] {
      RunKeepsInv(s, actions[..|actions| - 1]);
      StepKeepsInv(Run(s, actions[..|actions| - 1]), actions[|actions| - 1]);
    }
  }

  /* ----- rows, snapshots and the last refund ----- */

  // A refund's snapshot is the row but for the refund columns.
  ghost predicate Snapshots(s: State) {
    forall i | 0 <= i < |s.ops| && s.ops[i].work.Refund? ::
      var Refund(p, _, snap, _) := s.ops[i].work;
      p in s.payments && s.payments[p] == snap.(refunded := s.payments[p].refunded, status := s.payments[p].status)
  }

  // The last REFUND row of a payment, if it has one.
  function LastRefund(ledger: seq<LedgerEntry>, p: nat): Option<LedgerEntry> {
    if ledger == [] then None
    else
      var last := ledger[|ledger| - 1];
      if last.paymentId == p && last.kind == REFUND then Some(last) else LastRefund(ledger[..|ledger| - 1], p)
  }

  // The refund columns are what the last committed refund wrote.
  predicate ColumnsOf(s: State, p: nat)
    requires p in s.payments
  {
    match LastRefund(s.ledger, p)
    case None => s.payments[p].refunded == 0
    case Some(e) =>
      && e.id < |s.ops| && s.ops[e.id].work.Refund? && s.ops[e.id].phase == Committed
      && s.payments[p].refunded == RefundTotal(s.ops[e.id].work)
      && s.payments[p].status == RefundStatus(s.ops[e.id].work)
  }

  ghost predicate Columns(s: State) {
    forall p <- s.payments :: ColumnsOf(s, p)
  }

  ghost predicate RowsInv(s: State) {
    PaymentCharges.Rows(s) && Snapshots(s) && Columns(s) && NamesRows(s)
  }

  // Ledger rows are of payments that exist.
  ghost predicate NamesRows(s: State) {
    forall e <- s.ledger :: e.paymentId in s.payments
  }

  lemma StepOnSnapshots(s: State, a: Action)
    requires Snapshots(s)
    ensures var t := Step(s, a);
      forall i | 0 <= i < |t.ops| && t.ops[i].work.Refund? ::
        var Refund(p, _, snap, _) := t.ops[i].work;
        p in s.payments && s.payments[p] == snap.(refunded := s.payments[p].refunded, status := s.payments[p].status)
  {
  }

  lemma StepOnColumns(s: State, a: Action)
    requires a.CommitRefund? && Step(s, a) != s
    ensures var t := Step(s, a);
      && a.op < |s.ops| == |t.ops| && s.ops[a.op].work.Refund? && t.ops[a.op] == Op(s.ops[a.op].work, Committed)
      && var w := s.ops[a.op].work;
      && w.paymentId in t.payments
      && t.payments[w.paymentId].refunded == RefundTotal(w) && t.payments[w.paymentId].status == RefundStatus(w)
  {
  }

  lemma LastRefundPush(ledger: seq<LedgerEntry>, e: LedgerEntry, p: nat)
    ensures LastRefund(ledger + [e], p) ==
            if e.paymentId == p && e.kind == REFUND then Some(e) else LastRefund(ledger, p)
  {
    assert (ledger + [e])[..|ledger|] == ledger;
  }

  lemma {:induction false} LastRefundIsRow(ledger: seq<LedgerEntry>, p: nat)
    ensures var e := LastRefund(ledger, p); e.Some? ==> e.value in ledger && e.value.paymentId == p
  {
    if ledger != [] { LastRefundIsRow(ledger[..|ledger| - 1], p); }
  }

  ghost predicate CommittedKept(s: State, t: State) {
    |s.ops| <= |t.ops| && forall j | 0 <= j < |s.ops| && s.ops[j].phase == Committed :: t.ops[j] == s.ops[j]
  }

  lemma SameColumns(s: State, t: State, p: nat)
    requires p in s.payments && p in t.payments && ColumnsOf(s, p) && CommittedKept(s, t)
    requires LastRefund(t.ledger, p) == LastRefund(s.ledger, p)
    requires t.payments[p].refunded == s.payments[p].refunded && t.payments[p].status == s.payments[p].status
    ensures ColumnsOf(t, p)
  {
    hide LastRefund, RefundTotal, RefundStatus;
  }

  lemma ChargeKeepsColumns(s: State, t: State, i: nat)
    requires Columns(s) && NamesRows(s) && CommittedKept(s, t)
    requires PaymentCharges.ChargeCommitted(s, t, i) && i !in s.payments
    ensures Columns(t) && NamesRows(t)
  {
    hide LastRefund, CommittedKept;
    LastRefundIsRow(s.ledger, i);
    forall p | p in t.payments ensures ColumnsOf(t, p) {
      LastRefundPush(s.ledger, t.ledger[|s.ledger|], p);
      if p != i { SameColumns(s, t, p); }
    }
  }

  lemma RefundKeepsColumns(s: State, t: State, i: nat)
    requires Columns(s) && NamesRows(s) && CommittedKept(s, t) && PaymentCharges.RefundCommitted(s, t, i)
    requires i < |t.ops| && t.ops[i] == Op(s.ops[i].work, Committed)
    requires t.payments[s.ops[i].work.paymentId].refunded == RefundTotal(s.ops[i].work)
    requires t.payments[s.ops[i].work.paymentId].status == RefundStatus(s.ops[i].work)
    ensures Columns(t) && NamesRows(t)
  {
    hide LastRefund, CommittedKept, RefundTotal, RefundStatus;
    forall p | p in t.payments ensures ColumnsOf(t, p) {
      LastRefundPush(s.ledger, t.ledger[|s.ledger|], p);
      if p != s.ops[i].work.paymentId { SameColumns(s, t, p); }
    }
  }

  lemma SameTables(s: State, t: State)
    requires Columns(s) && NamesRows(s) && CommittedKept(s, t) && t.payments == s.payments && t.ledger == s.ledger
    ensures Columns(t) && NamesRows(t)
  {
    forall p | p in t.payments ensures ColumnsOf(t, p) { SameColumns(s, t, p); }
  }

  lemma NewRow(s: State, t: State, i: nat)
    requires PaymentCharges.Rows(s) && PaymentCharges.ChargeCommitted(s, t, i)
    ensures i !in s.payments
  {
  }

  lemma StepKeepsRowsInv(s: State, a: Action)
    requires RowsInv(s)
    ensures RowsInv(Step(s, a))
  {
    var t := Step(s, a);
    PaymentCharges.StepKeepsRows(s, a);
    PaymentCharges.StepOnTables(s, a);
    PaymentCharges.CommittedStays(s, a);
    StepOnSnapshots(s, a);
    if a.CommitRefund? && t != s { StepOnColumns(s, a); }
    hide Step, PaymentCharges.ChargeCommitted, PaymentCharges.RefundCommitted, Columns, NamesRows;
    TablesKeepSnapshots(s, t, if a.CommitCharge? || a.CommitRefund? then a.op else 0);
    if t.payments == s.payments && t.ledger == s.ledger {
      SameTables(s, t);
    } else if a.CommitCharge? {
      NewRow(s, t, a.op);
      ChargeKeepsColumns(s, t, a.op);
    } else {
      RefundKeepsColumns(s, t, a.op);
    }
  }

  lemma TablesKeepSnapshots(s: State, t: State, i: nat)
    requires PaymentCharges.Rows(s)
    requires t.payments == s.payments || PaymentCharges.ChargeCommitted(s, t, i)
             || PaymentCharges.RefundCommitted(s, t, i)
    requires forall j | 0 <= j < |t.ops| && t.ops[j].work.Refund? ::
        var Refund(p, _, snap, _) := t.ops[j].work;
        p in s.payments && s.payments[p] == snap.(refunded := s.payments[p].refunded, status := s.payments[p].status)
    ensures Snapshots(t)
  {
    if PaymentCharges.ChargeCommitted(s, t, i) { assert i !in s.payments; }
    hide PaymentCharges.Rows;
  }

  lemma {:induction false} RunKeepsRowsInv(s: State, actions: seq<Action>)
    requires RowsInv(s)
    ensures RowsInv(Run(s, actions))
  {
    hide RowsInv, Step;
    if actions != [] {
      RunKeepsRowsInv(s, actions[..|actions| - 1]);
      StepKeepsRowsInv(Run(s, actions[..|actions| - 1]), actions[|actions| - 1]);
    }
  }

  /* ----- every run ----- */

  // The announcement of a ledger row: the same payment, its order and customer,
  // the same amount, and the event type of its kind.
  predicate Announces(r: OutboxRow, e: LedgerEntry, payment: Payment) {
    && r.eventId == e.id && r.aggregateId == e.paymentId && r.amount == e.amount
    && r.orderId == payment.orderId && r.customer == payment.customer
    && (e.kind == REFUND <==> r.eventType == RefundIssued)
  }

  lemma EventAnnounces(s: State, e: LedgerEntry)
    requires Entries(s) && RowsInv(s) && e in s.ledger
    ensures e.paymentId in s.payments && e.id < |s.ops| && Announced(s.ops[e.id].phase)
    ensures Announces(EventOf(e.id, s.ops[e.id].work), e, s.payments[e.paymentId])
  {
    hide Columns;
    if e.kind == CHARGE { assert PaymentCharges.RowOfCharge(s, e.paymentId); }
  }

  // The only outbox row of an event id.
  predicate TheRow(outbox: seq<OutboxRow>, k: int, id: nat) {
    && 0 <= k < |outbox| && outbox[k].eventId == id
    && forall l | 0 <= l < |outbox| && outbox[l].eventId == id :: l == k
  }

  lemma RowOfOp(s: State, i: nat) returns (k: nat)
    requires Events(s) && i < |s.ops| && Announced(s.ops[i].phase)
    ensures TheRow(s.outbox, k, i) && s.outbox[k] == EventOf(i, s.ops[i].work)
  {
    var row := EventOf(i, s.ops[i].work);
    assert row in s.outbox;
    k :| 0 <= k < |s.outbox| && s.outbox[k] == row;
  }

  // In every crashing run each ledger row has exactly one outbox row of its
  // operation, and that announces it.
  lemma {:induction false} EveryEntryIsAnnounced(actions: seq<Action>, e: LedgerEntry)
    requires e in Run(Init(), actions).ledger
    ensures var s := Run(Init(), actions);
      && e.paymentId in s.payments
      && exists k :: TheRow(s.outbox, k, e.id) && Announces(s.outbox[k], e, s.payments[e.paymentId])
  {
    PaymentCharges.InitHolds();
    RunKeepsInv(Init(), actions);
    RunKeepsRowsInv(Init(), actions);
    var s := Run(Init(), actions);
    EventAnnounces(s, e);
    var k := RowOfOp(s, e.id);
    hide Run, TheRow, Announces;
    assert TheRow(s.outbox, k, e.id) && Announces(s.outbox[k], e, s.payments[e.paymentId]);
  }

  lemma LastRefundAnnounced(s: State, p: nat) returns (k: nat)
    requires Inv(s) && RowsInv(s) && p in s.payments && LastRefund(s.ledger, p).Some?
    ensures var id := LastRefund(s.ledger, p).value.id;
      && TheRow(s.outbox, k, id) && s.outbox[k].eventType == RefundIssued
      && s.outbox[k].refunded == s.payments[p].refunded && s.outbox[k].status == s.payments[p].status
      && s.outbox[k].txn == s.payments[p].txn
  {
    LastRefundIsRow(s.ledger, p);
    var e := LastRefund(s.ledger, p).value;
    assert ColumnsOf(s, p);
    EventAnnounces(s, e);
    k := RowOfOp(s, e.id);
    hide LastRefund, Events, Columns, NamesRows, PaymentCharges.Rows, TheRow;
  }

  // The announcement of a payment's last committed refund carries the refund
  // columns as they are, overlapping refunds or not; without one nothing was refunded.
  lemma {:induction false} LastAnnouncementIsColumns(actions: seq<Action>, p: nat)
    requires p in Run(Init(), actions).payments
    ensures var s := Run(Init(), actions);
      match LastRefund(s.ledger, p)
      case None => s.payments[p].refunded == 0
      case Some(e) =>
        exists k :: TheRow(s.outbox, k, e.id)
          && s.outbox[k].eventType == RefundIssued && s.outbox[k].txn == s.payments[p].txn
          && s.outbox[k].refunded == s.payments[p].refunded && s.outbox[k].status == s.payments[p].status
  {
    PaymentCharges.InitHolds();
    RunKeepsInv(Init(), actions);
    RunKeepsRowsInv(Init(), actions);
    var s := Run(Init(), actions);
    hide Run, Inv, LastRefund, TheRow;
    if LastRefund(s.ledger, p).Some? {
      var k := LastRefundAnnounced(s, p);
    } else {
      assert ColumnsOf(s, p);
    }
  }

  // Each committed payment has its PaymentSucceeded or PaymentFailed row, which
  // carries the payment's order, customer and amount and never claims a refund.
  lemma EveryPaymentIsAnnounced(actions: seq<Action>, p: nat)
    requires p in Run(Init(), actions).payments
    ensures var s := Run(Init(), actions);
      var row := s.payments[p];
      exists r <- s.outbox ::
        && r.eventId == p && r.aggregateId == p
        && r.orderId == row.orderId && r.customer == row.customer && r.amount == row.amount && r.refunded == 0
        && r.currency == Some(row.currency) && r.txn == row.txn
        && r.eventType == (if r.status == PROCESSED then PaymentSucceeded else PaymentFailed)
        && (row.status == PROCESSED ==> r.eventType == PaymentSucceeded)
        && (row.status == FAILED ==> r.eventType == PaymentFailed)
  {
    RunKeepsInv(Init(), actions);
    PaymentCharges.InitHolds();
    PaymentCharges.RowsKept(Init(), actions);
    var s := Run(Init(), actions);
    assert PaymentCharges.RowOfCharge(s, p);
    assert EventOf(p, s.ops[p].work) in s.outbox;
  }

  // The outbox rows that announce nothing committed are exactly the operations
  // sitting, or stopped, between their append and their commit.
  lemma SurplusIsExact(actions: seq<Action>)
    ensures var s := Run(Init(), actions);
      |s.outbox| == |s.ledger| + Sums.Sum(SurplusOp(), s.ops)
  {
    RunKeepsInv(Init(), actions);
    Sums.Combine(AnnouncedOp(), CommittedOp(), SurplusOp(), Run(Init(), actions).ops);
  }
}
