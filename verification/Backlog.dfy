/**
 A table worked off in batches: each pass takes the first `batch` open rows in
 creation order, closes the ones it can and leaves the stuck ones open.  The
 order relay drains its outbox this way, and the notification retry its
 deliveries.
 */
module Backlog {
  import opened Common

  // Positions of the open rows, in creation order.
  function Open(rows: seq<bool>): seq<nat> {
    if rows == [] then []
    else
      var last := |rows| - 1;
      if rows[last] then Open(rows[..last]) + [last] else Open(rows[..last])
  }

  function Keep(keep: set<nat>, q: seq<nat>): seq<nat> {
    if q == [] then []
    else
      var last := |q| - 1;
      if q[last] in keep then Keep(keep, q[..last]) + [q[last]] else Keep(keep, q[..last])
  }

  function Take(q: seq<nat>, batch: nat): seq<nat> {
    if |q| <= batch then q else q[..batch]
  }

  function Drop(q: seq<nat>, batch: nat): seq<nat> {
    if |q| <= batch then [] else q[batch..]
  }

  function Pass(q: seq<nat>, stuck: set<nat>, batch: nat): seq<nat> {
    Keep(stuck, Take(q, batch)) + Drop(q, batch)
  }

  function Passes(q: seq<nat>, stuck: set<nat>, batch: nat, n: nat): seq<nat>
    decreases n
  {
    if n == 0 then q else Passes(Pass(q, stuck, batch), stuck, batch, n - 1)
  }

  /* ----- open positions ----- */

  ghost predicate Increasing(q: seq<nat>) {
    forall i, j | 0 <= i < j < |q| :: q[i] < q[j]
  }

  lemma {:induction false} OpenIsIncreasing(rows: seq<bool>)
    ensures Increasing(Open(rows))
    ensures forall i: nat :: i in Open(rows) <==> i < |rows| && rows[i]
  {
    if rows != [] {
      var last := |rows| - 1;
      var front := Open(rows[..last]);
      OpenIsIncreasing(rows[..last]);
      forall i | 0 <= i < |front| ensures front[i] < last {
        assert front[i] in front;
      }
      forall i: nat ensures i in Open(rows) <==> i < |rows| && rows[i] {
        assert i in front <==> i < last && rows[..last][i];
      }
    }
  }

  // What a batch leaves out comes after all of a full batch.
  lemma TakeIsFirst(q: seq<nat>, n: nat)
    requires Increasing(q)
    ensures var batch := Take(q, n);
      && Increasing(batch) && |batch| <= n && (forall i <- batch :: i in q)
      && forall i <- q :: i in batch || (|batch| == n && forall j <- batch :: j < i)
  {
    var batch := Take(q, n);
    forall i | i in q ensures i in batch || (|batch| == n && forall j <- batch :: j < i) {
      var k :| 0 <= k < |q| && q[k] == i;
      if k < |batch| { assert batch[k] == i; }
    }
  }

  predicate Consecutive(q: seq<nat>, from: nat) {
    forall i | 0 <= i < |q| :: q[i] == from + i
  }

  // When the first n rows are closed the rest is open, in order.
  lemma {:induction false} OpenTail(rows: seq<bool>, n: nat)
    requires n <= |rows| && forall i | 0 <= i < |rows| :: rows[i] <==> n <= i
    ensures |Open(rows)| == |rows| - n && Consecutive(Open(rows), n)
  {
    if |rows| > n {
      OpenTail(rows[..|rows| - 1], n);
    } else if rows != [] {
      OpenTail(rows[..|rows| - 1], n - 1);
    }
  }

  // Closing rows filters the open positions.
  lemma {:induction false} CloseIsKeep(rows: seq<bool>, after: seq<bool>, keep: set<nat>)
    requires |after| == |rows| && forall i | 0 <= i < |rows| :: after[i] == (rows[i] && i in keep)
    ensures Open(after) == Keep(keep, Open(rows))
  {
    if rows != [] {
      var last := |rows| - 1;
      CloseIsKeep(rows[..last], after[..last], keep);
      var front := Open(rows[..last]);
      if rows[last] {
        assert (front + [last])[..|front|] == front;
      }
    }
  }

  lemma {:induction false} KeepConcat(keep: set<nat>, q: seq<nat>, r: seq<nat>)
    ensures Keep(keep, q + r) == Keep(keep, q) + Keep(keep, r)
  {
    if r == [] {
      assert q + r == q;
    } else {
      var front := r[..|r| - 1];
      assert (q + r)[..|q + r| - 1] == q + front;
      KeepConcat(keep, q, front);
    }
  }

  lemma {:induction false} KeepSame(keep: set<nat>, other: set<nat>, q: seq<nat>)
    requires forall x <- q :: x in keep <==> x in other
    ensures Keep(keep, q) == Keep(other, q)
  {
    if q != [] {
      assert forall x <- q[..|q| - 1] :: x in q;
      KeepSame(keep, other, q[..|q| - 1]);
    }
  }

  lemma {:induction false} KeepMembers(keep: set<nat>, q: seq<nat>)
    ensures forall x {:trigger x in Keep(keep, q)} :: x in Keep(keep, q) <==> x in q && x in keep
  {
    if q != [] {
      var front := q[..|q| - 1];
      assert q == front + [q[|q| - 1]];
      KeepMembers(keep, front);
    }
  }

  lemma {:induction false} KeepShortens(keep: set<nat>, q: seq<nat>)
    ensures |Keep(keep, q)| <= |q|
  {
    if q != [] {
      KeepShortens(keep, q[..|q| - 1]);
    }
  }

  lemma {:induction false} KeepAll(keep: set<nat>, q: seq<nat>)
    requires forall x <- q :: x in keep
    ensures Keep(keep, q) == q
  {
    if q != [] {
      assert q == q[..|q| - 1] + [q[|q| - 1]];
      KeepAll(keep, q[..|q| - 1]);
    }
  }

  lemma {:induction false} KeepNone(keep: set<nat>, q: seq<nat>)
    requires forall x <- q :: x !in keep
    ensures Keep(keep, q) == []
  {
    if q != [] {
      assert forall x <- q[..|q| - 1] :: x in q;
      KeepNone(keep, q[..|q| - 1]);
    }
  }

  lemma TakeDrop(q: seq<nat>, batch: nat)
    ensures q == Take(q, batch) + Drop(q, batch)
    ensures Increasing(q) ==> forall x <- Drop(q, batch) :: x !in Take(q, batch)
  {
    if Increasing(q) {
      forall x | x in Drop(q, batch) ensures x !in Take(q, batch) {
        var j :| 0 <= j < |Drop(q, batch)| && Drop(q, batch)[j] == x;
        assert x == q[batch + j];
      }
    }
  }

  lemma KeepTaken(q: seq<nat>, stuck: set<nat>, batch: nat, keep: set<nat>)
    requires Increasing(q)
    requires forall x <- q :: x in keep <==> x !in Take(q, batch) || x in stuck
    ensures Keep(keep, q) == Pass(q, stuck, batch)
  {
    var taken, rest := Take(q, batch), Drop(q, batch);
    TakeDrop(q, batch);
    KeepConcat(keep, taken, rest);
    assert forall x <- taken :: x in q;
    assert forall x <- rest :: x in q;
    KeepSame(keep, stuck, taken);
    KeepAll(keep, rest);
  }

  // One pass over the table is one Pass over its open positions.
  lemma PassIsClose(rows: seq<bool>, after: seq<bool>, stuck: set<nat>, batch: nat)
    requires |after| == |rows|
    requires forall i | 0 <= i < |rows| :: after[i] == (rows[i] && (i !in Take(Open(rows), batch) || i in stuck))
    ensures Open(after) == Pass(Open(rows), stuck, batch)
  {
    var keep := set i: nat | i < |rows| && (i !in Take(Open(rows), batch) || i in stuck);
    CloseIsKeep(rows, after, keep);
    OpenIsIncreasing(rows);
    KeepTaken(Open(rows), stuck, batch, keep);
  }

  /* ----- how many passes a row waits ----- */

  function Stuck(stuck: set<nat>, q: seq<nat>): nat { |Keep(stuck, q)| }

  lemma {:induction false} KeepTwice(keep: set<nat>, q: seq<nat>)
    ensures Keep(keep, Keep(keep, q)) == Keep(keep, q)
  {
    KeepMembers(keep, q);
    KeepAll(keep, Keep(keep, q));
  }

  lemma PassCounts(stuck: set<nat>, q: seq<nat>, batch: nat)
    ensures var p := Pass(q, stuck, batch);
      && Stuck(stuck, p) == Stuck(stuck, q)
      && |p| == |q| - |Take(q, batch)| + Stuck(stuck, Take(q, batch))
      && Stuck(stuck, Take(q, batch)) <= Stuck(stuck, q)
  {
    var taken, rest := Take(q, batch), Drop(q, batch);
    assert q == taken + rest;
    KeepConcat(stuck, taken, rest);
    KeepConcat(stuck, Keep(stuck, taken), rest);
    KeepTwice(stuck, taken);
  }

  lemma {:induction false} KeepLoses(keep: set<nat>, q: seq<nat>, x: nat)
    requires x !in q
    ensures x !in Keep(keep, q)
  {
    if q != [] {
      KeepLoses(keep, q[..|q| - 1], x);
    }
  }

  // A handled row never comes back.
  lemma {:induction false} PassesLose(stuck: set<nat>, q: seq<nat>, batch: nat, n: nat, x: nat)
    requires x !in q
    ensures x !in Passes(q, stuck, batch, n)
    decreases n
  {
    hide Keep;
    if n > 0 {
      KeepLoses(stuck, Take(q, batch), x);
      PassesLose(stuck, Pass(q, stuck, batch), batch, n - 1, x);
    }
  }

  // A row that is beyond the batch keeps its place behind what the pass leaves.
  lemma PassAround(stuck: set<nat>, before: seq<nat>, x: nat, after: seq<nat>, batch: nat)
    requires batch <= |before|
    ensures Pass(before + [x] + after, stuck, batch) == Pass(before, stuck, batch) + [x] + after
  {
    var q := before + [x] + after;
    assert Take(q, batch) == Take(before, batch);
    assert Drop(q, batch) == Drop(before, batch) + [x] + after;
  }

  lemma PassTakes(stuck: set<nat>, before: seq<nat>, x: nat, after: seq<nat>, batch: nat)
    requires |before| < batch && x !in stuck && x !in after
    ensures x !in Pass(before + [x] + after, stuck, batch)
  {
    var q := before + [x] + after;
    KeepMembers(stuck, Take(q, batch));
    forall y | y in Drop(q, batch) ensures y in after {
      var j :| 0 <= j < |Drop(q, batch)| && Drop(q, batch)[j] == y;
      assert y == q[batch + j] == after[batch + j - |before| - 1];
    }
  }

  // The rows before it fill the whole batch in each of the next n passes.
  predicate Blocked(stuck: set<nat>, before: seq<nat>, batch: nat, n: nat)
    decreases n
  {
    n == 0 || (batch <= |before| && Blocked(stuck, Pass(before, stuck, batch), batch, n - 1))
  }

  lemma {:induction false} BlockedWaits(stuck: set<nat>, before: seq<nat>, x: nat, after: seq<nat>, batch: nat, n: nat)
    requires Blocked(stuck, before, batch, n)
    ensures x in Passes(before + [x] + after, stuck, batch, n)
    decreases n
  {
    if n == 0 {
      assert (before + [x] + after)[|before|] == x;
    } else {
      PassAround(stuck, before, x, after, batch);
      BlockedWaits(stuck, Pass(before, stuck, batch), x, after, batch, n - 1);
    }
  }

  lemma GoesNow(stuck: set<nat>, q: seq<nat>, x: nat, batch: nat, n: nat)
    requires x !in Pass(q, stuck, batch) && n > 0
    ensures x !in Passes(q, stuck, batch, n)
  {
    hide Pass;
    PassesLose(stuck, Pass(q, stuck, batch), batch, n - 1, x);
  }

  lemma PassesStep(stuck: set<nat>, q: seq<nat>, batch: nat, n: nat)
    requires n > 0
    ensures Passes(q, stuck, batch, n) == Passes(Pass(q, stuck, batch), stuck, batch, n - 1)
  {
  }

  lemma {:induction false} UnblockedGoes(stuck: set<nat>, before: seq<nat>, x: nat, after: seq<nat>, batch: nat, n: nat)
    requires x !in stuck && x !in after && !Blocked(stuck, before, batch, n)
    ensures x !in Passes(before + [x] + after, stuck, batch, n)
    decreases n
  {
    hide Pass, Passes;
    if |before| < batch {
      PassTakes(stuck, before, x, after, batch);
      GoesNow(stuck, before + [x] + after, x, batch, n);
    } else {
      var left := Pass(before, stuck, batch);
      UnblockedGoes(stuck, left, x, after, batch, n - 1);
      PassesStep(stuck, before + [x] + after, batch, n);
      PassAround(stuck, before, x, after, batch);
    }
  }

  lemma BlockedPass(stuck: set<nat>, before: seq<nat>, batch: nat)
    requires batch <= |before|
    ensures var left := Pass(before, stuck, batch);
      Stuck(stuck, left) == Stuck(stuck, before) && |left| <= |before| - (batch - Stuck(stuck, before))
  {
    PassCounts(stuck, before, batch);
  }

  lemma OneMore(n: int, d: int, g: int)
    requires (n - 1) * d <= g - d
    ensures n * d <= g
  {
    assert (n - 1) * d == n * d - d;
  }

  // Each pass that blocks it removes at least d = batch - j of the rows before it.
  lemma {:induction false} BlockedShrinks(stuck: set<nat>, before: seq<nat>, batch: nat, d: int, n: nat)
    requires Blocked(stuck, before, batch, n) && d == batch - Stuck(stuck, before)
    ensures n * d <= |before| - Stuck(stuck, before)
    decreases n
  {
    if n == 0 {
      KeepShortens(stuck, before);
    } else {
      BlockedPass(stuck, before, batch);
      BlockedShrinks(stuck, Pass(before, stuck, batch), batch, d, n - 1);
      OneMore(n, d, |before| - Stuck(stuck, before));
    }
  }

  lemma {:induction false} StuckBlocks(stuck: set<nat>, before: seq<nat>, batch: nat, n: nat)
    requires batch <= Stuck(stuck, before)
    ensures Blocked(stuck, before, batch, n)
    decreases n
  {
    KeepShortens(stuck, before);
    if n > 0 {
      BlockedPass(stuck, before, batch);
      StuckBlocks(stuck, Pass(before, stuck, batch), batch, n - 1);
    }
  }

  // With j < batch stuck rows before it and g others, pass n has handled the row
  // as soon as n * (batch - j) > g.
  lemma HandledWithin(stuck: set<nat>, before: seq<nat>, x: nat, after: seq<nat>, batch: nat, n: nat)
    requires x !in stuck && x !in after
    requires |before| - Stuck(stuck, before) < n * (batch - Stuck(stuck, before))
    ensures x !in Passes(before + [x] + after, stuck, batch, n)
  {
    if Blocked(stuck, before, batch, n) {
      BlockedShrinks(stuck, before, batch, batch - Stuck(stuck, before), n);
      assert false;
    }
    UnblockedGoes(stuck, before, x, after, batch, n);
  }

  // So a row is ever handled exactly when fewer than a batch of stuck rows precede it.
  lemma HandledIff(stuck: set<nat>, before: seq<nat>, x: nat, after: seq<nat>, batch: nat)
    requires x !in stuck && x !in after
    ensures (exists n: nat :: x !in Passes(before + [x] + after, stuck, batch, n)) <==> Stuck(stuck, before) < batch
  {
    if Stuck(stuck, before) < batch {
      KeepShortens(stuck, before);
      var n := |before| + 1;
      Multiply(n, 1, batch - Stuck(stuck, before));
      HandledWithin(stuck, before, x, after, batch, n);
    } else {
      forall n: nat ensures x in Passes(before + [x] + after, stuck, batch, n) {
        StuckBlocks(stuck, before, batch, n);
        BlockedWaits(stuck, before, x, after, batch, n);
      }
    }
  }

  lemma Multiply(n: nat, a: nat, b: nat)
    requires a <= b
    ensures n * a <= n * b
  {
  }

  lemma Split(stuck: set<nat>, q: seq<nat>, i: nat)
    requires i < |q| && Increasing(q) && q[i] !in stuck
    ensures q == q[..i] + [q[i]] + q[i + 1..] && q[i] !in q[i + 1..]
    ensures Stuck(stuck, q[..i]) <= Stuck(stuck, q)
    ensures i - Stuck(stuck, q[..i]) < |q| - Stuck(stuck, q)
  {
    var before, after := q[..i], q[i + 1..];
    assert q == before + [q[i]] + after;
    KeepConcat(stuck, before + [q[i]], after);
    KeepConcat(stuck, before, [q[i]]);
    KeepMembers(stuck, [q[i]]);
    KeepShortens(stuck, before);
    KeepShortens(stuck, after);
  }

  lemma Enough(waiting: int, g: int, n: nat, d: nat, wider: nat)
    requires waiting < g <= n * d && d <= wider
    ensures waiting < n * wider
  {
    Multiply(n, d, wider);
  }

  // k < batch rows always fail, the others always succeed: ceil(g / (batch - k))
  // passes handle all g others.
  lemma DrainBound(stuck: set<nat>, q: seq<nat>, batch: nat)
    requires Increasing(q) && Stuck(stuck, q) < batch
    ensures Stuck(stuck, q) <= |q|
    ensures var n := CeilDiv(|q| - Stuck(stuck, q), batch - Stuck(stuck, q));
      forall x <- q | x !in stuck :: x !in Passes(q, stuck, batch, n)
  {
    hide Keep, Passes;
    var k := Stuck(stuck, q);
    KeepShortens(stuck, q);
    var n := CeilDiv(|q| - k, batch - k);
    forall x | x in q && x !in stuck
      ensures x !in Passes(q, stuck, batch, n)
    {
      var i :| 0 <= i < |q| && q[i] == x;
      Split(stuck, q, i);
      KeepShortens(stuck, q[..i]);
      Enough(i - Stuck(stuck, q[..i]), |q| - k, n, batch - k, batch - Stuck(stuck, q[..i]));
      HandledWithin(stuck, q[..i], x, q[i + 1..], batch, n);
    }
  }

  lemma DropDrop(q: seq<nat>, a: nat, b: nat)
    ensures Drop(Drop(q, a), b) == Drop(q, a + b)
  {
  }

  lemma CleanPass(q: seq<nat>, batch: nat)
    ensures Pass(q, {}, batch) == Drop(q, batch)
  {
    KeepNone({}, Take(q, batch));
  }

  function Times(n: nat, d: nat): nat { n * d }

  lemma TimesStep(n: nat, d: nat)
    ensures Times(0, d) == 0
    ensures n > 0 ==> Times(n, d) == d + Times(n - 1, d)
  {
    assert n * d == (n - 1) * d + d;
  }

  // With nothing stuck, n passes remove exactly the first n batches.
  lemma {:induction false} DrainExact(q: seq<nat>, batch: nat, n: nat)
    ensures Passes(q, {}, batch, n) == Drop(q, Times(n, batch))
    decreases n
  {
    hide Pass, Times;
    TimesStep(n, batch);
    if n > 0 {
      CleanPass(q, batch);
      DrainExact(Drop(q, batch), batch, n - 1);
      DropDrop(q, batch, Times(n - 1, batch));
    }
  }
}
