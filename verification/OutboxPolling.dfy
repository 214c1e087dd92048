/**
 The order service's `pollOutbox` as it is written, and how many polls a row
 waits when some rows can never be published.
 */
module OutboxPolling {
  import opened Common
  import opened OrderRelay
  import Backlog

  /* ----- one whole poll, on the rows ----- */

  // How the awaits of one entry come out: whether each call took effect, and whether it returned.
  datatype Fate = Fate(stored: bool, published: bool, applied: bool, marked: bool, reset: bool, resetDone: bool)

  // markFailed is called when the publish or the mark threw; if it throws too, the poll ends.
  predicate Failed(fate: Fate) { !fate.published || !fate.marked }
  predicate Throws(fate: Fate) { Failed(fate) && !fate.resetDone }

  function Settled(row: Row, fate: Fate, now: int): Row {
    var marked := if fate.published && (fate.applied || fate.marked)
                  then row.(sent := true, processedAt := Some(now)) else row;
    if Failed(fate) && (fate.reset || fate.resetDone) then marked.(processedAt := None) else marked
  }

  // The entries that the loop gets to.
  function Handled(batch: seq<nat>, fates: nat -> Fate): seq<nat> {
    if batch == [] then []
    else if Throws(fates(batch[0])) then [batch[0]]
    else [batch[0]] + Handled(batch[1..], fates)
  }

  function SettledRows(rows: seq<Row>, batch: seq<nat>, fates: nat -> Fate, now: int): seq<Row> {
    seq(|rows|, i requires 0 <= i < |rows| => if i in batch then Settled(rows[i], fates(i), now) else rows[i])
  }

  function PolledRows(rows: seq<Row>, fates: nat -> Fate, now: int): seq<Row> {
    SettledRows(rows, Handled(FetchPending(rows), fates), fates, now)
  }

  // `stuck` are the rows whose publish always fails; everything else succeeds.
  function FateOf(stuck: set<nat>): nat -> Fate {
    (row: nat) =>
      if row in stuck then Fate(false, false, false, false, true, true) else Fate(true, true, true, true, false, false)
  }

  lemma {:induction false} AllHandled(batch: seq<nat>, stuck: set<nat>)
    ensures Handled(batch, FateOf(stuck)) == batch
  {
    if batch != [] { AllHandled(batch[1..], stuck); }
  }

  lemma SettleNext(rows: seq<Row>, batch: seq<nat>, i: nat, fates: nat -> Fate, now: int)
    requires i < |batch| && Backlog.Increasing(batch) && batch[i] < |rows|
    ensures var t := SettledRows(rows, batch[..i], fates, now);
      && t[batch[i]] == rows[batch[i]]
      && t[batch[i] := Settled(rows[batch[i]], fates(batch[i]), now)] == SettledRows(rows, batch[..i + 1], fates, now)
  {
    assert batch[..i + 1] == batch[..i] + [batch[i]];
    assert batch[i] !in batch[..i];
  }

  function Polls(rows: seq<Row>, stuck: set<nat>, clock: seq<int>): seq<Row>
    decreases clock
  {
    if clock == [] then rows
    else Polls(PolledRows(rows, FateOf(stuck), clock[0]), stuck, clock[1..])
  }

  function Waiting(rows: seq<Row>): seq<nat> {
    Backlog.Open(Pending(rows))
  }

  lemma PollIsPass(rows: seq<Row>, stuck: set<nat>, now: int)
    ensures Waiting(PolledRows(rows, FateOf(stuck), now)) == Backlog.Pass(Waiting(rows), stuck, BATCH)
    ensures |PolledRows(rows, FateOf(stuck), now)| == |rows|
  {
    AllHandled(FetchPending(rows), stuck);
    Backlog.PassIsClose(Pending(rows), Pending(PolledRows(rows, FateOf(stuck), now)), stuck, BATCH);
  }

  lemma {:induction false} PollsArePasses(rows: seq<Row>, stuck: set<nat>, clock: seq<int>)
    ensures Waiting(Polls(rows, stuck, clock)) == Backlog.Passes(Waiting(rows), stuck, BATCH, |clock|)
    ensures |Polls(rows, stuck, clock)| == |rows|
    decreases clock
  {
    if clock != [] {
      hide Backlog.Pass, PolledRows;
      PollIsPass(rows, stuck, clock[0]);
      PollsArePasses(PolledRows(rows, FateOf(stuck), clock[0]), stuck, clock[1..]);
    }
  }

  lemma WaitingMeansPending(rows: seq<Row>)
    ensures Backlog.Increasing(Waiting(rows))
    ensures forall i: nat :: i in Waiting(rows) <==> i < |rows| && !rows[i].sent
  {
    Backlog.OpenIsIncreasing(Pending(rows));
    forall i: nat ensures i in Waiting(rows) <==> i < |rows| && !rows[i].sent {
      assert i < |rows| ==> Pending(rows)[i] == !rows[i].sent;
    }
  }

  // With no inserts, k < 50 rows that always fail and g others: every other row
  // is SENT within ceil(g / (50 - k)) polls.
  lemma {:induction false} DrainsWithin(rows: seq<Row>, stuck: set<nat>, clock: seq<int>)
    requires Backlog.Stuck(stuck, Waiting(rows)) < BATCH
    requires var k := Backlog.Stuck(stuck, Waiting(rows));
      k <= |Waiting(rows)| && |clock| == CeilDiv(|Waiting(rows)| - k, BATCH - k)
    ensures var t := Polls(rows, stuck, clock);
      |t| == |rows| && forall i | 0 <= i < |rows| && i !in stuck :: t[i].sent
  {
    hide Backlog.Passes, Backlog.Stuck, CeilDiv, Polls;
    var q := Waiting(rows);
    WaitingMeansPending(rows);
    WaitingMeansPending(Polls(rows, stuck, clock));
    PollsArePasses(rows, stuck, clock);
    Backlog.DrainBound(stuck, q, BATCH);
    forall i: nat | i < |rows| && i !in stuck
      ensures Polls(rows, stuck, clock)[i].sent
    {
      if i !in q { Backlog.PassesLose(stuck, q, BATCH, |clock|, i); }
    }
  }

  // With nothing stuck, a pending row is SENT by the n-th poll exactly when fewer
  // than 50 n pending rows precede it; so g rows take exactly ceil(g / 50) polls.
  lemma {:induction false} DrainsExactly(rows: seq<Row>, clock: seq<int>)
    ensures Waiting(Polls(rows, {}, clock)) == Backlog.Drop(Waiting(rows), Backlog.Times(|clock|, BATCH))
    ensures Waiting(Polls(rows, {}, clock)) == [] <==> |Waiting(rows)| <= |clock| * BATCH
  {
    PollsArePasses(rows, {}, clock);
    Backlog.DrainExact(Waiting(rows), BATCH, |clock|);
  }

  lemma Sorted(q: seq<nat>, i: nat)
    requires i < |q| && Backlog.Increasing(q)
    ensures q == q[..i] + [q[i]] + q[i + 1..] && q[i] !in q[i + 1..]
  {
  }

  // A row that could be published is ever SENT exactly when fewer than 50 rows
  // that cannot be are pending before it: a full batch of them starves it for good.
  lemma SentIff(rows: seq<Row>, stuck: set<nat>, i: nat)
    requires i < |Waiting(rows)| && Waiting(rows)[i] !in stuck
    ensures (exists clock: seq<int> :: Waiting(rows)[i] !in Waiting(Polls(rows, stuck, clock)))
       <==> Backlog.Stuck(stuck, Waiting(rows)[..i]) < BATCH
  {
    hide Backlog.Passes, Polls, Waiting, Backlog.Stuck;
    var q := Waiting(rows);
    WaitingMeansPending(rows);
    Sorted(q, i);
    Backlog.HandledIff(stuck, q[..i], q[i], q[i + 1..], BATCH);
    if Backlog.Stuck(stuck, q[..i]) < BATCH {
      var n: nat :| q[i] !in Backlog.Passes(q, stuck, BATCH, n);
      var clock := seq(n, _ => 0);
      PollsArePasses(rows, stuck, clock);
      assert q[i] !in Waiting(Polls(rows, stuck, clock));
    } else {
      forall clock: seq<int> ensures q[i] in Waiting(Polls(rows, stuck, clock)) {
        PollsArePasses(rows, stuck, clock);
      }
    }
  }

  /* ----- the poller ----- */

  lemma {:induction false} RunConcat(s: State, first: seq<Action>, rest: seq<Action>)
    ensures Run(s, first + rest) == Run(Run(s, first), rest)
  {
    if rest == [] {
      assert first + rest == first;
    } else {
      assert (first + rest)[..|first + rest| - 1] == first + rest[..|rest| - 1];
      RunConcat(s, first, rest[..|rest| - 1]);
    }
  }

  lemma OnlyPoll(s: State)
    requires s.pollers == [Idle]
    ensures Run(s, [Poll(0)]) == s.(pollers := [After(FetchPending(s.rows))])
  {
    assert [Poll(0)][..0] == [];
  }

  lemma SettleNone(rows: seq<Row>, fates: nat -> Fate, now: int)
    ensures SettledRows(rows, [], fates, now) == rows
  {
  }

  // What happens to one entry, as steps of the relay.
  function EntryActions(fate: Fate, now: int): seq<Action> {
    [Publish(0, fate.stored, fate.published)]
    + (if fate.published then [MarkSent(0, now, fate.applied, fate.marked)] else [])
    + (if Failed(fate) then [MarkFailed(0, fate.reset, fate.resetDone)] else [])
  }

  lemma EntryIsRun(s: State, fate: Fate, now: int)
    ensures var published := Step(s, Publish(0, fate.stored, fate.published));
      var marked := if fate.published then Step(published, MarkSent(0, now, fate.applied, fate.marked)) else published;
      Run(s, EntryActions(fate, now))
      == if Failed(fate) then Step(marked, MarkFailed(0, fate.reset, fate.resetDone)) else marked
  {
    hide Step;
    var publish, mark := Publish(0, fate.stored, fate.published), MarkSent(0, now, fate.applied, fate.marked);
    var reset := MarkFailed(0, fate.reset, fate.resetDone);
    Run1(s, publish);
    RunConcat(s, [publish], [mark]);
    Run1(Step(s, publish), mark);
    RunConcat(s, [publish], [reset]);
    Run1(Step(s, publish), reset);
    RunConcat(s, [publish] + [mark], [reset]);
    Run1(Step(Step(s, publish), mark), reset);
    assert [publish] + [mark] + [] == [publish] + [mark] && [publish] + [] + [reset] == [publish] + [reset];
  }

  lemma Run1(s: State, a: Action)
    ensures Run(s, [a]) == Step(s, a)
  {
    assert [a][..0] == [];
  }

  lemma {:induction false} HandledFrom(batch: seq<nat>, i: nat, fates: nat -> Fate)
    requires i <= |batch| && forall j | 0 <= j < i :: !Throws(fates(batch[j]))
    ensures Handled(batch, fates) == batch[..i] + Handled(batch[i..], fates)
    decreases i
  {
    if i == 0 {
      assert batch[0..] == batch;
    } else {
      HandledFrom(batch[1..], i - 1, fates);
      assert batch[1..][i - 1..] == batch[i..] && batch[..i] == [batch[0]] + batch[1..][..i - 1];
    }
  }

  class OutboxService {
    var rows: seq<Row>
    var topic: seq<Message>
    ghost var source: seq<nat>
    var isRunning: bool
    var isShuttingDown: bool

    ghost function With(poller: Poller): State
      reads this
    {
      State(rows, topic, source, [poller])
    }

    constructor ()
      ensures With(Idle) == State([], [], [], [Idle]) && !isRunning && !isShuttingDown
    {
      rows, topic, source, isRunning, isShuttingDown := [], [], [], false, false;
    }

    // Publish, then mark; if either throws, clear processedAt and leave the status alone.
    method ProcessEntry(row: nat, fate: Fate, now: int, ghost rest: seq<nat>) returns (threw: bool)
      requires row < |rows|
      modifies this`rows, this`topic, this`source
      ensures |rows| == |old(rows)|
      ensures rows == old(rows)[row := Settled(old(rows)[row], fate, now)]
      ensures forall i | 0 <= i < |rows| && i != row :: rows[i] == old(rows)[i]
      ensures
        var was, marked := old(rows)[row], fate.published && (fate.applied || fate.marked);
        var unset := (!fate.published || !fate.marked) && (fate.reset || fate.resetDone);
        && rows[row].eventId == was.eventId && rows[row].payload == was.payload
        && rows[row].sent == (was.sent || marked)
        && rows[row].processedAt == (if unset then None else if marked then Some(now) else was.processedAt)
      ensures
        var was := old(rows)[row];
        topic == old(topic) + if !fate.stored && !fate.published then [] else
          [Message(was.payload.orderId, was.eventId, was.payload.eventType, was.payload)]
      ensures threw == Throws(fate)
      ensures threw <==> (!fate.published || !fate.marked) && !fate.resetDone
      ensures With(if threw then Idle else After(rest)) == Run(old(With(Next([row] + rest))), EntryActions(fate, now))
    {
      EntryIsRun(With(Next([row] + rest)), fate, now);
      if fate.stored || fate.published {
        topic := topic + [Message(rows[row].payload.orderId, rows[row].eventId,
                                  rows[row].payload.eventType, rows[row].payload)];
        source := source + [row];
      }
      if fate.published {
        if fate.applied || fate.marked {
          rows := rows[row := rows[row].(sent := true, processedAt := Some(now))];
        }
        if fate.marked {
          return false;
        }
      }
      if fate.reset || fate.resetDone {
        rows := rows[row := rows[row].(processedAt := None)];
      }
      threw := !fate.resetDone;
    }

    method FetchPendingRows() returns (batch: seq<nat>)
      ensures batch == FetchPending(rows)
      // Pending rows in creation order, 50 at most; what is left out comes after a full batch.
      ensures |batch| <= 50 && forall j, k | 0 <= j < k < |batch| :: batch[j] < batch[k]
      ensures forall i <- batch :: i < |rows| && !rows[i].sent
      ensures forall i | 0 <= i < |rows| && !rows[i].sent ::
                i in batch || (|batch| == 50 && forall j <- batch :: j < i)
    {
      WaitingMeansPending(rows);
      Backlog.TakeIsFirst(Waiting(rows), BATCH);
      batch := [];
      var i := 0;
      while i < |rows|
        invariant 0 <= i <= |rows| && batch == Backlog.Open(Pending(rows)[..i])
      {
        assert Pending(rows)[..i + 1][..i] == Pending(rows)[..i];
        if !rows[i].sent {
          batch := batch + [i];
        }
        i := i + 1;
      }
      assert Pending(rows)[..|rows|] == Pending(rows);
      if |batch| > BATCH {
        batch := batch[..BATCH];
      }
    }

    // One poll: the batch in order, each row published and marked before the
    // next, up to an entry that throws.  It is a run of the step system, and it is
    // PolledRows on the rows.
    method PollOutbox(fates: nat -> Fate, now: int, fetched: bool) returns (ghost actions: seq<Action>)
      modifies this
      ensures With(Idle) == Run(old(With(Idle)), actions)
      ensures old(isRunning) || old(isShuttingDown) || !fetched ==> actions == []
      ensures !old(isRunning) && !old(isShuttingDown) && fetched ==> rows == PolledRows(old(rows), fates, now)
      ensures isShuttingDown == old(isShuttingDown)
      ensures isRunning == old(isRunning)
    {
      actions := [];
      if isRunning || isShuttingDown {
        return;
      }
      isRunning := true;
      if !fetched {
        isRunning := false;
        return;
      }
      ghost var before := With(Idle);
      var batch := FetchPendingRows();
      actions := [Poll(0)];
      OnlyPoll(before);
      BatchInRange(rows);
      actions := PublishBatch(batch, fates, now, before, actions);
      isRunning := false;
    }

    method PublishBatch(batch: seq<nat>, fates: nat -> Fate, now: int, ghost before: State, ghost start: seq<Action>)
      returns (ghost actions: seq<Action>)
      requires Backlog.Increasing(batch) && forall j <- batch :: j < |rows|
      requires With(After(batch)) == Run(before, start)
      modifies this`rows, this`topic, this`source
      ensures rows == SettledRows(old(rows), Handled(batch, fates), fates, now)
      ensures With(Idle) == Run(before, actions)
    {
      hide Run, Step, SettledRows, Settled, Throws, EntryActions;
      ghost var initial := rows;
      SettleNone(rows, fates, now);
      actions := start;
      var i := 0;
      assert batch[0..] == batch && batch[..0] == [];
      while i < |batch|
        invariant 0 <= i <= |batch|
        invariant |rows| == |initial| && rows == SettledRows(initial, batch[..i], fates, now)
        invariant With(After(batch[i..])) == Run(before, actions)
        invariant forall j | 0 <= j < i :: !Throws(fates(batch[j]))
      {
        assert batch[i] in batch;
        assert batch[i..] == [batch[i]] + batch[i + 1..];
        SettleNext(initial, batch, i, fates, now);
        RunConcat(before, actions, EntryActions(fates(batch[i]), now));
        var threw := ProcessEntry(batch[i], fates(batch[i]), now, batch[i + 1..]);
        actions := actions + EntryActions(fates(batch[i]), now);
        HandledFrom(batch, i, fates);
        if threw {
          assert Handled(batch[i..], fates) == [batch[i]];
          assert batch[..i + 1] == batch[..i] + [batch[i]];
          return;
        }
        i := i + 1;
      }
      HandledFrom(batch, |batch|, fates);
      assert batch[..|batch|] == batch && batch[|batch|..] == [];
      assert Handled(batch, fates) == batch + [] == batch;
    }

    method OnModuleDestroy()
      modifies this`isShuttingDown
      ensures isShuttingDown // under which PollOutbox returns at once
    {
      isShuttingDown := true;
    }
  }

  lemma BatchInRange(rows: seq<Row>)
    ensures Backlog.Increasing(FetchPending(rows))
    ensures forall j <- FetchPending(rows) :: j < |rows|
  {
    WaitingMeansPending(rows);
    forall j | j in FetchPending(rows) ensures j < |rows| {
      assert j in Waiting(rows);
    }
  }
}
