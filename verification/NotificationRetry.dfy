/**
 The delivery records and the retry that runs every minute: the first 50 PENDING
 records by creation time, of them those older than five minutes, each
 dispatched to SENT or FAILED.
 */
module NotificationRetry {
  import opened Common
  import Backlog

  const BATCH: nat := 50
  const STALE: int := 300_000 // milliseconds

  datatype Status = PENDING | SENT | FAILED

  // Records are in creation order.
  datatype Record = Record(
    createdAt: int,
    status: Status,
    sentAt: Option<int>,
    providerToken: Option<string>,
    errorMessage: Option<string>)

  // What the dispatcher does with a record.
  datatype Outcome =
    | Delivered(token: Option<string>)
    | Rejected(message: Option<string>)
    | Threw(error: string)

  predicate InOrder(rows: seq<Record>) {
    forall i, j | 0 <= i < j < |rows| :: rows[i].createdAt <= rows[j].createdAt
  }

  function Pending(rows: seq<Record>): seq<bool> {
    seq(|rows|, i requires 0 <= i < |rows| => rows[i].status == PENDING)
  }

  function Queue(rows: seq<Record>): seq<nat> {
    Backlog.Open(Pending(rows))
  }

  predicate IsStale(rows: seq<Record>, i: nat, now: int) {
    i < |rows| && rows[i].createdAt < now - STALE
  }

  function StaleOf(rows: seq<Record>, q: seq<nat>, now: int): (stale: seq<nat>)
    ensures |stale| <= |q|
  {
    if q == [] then []
    else
      var last := q[|q| - 1];
      StaleOf(rows, q[..|q| - 1], now) + (if IsStale(rows, last, now) then [last] else [])
  }

  // The records one pass dispatches.
  function Retried(rows: seq<Record>, now: int): seq<nat> {
    StaleOf(rows, Backlog.Take(Queue(rows), BATCH), now)
  }

  function Dispatched(r: Record, outcome: Outcome, now: int): Record {
    match outcome
    case Delivered(token) => r.(status := SENT, providerToken := token, sentAt := Some(now))
    case Rejected(message) =>
      r.(status := FAILED, errorMessage := Some(if message.Some? then message.value else "Dispatch failed"))
    case Threw(error) => r.(status := FAILED, errorMessage := Some(error))
  }

  function NewRecord(createdAt: int): Record {
    Record(createdAt, PENDING, None, None, None)
  }

  function DispatchedRows(rows: seq<Record>, q: seq<nat>, outcomes: nat -> Outcome, now: int): seq<Record> {
    seq(|rows|, i requires 0 <= i < |rows| => if i in q then Dispatched(rows[i], outcomes(i), now) else rows[i])
  }

  datatype Action =
    | Retry(now: int, outcomes: nat -> Outcome)
    | Create(createdAt: int)

  // Nothing is created with an earlier time than what is there.
  function Step(rows: seq<Record>, a: Action): seq<Record> {
    match a
    case Retry(now, outcomes) => DispatchedRows(rows, Retried(rows, now), outcomes, now)
    case Create(at) =>
      if rows == [] || rows[|rows| - 1].createdAt <= at then rows + [NewRecord(at)] else rows
  }

  function Run(rows: seq<Record>, actions: seq<Action>): seq<Record> {
    if actions == [] then rows else Step(Run(rows, actions[..|actions| - 1]), actions[|actions| - 1])
  }

  function Retries(actions: seq<Action>): nat {
    if actions == [] then 0
    else Retries(actions[..|actions| - 1]) + (if actions[|actions| - 1].Retry? then 1 else 0)
  }

  /* ----- one pass ----- */

  lemma QueueIsPending(rows: seq<Record>)
    ensures Backlog.Increasing(Queue(rows))
    ensures forall i: nat :: i in Queue(rows) <==> i < |rows| && rows[i].status == PENDING
  {
    Backlog.OpenIsIncreasing(Pending(rows));
    forall i: nat ensures i in Queue(rows) <==> i < |rows| && rows[i].status == PENDING {
      assert i < |rows| ==> (Pending(rows)[i] <==> rows[i].status == PENDING);
    }
  }

  // How many records of a queue are stale.
  function StaleCount(rows: seq<Record>, q: seq<nat>, now: int): (n: nat)
    ensures n <= |q|
  {
    |StaleOf(rows, q, now)|
  }

  // The stale records of a queue in creation order are a prefix of it.
  lemma {:induction false} StaleIsPrefix(rows: seq<Record>, q: seq<nat>, now: int)
    requires InOrder(rows) && Backlog.Increasing(q) && forall i <- q :: i < |rows|
    ensures StaleOf(rows, q, now) == q[..StaleCount(rows, q, now)]
    ensures forall i | 0 <= i < |q| :: IsStale(rows, q[i], now) <==> i < StaleCount(rows, q, now)
  {
    hide IsStale, InOrder;
    if q != [] {
      var front, last := q[..|q| - 1], q[|q| - 1];
      assert q == front + [last];
      assert forall i <- front :: i in q;
      var n := StaleCount(rows, front, now);
      StaleIsPrefix(rows, front, now);
      if n < |front| {
        OlderIsStale(rows, front[n], last, now);
      }
    }
  }

  lemma OlderIsStale(rows: seq<Record>, i: nat, j: nat, now: int)
    requires InOrder(rows) && i <= j
    ensures IsStale(rows, j, now) ==> IsStale(rows, i, now)
  {
  }

  // A pass dispatches a prefix of the pending records by creation time: the first
  // 50 at most, and of those all that are stale.
  lemma PassIsPrefix(rows: seq<Record>, now: int, outcomes: nat -> Outcome)
    requires InOrder(rows)
    ensures var n := StaleCount(rows, Backlog.Take(Queue(rows), BATCH), now);
      && n <= BATCH && n <= |Queue(rows)|
      && Retried(rows, now) == Queue(rows)[..n]
      && Queue(Step(rows, Retry(now, outcomes))) == Queue(rows)[n..]
      && (forall i | 0 <= i < |Queue(rows)| && i < BATCH :: i < n <==> IsStale(rows, Queue(rows)[i], now))
  {
    hide Queue, InOrder, IsStale, StaleOf;
    var q := Queue(rows);
    var batch := Backlog.Take(q, BATCH);
    var n := StaleCount(rows, batch, now);
    QueueIsPending(rows);
    assert forall i <- batch :: i in q;
    StaleIsPrefix(rows, batch, now);
    assert batch[..n] == q[..n];
    forall i | 0 <= i < |q| && i < BATCH ensures i < n <==> IsStale(rows, q[i], now) {
      assert batch[i] == q[i];
    }
    QueueWithout(rows, Step(rows, Retry(now, outcomes)), n);
  }

  lemma QueueWithout(rows: seq<Record>, after: seq<Record>, n: nat)
    requires n <= |Queue(rows)| && |after| == |rows|
    requires forall i | 0 <= i < |rows| ::
               after[i].status == PENDING <==> rows[i].status == PENDING && i !in Queue(rows)[..n]
    ensures Queue(after) == Queue(rows)[n..]
  {
    var q := Queue(rows);
    var keep := set i | i in q[n..];
    QueueIsPending(rows);
    assert q == q[..n] + q[n..];
    forall i | 0 <= i < |rows| ensures Pending(after)[i] == (Pending(rows)[i] && i in keep) {
      assert rows[i].status == PENDING <==> i in q;
    }
    Backlog.CloseIsKeep(Pending(rows), Pending(after), keep);
    Backlog.KeepConcat(keep, q[..n], q[n..]);
    forall x | x in q[..n] ensures x !in keep {
    }
    Backlog.KeepNone(keep, q[..n]);
    Backlog.KeepAll(keep, q[n..]);
  }

  lemma CreateAppends(rows: seq<Record>, at: int)
    requires InOrder(rows)
    ensures InOrder(Step(rows, Create(at)))
    ensures Queue(rows) <= Queue(Step(rows, Create(at)))
  {
    var t := Step(rows, Create(at));
    if t != rows {
      assert Pending(t)[..|rows|] == Pending(rows);
    }
  }

  /* ----- how many passes a stale record waits ----- */

  // Every retry happens when the records in question are already stale.
  ghost predicate NotBefore(actions: seq<Action>, start: int) {
    forall a <- actions | a.Retry? :: start <= a.now
  }

  lemma StepKeepsPlace(rows: seq<Record>, a: Action, start: int, i: nat)
    requires InOrder(rows) && i < |Queue(rows)| && IsStale(rows, Queue(rows)[i], start)
    requires a.Retry? ==> start <= a.now
    ensures var x, t := Queue(rows)[i], Step(rows, a);
      && InOrder(t) && x < |t| && t[x].createdAt == rows[x].createdAt
      && (a.Create? ==> i < |Queue(t)| && Queue(t)[i] == x)
      && (a.Retry? && i < BATCH ==> t[x].status != PENDING)
      && (a.Retry? && i >= BATCH ==> i - BATCH < |Queue(t)| && Queue(t)[i - BATCH] == x)
  {
    hide Queue, StaleCount, IsStale;
    var q, t := Queue(rows), Step(rows, a);
    QueueIsPending(rows);
    assert q[i] in q;
    StepKeepsOrder(rows, a);
    if a.Create? {
      CreateAppends(rows, a.createdAt);
    } else {
      var n := StaleCount(rows, Backlog.Take(q, BATCH), a.now);
      PassIsPrefix(rows, a.now, a.outcomes);
      var j := if i < BATCH then i else BATCH - 1;
      assert q[j] <= q[i];
      StaysStale(rows, q[j], q[i], start, a.now);
      if i < BATCH { assert q[i] in q[..n]; }
    }
  }

  lemma StaysStale(rows: seq<Record>, i: nat, j: nat, start: int, now: int)
    requires InOrder(rows) && i <= j && start <= now && IsStale(rows, j, start)
    ensures IsStale(rows, i, now)
  {
  }

  lemma DoneStaysDone(rows: seq<Record>, a: Action, x: nat)
    requires x < |rows| && rows[x].status != PENDING
    ensures x < |Step(rows, a)| && Step(rows, a)[x].status != PENDING
  {
  }

  lemma StepKeepsOrder(rows: seq<Record>, a: Action)
    requires InOrder(rows)
    ensures InOrder(Step(rows, a))
  {
  }

  // Where the i-th pending record is after some actions.
  ghost predicate AtPlace(rows: seq<Record>, x: nat, createdAt: int, place: int) {
    && InOrder(rows) && x < |rows|
    && (if place < 0 then rows[x].status != PENDING
        else place < |Queue(rows)| && Queue(rows)[place] == x && rows[x].createdAt == createdAt)
  }

  lemma {:induction false} PlaceAfter(rows: seq<Record>, actions: seq<Action>, start: int, i: nat)
    requires InOrder(rows) && NotBefore(actions, start)
    requires i < |Queue(rows)| && IsStale(rows, Queue(rows)[i], start)
    ensures AtPlace(Run(rows, actions), Queue(rows)[i], rows[Queue(rows)[i]].createdAt, i - BATCH * Retries(actions))
  {
    hide Step, Queue;
    if actions != [] {
      var front, a := actions[..|actions| - 1], actions[|actions| - 1];
      assert forall b <- front :: b in actions;
      PlaceAfter(rows, front, start, i);
      var mid, place := Run(rows, front), i - BATCH * Retries(front);
      StepKeepsOrder(mid, a);
      if place < 0 {
        DoneStaysDone(mid, a, Queue(rows)[i]);
      } else {
        StepKeepsPlace(mid, a, start, place);
      }
    }
  }

  // A stale record with i pending records before it stays PENDING through
  // exactly i / 50 retries, whatever is created meanwhile.
  lemma PendingIff(rows: seq<Record>, actions: seq<Action>, start: int, i: nat)
    requires InOrder(rows) && NotBefore(actions, start)
    requires i < |Queue(rows)| && IsStale(rows, Queue(rows)[i], start)
    ensures var x, t := Queue(rows)[i], Run(rows, actions);
      x < |t| && (t[x].status == PENDING <==> BATCH * Retries(actions) <= i)
  {
    PlaceAfter(rows, actions, start, i);
    var t := Run(rows, actions);
    QueueIsPending(t);
    var place := i - BATCH * Retries(actions);
    if place >= 0 { assert Queue(t)[place] in Queue(t); }
  }

  // n stale records are all SENT or FAILED exactly from the ceil(n / 50)-th retry on.
  lemma DrainedIff(rows: seq<Record>, actions: seq<Action>, start: int)
    requires InOrder(rows) && NotBefore(actions, start)
    ensures var n, t := StaleCount(rows, Queue(rows), start), Run(rows, actions);
      (forall i: nat | i < n :: Queue(rows)[i] < |t| && t[Queue(rows)[i]].status != PENDING)
      <==> n <= BATCH * Retries(actions)
  {
    hide Run, Queue, StaleCount;
    var q, n, t := Queue(rows), StaleCount(rows, Queue(rows), start), Run(rows, actions);
    QueueIsPending(rows);
    StaleIsPrefix(rows, q, start);
    forall i: nat | i < n
      ensures q[i] < |t| && (t[q[i]].status == PENDING <==> BATCH * Retries(actions) <= i)
    {
      PendingIff(rows, actions, start, i);
    }
    if n > 0 && BATCH * Retries(actions) < n {
      assert t[q[n - 1]].status == PENDING <==> BATCH * Retries(actions) <= n - 1;
    }
  }

  /* ----- the service ----- */

  lemma DispatchNext(rows: seq<Record>, q: seq<nat>, i: nat, outcomes: nat -> Outcome, now: int)
    requires i < |q| && Backlog.Increasing(q) && q[i] < |rows|
    ensures var t := DispatchedRows(rows, q[..i], outcomes, now);
      && t[q[i]] == rows[q[i]]
      && t[q[i] := Dispatched(rows[q[i]], outcomes(q[i]), now)] == DispatchedRows(rows, q[..i + 1], outcomes, now)
  {
    assert q[..i + 1] == q[..i] + [q[i]];
    assert q[i] !in q[..i];
  }

  // PENDING records by creation time, 50 at most; what is left out comes after a full batch.
  ghost predicate FirstPending(rows: seq<Record>, batch: seq<nat>) {
    && |batch| <= 50 && (forall j, k | 0 <= j < k < |batch| :: batch[j] < batch[k])
    && (forall i <- batch :: i < |rows| && rows[i].status == PENDING)
    && (forall i | 0 <= i < |rows| && rows[i].status == PENDING ::
          i in batch || (|batch| == 50 && forall j <- batch :: j < i))
  }

  lemma FirstPendingIsTaken(rows: seq<Record>)
    ensures FirstPending(rows, Backlog.Take(Queue(rows), BATCH))
  {
    QueueIsPending(rows);
    Backlog.TakeIsFirst(Queue(rows), BATCH);
  }

  // What the dispatcher's answer makes of a record.
  ghost predicate Settles(was: Record, outcome: Outcome, now: int, record: Record) {
    && record.createdAt == was.createdAt
    && (outcome.Delivered? ==>
          && record.status == SENT && record.providerToken == outcome.token && record.sentAt == Some(now)
          && record.errorMessage == was.errorMessage)
    && (!outcome.Delivered? ==>
          record.status == FAILED && record.providerToken == was.providerToken && record.sentAt == was.sentAt)
    && (outcome.Threw? ==> record.errorMessage == Some(outcome.error))
    && (outcome.Rejected? ==>
          record.errorMessage == if outcome.message == None then Some("Dispatch failed") else outcome.message)
  }

  class NotificationService {
    var rows: seq<Record>

    ghost predicate Valid()
      reads this
    {
      InOrder(rows)
    }

    constructor ()
      ensures Valid() && rows == []
    {
      rows := [];
    }

    // The record is saved first; its dispatch is not awaited, so it may or may not
    // have come back (`settled`) when the call returns.
    method CreateAndDispatch(now: int, outcome: Outcome, settled: bool) returns (id: nat)
      requires Valid() && (rows == [] || rows[|rows| - 1].createdAt <= now)
      modifies this
      ensures Valid() && id == |old(rows)|
      ensures rows == old(rows) + [if settled then Dispatched(NewRecord(now), outcome, now) else NewRecord(now)]
      ensures
        var saved := Record(now, PENDING, None, None, None);
        if settled then Settles(saved, outcome, now, rows[id]) else rows[id] == saved
    {
      id := |rows|;
      rows := rows + [Record(now, PENDING, None, None, None)];
      if settled {
        DispatchOne(id, outcome, now);
      }
    }

    method DispatchOne(id: nat, outcome: Outcome, now: int)
      requires id < |rows|
      modifies this
      ensures rows == old(rows)[id := Dispatched(old(rows)[id], outcome, now)]
      ensures Settles(old(rows)[id], outcome, now, rows[id])
    {
      var record := rows[id];
      if outcome.Delivered? {
        record := record.(status := SENT);
        record := record.(providerToken := outcome.token);
        record := record.(sentAt := Some(now));
      } else if outcome.Rejected? {
        record := record.(status := FAILED);
        record := record.(errorMessage := if outcome.message.Some? then outcome.message else Some("Dispatch failed"));
      } else {
        record := record.(status := FAILED);
        record := record.(errorMessage := Some(outcome.error));
      }
      rows := rows[id := record];
    }

    method FindPending() returns (pending: seq<nat>)
      ensures pending == Backlog.Take(Queue(rows), BATCH)
      ensures FirstPending(rows, pending)
    {
      FirstPendingIsTaken(rows);
      pending := [];
      var i := 0;
      while i < |rows|
        invariant 0 <= i <= |rows| && pending == Backlog.Open(Pending(rows)[..i])
      {
        assert Pending(rows)[..i + 1][..i] == Pending(rows)[..i];
        if rows[i].status == PENDING {
          pending := pending + [i];
        }
        i := i + 1;
      }
      assert Pending(rows)[..|rows|] == Pending(rows);
      if |pending| > BATCH {
        pending := pending[..BATCH];
      }
    }

    method RetryPendingDeliveries(outcomes: nat -> Outcome, now: int) returns (ghost batch: seq<nat>)
      requires Valid()
      modifies this
      ensures Valid() && rows == Step(old(rows), Retry(now, outcomes))
      // Of the first 50 those older than five minutes, and no other.
      ensures FirstPending(old(rows), batch) && |rows| == |old(rows)|
      ensures forall i | 0 <= i < |rows| ::
                if i in batch && old(rows)[i].createdAt < now - 5 * 60 * 1000
                then Settles(old(rows)[i], outcomes(i), now, rows[i])
                else rows[i] == old(rows)[i]
    {
      hide Step, Queue, FirstPending, Settles;
      var pending := FindPending();
      batch := pending;
      StaleMembers(rows, pending, now);
      var stale := [];
      var i := 0;
      while i < |pending|
        invariant 0 <= i <= |pending| && stale == StaleOf(rows, pending[..i], now)
      {
        assert pending[..i + 1][..i] == pending[..i];
        if pending[i] < |rows| && rows[pending[i]].createdAt < now - STALE {
          stale := stale + [pending[i]];
        }
        i := i + 1;
      }
      assert pending[..|pending|] == pending;
      StepKeepsOrder(rows, Retry(now, outcomes));
      RetriedInRange(rows, now, outcomes);
      AllSettle(rows, stale, outcomes, now);
      assert forall i <- batch :: i < |rows| by { RetriedInBatch(rows, batch); }
      DispatchAll(stale, outcomes, now);
    }

    method DispatchAll(stale: seq<nat>, outcomes: nat -> Outcome, now: int)
      requires Backlog.Increasing(stale) && forall i <- stale :: i < |rows|
      modifies this
      ensures rows == DispatchedRows(old(rows), stale, outcomes, now)
    {
      hide DispatchedRows, Dispatched;
      ghost var initial := rows;
      NoneDispatched(rows, outcomes, now);
      var i := 0;
      while i < |stale|
        invariant 0 <= i <= |stale| && |rows| == |initial|
        invariant rows == DispatchedRows(initial, stale[..i], outcomes, now)
      {
        assert stale[i] in stale;
        DispatchNext(initial, stale, i, outcomes, now);
        DispatchOne(stale[i], outcomes(stale[i]), now);
        i := i + 1;
      }
      assert stale[..|stale|] == stale;
    }
  }

  lemma {:induction false} StaleMembers(rows: seq<Record>, q: seq<nat>, now: int)
    ensures forall i: nat :: i in StaleOf(rows, q, now) <==> i in q && IsStale(rows, i, now)
  {
    if q != [] {
      StaleMembers(rows, q[..|q| - 1], now);
      assert q == q[..|q| - 1] + [q[|q| - 1]];
    }
  }

  lemma RetriedInBatch(rows: seq<Record>, batch: seq<nat>)
    requires FirstPending(rows, batch)
    ensures forall i <- batch :: i < |rows|
  {
  }

  lemma AllSettle(rows: seq<Record>, q: seq<nat>, outcomes: nat -> Outcome, now: int)
    ensures forall i: nat | i < |rows| ::
              if i in q then Settles(rows[i], outcomes(i), now, DispatchedRows(rows, q, outcomes, now)[i])
              else DispatchedRows(rows, q, outcomes, now)[i] == rows[i]
  {
  }

  lemma NoneDispatched(rows: seq<Record>, outcomes: nat -> Outcome, now: int)
    ensures DispatchedRows(rows, [], outcomes, now) == rows
  {
  }

  lemma RetriedInRange(rows: seq<Record>, now: int, outcomes: nat -> Outcome)
    requires InOrder(rows)
    ensures Backlog.Increasing(Retried(rows, now))
    ensures forall i <- Retried(rows, now) :: i < |rows|
    ensures Step(rows, Retry(now, outcomes)) == DispatchedRows(rows, Retried(rows, now), outcomes, now)
  {
    QueueIsPending(rows);
    PassIsPrefix(rows, now, outcomes);
    forall i | i in Retried(rows, now) ensures i < |rows| {
      assert i in Queue(rows);
    }
  }
}
