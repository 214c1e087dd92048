/**
 The payment service's outbox relay: it hands the whole batch to the Kafka
 client and only then marks, in one update, the rows it handed over.
 */
module PaymentRelay {
  import Backlog
  import Payments

  type Row = Payments.OutboxRow

  const BATCH: nat := 100

  datatype Poller =
    | Idle
    | Emitting(batch: seq<nat>, next: nat, handed: seq<nat>)

  datatype Message = Message(key: nat, eventType: Payments.EventType, eventId: nat, payload: Row)

  // `sent` has a flag for each outbox row, in creation order; `source` records,
  // beside the topic, which row each message was made from.
  datatype State = State(
    rows: seq<Row>,
    sent: seq<bool>,
    topic: seq<Message>,
    source: seq<nat>,
    pollers: seq<Poller>)

  datatype Action =
    | Insert(row: Row)
    | Poll(poller: nat)
    | Emit(poller: nat, ok: bool)
    | Mark(poller: nat, applied: bool)
    | Crash(poller: nat)

  function Init(pollers: nat): State {
    State([], [], [], [], seq(pollers, _ => Idle))
  }

  // publishPaymentEvent draws a fresh event id; the place in the topic stands for it.
  function MessageOf(row: Row, place: nat): Message {
    Message(row.aggregateId, row.eventType, place, row)
  }

  // The messages for some rows, in that order, from a place in the topic on.
  function Messages(rows: seq<Row>, handed: seq<nat>, place: nat): seq<Message> {
    if handed == [] then []
    else
      var front, last := handed[..|handed| - 1], handed[|handed| - 1];
      Messages(rows, front, place) + (if last < |rows| then [MessageOf(rows[last], place + |front|)] else [])
  }

  function Pending(sent: seq<bool>): seq<bool> {
    seq(|sent|, i requires 0 <= i < |sent| => !sent[i])
  }

  function FetchPending(sent: seq<bool>): seq<nat> {
    Backlog.Take(Backlog.Open(Pending(sent)), BATCH)
  }

  function With(s: State, k: nat, p: Poller): State
    requires k < |s.pollers|
  {
    s.(pollers := s.pollers[k := p])
  }

  function Marked(sent: seq<bool>, handed: seq<nat>): seq<bool> {
    seq(|sent|, i requires 0 <= i < |sent| => sent[i] || i in handed)
  }

  function PollStep(s: State, k: nat): State {
    if k < |s.pollers| && s.pollers[k].Idle? && FetchPending(s.sent) != []
    then With(s, k, Emitting(FetchPending(s.sent), 0, []))
    else s
  }

  // A row whose emission throws stays pending and the loop goes on.
  function EmitStep(s: State, k: nat, ok: bool): State {
    if k < |s.pollers| && s.pollers[k].Emitting? && s.pollers[k].next < |s.pollers[k].batch|
       && s.pollers[k].batch[s.pollers[k].next] < |s.rows| then
      var Emitting(batch, next, handed) := s.pollers[k];
      if ok
      then With(s, k, Emitting(batch, next + 1, handed + [batch[next]]))
           .(topic := s.topic + [MessageOf(s.rows[batch[next]], |s.topic|)], source := s.source + [batch[next]])
      else With(s, k, Emitting(batch, next + 1, handed))
    else s
  }

  // The update after the loop; if it fails nothing is marked and the poll is over.
  function MarkStep(s: State, k: nat, applied: bool): State {
    if k < |s.pollers| && s.pollers[k].Emitting? && s.pollers[k].next == |s.pollers[k].batch|
    then With(s, k, Idle).(sent := if applied then Marked(s.sent, s.pollers[k].handed) else s.sent)
    else s
  }

  function Step(s: State, a: Action): State {
    match a
    case Insert(row) => s.(rows := s.rows + [row], sent := s.sent + [false])
    case Poll(k) => PollStep(s, k)
    case Emit(k, ok) => EmitStep(s, k, ok)
    case Mark(k, applied) => MarkStep(s, k, applied)
    case Crash(k) => if k < |s.pollers| then With(s, k, Idle) else s
  }

  function Run(s: State, actions: seq<Action>): State {
    if actions == [] then s else Step(Run(s, actions[..|actions| - 1]), actions[|actions| - 1])
  }

  /* ----- any pollers, failures and crashes ----- */

  ghost predicate Faithful(s: State) {
    && |s.rows| == |s.sent| && |s.topic| == |s.source|
    && (forall r <- s.source :: r < |s.sent|)
    && (forall j | 0 <= j < |s.topic| ::
          && s.source[j] < |s.rows|
          && var row := s.rows[s.source[j]];
             s.topic[j] == Message(row.aggregateId, row.eventType, j, row))
    && (forall i | 0 <= i < |s.sent| && s.sent[i] :: i in s.source)
    && (forall k | 0 <= k < |s.pollers| && s.pollers[k].Emitting? ::
          && (forall r <- s.pollers[k].batch :: r < |s.sent|)
          && (forall r <- s.pollers[k].handed :: r in s.source))
  }

  lemma FetchedInRange(sent: seq<bool>)
    ensures forall r <- FetchPending(sent) :: r < |sent|
    ensures Backlog.Increasing(Backlog.Open(Pending(sent)))
  {
    Backlog.OpenIsIncreasing(Pending(sent));
    forall r | r in FetchPending(sent) ensures r < |sent| {
      assert r in Backlog.Open(Pending(sent));
    }
  }

  lemma EmitKeepsFaithful(s: State, k: nat, ok: bool)
    requires Faithful(s)
    ensures Faithful(EmitStep(s, k, ok))
  {
    var t := EmitStep(s, k, ok);
    if t != s {
      var Emitting(batch, next, handed) := s.pollers[k];
      assert batch[next] in batch;
      if ok { assert t.source == s.source + [batch[next]]; }
      assert forall j | 0 <= j < |s.source| :: s.source[j] in s.source;
    }
  }

  lemma StepKeepsFaithful(s: State, a: Action)
    requires Faithful(s)
    ensures Faithful(Step(s, a))
  {
    match a
    case Emit(k, ok) => EmitKeepsFaithful(s, k, ok);
    case Poll(_) => FetchedInRange(s.sent);
    case _ => assert forall j | 0 <= j < |s.source| :: s.source[j] in s.source;
  }

  // Every row marked SENT was handed to the client, and every message carries the
  // key, the type and the payload of its row under an event id of its own.
  lemma {:induction false} MarkedWereEmitted(pollers: nat, actions: seq<Action>)
    ensures Faithful(Run(Init(pollers), actions))
  {
    if actions != [] {
      MarkedWereEmitted(pollers, actions[..|actions| - 1]);
      StepKeepsFaithful(Run(Init(pollers), actions[..|actions| - 1]), actions[|actions| - 1]);
    }
  }

  /* ----- one poller that only crashes ----- */

  predicate Smooth(a: Action) {
    (a.Emit? ==> a.ok) && (a.Mark? ==> a.applied)
  }

  function Crashes(actions: seq<Action>): nat {
    if actions == [] then 0
    else Crashes(actions[..|actions| - 1]) + (if actions[|actions| - 1].Crash? then 1 else 0)
  }

  // Rows handed over in the poll under way.
  function InFlight(s: State): nat
    requires |s.pollers| == 1
  {
    if s.pollers[0].Emitting? then |s.pollers[0].handed| else 0
  }

  ghost predicate Inv(s: State, n: nat, crashes: nat) {
    && |s.pollers| == 1 && n <= |s.sent| == |s.rows|
    && (forall i | 0 <= i < |s.sent| :: s.sent[i] <==> i < n)
    && (s.pollers[0].Emitting? ==>
          var Emitting(batch, next, handed) := s.pollers[0];
          && |batch| <= BATCH && Backlog.Consecutive(batch, n) && n + |batch| <= |s.sent|
          && next <= |batch| && handed == batch[..next])
    && (forall i | 0 <= i < n + InFlight(s) :: i in s.source)
    && |s.source| <= n + InFlight(s) + BATCH * crashes
  }

  function MarkedAfter(s: State, n: nat, a: Action): nat {
    if a.Mark? && |s.pollers| == 1 && a.poller == 0
       && s.pollers[0].Emitting? && s.pollers[0].next == |s.pollers[0].batch|
    then n + |s.pollers[0].batch| else n
  }

  lemma EmitKeepsInv(s: State, n: nat, crashes: nat, k: nat)
    requires Inv(s, n, crashes)
    ensures Inv(EmitStep(s, k, true), n, crashes)
  {
    if EmitStep(s, k, true) != s {
      var Emitting(batch, next, handed) := s.pollers[0];
      assert batch[..next + 1] == handed + [batch[next]];
      assert batch[next] == n + next;
    }
  }

  lemma MarkKeepsInv(s: State, n: nat, crashes: nat, k: nat)
    requires Inv(s, n, crashes)
    ensures Inv(MarkStep(s, k, true), MarkedAfter(s, n, Mark(k, true)), crashes)
  {
    if MarkStep(s, k, true) != s {
      var Emitting(batch, next, handed) := s.pollers[0];
      assert handed == batch;
      forall i | 0 <= i < |s.sent| ensures i in handed <==> n <= i < n + |batch| {
        if n <= i < n + |batch| { assert batch[i - n] == i; }
      }
    }
  }

  lemma StepKeepsInv(s: State, n: nat, crashes: nat, a: Action)
    requires Inv(s, n, crashes) && Smooth(a)
    ensures Inv(Step(s, a), MarkedAfter(s, n, a), crashes + if a.Crash? then 1 else 0)
  {
    match a
    case Insert(_) =>
    case Poll(_) => Backlog.OpenTail(Pending(s.sent), n);
    case Emit(k, _) => EmitKeepsInv(s, n, crashes, k);
    case Mark(k, _) => MarkKeepsInv(s, n, crashes, k);
    case Crash(_) =>
  }

  lemma {:induction false} RunKeepsInv(actions: seq<Action>) returns (n: nat)
    requires forall a <- actions :: Smooth(a)
    ensures Inv(Run(Init(1), actions), n, Crashes(actions))
  {
    if actions == [] {
      n := 0;
    } else {
      var front, a := actions[..|actions| - 1], actions[|actions| - 1];
      assert forall b <- front :: b in actions;
      var m := RunKeepsInv(front);
      StepKeepsInv(Run(Init(1), front), m, Crashes(front), a);
      n := MarkedAfter(Run(Init(1), front), m, a);
    }
  }

  function Rows(source: seq<nat>): set<nat> {
    set r | r in source
  }

  lemma {:induction false} AtLeast(rows: set<nat>, n: nat)
    requires forall i | 0 <= i < n :: i in rows
    ensures n <= |rows|
    decreases n
  {
    if n > 0 {
      AtLeast(rows - {n - 1}, n - 1);
    }
  }

  // One poller, crashes allowed, nothing else failing: the copies on the source
  // exceed the rows on it by at most a batch per crash.
  lemma CopiesBounded(actions: seq<Action>)
    requires forall a <- actions :: Smooth(a)
    ensures var s := Run(Init(1), actions);
      |s.topic| <= |Rows(s.source)| + BATCH * Crashes(actions)
  {
    MarkedWereEmitted(1, actions);
    var n := RunKeepsInv(actions);
    var s := Run(Init(1), actions);
    AtLeast(Rows(s.source), n + InFlight(s));
  }

  /* ----- the poller ----- */

  lemma PollIsPass(sent: seq<bool>, stuck: set<nat>)
    ensures var after := Marked(sent, Handed(FetchPending(sent), stuck));
      Backlog.Open(Pending(after)) == Backlog.Pass(Backlog.Open(Pending(sent)), stuck, BATCH)
  {
    var batch := FetchPending(sent);
    var after := Marked(sent, Handed(batch, stuck));
    HandedMembers(batch, stuck);
    Backlog.PassIsClose(Pending(sent), Pending(after), stuck, BATCH);
  }

  // The rows of the batch whose emission does not throw.
  function Handed(batch: seq<nat>, stuck: set<nat>): seq<nat> {
    if batch == [] then []
    else
      var last := batch[|batch| - 1];
      if last in stuck then Handed(batch[..|batch| - 1], stuck) else Handed(batch[..|batch| - 1], stuck) + [last]
  }

  lemma {:induction false} HandedMembers(batch: seq<nat>, stuck: set<nat>)
    ensures forall r {:trigger r in Handed(batch, stuck)} :: r in Handed(batch, stuck) <==> r in batch && r !in stuck
  {
    if batch != [] {
      assert batch == batch[..|batch| - 1] + [batch[|batch| - 1]];
      HandedMembers(batch[..|batch| - 1], stuck);
    }
  }

  lemma RunPush(s: State, actions: seq<Action>, a: Action)
    ensures Run(s, actions + [a]) == Step(Run(s, actions), a)
  {
    assert (actions + [a])[..|actions|] == actions;
  }

  lemma NoneHanded(rows: seq<Row>, batch: seq<nat>, stuck: set<nat>, place: nat)
    ensures Handed(batch[..0], stuck) == [] && Messages(rows, [], place) == []
  {
  }

  lemma HandedNext(rows: seq<Row>, batch: seq<nat>, i: nat, stuck: set<nat>, place: nat)
    requires i < |batch| && batch[i] < |rows|
    ensures var before := Handed(batch[..i], stuck);
      var after := if batch[i] in stuck then before else before + [batch[i]];
      && Handed(batch[..i + 1], stuck) == after
      && Messages(rows, before + [batch[i]], place)
         == Messages(rows, before, place) + [MessageOf(rows[batch[i]], place + |before|)]
  {
    assert batch[..i + 1][..i] == batch[..i];
    var before := Handed(batch[..i], stuck);
    assert (before + [batch[i]])[..|before|] == before;
  }

  lemma OnlyPoll(s: State)
    requires s.pollers == [Idle]
    ensures Run(s, [Poll(0)]) == PollStep(s, 0)
  {
    assert [Poll(0)][..0] == [];
  }

  class OutboxRelayService {
    var rows: seq<Row>
    var sent: seq<bool>
    var topic: seq<Message>
    ghost var source: seq<nat>
    var isRunning: bool

    ghost function With(poller: Poller): State
      reads this
    {
      State(rows, sent, topic, source, [poller])
    }

    constructor ()
      ensures With(Idle) == Init(1) && !isRunning
    {
      rows, sent, topic, source, isRunning := [], [], [], [], false;
    }

    // The place of a row in creation order stands for its id.
    ghost predicate Valid()
      reads this
    {
      |rows| == |sent|
    }

    method FetchPendingRows() returns (batch: seq<nat>)
      ensures batch == FetchPending(sent)
      // Pending rows in creation order, 100 at most; what is left out comes after a full batch.
      ensures |batch| <= 100 && forall j, k | 0 <= j < k < |batch| :: batch[j] < batch[k]
      ensures forall i <- batch :: i < |sent| && !sent[i]
      ensures forall i | 0 <= i < |sent| && !sent[i] ::
                i in batch || (|batch| == 100 && forall j <- batch :: j < i)
    {
      Backlog.OpenIsIncreasing(Pending(sent));
      Backlog.TakeIsFirst(Backlog.Open(Pending(sent)), BATCH);
      batch := [];
      var i := 0;
      while i < |sent|
        invariant 0 <= i <= |sent| && batch == Backlog.Open(Pending(sent)[..i])
      {
        assert Pending(sent)[..i + 1][..i] == Pending(sent)[..i];
        if !sent[i] {
          batch := batch + [i];
        }
        i := i + 1;
      }
      assert Pending(sent)[..|sent|] == Pending(sent);
      if |batch| > BATCH {
        batch := batch[..BATCH];
      }
    }

    // One poll: emit every row of the batch, then mark the ones that were handed
    // over.  The fetch and the update may fail; the poll is over either way.
    method PollOnce(stuck: set<nat>, fetched: bool, applied: bool) returns (ghost actions: seq<Action>)
      requires Valid()
      modifies this
      ensures Valid() && rows == old(rows)
      ensures With(Idle) == Run(old(With(Idle)), actions)
      ensures isRunning == old(isRunning)
      ensures old(isRunning) || !fetched ==> actions == []
      ensures !old(isRunning) && fetched ==>
        var batch := FetchPending(old(sent));
        && source == old(source) + Handed(batch, stuck)
        && topic == old(topic) + Messages(rows, Handed(batch, stuck), |old(topic)|)
        && sent == if applied then Marked(old(sent), Handed(batch, stuck)) else old(sent)
    {
      actions := [];
      if isRunning {
        return;
      }
      isRunning := true;
      if !fetched {
        isRunning := false;
        return;
      }
      var batch := FetchPendingRows();
      if batch == [] {
        isRunning := false;
        assert Marked(sent, []) == sent && source + [] == source && Handed(batch, stuck) == [];
        assert topic + [] == topic;
        return;
      }
      ghost var before := With(Idle);
      OnlyPoll(before);
      FetchedInRange(sent);
      var sentIds;
      sentIds, actions := EmitBatch(batch, stuck, before, [Poll(0)]);
      hide Run, Messages, Handed;
      RunPush(before, actions, Mark(0, applied));
      actions := actions + [Mark(0, applied)];
      if applied {
        var flags := sent;
        sent := seq(|flags|, j requires 0 <= j < |flags| => flags[j] || j in sentIds);
      }
      isRunning := false;
    }

    method EmitBatch(batch: seq<nat>, stuck: set<nat>, ghost before: State, ghost start: seq<Action>)
      returns (sentIds: seq<nat>, ghost actions: seq<Action>)
      requires With(Emitting(batch, 0, [])) == Run(before, start)
      requires forall r <- batch :: r < |rows|
      modifies this`topic, this`source
      ensures sentIds == Handed(batch, stuck) && source == old(source) + sentIds
      ensures topic == old(topic) + Messages(rows, sentIds, |old(topic)|)
      ensures With(Emitting(batch, |batch|, sentIds)) == Run(before, actions)
    {
      hide Run, PollStep, MarkStep, Handed, Messages;
      NoneHanded(rows, batch, stuck, |topic|);
      actions := start;
      sentIds := [];
      var i := 0;
      while i < |batch|
        invariant 0 <= i <= |batch|
        invariant sentIds == Handed(batch[..i], stuck) && source == old(source) + sentIds
        invariant topic == old(topic) + Messages(rows, sentIds, |old(topic)|) && |topic| == |old(topic)| + |sentIds|
        invariant With(Emitting(batch, i, sentIds)) == Run(before, actions)
      {
        assert batch[i] in batch;
        HandedNext(rows, batch, i, stuck, |old(topic)|);
        RunPush(before, actions, Emit(0, batch[i] !in stuck));
        actions := actions + [Emit(0, batch[i] !in stuck)];
        if batch[i] !in stuck {
          topic := topic + [Message(rows[batch[i]].aggregateId, rows[batch[i]].eventType, |topic|, rows[batch[i]])];
          source := source + [batch[i]];
          sentIds := sentIds + [batch[i]];
        }
        i := i + 1;
      }
      assert batch[..|batch|] == batch;
    }
  }
}
