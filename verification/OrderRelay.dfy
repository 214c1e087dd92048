/**
 The order service's outbox relay: any number of pollers, each publishing its
 batch row by row and marking each row after its publish.  A publish may fail
 before or after the broker stored the message, a mark may fail before or after
 it was applied, and a poller may crash at any await.

 Rows keep their place in creation order.  `source` records, beside the topic,
 which row each message was made from.
 */
module OrderRelay {
  import opened Common
  import Orders
  import Backlog

  type Event = Orders.Event
  type EventType = Orders.EventType

  const BATCH: nat := 50

  datatype Row = Row(eventId: nat, payload: Event, sent: bool, processedAt: Option<int>)

  datatype Message = Message(key: nat, eventId: nat, eventType: EventType, value: Event)

  datatype Poller =
    | Idle
    | Next(batch: seq<nat>)                 // rows fetched and not yet looked at
    | Published(row: nat, batch: seq<nat>)  // publish returned, mark is out
    | Failing(row: nat, batch: seq<nat>)    // publish or mark threw, markFailed is out

  datatype State = State(rows: seq<Row>, topic: seq<Message>, source: seq<nat>, pollers: seq<Poller>)

  datatype Action =
    | Insert(eventId: nat, payload: Event)
    | Poll(poller: nat)
    | Publish(poller: nat, stored: bool, ok: bool)
    | MarkSent(poller: nat, now: int, applied: bool, ok: bool)
    | MarkFailed(poller: nat, applied: bool, ok: bool)
    | Crash(poller: nat)

  function Init(pollers: nat): State {
    State([], [], [], seq(pollers, _ => Idle))
  }

  function MessageOf(row: Row): Message {
    Message(row.payload.orderId, row.eventId, row.payload.eventType, row.payload)
  }

  function Pending(rows: seq<Row>): seq<bool> {
    seq(|rows|, i requires 0 <= i < |rows| => !rows[i].sent)
  }

  function FetchPending(rows: seq<Row>): seq<nat> {
    Backlog.Take(Backlog.Open(Pending(rows)), BATCH)
  }

  function After(batch: seq<nat>): Poller {
    if batch == [] then Idle else Next(batch)
  }

  function With(s: State, k: nat, p: Poller): State
    requires k < |s.pollers|
  {
    s.(pollers := s.pollers[k := p])
  }

  predicate FreshEvent(s: State, eventId: nat) {
    forall row <- s.rows :: row.eventId != eventId
  }

  // The event id is unique in the table; an insert that repeats one fails.
  function InsertStep(s: State, eventId: nat, payload: Event): State {
    if FreshEvent(s, eventId) then s.(rows := s.rows + [Row(eventId, payload, false, None)]) else s
  }

  function PollStep(s: State, k: nat): State {
    if k < |s.pollers| && s.pollers[k].Idle? then With(s, k, After(FetchPending(s.rows))) else s
  }

  function PublishStep(s: State, k: nat, stored: bool, ok: bool): State {
    if k < |s.pollers| && s.pollers[k].Next? && s.pollers[k].batch != [] && s.pollers[k].batch[0] < |s.rows| then
      var row, rest := s.pollers[k].batch[0], s.pollers[k].batch[1..];
      var t := With(s, k, if ok then Published(row, rest) else Failing(row, rest));
      if stored || ok
      then t.(topic := s.topic + [MessageOf(s.rows[row])], source := s.source + [row])
      else t
    else s
  }

  function MarkSentStep(s: State, k: nat, now: int, applied: bool, ok: bool): State {
    if k < |s.pollers| && s.pollers[k].Published? && s.pollers[k].row < |s.rows| then
      var row, rest := s.pollers[k].row, s.pollers[k].batch;
      var t := With(s, k, if ok then After(rest) else Failing(row, rest));
      if applied || ok
      then t.(rows := s.rows[row := s.rows[row].(sent := true, processedAt := Some(now))])
      else t
    else s
  }

  // markFailed clears processedAt and leaves the status alone; if it throws too, the poll is abandoned.
  function MarkFailedStep(s: State, k: nat, applied: bool, ok: bool): State {
    if k < |s.pollers| && s.pollers[k].Failing? && s.pollers[k].row < |s.rows| then
      var row, rest := s.pollers[k].row, s.pollers[k].batch;
      var t := With(s, k, if ok then After(rest) else Idle);
      if applied || ok
      then t.(rows := s.rows[row := s.rows[row].(processedAt := None)])
      else t
    else s
  }

  // A crashed process comes back idle: its batch is forgotten.
  function CrashStep(s: State, k: nat): State {
    if k < |s.pollers| then With(s, k, Idle) else s
  }

  function Step(s: State, a: Action): State {
    match a
    case Insert(eventId, payload) => InsertStep(s, eventId, payload)
    case Poll(k) => PollStep(s, k)
    case Publish(k, stored, ok) => PublishStep(s, k, stored, ok)
    case MarkSent(k, now, applied, ok) => MarkSentStep(s, k, now, applied, ok)
    case MarkFailed(k, applied, ok) => MarkFailedStep(s, k, applied, ok)
    case Crash(k) => CrashStep(s, k)
  }

  function Run(s: State, actions: seq<Action>): State {
    if actions == [] then s else Step(Run(s, actions[..|actions| - 1]), actions[|actions| - 1])
  }

  /* ----- what every run keeps, with any pollers, failures and crashes ----- */

  ghost predicate Copied(s: State, row: nat) {
    exists j | 0 <= j < |s.source| :: s.source[j] == row
  }

  ghost predicate Faithful(s: State) {
    && |s.source| == |s.topic|
    && (forall j | 0 <= j < |s.topic| ::
          && s.source[j] < |s.rows|
          && var row := s.rows[s.source[j]];
             s.topic[j] == Message(row.payload.orderId, row.eventId, row.payload.eventType, row.payload))
    && (forall i, j | 0 <= i < j < |s.rows| :: s.rows[i].eventId != s.rows[j].eventId)
    && (forall i: nat | i < |s.rows| && s.rows[i].sent :: Copied(s, i))
    && (forall k | 0 <= k < |s.pollers| && s.pollers[k].Published? :: Copied(s, s.pollers[k].row))
  }

  // Contents never change, and SENT is never undone.
  ghost predicate Grows(s: State, t: State) {
    && |s.rows| <= |t.rows|
    && (forall i | 0 <= i < |s.rows| ::
          && t.rows[i].eventId == s.rows[i].eventId && t.rows[i].payload == s.rows[i].payload
          && (s.rows[i].sent ==> t.rows[i].sent))
    && s.topic <= t.topic && s.source <= t.source
  }

  lemma StepGrows(s: State, a: Action)
    ensures Grows(s, Step(s, a))
  {
  }

  lemma CopiesStay(s: State, t: State)
    requires s.source <= t.source
    ensures forall i: nat | Copied(s, i) :: Copied(t, i)
  {
    forall i: nat | Copied(s, i) ensures Copied(t, i) {
      var j :| 0 <= j < |s.source| && s.source[j] == i;
      assert t.source[j] == i;
    }
  }

  lemma PublishKeepsFaithful(s: State, k: nat, stored: bool, ok: bool)
    requires Faithful(s)
    ensures Faithful(PublishStep(s, k, stored, ok))
  {
    var t := PublishStep(s, k, stored, ok);
    CopiesStay(s, t);
    if |t.source| > |s.source| {
      assert t.source[|s.source|] == s.pollers[k].batch[0];
      assert Copied(t, s.pollers[k].batch[0]);
    }
  }

  // The marks touch no contents, and markSent only rows with a copy.
  lemma MarkKeepsFaithful(s: State, k: nat, now: int, applied: bool, ok: bool)
    requires Faithful(s)
    ensures Faithful(MarkSentStep(s, k, now, applied, ok)) && Faithful(MarkFailedStep(s, k, applied, ok))
  {
    CopiesStay(s, MarkSentStep(s, k, now, applied, ok));
    CopiesStay(s, MarkFailedStep(s, k, applied, ok));
    hide Copied;
  }

  lemma InsertKeepsFaithful(s: State, eventId: nat, payload: Event)
    requires Faithful(s)
    ensures Faithful(InsertStep(s, eventId, payload))
  {
    CopiesStay(s, InsertStep(s, eventId, payload));
    hide Copied;
  }

  lemma StepKeepsFaithful(s: State, a: Action)
    requires Faithful(s)
    ensures Faithful(Step(s, a))
  {
    match a
    case Insert(eventId, payload) => InsertKeepsFaithful(s, eventId, payload);
    case Publish(k, stored, ok) => PublishKeepsFaithful(s, k, stored, ok);
    case MarkSent(k, now, applied, ok) => MarkKeepsFaithful(s, k, now, applied, ok);
    case MarkFailed(k, applied, ok) => MarkKeepsFaithful(s, k, 0, applied, ok);
    case _ => CopiesStay(s, Step(s, a));
  }

  lemma {:induction false} RunKeepsFaithful(s: State, actions: seq<Action>)
    requires Faithful(s)
    ensures Faithful(Run(s, actions)) && Grows(s, Run(s, actions))
  {
    if actions != [] {
      RunKeepsFaithful(s, actions[..|actions| - 1]);
      StepKeepsFaithful(Run(s, actions[..|actions| - 1]), actions[|actions| - 1]);
      StepGrows(Run(s, actions[..|actions| - 1]), actions[|actions| - 1]);
    }
  }

  // At least once: whatever the pollers, failures and crashes, every SENT row has
  // a copy on the topic, and every message is a copy of a row, under its event id.
  lemma AtLeastOnce(pollers: nat, actions: seq<Action>)
    ensures var s := Run(Init(pollers), actions);
      && (forall row <- s.rows | row.sent :: MessageOf(row) in s.topic)
      && (forall m <- s.topic :: exists row <- s.rows :: m == MessageOf(row))
      && (forall m <- s.topic, n <- s.topic | m.eventId == n.eventId :: m == n)
  {
    RunKeepsFaithful(Init(pollers), actions);
    var s := Run(Init(pollers), actions);
    forall row | row in s.rows && row.sent ensures MessageOf(row) in s.topic {
      var i :| 0 <= i < |s.rows| && s.rows[i] == row;
      assert Copied(s, i);
      var j :| 0 <= j < |s.source| && s.source[j] == i;
      assert s.topic[j] == MessageOf(row);
    }
    forall m | m in s.topic ensures exists row <- s.rows :: m == MessageOf(row) {
      var j :| 0 <= j < |s.topic| && s.topic[j] == m;
      assert s.rows[s.source[j]] in s.rows;
    }
  }

  // SENT is final: no later failure, crash or markFailed takes it back.
  lemma {:induction false} SentIsFinal(s: State, actions: seq<Action>, i: nat)
    requires Faithful(s) && i < |s.rows| && s.rows[i].sent
    ensures var t := Run(s, actions);
      i < |t.rows| && t.rows[i].sent && MessageOf(t.rows[i]) == MessageOf(s.rows[i])
  {
    RunKeepsFaithful(s, actions);
  }
}
