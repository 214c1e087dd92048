/**
 The notification consumer: check the processed-events table, create the
 delivery, mark the event.  Each event is worked on by one consumer at a time,
 any number of events at once; a consumer may crash at any await and the event
 is delivered again as often as the broker likes.
 */
module NotificationInbox {
  import opened Common
  import Sums

  datatype Event = Event(eventId: string, eventType: string)

  datatype Phase = Checked | Created

  // `lost` lists the events whose consumer crashed after creating and before marking.
  datatype State = State(deliveries: seq<Event>, processed: set<Event>, working: map<Event, Phase>, lost: seq<Event>)

  datatype Action =
    | Begin(event: Event)
    | Create(event: Event)
    | Mark(event: Event)
    | Crash(event: Event) // or an error, which is logged and swallowed

  function Init(): State { State([], {}, map[], []) }

  // Other types are ignored and not marked; an event without id or type is dropped.
  predicate Handled(e: Event) {
    e.eventId != "" &&
    e.eventType in {"OrderCreated", "OrderConfirmed", "OrderCancelled", "InventoryReservationFailed"}
  }

  function Step(s: State, a: Action): State {
    match a
    case Begin(e) =>
      if Handled(e) && e !in s.processed && e !in s.working then s.(working := s.working[e := Checked]) else s
    case Create(e) =>
      if e in s.working && s.working[e] == Checked
      then s.(deliveries := s.deliveries + [e], working := s.working[e := Created])
      else s
    case Mark(e) =>
      if e in s.working && s.working[e] == Created
      then s.(processed := s.processed + {e}, working := s.working - {e})
      else s
    case Crash(e) =>
      if e !in s.working then s
      else s.(working := s.working - {e}, lost := if s.working[e] == Created then s.lost + [e] else s.lost)
  }

  function Run(s: State, actions: seq<Action>): State {
    if actions == [] then s else Step(Run(s, actions[..|actions| - 1]), actions[|actions| - 1])
  }

  function Is(e: Event): Event -> int { (d: Event) => if d == e then 1 else 0 }

  function Deliveries(s: State, e: Event): int { Sums.Sum(Is(e), s.deliveries) }
  function Lost(s: State, e: Event): int { Sums.Sum(Is(e), s.lost) }

  // Every delivery is marked, about to be marked, or lost its consumer in between.
  ghost predicate Accounted(s: State, e: Event) {
    && Deliveries(s, e) == Lost(s, e)
                           + (if e in s.processed then 1 else 0)
                           + (if e in s.working && s.working[e] == Created then 1 else 0)
    && !(e in s.processed && e in s.working)
  }

  lemma StepKeepsAccounts(s: State, a: Action, e: Event)
    requires Accounted(s, e)
    ensures Accounted(Step(s, a), e)
  {
    hide Sums.Sum;
    var t := Step(s, a);
    if t.deliveries != s.deliveries { Sums.Push(Is(e), s.deliveries, a.event); }
    if t.lost != s.lost { Sums.Push(Is(e), s.lost, a.event); }
  }

  lemma {:induction false} RunKeepsAccounts(actions: seq<Action>, e: Event)
    ensures Accounted(Run(Init(), actions), e)
  {
    if actions != [] {
      RunKeepsAccounts(actions[..|actions| - 1], e);
      StepKeepsAccounts(Run(Init(), actions[..|actions| - 1]), actions[|actions| - 1], e);
    }
  }

  // However often an event comes in, its deliveries are at most one more than
  // the crashes between create and mark; exactly one more once it is marked.
  lemma DeliveredOncePlusCrashes(actions: seq<Action>, e: Event)
    ensures var s := Run(Init(), actions);
      && Lost(s, e) <= Deliveries(s, e) <= Lost(s, e) + 1
      && (e in s.processed ==> Deliveries(s, e) == Lost(s, e) + 1)
  {
    RunKeepsAccounts(actions, e);
  }

  /* ----- the processor ----- */

  datatype Meta = Meta(
    headerDashId: Option<string>,   // headers['event-id']
    headerCamelId: Option<string>,  // headers.eventId
    payloadId: Option<string>,      // the parsed value's eventId
    headerDashType: Option<string>, // headers['event-type']
    headerCamelType: Option<string>,
    payloadType: Option<string>)

  class KafkaEventProcessor {
    var deliveries: seq<Event>
    var processed: set<Event>
    ghost var lost: seq<Event>

    ghost function Now(): State
      reads this
    {
      State(deliveries, processed, map[], lost)
    }

    constructor ()
      ensures Now() == Init()
    {
      deliveries, processed, lost := [], {}, [];
    }

    // `created` and `marked` say whether those two writes succeed.
    method Process(parses: bool, meta: Meta, created: bool, marked: bool) returns (ghost actions: seq<Action>)
      modifies this
      ensures Now() == Run(old(Now()), actions)
      // The first of two headers and the payload's field, for the id and for the type;
      // an event with both, of one of four types, is delivered unless it was
      // processed, and then marked.
      ensures
        var id := if meta.headerDashId != None then meta.headerDashId
                  else if meta.headerCamelId != None then meta.headerCamelId else meta.payloadId;
        var typ := if meta.headerDashType != None then meta.headerDashType
                   else if meta.headerCamelType != None then meta.headerCamelType else meta.payloadType;
        if parses && id !in {None, Some("")}
           && typ in {Some("OrderCreated"), Some("OrderConfirmed"), Some("OrderCancelled"),
                      Some("InventoryReservationFailed")}
        then
          var e := Event(id.value, typ.value);
          && processed == old(processed) + (if created && marked then {e} else {})
          && deliveries == old(deliveries) + (if created && e !in old(processed) then [e] else [])
        else actions == [] && processed == old(processed) && deliveries == old(deliveries)
    {
      actions := [];
      if !parses {
        return;
      }
      var eventId := FirstOf(meta.headerDashId, FirstOf(meta.headerCamelId, meta.payloadId));
      var eventType := FirstOf(meta.headerDashType, FirstOf(meta.headerCamelType, meta.payloadType));
      if eventId.None? || eventType.None? || eventId.value == "" || eventType.value == "" {
        return;
      }
      var e := Event(eventId.value, eventType.value);
      ghost var before := Now();
      if e in processed {
        return;
      }
      if e.eventType !in {"OrderCreated", "OrderConfirmed", "OrderCancelled", "InventoryReservationFailed"} {
        return;
      }
      if !created {
        Run2(before, Begin(e), Crash(e));
        return [Begin(e), Crash(e)];
      }
      deliveries := deliveries + [e];
      actions := [Begin(e), Create(e), if marked then Mark(e) else Crash(e)];
      Run3(before, actions[0], actions[1], actions[2]);
      if marked {
        processed := processed + {e};
      } else {
        lost := lost + [e];
      }
    }
  }

  lemma Run2(s: State, a: Action, b: Action)
    ensures Run(s, [a, b]) == Step(Step(s, a), b)
  {
    assert [a, b][..1] == [a];
    assert Run(s, [a]) == Step(s, a);
  }

  lemma Run3(s: State, a: Action, b: Action, c: Action)
    ensures Run(s, [a, b, c]) == Step(Step(Step(s, a), b), c)
  {
    assert [a, b, c][..2] == [a, b];
    Run2(s, a, b);
  }
}
