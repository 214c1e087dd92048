/**
 The payment consumer's duplicate check: one atomic set-if-absent of a key that
 expires after 24 hours, taken before the event is handled.
 */
module PaymentInbox {
  import opened Common
  import Strings

  const TTL: int := 86_400_000 // EX 86400, on a millisecond clock

  datatype Delivery<K> = Delivery(key: K, at: int)

  // Keys held by the store, each with the time it expires.
  ghost predicate Seen<K>(table: map<K, int>, d: Delivery<K>) {
    d.key in table && d.at < table[d.key]
  }

  // SET key '1' EX 86400 NX
  ghost function SetIfAbsent<K>(table: map<K, int>, d: Delivery<K>): map<K, int> {
    if Seen(table, d) then table else table[d.key := d.at + TTL]
  }

  ghost function After<K>(ds: seq<Delivery<K>>): map<K, int> {
    if ds == [] then map[] else SetIfAbsent(After(ds[..|ds| - 1]), ds[|ds| - 1])
  }

  ghost predicate Dispatched<K>(ds: seq<Delivery<K>>, i: nat) {
    i < |ds| && !Seen(After(ds[..i]), ds[i])
  }

  ghost predicate InTime<K>(ds: seq<Delivery<K>>) {
    forall i, j | 0 <= i < j < |ds| :: ds[i].at <= ds[j].at
  }

  // The table holds exactly the keys dispatched so far, each under its last dispatch.
  ghost predicate LastOf<K>(ds: seq<Delivery<K>>, k: K, i: nat) {
    && Dispatched(ds, i) && ds[i].key == k
    && forall j | i < j < |ds| && ds[j].key == k :: !Dispatched(ds, j)
  }

  ghost predicate Remembers<K>(ds: seq<Delivery<K>>, k: K) {
    if k in After(ds)
    then exists i: nat :: LastOf(ds, k, i) && After(ds)[k] == ds[i].at + TTL
    else forall i: nat | i < |ds| && ds[i].key == k :: !Dispatched(ds, i)
  }

  lemma PrefixDispatches<K>(ds: seq<Delivery<K>>, n: nat)
    requires n <= |ds|
    ensures forall i: nat | i < n :: Dispatched(ds[..n], i) <==> Dispatched(ds, i)
  {
    forall i: nat | i < n ensures Dispatched(ds[..n], i) <==> Dispatched(ds, i) {
      assert ds[..n][..i] == ds[..i];
    }
  }

  lemma {:induction false} TableRemembers<K>(ds: seq<Delivery<K>>, k: K)
    ensures Remembers(ds, k)
  {
    if ds != [] {
      var last := |ds| - 1;
      TableRemembers(ds[..last], k);
      PrefixDispatches(ds, last);
      if ds[last].key == k && Dispatched(ds, last) {
        assert LastOf(ds, k, last);
      } else if k in After(ds) {
        var i: nat :| LastOf(ds[..last], k, i) && After(ds[..last])[k] == ds[i].at + TTL;
        assert LastOf(ds, k, i);
      }
    }
  }

  // A delivery is handed to the service exactly when every earlier hand-over of
  // its key is at least 24 hours old, whatever became of that hand-over: a crash
  // while handling leaves the key taken just the same.
  lemma DispatchedIff<K>(ds: seq<Delivery<K>>, j: nat)
    requires InTime(ds) && j < |ds|
    ensures Dispatched(ds, j) <==>
      forall i: nat | i < j && Dispatched(ds, i) && ds[i].key == ds[j].key :: ds[i].at + TTL <= ds[j].at
  {
    TableRemembers(ds[..j], ds[j].key);
    PrefixDispatches(ds, j);
    if ds[j].key in After(ds[..j]) {
      var i: nat :| LastOf(ds[..j], ds[j].key, i) && After(ds[..j])[ds[j].key] == ds[i].at + TTL;
      assert Dispatched(ds, i);
    }
  }

  /* ----- the processor ----- */

  datatype Meta = Meta(
    topic: string,
    partition: string,
    offset: Option<string>,
    headerDashId: Option<string>,   // headers['event-id']
    headerCamelId: Option<string>,  // headers.eventId
    payloadId: Option<string>,      // the parsed value's eventId
    headerDashType: Option<string>, // headers['event-type']
    headerCamelType: Option<string>,
    payloadType: Option<string>)

  datatype Handler = OrderCreated | RefundRequired | InventoryReservationFailed

  function EventId(meta: Meta): string {
    var id := FirstOf(meta.headerDashId, FirstOf(meta.headerCamelId, meta.payloadId));
    if id.Some? then id.value
    else if meta.offset.Some? && meta.offset.value != "" then
      meta.topic + "-" + meta.partition + "-" + meta.offset.value
    else meta.topic + "-" + meta.partition
  }

  function DedupKey(meta: Meta): string {
    "dedup:" + meta.topic + ":" + EventId(meta)
  }

  // One event id on two topics is two events, as the topics' names hold no colon.
  lemma KeysApart(m: Meta, n: Meta)
    requires ':' !in m.topic && ':' !in n.topic
    ensures DedupKey(m) == DedupKey(n) <==> m.topic == n.topic && EventId(m) == EventId(n)
  {
    if DedupKey(m) == DedupKey(n) {
      var a, b := m.topic + [':'] + EventId(m), n.topic + [':'] + EventId(n);
      assert DedupKey(m) == "dedup:" + a && DedupKey(n) == "dedup:" + b;
      assert a == DedupKey(m)[6..] && b == DedupKey(n)[6..];
      Strings.SplitFirst(m.topic, EventId(m), n.topic, EventId(n), ':');
    }
  }

  class KafkaEventProcessor {
    var redis: map<string, int>
    ghost var deliveries: seq<Delivery<string>>

    ghost predicate Valid()
      reads this
    {
      redis == After(deliveries)
    }

    constructor ()
      ensures Valid() && deliveries == []
    {
      redis, deliveries := map[], [];
    }

    // Takes the key first; what it answers is the handler then called, if any.
    method Process(meta: Meta, now: int) returns (called: Option<Handler>)
      requires Valid()
      modifies this
      ensures Valid() && |deliveries| == |old(deliveries)| + 1 && deliveries[..|old(deliveries)|] == old(deliveries)
      // The id is the first of two headers, the payload's id and the place in the topic.
      ensures
        var key := deliveries[|old(deliveries)|].key;
        var head := "dedup:" + meta.topic + ":";
        && (meta.headerDashId != None ==> key == head + meta.headerDashId.value)
        && (meta.headerDashId == None && meta.headerCamelId != None ==> key == head + meta.headerCamelId.value)
        && (meta.headerDashId == None && meta.headerCamelId == None && meta.payloadId != None ==>
              key == head + meta.payloadId.value)
        && (meta.headerDashId == None && meta.headerCamelId == None && meta.payloadId == None ==>
              key == head + meta.topic + "-" + meta.partition +
                     (if meta.offset in {None, Some("")} then "" else "-" + meta.offset.value))
      // A key taken less than 24 hours ago stops the event; otherwise it is taken now.
      ensures
        var key := deliveries[|old(deliveries)|].key;
        var duplicate := key in old(redis) && now < old(redis)[key];
        && deliveries[|old(deliveries)|].at == now
        && redis == (if duplicate then old(redis) else old(redis)[key := now + 24 * 60 * 60 * 1000])
        && (duplicate <==> !Dispatched(deliveries, |old(deliveries)|))
        && (duplicate ==> called == None)
      // The type, found likewise, names the handler.
      ensures
        var duplicate := !Dispatched(deliveries, |old(deliveries)|);
        var found := if meta.headerDashType != None then meta.headerDashType
                     else if meta.headerCamelType != None then meta.headerCamelType else meta.payloadType;
        && (called == Some(OrderCreated) <==> !duplicate && found == Some("OrderCreated"))
        && (called == Some(RefundRequired) <==> !duplicate && found == Some("RefundRequired"))
        && (called == Some(InventoryReservationFailed) <==>
              !duplicate && found == Some("InventoryReservationFailed"))
    {
      var eventType := FirstOf(meta.headerDashType, FirstOf(meta.headerCamelType, meta.payloadType));
      var dedupKey := "dedup:" + meta.topic + ":" + EventId(meta);
      ghost var d := Delivery(dedupKey, now);
      assert (deliveries + [d])[..|deliveries|] == deliveries;
      deliveries := deliveries + [d];
      if dedupKey in redis && now < redis[dedupKey] {
        return None;
      }
      redis := redis[dedupKey := now + TTL];
      called := match eventType
                case Some("OrderCreated") => Some(OrderCreated)
                case Some("RefundRequired") => Some(RefundRequired)
                case Some("InventoryReservationFailed") => Some(InventoryReservationFailed)
                case _ => None;
    }
  }
}
