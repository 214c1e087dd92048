/**
 How stale a served product can be when readers and writers overlap.  A reader
 is cut at its awaits: cache lookup, database query, cache fill.  Writers commit
 any new table and delete any keys, whenever they like; entries may also be
 evicted.  `versions` is the history of the table, `served` of what was answered.
 */
module ProductStaleness {
  import opened Common
  import opened Products
  import opened ProductKeys

  datatype Version = Version(from: int, db: seq<Product>)

  datatype Reader =
    | Missed(q: Query)                                             // the database query is out
    | Holding(q: Query, value: Json, readAt: int, version: nat)    // the fill is out
    | Filled(q: Query, value: Json, readAt: int, version: nat, setAt: int)
    | Gone                                                         // not found, or crashed

  // A product that was answered, changed by a dto and saved: update() after its read.
  datatype Saved = Saved(served: nat, dto: UpdateDto, at: int, version: nat)

  // An entry and an answer remember whose database read they come from.
  datatype Held = Held(value: Json, expires: int, filler: nat)
  datatype Served = Served(q: Query, value: Json, at: int, filler: nat)

  datatype State = State(
    versions: seq<Version>,
    cache: map<string, Held>,
    now: int,
    ttl: pos,
    readers: seq<Reader>,
    served: seq<Served>,
    saves: seq<Saved>)

  datatype Action =
    | Tick(duration: nat)
    | Write(db: seq<Product>)
    | SaveCopy(served: nat, dto: UpdateDto)
    | Delete(keys: set<string>)
    | Lookup(q: Query)
    | ReadTable(reader: nat)
    | Fill(reader: nat)
    | Crash(reader: nat)

  function Init(db: seq<Product>, ttl: pos): State {
    State([Version(0, db)], map[], 0, ttl, [], [], [])
  }

  function LookupStep(s: State, q: Query): State {
    if Key(q) in s.cache && s.now < s.cache[Key(q)].expires
    then s.(served := s.served + [Served(q, s.cache[Key(q)].value, s.now, s.cache[Key(q)].filler)])
    else s.(readers := s.readers + [Missed(q)])
  }

  function ReadStep(s: State, i: nat): State {
    if i < |s.readers| && s.readers[i].Missed? && s.versions != [] then
      var version := |s.versions| - 1;
      var found := Answer(s.versions[version].db, s.readers[i].q);
      s.(readers := s.readers[i := if found.Some?
                                   then Holding(s.readers[i].q, found.value, s.now, version)
                                   else Gone])
    else s
  }

  function FillStep(s: State, i: nat): State {
    if i < |s.readers| && s.readers[i].Holding? then
      var Holding(q, value, readAt, version) := s.readers[i];
      s.(cache := s.cache[Key(q) := Held(value, s.now + s.ttl, i)],
         readers := s.readers[i := Filled(q, value, readAt, version, s.now)],
         served := s.served + [Served(q, value, s.now, i)])
    else s
  }

  // The save of an update: the row as it was answered, with the dto's fields.
  function SaveStep(s: State, k: nat, dto: UpdateDto): State {
    if k < |s.served| && s.served[k].value.AProduct? && s.versions != [] then
      var db := Save(s.versions[|s.versions| - 1].db, Apply(s.served[k].value.product, dto));
      s.(versions := s.versions + [Version(s.now, db)], saves := s.saves + [Saved(k, dto, s.now, |s.versions|)])
    else s
  }

  function Step(s: State, a: Action): State {
    match a
    case Tick(d) => s.(now := s.now + d)
    case Write(db) => s.(versions := s.versions + [Version(s.now, db)])
    case SaveCopy(k, dto) => SaveStep(s, k, dto)
    case Delete(keys) => s.(cache := s.cache - keys)
    case Lookup(q) => LookupStep(s, q)
    case ReadTable(i) => ReadStep(s, i)
    case Fill(i) => FillStep(s, i)
    case Crash(i) =>
      if i < |s.readers| && !s.readers[i].Filled? then s.(readers := s.readers[i := Gone]) else s
  }

  function Run(s: State, actions: seq<Action>): State {
    if actions == [] then s else Step(Run(s, actions[..|actions| - 1]), actions[|actions| - 1])
  }

  /* ----- the bound ----- */

  // The version was the table's at time t.
  predicate CurrentAt(versions: seq<Version>, version: nat, t: int) {
    && version < |versions| && versions[version].from <= t
    && (version + 1 < |versions| ==> t <= versions[version + 1].from)
  }

  // The reader's value is the table's answer at the time it read.
  predicate Backed(versions: seq<Version>, r: Reader)
    requires r.Holding? || r.Filled?
  {
    CurrentAt(versions, r.version, r.readAt) && Answer(versions[r.version].db, r.q) == Some(r.value)
  }

  ghost predicate ReaderOk(s: State, r: Reader, lists: iset<Params>) {
    && (r.Missed? || r.Holding? || r.Filled? ==> Known(r.q, lists))
    && (r.Holding? ==> Backed(s.versions, r) && r.readAt <= s.now)
    && (r.Filled? ==> Backed(s.versions, r) && r.readAt <= r.setAt <= s.now)
  }

  predicate EntryOk(s: State, key: string)
    requires key in s.cache
  {
    var e := s.cache[key];
    && e.filler < |s.readers| && s.readers[e.filler].Filled?
    && Key(s.readers[e.filler].q) == key && s.readers[e.filler].value == e.value
    && e.expires == s.readers[e.filler].setAt + s.ttl
  }

  // Served at most the TTL and the filling reader's own delay after the table was read.
  ghost predicate ServedOk(s: State, e: Served, lists: iset<Params>) {
    && Known(e.q, lists)
    && e.filler < |s.readers| && s.readers[e.filler].Filled?
    && var r := s.readers[e.filler];
    && Key(r.q) == Key(e.q) && r.value == e.value && r.setAt <= e.at
    && e.at - r.readAt < s.ttl + (r.setAt - r.readAt)
  }

  ghost predicate Inv(s: State, lists: iset<Params>) {
    && s.versions != [] && s.versions[|s.versions| - 1].from <= s.now
    && (forall i | 0 <= i < |s.readers| :: ReaderOk(s, s.readers[i], lists))
    && (forall key <- s.cache :: EntryOk(s, key))
    && (forall e <- s.served :: ServedOk(s, e, lists))
  }

  // From s to t nothing that a fill left behind is disturbed.
  predicate Extends(s: State, t: State) {
    && s.ttl == t.ttl && s.now <= t.now && |s.readers| <= |t.readers|
    && (forall i | 0 <= i < |s.readers| && s.readers[i].Filled? :: t.readers[i] == s.readers[i])
  }

  lemma StepExtends(s: State, a: Action)
    ensures Extends(s, Step(s, a))
  {
  }

  // What is written later leaves the version a reader read as it was.
  lemma LaterVersions(s: State, t: State, r: Reader, lists: iset<Params>)
    requires ReaderOk(s, r, lists) && s.versions != [] && s.now <= t.now
    requires t.versions == s.versions || (|t.versions| == |s.versions| + 1 && s.versions <= t.versions
                                          && t.versions[|s.versions|].from == s.now)
    ensures ReaderOk(t, r, lists)
  {
    hide Known, Answer;
  }

  lemma StepOnVersions(s: State, a: Action)
    requires s.versions != [] && s.versions[|s.versions| - 1].from <= s.now
    ensures var t := Step(s, a);
      && (t.versions == s.versions || (|t.versions| == |s.versions| + 1 && s.versions <= t.versions
                                       && t.versions[|s.versions|].from == s.now))
      && t.versions[|t.versions| - 1].from <= t.now && s.now <= t.now
  {
    hide Answer, Save, Apply;
  }

  lemma StepKeepsReaders(s: State, a: Action, lists: iset<Params>)
    requires Inv(s, lists) && (a.Lookup? ==> Known(a.q, lists))
    ensures var t := Step(s, a);
      forall i | 0 <= i < |t.readers| :: ReaderOk(t, t.readers[i], lists)
  {
    hide Known, Key, Answer, EntryOk, ServedOk, Save, Apply;
    var t := Step(s, a);
    StepOnVersions(s, a);
    forall i | 0 <= i < |t.readers| ensures ReaderOk(t, t.readers[i], lists) {
      if i < |s.readers| {
        LaterVersions(s, t, s.readers[i], lists);
      }
    }
  }

  lemma StepKeepsEntries(s: State, a: Action, lists: iset<Params>)
    requires Inv(s, lists)
    ensures forall key <- Step(s, a).cache :: EntryOk(Step(s, a), key)
  {
    hide Known, Key, Answer, ReaderOk, ServedOk, Save, Apply;
    var t := Step(s, a);
    forall key | key in t.cache ensures EntryOk(t, key) {
      if key in s.cache { assert EntryOk(s, key); }
    }
  }

  lemma StepKeepsServed(s: State, a: Action, lists: iset<Params>)
    requires Inv(s, lists) && (a.Lookup? ==> Known(a.q, lists))
    ensures forall e <- Step(s, a).served :: ServedOk(Step(s, a), e, lists)
  {
    hide Known, Key, Answer, Backed, Save, Apply;
    var t := Step(s, a);
    StepExtends(s, a);
    forall e | e in t.served ensures ServedOk(t, e, lists) {
      if e in s.served {
        assert ServedOk(s, e, lists);
      } else if a.Lookup? {
        assert EntryOk(s, Key(a.q));
        assert ReaderOk(s, s.readers[e.filler], lists);
      } else {
        assert ReaderOk(s, s.readers[a.reader], lists);
      }
    }
  }

  ghost predicate AllKnown(actions: seq<Action>, lists: iset<Params>) {
    forall a <- actions | a.Lookup? :: Known(a.q, lists)
  }

  lemma {:induction false} RunKeepsInv(s: State, actions: seq<Action>, lists: iset<Params>)
    requires Inv(s, lists) && AllKnown(actions, lists)
    ensures Inv(Run(s, actions), lists)
  {
    hide Step, Known;
    if actions != [] {
      var front, a := actions[..|actions| - 1], actions[|actions| - 1];
      assert forall b <- front :: b in actions;
      RunKeepsInv(s, front, lists);
      StepOnVersions(Run(s, front), a);
      StepKeepsReaders(Run(s, front), a, lists);
      StepKeepsEntries(Run(s, front), a, lists);
      StepKeepsServed(Run(s, front), a, lists);
    }
  }

  // What was served is the table's answer when the filling reader read it, less
  // than the TTL and that reader's delay before.
  ghost predicate Recent(s: State, e: Served) {
    && e.filler < |s.readers| && s.readers[e.filler].Filled?
    && var r := s.readers[e.filler];
    && CurrentAt(s.versions, r.version, r.readAt)
    && Answer(s.versions[r.version].db, e.q) == Some(e.value)
    && r.readAt <= r.setAt <= e.at
    && e.at - r.readAt < s.ttl + (r.setAt - r.readAt)
  }

  lemma ServedIsRecent(s: State, e: Served, lists: iset<Params>)
    requires Inv(s, lists) && KeptApart(lists) && e in s.served
    ensures Recent(s, e)
  {
    assert ServedOk(s, e, lists);
    var r := s.readers[e.filler];
    assert ReaderOk(s, r, lists);
    KeyDetermines(s.versions[r.version].db, e.q, r.q, lists);
  }

  // Whatever is served at a time t, in every interleaving of readers, writers,
  // deletions and crashes, is the table's own answer at some earlier time r, and
  // t - r is less than the TTL plus the delay of the reader that filled the
  // entry between its read of the table and its fill.  Ids may be spelled in
  // either case: the bound is about one key.
  lemma StalenessBound(db: seq<Product>, ttl: pos, actions: seq<Action>, e: Served, lists: iset<Params>)
    requires KeptApart(lists) && AllKnown(actions, lists)
    requires e in Run(Init(db, ttl), actions).served
    ensures var s := Run(Init(db, ttl), actions); s.ttl == ttl && Recent(s, e)
  {
    hide Run, Step, KeptApart, Recent;
    assert Inv(Init(db, ttl), lists);
    RunKeepsInv(Init(db, ttl), actions, lists);
    RunKeepsTtl(Init(db, ttl), actions);
    ServedIsRecent(Run(Init(db, ttl), actions), e, lists);
  }

  lemma {:induction false} RunKeepsTtl(s: State, actions: seq<Action>)
    ensures Run(s, actions).ttl == s.ttl
  {
    if actions != [] {
      RunKeepsTtl(s, actions[..|actions| - 1]);
      StepExtends(Run(s, actions[..|actions| - 1]), actions[|actions| - 1]);
    }
  }

  /* ----- what an update writes back ----- */

  ghost predicate SavesOk(s: State) {
    forall w <- s.saves ::
      && w.served < |s.served| && s.served[w.served].value.AProduct?
      && s.served[w.served].at <= w.at <= s.now && 0 < w.version < |s.versions|
      && s.versions[w.version]
         == Version(w.at, Save(s.versions[w.version - 1].db, Apply(s.served[w.served].value.product, w.dto)))
  }

  ghost predicate ServedBefore(s: State) {
    s.versions != [] && forall e <- s.served :: e.at <= s.now
  }

  lemma StepKeepsSaves(s: State, a: Action)
    requires SavesOk(s) && ServedBefore(s)
    ensures SavesOk(Step(s, a)) && ServedBefore(Step(s, a))
  {
    hide Answer, Key, Save, Apply;
  }

  lemma {:induction false} RunKeepsSaves(s: State, actions: seq<Action>)
    requires SavesOk(s) && ServedBefore(s)
    ensures SavesOk(Run(s, actions)) && ServedBefore(Run(s, actions))
  {
    hide SavesOk, ServedBefore, Step;
    if actions != [] {
      RunKeepsSaves(s, actions[..|actions| - 1]);
      StepKeepsSaves(Run(s, actions[..|actions| - 1]), actions[|actions| - 1]);
    }
  }

  ghost predicate WritesBackRecent(s: State, w: Saved) {
    && w.served < |s.served| && 0 < w.version < |s.versions|
    && var e := s.served[w.served];
    && e.value.AProduct? && Recent(s, e)
    && var r := s.readers[e.filler];
    && s.versions[w.version].db == Save(s.versions[w.version - 1].db, Apply(e.value.product, w.dto))
    && w.at - r.readAt < s.ttl + (r.setAt - r.readAt) + (w.at - e.at)
  }

  // An update that saves at time t writes every field that its dto leaves out as
  // the table had it at some time r, where t - r is less than the TTL, the
  // filling reader's delay and the update's own delay together.
  lemma WriteBackBound(db: seq<Product>, ttl: pos, actions: seq<Action>, w: Saved, lists: iset<Params>)
    requires KeptApart(lists) && AllKnown(actions, lists)
    requires w in Run(Init(db, ttl), actions).saves
    ensures var s := Run(Init(db, ttl), actions); s.ttl == ttl && WritesBackRecent(s, w)
  {
    hide Run, Step, KeptApart, Recent;
    assert SavesOk(Init(db, ttl)) && ServedBefore(Init(db, ttl));
    RunKeepsSaves(Init(db, ttl), actions);
    StalenessBound(db, ttl, actions, Run(Init(db, ttl), actions).served[w.served], lists);
    RecentAge(Run(Init(db, ttl), actions), Run(Init(db, ttl), actions).served[w.served]);
  }

  lemma RecentAge(s: State, e: Served)
    requires Recent(s, e)
    ensures e.filler < |s.readers| && s.readers[e.filler].Filled?
    ensures e.at < s.ttl + s.readers[e.filler].setAt
  {
  }

  /* ----- the bound is reached ----- */

  lemma RunPush(s: State, actions: seq<Action>, a: Action)
    ensures Run(s, actions + [a]) == Step(Run(s, actions), a)
  {
    assert (actions + [a])[..|actions|] == actions;
  }

  // A write and its deletions between a slow reader's read and its fill.
  function Overtaken(q: Query, after: seq<Product>, delay: nat, ttl: pos): seq<Action> {
    [Lookup(q), ReadTable(0), Write(after), Delete({Key(q)}), Tick(delay), Fill(0), Tick(ttl - 1), Lookup(q)]
  }

  // For every TTL and every delay of the reader, the old answer is still served
  // one time unit before the bound, although the table changed right after the read.
  lemma BoundIsReached(db: seq<Product>, after: seq<Product>, q: Query, delay: nat, ttl: pos)
    requires Answer(db, q).Some?
    ensures var s := Run(Init(db, ttl), Overtaken(q, after, delay, ttl));
      && s.now == delay + ttl - 1
      && s.versions == [Version(0, db), Version(0, after)]
      && s.readers == [Filled(q, Answer(db, q).value, 0, 0, delay)]
      && s.served == [Served(q, Answer(db, q).value, delay, 0), Served(q, Answer(db, q).value, s.now, 0)]
  {
    hide Key, Answer;
    var s0, all := Init(db, ttl), Overtaken(q, after, delay, ttl);
    assert all == [] + [all[0]] + [all[1]] + [all[2]] + [all[3]] + [all[4]] + [all[5]] + [all[6]] + [all[7]];
    RunPush(s0, [], all[0]);
    RunPush(s0, [] + [all[0]], all[1]);
    RunPush(s0, [] + [all[0]] + [all[1]], all[2]);
    RunPush(s0, [] + [all[0]] + [all[1]] + [all[2]], all[3]);
    RunPush(s0, [] + [all[0]] + [all[1]] + [all[2]] + [all[3]], all[4]);
    RunPush(s0, [] + [all[0]] + [all[1]] + [all[2]] + [all[3]] + [all[4]], all[5]);
    RunPush(s0, [] + [all[0]] + [all[1]] + [all[2]] + [all[3]] + [all[4]] + [all[5]], all[6]);
    RunPush(s0, [] + [all[0]] + [all[1]] + [all[2]] + [all[3]] + [all[4]] + [all[5]] + [all[6]], all[7]);
  }
}
