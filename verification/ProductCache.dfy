/**
 The product service behind its read-through cache, one request at a time:
 string keys, entries that expire, reads that fill, writes that invalidate.
 What it serves is compared with what the table alone would answer.
 */
module ProductCache {
  import opened Common
  import opened Products
  import opened ProductKeys

  /* ----- the service ----- */

  datatype Entry = Entry(value: Json, expires: int)

  type Cache = map<string, Entry>

  datatype State = State(db: seq<Product>, cache: Cache, now: int, ttl: nat)

  datatype Request =
    | Read(query: Query)
    | Create(create: CreateDto, newId: string)
    | Update(id: string, update: UpdateDto)
    | Wait(duration: nat)

  function Get(cache: Cache, key: string, now: int): Option<Json> {
    if key in cache && now < cache[key].expires then Some(cache[key].value) else None
  }

  function Set(s: State, key: string, value: Json): State {
    s.(cache := s.cache[key := Entry(value, s.now + s.ttl)])
  }

  // list, findById and findPriceById: the cached value if there is one, else
  // the table's, which is cached unless the row is missing.
  function ReadThrough(s: State, q: Query): (State, Option<Json>) {
    var hit := Get(s.cache, Key(q), s.now);
    if hit.Some? then (s, hit)
    else
      var found := Answer(s.db, q);
      if found.Some? then (Set(s, Key(q), found.value), found) else (s, None)
  }

  function DropLists(cache: Cache): Cache {
    map key | key in cache && !IsListKey(key) :: cache[key]
  }

  function CreateStep(s: State, dto: CreateDto, newId: string): (State, Option<Json>) {
    var p := NewProduct(dto, newId);
    if CanInsert(s.db, p)
    then (s.(db := s.db + [p], cache := DropLists(s.cache)), Some(AProduct(p)))
    else (s, None)
  }

  // update reads through the cache, changes that copy and saves it.
  function UpdateStep(s: State, id: string, dto: UpdateDto): (State, Option<Json>) {
    var (t, found) := ReadThrough(s, ForProduct(id));
    if found.Some? && found.value.AProduct? then
      var p := Apply(found.value.product, dto);
      (t.(db := Save(t.db, p),
          cache := DropLists(t.cache - {Key(ForProduct(id)), Key(ForPrice(id))})),
       Some(AProduct(p)))
    else (t, None)
  }

  function Step(s: State, r: Request): (State, Option<Json>) {
    match r
    case Read(q) => ReadThrough(s, q)
    case Create(dto, newId) => CreateStep(s, dto, newId)
    case Update(id, dto) => UpdateStep(s, id, dto)
    case Wait(d) => (s.(now := s.now + d), None)
  }

  function Run(s: State, requests: seq<Request>): (State, seq<Option<Json>>) {
    if requests == [] then (s, [])
    else
      var (t, replies) := Run(s, requests[..|requests| - 1]);
      var (u, reply) := Step(t, requests[|requests| - 1]);
      (u, replies + [reply])
  }

  /* ----- the table alone ----- */

  function PlainStep(db: seq<Product>, r: Request): (seq<Product>, Option<Json>) {
    match r
    case Read(q) => (db, Answer(db, q))
    case Create(dto, newId) =>
      var p := NewProduct(dto, newId);
      if CanInsert(db, p) then (db + [p], Some(AProduct(p))) else (db, None)
    case Update(id, dto) =>
      var p := FindById(db, id);
      if p.Some? then (Save(db, Apply(p.value, dto)), Some(AProduct(Apply(p.value, dto)))) else (db, None)
    case Wait(_) => (db, None)
  }

  function PlainRun(db: seq<Product>, requests: seq<Request>): (seq<Product>, seq<Option<Json>>) {
    if requests == [] then (db, [])
    else
      var (t, replies) := PlainRun(db, requests[..|requests| - 1]);
      var (u, reply) := PlainStep(t, requests[|requests| - 1]);
      (u, replies + [reply])
  }

  /* ----- transparency ----- */

  // `lists` and `ids` are the list parameters and the spellings of ids in use.
  ghost predicate InUse(q: Query, lists: iset<Params>, ids: iset<string>) {
    Known(q, lists) && (!q.ForList? ==> q.id in ids)
  }

  ghost predicate Asks(r: Request, lists: iset<Params>, ids: iset<string>) {
    match r
    case Read(q) => InUse(q, lists, ids)
    case Update(id, _) => id in ids && ':' !in id
    case _ => true
  }

  // Each row goes by one spelling of its id.
  ghost predicate IdsApart(ids: iset<string>) {
    forall a, b | a in ids && b in ids && ':' !in a && ':' !in b && Lower(a) == Lower(b) :: a == b
  }

  ghost function PlainIds(): iset<string> {
    iset id: string | PlainId(id)
  }

  // Whatever a request in use would be served from the cache is what the table holds now.
  ghost predicate Fresh(s: State, lists: iset<Params>, ids: iset<string>) {
    forall q | InUse(q, lists, ids) && Get(s.cache, Key(q), s.now).Some? ::
      Get(s.cache, Key(q), s.now) == Answer(s.db, q)
  }

  lemma ReadKeepsFresh(s: State, q: Query, lists: iset<Params>, ids: iset<string>)
    requires KeptApart(lists) && Fresh(s, lists, ids) && InUse(q, lists, ids)
    ensures var (t, reply) := ReadThrough(s, q);
      Fresh(t, lists, ids) && t.db == s.db && t.now == s.now && t.ttl == s.ttl && reply == Answer(s.db, q)
  {
    hide Answer, Key, KeptApart, Known;
    var (t, _) := ReadThrough(s, q);
    forall r | InUse(r, lists, ids) && Get(t.cache, Key(r), t.now).Some?
      ensures Get(t.cache, Key(r), t.now) == Answer(t.db, r)
    {
      if Key(r) == Key(q) { KeyDetermines(s.db, r, q, lists); }
    }
  }

  lemma CreateKeepsFresh(s: State, dto: CreateDto, newId: string, lists: iset<Params>, ids: iset<string>)
    requires Fresh(s, lists, ids)
    ensures Fresh(CreateStep(s, dto, newId).0, lists, ids)
  {
    hide FindMany, ListKey;
    var t := CreateStep(s, dto, newId).0;
    forall r | InUse(r, lists, ids) && Get(t.cache, Key(r), t.now).Some?
      ensures Get(t.cache, Key(r), t.now) == Answer(t.db, r)
    {
      assert Get(s.cache, Key(r), s.now) == Answer(s.db, r);
      KeyKinds(r);
      if !r.ForList? { FindInserted(s.db, NewProduct(dto, newId), r.id); }
    }
  }

  lemma PlainIdIsLower(id: string)
    requires PlainId(id)
    ensures Lower(id) == id
  {
    forall i | 0 <= i < |id| ensures Lower(id)[i] == id[i] {
      assert id[i] in id;
    }
  }

  lemma PlainIdsApart()
    ensures IdsApart(PlainIds())
  {
    forall a, b | a in PlainIds() && b in PlainIds() && Lower(a) == Lower(b) ensures a == b {
      PlainIdIsLower(a);
      PlainIdIsLower(b);
    }
  }

  lemma UpdateKeepsFresh(s: State, id: string, dto: UpdateDto, lists: iset<Params>, ids: iset<string>)
    requires KeptApart(lists) && IdsApart(ids) && Fresh(s, lists, ids) && id in ids && ':' !in id
    ensures var (t, reply) := UpdateStep(s, id, dto);
      Fresh(t, lists, ids) && t.ttl == s.ttl && t.now == s.now && (t.db, reply) == PlainStep(s.db, Update(id, dto))
  {
    hide FindMany, ListKey, ReadThrough, KeptApart, IdsApart, Fresh;
    var (t, found) := ReadThrough(s, ForProduct(id));
    ReadKeepsFresh(s, ForProduct(id), lists, ids);
    if found.Some? {
      SavedKeepsFresh(t, id, found.value.product, Apply(found.value.product, dto), lists, ids);
    }
  }

  // After a save the keys of its row and all list keys are gone, and no other answer has changed.
  lemma SavedKeepsFresh(s: State, id: string, row: Product, p: Product, lists: iset<Params>, ids: iset<string>)
    requires IdsApart(ids) && Fresh(s, lists, ids) && id in ids && ':' !in id
    requires FindById(s.db, id) == Some(row) && p.id == row.id
    ensures Fresh(s.(db := Save(s.db, p),
                     cache := DropLists(s.cache - {Key(ForProduct(id)), Key(ForPrice(id))})), lists, ids)
  {
    hide FindMany, ListKey;
    var u := s.(db := Save(s.db, p), cache := DropLists(s.cache - {Key(ForProduct(id)), Key(ForPrice(id))}));
    forall r | InUse(r, lists, ids) && Get(u.cache, Key(r), u.now).Some?
      ensures Get(u.cache, Key(r), u.now) == Answer(u.db, r)
    {
      assert Get(s.cache, Key(r), s.now) == Answer(s.db, r);
      KeyKinds(r);
      if !r.ForList? {
        FindSaved(s.db, p, r.id);
        assert Lower(r.id) != Lower(id);
      }
    }
  }

  lemma WaitKeepsFresh(s: State, d: nat, lists: iset<Params>, ids: iset<string>)
    requires Fresh(s, lists, ids)
    ensures Fresh(s.(now := s.now + d), lists, ids)
  {
    hide Answer, Key, InUse;
    var t := s.(now := s.now + d);
    forall q | InUse(q, lists, ids) && Get(t.cache, Key(q), t.now).Some?
      ensures Get(t.cache, Key(q), t.now) == Answer(t.db, q)
    {
      assert Get(s.cache, Key(q), s.now) == Get(t.cache, Key(q), t.now);
    }
  }

  lemma CreateIsPlain(s: State, dto: CreateDto, newId: string, lists: iset<Params>, ids: iset<string>)
    requires Fresh(s, lists, ids)
    ensures var (t, reply) := CreateStep(s, dto, newId);
      Fresh(t, lists, ids) && t.ttl == s.ttl && t.now == s.now && (t.db, reply) == PlainStep(s.db, Create(dto, newId))
  {
    hide Fresh;
    CreateKeepsFresh(s, dto, newId, lists, ids);
  }

  lemma StepIsPlain(s: State, r: Request, lists: iset<Params>, ids: iset<string>)
    requires KeptApart(lists) && IdsApart(ids) && Fresh(s, lists, ids) && Asks(r, lists, ids)
    ensures var (t, reply) := Step(s, r);
      Fresh(t, lists, ids) && t.ttl == s.ttl && (t.db, reply) == PlainStep(s.db, r)
  {
    hide Fresh, KeptApart, IdsApart, ReadThrough, CreateStep, UpdateStep;
    match r
    case Read(q) => ReadKeepsFresh(s, q, lists, ids);
    case Create(dto, newId) => CreateIsPlain(s, dto, newId, lists, ids);
    case Update(id, dto) => UpdateKeepsFresh(s, id, dto, lists, ids);
    case Wait(d) => WaitKeepsFresh(s, d, lists, ids);
  }

  // The same replies, the same table.
  ghost predicate Agree(cached: (State, seq<Option<Json>>), plain: (seq<Product>, seq<Option<Json>>)) {
    cached.1 == plain.1 && cached.0.db == plain.0
  }

  ghost predicate AllAsk(requests: seq<Request>, lists: iset<Params>, ids: iset<string>) {
    forall r <- requests :: Asks(r, lists, ids)
  }

  lemma {:induction false} RunIsPlain(s: State, requests: seq<Request>, lists: iset<Params>, ids: iset<string>)
    requires KeptApart(lists) && IdsApart(ids) && Fresh(s, lists, ids) && AllAsk(requests, lists, ids)
    ensures Agree(Run(s, requests), PlainRun(s.db, requests)) && Fresh(Run(s, requests).0, lists, ids)
  {
    hide Fresh, KeptApart, IdsApart, Step, PlainStep, Asks;
    if requests != [] {
      var front := requests[..|requests| - 1];
      assert forall r <- front :: r in requests;
      RunIsPlain(s, front, lists, ids);
      StepIsPlain(Run(s, front).0, requests[|requests| - 1], lists, ids);
    }
  }

  function Start(db: seq<Product>, ttl: nat): State {
    State(db, map[], 0, ttl)
  }

  // The cache is transparent: over any sequence of reads, creations, updates and
  // pauses it serves, and leaves in the table, exactly what the table alone
  // would, if the lists asked for are kept apart by their keys and each row goes
  // by one spelling of its id ...
  lemma {:induction false} Transparent(db: seq<Product>, ttl: nat, requests: seq<Request>,
                                       lists: iset<Params>, ids: iset<string>)
    requires KeptApart(lists) && IdsApart(ids) && AllAsk(requests, lists, ids)
    ensures Agree(Run(Start(db, ttl), requests), PlainRun(db, requests))
  {
    RunIsPlain(Start(db, ttl), requests, lists, ids);
  }

  // ... as they are when their texts hold no colon and are not a star, and the
  // ids are spelled as the database spells them.
  lemma {:induction false} TransparentForPlain(db: seq<Product>, ttl: nat, requests: seq<Request>)
    requires AllAsk(requests, PlainLists(), PlainIds())
    ensures Agree(Run(Start(db, ttl), requests), PlainRun(db, requests))
  {
    PlainListsKeptApart();
    PlainIdsApart();
    Transparent(db, ttl, requests, PlainLists(), PlainIds());
  }

  lemma Run2(s: State, a: Request, b: Request)
    ensures Run(s, [a, b]).1 == [Step(s, a).1, Step(Step(s, a).0, b).1]
    ensures Run(s, [a, b]).0 == Step(Step(s, a).0, b).0
  {
    hide Step;
    assert [a, b][..1] == [a] && [a][..0] == [];
    assert Run(s, []) == (s, []);
    assert Run(s, [a]) == (Step(s, a).0, [] + [Step(s, a).1]);
  }

  lemma Run3(s: State, a: Request, b: Request, c: Request)
    ensures var t := Step(Step(s, a).0, b).0;
      Run(s, [a, b, c]).1 == [Step(s, a).1, Step(Step(s, a).0, b).1, Step(t, c).1]
  {
    hide Step;
    Run2(s, a, b);
    assert [a, b, c][..2] == [a, b];
  }

  lemma PlainRun3(db: seq<Product>, a: Request, b: Request, c: Request)
    ensures var t := PlainStep(PlainStep(db, a).0, b).0;
      PlainRun(db, [a, b, c]).1 == [PlainStep(db, a).1, PlainStep(PlainStep(db, a).0, b).1, PlainStep(t, c).1]
  {
    hide PlainStep;
    PlainRun2(db, a, b);
    assert [a, b, c][..2] == [a, b];
  }

  lemma PlainRun2(db: seq<Product>, a: Request, b: Request)
    ensures PlainRun(db, [a, b]).1 == [PlainStep(db, a).1, PlainStep(PlainStep(db, a).0, b).1]
    ensures PlainRun(db, [a, b]).0 == PlainStep(PlainStep(db, a).0, b).0
  {
    hide PlainStep;
    assert [a, b][..1] == [a] && [a][..0] == [];
    assert PlainRun(db, []) == (db, []);
    assert PlainRun(db, [a]) == (PlainStep(db, a).0, [] + [PlainStep(db, a).1]);
  }

  // Parameters with one key share one entry: the second is served the first one's page.
  lemma SharedKeyServesOther(s: State, p: Params, q: Params)
    requires ListKey(p) == ListKey(q) && s.ttl > 0 && Get(s.cache, ListKey(q), s.now).None?
    ensures Run(s, [Read(ForList(q)), Read(ForList(p))]).1 == [Answer(s.db, ForList(q)), Answer(s.db, ForList(q))]
  {
    hide FindMany, ListKey;
    Run2(s, Read(ForList(q)), Read(ForList(p)));
  }

  // So two requests are enough to be served a wrong page.
  lemma Misserved(p: Params, q: Params, ttl: nat) returns (db: seq<Product>)
    requires p != q && ListKey(p) == ListKey(q) && !Empty(p) && ttl > 0
    ensures var requests := [Read(ForList(q)), Read(ForList(p))];
      !Agree(Run(Start(db, ttl), requests), PlainRun(db, requests))
  {
    hide ListKey, FindMany, Run, PlainRun;
    db := SharedKeyDiffers(p, q);
    SharedKeyServesOther(Start(db, ttl), p, q);
    PlainRun2(db, Read(ForList(q)), Read(ForList(p)));
  }

  /* ----- two spellings of an id ----- */

  // Different spellings have different keys, and an update deletes only its own.
  lemma SpellingKeys(a: string, b: string)
    requires ':' !in a && ':' !in b
    ensures !IsListKey(Key(ForProduct(a))) && Key(ForProduct(a)) != Key(ForPrice(b))
    ensures Key(ForProduct(a)) == Key(ForProduct(b)) <==> a == b
  {
    KeyKinds(ForProduct(a));
    KeyKinds(ForProduct(b));
    KeyKinds(ForPrice(b));
  }

  lemma {:induction false} FindSpelled(db: seq<Product>, a: string, b: string)
    requires Lower(a) == Lower(b)
    ensures FindById(db, a) == FindById(db, b)
  {
    if db != [] { FindSpelled(db[1..], a, b); }
  }

  // A read under one spelling, then an update under the other.
  lemma UpdateAfterRead(s: State, a: string, b: string, dto: UpdateDto)
    requires ':' !in a && ':' !in b && Lower(a) == Lower(b) && FindById(s.db, a).Some? && s.ttl > 0
    requires Fresh(s, iset{}, iset{a, b})
    ensures var t := Step(Step(s, Read(ForProduct(a))).0, Update(b, dto)).0;
      var p := FindById(s.db, a).value;
      && t.db == Save(s.db, Apply(p, dto)) && t.now == s.now
      && Get(t.cache, Key(ForProduct(a)), t.now) == if a == b then None else Some(AProduct(p))
  {
    hide Apply, Save, FindMany, FindById, ListKey, Lower, Fresh;
    var p := FindById(s.db, a).value;
    SpellingKeys(a, b);
    FindSpelled(s.db, a, b);
    ReadKeepsFresh(s, ForProduct(a), iset{}, iset{a, b});
    var t := ReadThrough(s, ForProduct(a)).0;
    ReadKeepsFresh(t, ForProduct(b), iset{}, iset{a, b});
    assert Get(t.cache, Key(ForProduct(a)), t.now) == Some(AProduct(p));
  }

  lemma KeepsId(p: Product, dto: UpdateDto)
    ensures Apply(p, dto).id == p.id
  {
  }

  // Read under one spelling, update under the other, read again: the second read
  // is up to date exactly when the spellings agree or nothing was changed.
  lemma SpellingIff(s: State, a: string, b: string, dto: UpdateDto)
    requires ':' !in a && ':' !in b && Lower(a) == Lower(b) && FindById(s.db, a).Some? && s.ttl > 0
    requires Fresh(s, iset{}, iset{a, b})
    ensures var p := FindById(s.db, a).value;
      var t := Step(Step(s, Read(ForProduct(a))).0, Update(b, dto)).0;
      ReadThrough(t, ForProduct(a)).1 == Answer(t.db, ForProduct(a)) <==> a == b || Apply(p, dto) == p
  {
    hide Step, Apply, Save, Fresh;
    UpdateAfterRead(s, a, b, dto);
    var p := FindById(s.db, a).value;
    KeepsId(p, dto);
    FindSaved(s.db, Apply(p, dto), a);
  }

  // A further update under the first spelling goes through the copy that is
  // still cached there.
  lemma UpdateThroughCopy(s: State, a: string, b: string, first: UpdateDto, second: UpdateDto)
    requires ':' !in a && ':' !in b && Lower(a) == Lower(b) && FindById(s.db, a).Some? && s.ttl > 0
    requires Fresh(s, iset{}, iset{a, b})
    ensures var t := Step(Step(s, Read(ForProduct(a))).0, Update(b, first)).0;
      var p := FindById(s.db, a).value;
      var copy := if a == b then Apply(p, first) else p;
      Step(t, Update(a, second)).0.db == Save(Save(s.db, Apply(p, first)), Apply(copy, second))
  {
    hide Apply, Save, Fresh;
    UpdateAfterRead(s, a, b, first);
    var p := FindById(s.db, a).value;
    KeepsId(p, first);
    FindSaved(s.db, Apply(p, first), a);
  }

  // So it writes back what the first update changed: the table is as without a
  // cache exactly when the spellings agree, or the second update overrides all
  // that the first one changed.
  lemma LostUpdateIff(s: State, a: string, b: string, first: UpdateDto, second: UpdateDto)
    requires ':' !in a && ':' !in b && Lower(a) == Lower(b) && FindById(s.db, a).Some? && s.ttl > 0
    requires Fresh(s, iset{}, iset{a, b})
    ensures var t := Step(Step(s, Read(ForProduct(a))).0, Update(b, first)).0;
      var u := Step(t, Update(a, second)).0;
      var p := FindById(s.db, a).value;
      && FindById(u.db, a) == Some(Apply(if a == b then Apply(p, first) else p, second))
      && (u.db == PlainStep(PlainStep(s.db, Update(b, first)).0, Update(a, second)).0
          <==> a == b || Apply(Apply(p, first), second) == Apply(p, second))
  {
    hide Apply, Save, Fresh, Step;
    UpdateThroughCopy(s, a, b, first, second);
    var p := FindById(s.db, a).value;
    var once := Apply(p, first);
    FindSpelled(s.db, a, b);
    KeepsId(p, first);
    KeepsId(p, second);
    KeepsId(once, second);
    FindSaved(s.db, once, a);
    FindSaved(Save(s.db, once), Apply(p, second), a);
    FindSaved(Save(s.db, once), Apply(once, second), a);
  }

  // An update through whatever copy a fresh cache holds under its spelling changes
  // one row, and of it only the fields the dto defines.
  lemma UpdateChangesOnly(s: State, id: string, dto: UpdateDto, i: nat)
    requires Fresh(s, iset{}, iset{id}) && ':' !in id && Distinct(s.db) && i < |s.db|
    ensures var t := UpdateStep(s, id, dto).0;
      && |t.db| == |s.db|
      && (s.db[i].id != Lower(id) ==> t.db[i] == s.db[i])
      && (s.db[i].id == Lower(id) ==>
            && t.db[i].id == s.db[i].id && t.db[i].sku == s.db[i].sku
            && t.db[i].name == Or(dto.name, s.db[i].name)
            && t.db[i].description == Or(dto.description, s.db[i].description)
            && t.db[i].category == Or(dto.category, s.db[i].category)
            && t.db[i].price == Or(dto.price, s.db[i].price)
            && t.db[i].currency == Or(dto.currency, s.db[i].currency)
            && t.db[i].reservationAware == Or(dto.reservationAware, s.db[i].reservationAware)
            && t.db[i].isActive == Or(dto.isActive, s.db[i].isActive)
            && t.db[i].imageUrl == Or(dto.imageUrl, s.db[i].imageUrl))
  {
    hide UpdateStep, Fresh;
    UpdateKeepsFresh(s, id, dto, iset{}, iset{id});
    var p := FindById(s.db, id);
    if s.db[i].id == Lower(id) {
      assert s.db[i] in s.db;
      var j :| 0 <= j < |s.db| && s.db[j] == p.value;
      assert i == j;
    }
  }

  /* ----- exactly when the cache is transparent ----- */

  lemma MisservedSpelling(a: string, b: string, ttl: nat) returns (db: seq<Product>, requests: seq<Request>)
    requires a != b && ':' !in a && ':' !in b && Lower(a) == Lower(b) && ttl > 0
    ensures AllAsk(requests, iset{}, iset{a, b})
    ensures !Agree(Run(Start(db, ttl), requests), PlainRun(db, requests))
  {
    hide Run, PlainRun, Fresh;
    var row := Product(Lower(a), "", "", "", "", 0, "", true, true, None);
    var dto := UpdateDto(Some("renamed"), None, None, None, None, None, None, None);
    db := [row];
    var read, update := Read(ForProduct(a)), Update(b, dto);
    requests := [read, update, read];
    var s := Start(db, ttl);
    assert Fresh(s, iset{}, iset{a, b}) by { StartIsFresh(db, ttl, iset{}, iset{a, b}); }
    SpellingIff(s, a, b, dto);
    UpdateAfterRead(s, a, b, dto);
    FindSpelled(db, a, b);
    Run3(s, read, update, read);
    PlainRun3(db, read, update, read);
    assert Apply(row, dto).name != row.name;
  }

  lemma StartIsFresh(db: seq<Product>, ttl: nat, lists: iset<Params>, ids: iset<string>)
    ensures Fresh(Start(db, ttl), lists, ids)
  {
  }

  lemma AskMore(requests: seq<Request>, a: string, b: string, lists: iset<Params>, ids: iset<string>)
    requires AllAsk(requests, iset{}, iset{a, b}) && a in ids && b in ids
    ensures AllAsk(requests, lists, ids)
  {
    forall r | r in requests ensures Asks(r, lists, ids) {
      assert Asks(r, iset{}, iset{a, b});
    }
  }

  // Whichever lists and spellings of ids are in use: no table and no sequence of
  // requests is answered or left other than by the table alone if and only if
  // the keys keep the lists apart and each row goes by one spelling.
  lemma TransparentIff(lists: iset<Params>, ids: iset<string>, ttl: nat)
    requires ttl > 0
    ensures (forall db: seq<Product>, requests | AllAsk(requests, lists, ids) ::
               Agree(Run(Start(db, ttl), requests), PlainRun(db, requests)))
       <==> KeptApart(lists) && IdsApart(ids)
  {
    hide Run, PlainRun, Agree, ListKey;
    if !KeptApart(lists) {
      var p, q :| p in lists && q in lists && ListKey(p) == ListKey(q) && p != q && !Empty(p);
      var db := Misserved(p, q, ttl);
      assert AllAsk([Read(ForList(q)), Read(ForList(p))], lists, ids);
    } else if !IdsApart(ids) {
      var a, b :| a in ids && b in ids && ':' !in a && ':' !in b && Lower(a) == Lower(b) && a != b;
      var db, requests := MisservedSpelling(a, b, ttl);
      AskMore(requests, a, b, lists, ids);
    } else {
      forall db: seq<Product>, requests | AllAsk(requests, lists, ids)
        ensures Agree(Run(Start(db, ttl), requests), PlainRun(db, requests))
      {
        Transparent(db, ttl, requests, lists, ids);
      }
    }
  }
}
