/**
 The products table and its queries, without any cache.  Rows are in creation
 order, prices in cents.  Ids are stored in lower case, and the database
 compares them without regard to case.
 */
module Products {
  import opened Common

  type pos = x: int | 1 <= x witness 1

  datatype Product = Product(
    id: string,
    sku: string,
    name: string,
    description: string,
    category: string,
    price: nat,
    currency: string,
    reservationAware: bool,
    isActive: bool,
    imageUrl: Option<string>)

  datatype Params = Params(
    page: pos,
    limit: pos,
    category: Option<string>,
    search: Option<string>,
    minPrice: Option<nat>,
    maxPrice: Option<nat>)

  datatype CreateDto = CreateDto(
    sku: string,
    name: string,
    description: Option<string>,
    category: Option<string>,
    price: nat,
    currency: Option<string>,
    reservationAware: Option<bool>,
    isActive: Option<bool>,
    imageUrl: Option<string>)

  datatype UpdateDto = UpdateDto(
    name: Option<string>,
    description: Option<string>,
    category: Option<string>,
    price: Option<nat>,
    currency: Option<string>,
    reservationAware: Option<bool>,
    isActive: Option<bool>,
    imageUrl: Option<Option<string>>)

  function LowerChar(c: char): (r: char)
    ensures if 'A' <= c <= 'Z' then 'a' <= r <= 'z' && r as int - 'a' as int == c as int - 'A' as int else r == c
  {
    if 'A' <= c <= 'Z' then (c as int + 32) as char else c
  }

  function Lower(s: string): (r: string)
    ensures |r| == |s| && forall i | 0 <= i < |s| :: r[i] == LowerChar(s[i])
  {
    seq(|s|, i requires 0 <= i < |s| => LowerChar(s[i]))
  }

  function Or<T>(o: Option<T>, default: T): T {
    if o.Some? then o.value else default
  }

  /* ----- by id ----- */

  function FindById(db: seq<Product>, id: string): (r: Option<Product>)
    ensures r.Some? ==> r.value in db && r.value.id == Lower(id)
    ensures r.None? ==> forall p <- db :: p.id != Lower(id)
  {
    if db == [] then None
    else if db[0].id == Lower(id) then Some(db[0])
    else FindById(db[1..], id)
  }

  predicate Distinct(db: seq<Product>) {
    forall i, j | 0 <= i < j < |db| :: db[i].id != db[j].id && db[i].sku != db[j].sku
  }

  function NewProduct(dto: CreateDto, id: string): Product {
    Product(id, dto.sku, dto.name, Or(dto.description, ""), Or(dto.category, ""), dto.price,
            Or(dto.currency, "USD"), Or(dto.reservationAware, true), Or(dto.isActive, true), dto.imageUrl)
  }

  // The fields a dto leaves undefined keep their value.
  function Apply(p: Product, dto: UpdateDto): Product {
    p.(name := Or(dto.name, p.name),
       description := Or(dto.description, p.description),
       category := Or(dto.category, p.category),
       price := Or(dto.price, p.price),
       currency := Or(dto.currency, p.currency),
       reservationAware := Or(dto.reservationAware, p.reservationAware),
       isActive := Or(dto.isActive, p.isActive),
       imageUrl := Or(dto.imageUrl, p.imageUrl))
  }

  // The sku is unique, and a generated id is new.
  predicate CanInsert(db: seq<Product>, p: Product) {
    forall q <- db :: q.id != p.id && q.sku != p.sku
  }

  // save() overwrites the row with the object's id.
  function Save(db: seq<Product>, p: Product): (r: seq<Product>)
    ensures |r| == |db|
  {
    seq(|db|, i requires 0 <= i < |db| => if db[i].id == p.id then p else db[i])
  }

  lemma {:induction false} FindSaved(db: seq<Product>, p: Product, id: string)
    ensures FindById(Save(db, p), id) ==
            if p.id == Lower(id) && FindById(db, id).Some? then Some(p) else FindById(db, id)
  {
    if db != [] {
      assert Save(db, p)[1..] == Save(db[1..], p);
      FindSaved(db[1..], p, id);
    }
  }

  lemma {:induction false} FindInserted(db: seq<Product>, p: Product, id: string)
    ensures FindById(db + [p], id) ==
            if FindById(db, id).Some? then FindById(db, id)
            else if p.id == Lower(id) then Some(p) else None
  {
    if db != [] {
      assert (db + [p])[1..] == db[1..] + [p];
      FindInserted(db[1..], p, id);
    }
  }

  /* ----- lists ----- */

  // ILIKE: % is any text, _ any character, \ takes the next character as it is.
  predicate Like(text: string, pattern: string)
    decreases |pattern|, |text|
  {
    if pattern == [] then text == []
    else if pattern[0] == '%' then Like(text, pattern[1..]) || (text != [] && Like(text[1..], pattern))
    else if text == [] then false
    else if pattern[0] == '_' then Like(text[1..], pattern[1..])
    else if pattern[0] == '\\' then
      |pattern| > 1 && LowerChar(pattern[1]) == LowerChar(text[0]) && Like(text[1..], pattern[2..])
    else LowerChar(pattern[0]) == LowerChar(text[0]) && Like(text[1..], pattern[1..])
  }

  function Count(k: char, s: string): nat {
    if s == [] then 0 else (if s[0] == k then 1 else 0) + Count(k, s[1..])
  }

  // A character that patterns take as it is and that has no other case.
  predicate Plainly(k: char) {
    k !in "%_\\" && !('a' <= k <= 'z') && !('A' <= k <= 'Z')
  }

  lemma {:induction false} CountConcat(k: char, s: string, t: string)
    ensures Count(k, s + t) == Count(k, s) + Count(k, t)
  {
    if s == [] {
      assert s + t == t;
    } else {
      assert (s + t)[1..] == s[1..] + t;
      CountConcat(k, s[1..], t);
    }
  }

  // What matches a pattern holds every such character at least as often.
  lemma {:induction false} LikeCounts(text: string, pattern: string, k: char)
    requires Plainly(k)
    ensures Like(text, pattern) ==> Count(k, pattern) <= Count(k, text)
    decreases |pattern|, |text|
  {
    if pattern != [] && Like(text, pattern) {
      if pattern[0] == '%' {
        LikeCounts(text, pattern[1..], k);
        if text != [] { LikeCounts(text[1..], pattern, k); }
      } else if pattern[0] == '\\' {
        assert pattern[1..][1..] == pattern[2..];
        LikeCounts(text[1..], pattern[2..], k);
      } else {
        LikeCounts(text[1..], pattern[1..], k);
      }
    }
  }

  // A text that matches a pattern: nothing for %, an x for _, the rest as it is.
  function Matching(pattern: string): string {
    if pattern == [] then []
    else if pattern[0] == '%' then Matching(pattern[1..])
    else if pattern[0] == '_' then ['x'] + Matching(pattern[1..])
    else if pattern[0] == '\\' && |pattern| > 1 then [pattern[1]] + Matching(pattern[2..])
    else [pattern[0]] + Matching(pattern[1..])
  }

  lemma {:induction false} MatchingMatches(pattern: string, k: char)
    requires pattern == [] || pattern[|pattern| - 1] == '%'
    requires Plainly(k)
    ensures Like(Matching(pattern), pattern) && Count(k, Matching(pattern)) <= Count(k, pattern)
    decreases |pattern|
  {
    if pattern != [] {
      var rest := if pattern[0] == '\\' then pattern[2..] else pattern[1..];
      MatchingMatches(rest, k);
      if pattern[0] == '\\' { assert pattern[1..][1..] == rest; }
      if pattern[0] != '%' { assert Matching(pattern)[1..] == Matching(rest); }
    }
  }

  // An absent filter and an empty text filter let every row through.
  predicate Selected(p: Product, params: Params) {
    && (params.category.Some? && params.category.value != "" ==> p.category == params.category.value)
    && (params.search.Some? && params.search.value != "" ==>
          var pattern := "%" + params.search.value + "%";
          Like(p.name, pattern) || Like(p.description, pattern))
    && (params.minPrice.Some? ==> params.minPrice.value <= p.price)
    && (params.maxPrice.Some? ==> p.price <= params.maxPrice.value)
  }

  // Newest first.
  function Select(db: seq<Product>, params: Params): seq<Product> {
    if db == [] then []
    else
      var last := db[|db| - 1];
      (if Selected(last, params) then [last] else []) + Select(db[..|db| - 1], params)
  }

  function Slice(s: seq<Product>, skip: nat, take: nat): seq<Product> {
    if |s| <= skip then [] else if |s| <= skip + take then s[skip..] else s[skip..skip + take]
  }

  datatype Page = Page(data: seq<Product>, total: nat, page: pos, limit: pos)

  function FindMany(db: seq<Product>, params: Params): Page {
    var found := Select(db, params);
    Page(Slice(found, (params.page - 1) * params.limit, params.limit), |found|, params.page, params.limit)
  }
}
