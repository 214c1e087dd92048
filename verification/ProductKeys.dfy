/**
 The cache keys of the product service: what each stands for, when two requests
 share one, and what sharing one does to the answers.
 */
module ProductKeys {
  import opened Common
  import opened Products
  import Strings

  /* ----- what a key stands for ----- */

  datatype Query = ForList(params: Params) | ForProduct(id: string) | ForPrice(id: string)

  datatype Json = AList(page: Page) | AProduct(product: Product) | APrice(price: nat, currency: string)

  function Answer(db: seq<Product>, q: Query): Option<Json> {
    match q
    case ForList(params) => Some(AList(FindMany(db, params)))
    case ForProduct(id) =>
      var p := FindById(db, id);
      if p.Some? then Some(AProduct(p.value)) else None
    case ForPrice(id) =>
      var p := FindById(db, id);
      if p.Some? then Some(APrice(p.value.price, p.value.currency)) else None
  }

  function NumberOrStar(n: Option<nat>): string {
    if n.Some? then Strings.Number(n.value) else "*"
  }

  const PRODUCT := "product:"
  const PRICE := "product:price:"
  const LIST := "product:list:"

  // The parts joined by ':'; an absent one is a '*'.
  function ListKey(p: Params): string {
    LIST + Strings.Joined(Strings.Decimal(p.page),
           Strings.Joined(Strings.Decimal(p.limit),
           Strings.Joined(Or(p.category, "*"),
           Strings.Joined(Or(p.search, "*"),
           Strings.Joined(NumberOrStar(p.minPrice), NumberOrStar(p.maxPrice))))))
  }

  function Key(q: Query): string {
    match q
    case ForList(params) => ListKey(params)
    case ForProduct(id) => PRODUCT + id
    case ForPrice(id) => PRICE + id
  }

  // delPattern of 'product:list:*'
  predicate IsListKey(key: string) {
    LIST <= key
  }

  predicate PlainText(o: Option<string>) {
    o.Some? ==> ':' !in o.value && o.value != "*"
  }

  predicate Plain(p: Params) {
    PlainText(p.category) && PlainText(p.search)
  }

  // The id as the database spells it.
  predicate PlainId(id: string) {
    forall c <- id :: '0' <= c <= '9' || 'a' <= c <= 'f' || c == '-'
  }

  lemma PlainTextInjective(a: Option<string>, b: Option<string>)
    requires PlainText(a) && PlainText(b)
    ensures ':' !in Or(a, "*")
    ensures Or(a, "*") == Or(b, "*") ==> a == b
  {
  }

  lemma NumberOrStarInjective(a: Option<nat>, b: Option<nat>)
    ensures ':' !in NumberOrStar(a)
    ensures NumberOrStar(a) == NumberOrStar(b) ==> a == b
  {
    if a.Some? && b.Some? && NumberOrStar(a) == NumberOrStar(b) { Strings.NumberInjective(a.value, b.value); }
  }

  // On parameters whose texts hold no ':' and are not '*', the list key is injective.
  lemma ListKeyInjective(p: Params, q: Params)
    requires Plain(p) && Plain(q) && ListKey(p) == ListKey(q)
    ensures p == q
  {
    hide Strings.Joined, Strings.Decimal, Plain, NumberOrStar;
    var p4 := Strings.Joined(NumberOrStar(p.minPrice), NumberOrStar(p.maxPrice));
    var q4 := Strings.Joined(NumberOrStar(q.minPrice), NumberOrStar(q.maxPrice));
    var p3, q3 := Strings.Joined(Or(p.search, "*"), p4), Strings.Joined(Or(q.search, "*"), q4);
    var p2, q2 := Strings.Joined(Or(p.category, "*"), p3), Strings.Joined(Or(q.category, "*"), q3);
    var p1, q1 := Strings.Joined(Strings.Decimal(p.limit), p2), Strings.Joined(Strings.Decimal(q.limit), q2);
    var p0, q0 := Strings.Joined(Strings.Decimal(p.page), p1), Strings.Joined(Strings.Decimal(q.page), q1);
    assert p0 == ListKey(p)[|LIST|..] && q0 == ListKey(q)[|LIST|..];
    PlainParts(p, q);
    Strings.JoinedApart(Strings.Decimal(p.page), p1, Strings.Decimal(q.page), q1);
    Strings.JoinedApart(Strings.Decimal(p.limit), p2, Strings.Decimal(q.limit), q2);
    Strings.JoinedApart(Or(p.category, "*"), p3, Or(q.category, "*"), q3);
    Strings.JoinedApart(Or(p.search, "*"), p4, Or(q.search, "*"), q4);
    Strings.JoinedApart(NumberOrStar(p.minPrice), NumberOrStar(p.maxPrice),
                        NumberOrStar(q.minPrice), NumberOrStar(q.maxPrice));
    Strings.DecimalInjective(p.page, q.page);
    Strings.DecimalInjective(p.limit, q.limit);
  }

  lemma PlainParts(p: Params, q: Params)
    requires Plain(p) && Plain(q)
    ensures ':' !in Or(p.category, "*") && ':' !in Or(p.search, "*") && ':' !in Strings.Decimal(p.page)
    ensures ':' !in Or(q.category, "*") && ':' !in Or(q.search, "*") && ':' !in Strings.Decimal(q.page)
    ensures ':' !in Strings.Decimal(p.limit) && ':' !in Strings.Decimal(q.limit)
    ensures ':' !in NumberOrStar(p.minPrice) && ':' !in NumberOrStar(q.minPrice)
    ensures Or(p.category, "*") == Or(q.category, "*") ==> p.category == q.category
    ensures Or(p.search, "*") == Or(q.search, "*") ==> p.search == q.search
    ensures NumberOrStar(p.minPrice) == NumberOrStar(q.minPrice) ==> p.minPrice == q.minPrice
    ensures NumberOrStar(p.maxPrice) == NumberOrStar(q.maxPrice) ==> p.maxPrice == q.maxPrice
  {
    PlainTextInjective(p.category, q.category);
    PlainTextInjective(p.search, q.search);
    NumberOrStarInjective(p.minPrice, q.minPrice);
    NumberOrStarInjective(p.maxPrice, q.maxPrice);
  }

  // Lists have keys under the list prefix; products and prices do not, as no uuid holds a colon.
  lemma KeyKinds(q: Query)
    requires q.ForList? || ':' !in q.id
    ensures q.ForList? <==> IsListKey(Key(q))
    ensures q.ForPrice? <==> PRICE <= Key(q)
    ensures q.ForProduct? ==> Key(q)[|PRODUCT|..] == q.id
    ensures q.ForPrice? ==> Key(q)[|PRICE|..] == q.id
  {
    if q.ForProduct? {
      assert LIST[12] == ':' && PRICE[13] == ':';
      if |q.id| > 4 { assert Key(q)[12] == q.id[4] && q.id[4] in q.id; }
      if |q.id| > 5 { assert Key(q)[13] == q.id[5] && q.id[5] in q.id; }
    } else if q.ForList? {
      assert Key(q)[8] == 'l' && PRICE[8] == 'p';
    } else {
      assert Key(q)[8] == 'p' && LIST[8] == 'l';
    }
  }

  // Any text the injectivity leaves out does share its key with other parameters.
  lemma NotPlainShares(p: Params) returns (q: Params)
    requires !Plain(p)
    ensures q != p && ListKey(q) == ListKey(p)
  {
    if p.category == Some("*") {
      q := p.(category := None);
    } else if p.search == Some("*") {
      q := p.(search := None);
    } else if p.category.Some? && ':' in p.category.value {
      var c := p.category.value;
      var i :| 0 <= i < |c| && c[i] == ':';
      var a, b := c[..i], c[i + 1..];
      assert c == Strings.Joined(a, b);
      q := p.(category := Some(a), search := Some(Strings.Joined(b, Or(p.search, "*"))));
      var rest := Strings.Joined(NumberOrStar(p.minPrice), NumberOrStar(p.maxPrice));
      Strings.JoinedAssociates(a, b, Strings.Joined(Or(p.search, "*"), rest));
      Strings.JoinedAssociates(b, Or(p.search, "*"), rest);
    } else {
      var s := p.search.value;
      var i :| 0 <= i < |s| && s[i] == ':';
      var a, b := s[..i], s[i + 1..];
      assert s == Strings.Joined(a, b);
      q := p.(category := Some(Strings.Joined(Or(p.category, "*"), a)), search := Some(b));
      var rest := Strings.Joined(NumberOrStar(p.minPrice), NumberOrStar(p.maxPrice));
      Strings.JoinedAssociates(Or(p.category, "*"), a, Strings.Joined(b, rest));
      Strings.JoinedAssociates(a, b, rest);
    }
  }

  /* ----- lists in use together ----- */

  // The price range admits nothing.
  predicate Empty(p: Params) {
    p.minPrice.Some? && p.maxPrice.Some? && p.maxPrice.value < p.minPrice.value
  }

  // No two lists in use share a key, unless their range is empty.
  ghost predicate KeptApart(lists: iset<Params>) {
    forall p, q | p in lists && q in lists && ListKey(p) == ListKey(q) :: p == q || Empty(p)
  }

  // A list in use, or the product or the price of an id without a colon.
  ghost predicate Known(q: Query, lists: iset<Params>) {
    if q.ForList? then q.params in lists else ':' !in q.id
  }

  ghost function PlainLists(): iset<Params> {
    iset p: Params | Plain(p)
  }

  lemma PlainListsKeptApart()
    ensures KeptApart(PlainLists())
  {
    forall p, q | p in PlainLists() && q in PlainLists() && ListKey(p) == ListKey(q) ensures p == q {
      ListKeyInjective(p, q);
    }
  }

  // Different requests have different keys, as long as the lists are plain.
  lemma KeyInjective(q: Query, r: Query)
    requires Known(q, PlainLists()) && Known(r, PlainLists()) && Key(q) == Key(r)
    ensures q == r
  {
    KeyKinds(q);
    KeyKinds(r);
    if q.ForList? { ListKeyInjective(q.params, r.params); }
  }

  // What two parameters with one key have in common.
  lemma SharedParts(p: Params, q: Params)
    requires ListKey(p) == ListKey(q)
    ensures p.page == q.page && p.limit == q.limit && p.minPrice == q.minPrice && p.maxPrice == q.maxPrice
    ensures Strings.Joined(Or(p.category, "*"), Or(p.search, "*"))
            == Strings.Joined(Or(q.category, "*"), Or(q.search, "*"))
  {
    hide Strings.Joined, Strings.Decimal, NumberOrStar, Or;
    var cp, sp, cq, sq := Or(p.category, "*"), Or(p.search, "*"), Or(q.category, "*"), Or(q.search, "*");
    var lp, hp := NumberOrStar(p.minPrice), NumberOrStar(p.maxPrice);
    var lq, hq := NumberOrStar(q.minPrice), NumberOrStar(q.maxPrice);
    var p2 := Strings.Joined(cp, Strings.Joined(sp, Strings.Joined(lp, hp)));
    var q2 := Strings.Joined(cq, Strings.Joined(sq, Strings.Joined(lq, hq)));
    SharedFront(p, q, p2, q2);
    Strings.JoinedAssociates(cp, sp, Strings.Joined(lp, hp));
    Strings.JoinedAssociates(Strings.Joined(cp, sp), lp, hp);
    Strings.JoinedAssociates(cq, sq, Strings.Joined(lq, hq));
    Strings.JoinedAssociates(Strings.Joined(cq, sq), lq, hq);
    NumberOrStarInjective(p.minPrice, q.minPrice);
    NumberOrStarInjective(p.maxPrice, q.maxPrice);
    NumberOrStarInjective(q.minPrice, p.minPrice);
    NumberOrStarInjective(q.maxPrice, p.maxPrice);
    Strings.JoinedApartLast(Strings.Joined(Strings.Joined(cp, sp), lp), hp,
                            Strings.Joined(Strings.Joined(cq, sq), lq), hq);
    Strings.JoinedApartLast(Strings.Joined(cp, sp), lp, Strings.Joined(cq, sq), lq);
  }

  lemma SharedFront(p: Params, q: Params, p2: string, q2: string)
    requires ListKey(p) == ListKey(q)
    requires ListKey(p) == LIST + Strings.Joined(Strings.Decimal(p.page), Strings.Joined(Strings.Decimal(p.limit), p2))
    requires ListKey(q) == LIST + Strings.Joined(Strings.Decimal(q.page), Strings.Joined(Strings.Decimal(q.limit), q2))
    ensures p.page == q.page && p.limit == q.limit && p2 == q2
  {
    hide ListKey, Strings.Joined, Strings.Decimal;
    var p1, q1 := Strings.Joined(Strings.Decimal(p.limit), p2), Strings.Joined(Strings.Decimal(q.limit), q2);
    var p0, q0 := Strings.Joined(Strings.Decimal(p.page), p1), Strings.Joined(Strings.Decimal(q.page), q1);
    assert p0 == ListKey(p)[|LIST|..] && q0 == ListKey(q)[|LIST|..];
    Strings.JoinedApart(Strings.Decimal(p.page), p1, Strings.Decimal(q.page), q1);
    Strings.JoinedApart(Strings.Decimal(p.limit), p2, Strings.Decimal(q.limit), q2);
    Strings.DecimalInjective(p.page, q.page);
    Strings.DecimalInjective(p.limit, q.limit);
  }

  lemma {:induction false} EmptySelectsNothing(db: seq<Product>, p: Params)
    requires Empty(p)
    ensures Select(db, p) == []
  {
    if db != [] { EmptySelectsNothing(db[..|db| - 1], p); }
  }

  // One key, one answer: so whichever request filled the entry, it serves all that find it.
  lemma KeyDetermines(db: seq<Product>, q: Query, r: Query, lists: iset<Params>)
    requires KeptApart(lists) && Known(q, lists) && Known(r, lists) && Key(q) == Key(r)
    ensures Answer(db, q) == Answer(db, r)
  {
    KeyKinds(q);
    KeyKinds(r);
    if q.ForList? && q != r {
      SharedParts(q.params, r.params);
      EmptySelectsNothing(db, q.params);
      EmptySelectsNothing(db, r.params);
    }
  }

  /* ----- and lists that are not kept apart ----- */

  // A row that one of two parameters selects and the other does not.
  ghost predicate Tells(row: Product, p: Params, q: Params) {
    Selected(row, p) != Selected(row, q)
  }

  function InRange(p: Params): nat { Or(p.minPrice, 0) }

  function RowWith(name: string, category: string, price: nat): Product {
    Product("a", "", name, "", category, price, "", true, true, None)
  }

  // A text that the search lets through.
  function Found(search: Option<string>): string {
    if search.Some? && search.value != "" then Matching("%" + search.value + "%") else ""
  }

  lemma FoundIsSelected(p: Params, category: string)
    requires !Empty(p) && (p.category.Some? && p.category.value != "" ==> category == p.category.value)
    ensures Selected(RowWith(Found(p.search), category, InRange(p)), p)
    ensures Count(':', Found(p.search)) <= Count(':', Or(p.search, ""))
  {
    if p.search.Some? && p.search.value != "" {
      var s := p.search.value;
      MatchingMatches("%" + s + "%", ':');
      CountConcat(':', "%" + s, "%");
      CountConcat(':', "%", s);
    }
  }

  // A text with too few of a character does not match a pattern that holds it.
  lemma TooFew(name: string, search: string, k: char)
    requires Plainly(k) && Count(k, name) < Count(k, search)
    ensures !Like(name, "%" + search + "%") && !Like("", "%" + search + "%")
  {
    CountConcat(k, "%" + search, "%");
    CountConcat(k, "%", search);
    LikeCounts(name, "%" + search + "%", k);
    LikeCounts("", "%" + search + "%", k);
  }

  // The same texts, but one spells the star out.
  lemma StarTells(p: Params, q: Params) returns (row: Product)
    requires p != q && !Empty(p)
    requires p.page == q.page && p.limit == q.limit && p.minPrice == q.minPrice && p.maxPrice == q.maxPrice
    requires Or(p.category, "*") == Or(q.category, "*") && Or(p.search, "*") == Or(q.search, "*")
    ensures Tells(row, p, q)
  {
    if p.category != q.category {
      var open := if p.category.None? then p else q;
      FoundIsSelected(open, "");
      row := RowWith(Found(open.search), "", InRange(p));
    } else {
      var category := Or(p.category, "");
      row := RowWith("", category, InRange(p));
      TooFew("", "*", '*');
    }
  }

  // One category runs on into the other's search: only it selects the row of that category.
  lemma LongerTells(p: Params, q: Params) returns (row: Product)
    requires !Empty(q) && |Or(p.category, "*")| < |Or(q.category, "*")|
    requires Strings.Joined(Or(p.category, "*"), Or(p.search, "*"))
             == Strings.Joined(Or(q.category, "*"), Or(q.search, "*"))
    ensures Tells(row, p, q)
  {
    var c, s, d, t := Or(p.category, "*"), Or(p.search, "*"), Or(q.category, "*"), Or(q.search, "*");
    var whole := Strings.Joined(c, s);
    var b := d[|c| + 1..];
    assert whole[|c|] == ':' == d[|c|];
    assert s == whole[|c| + 1..] == Strings.Joined(b, t);
    assert d != c && ':' in d;
    CountConcat(':', b + ":", t);
    CountConcat(':', b, ":");
    assert ':' in s;
    FoundIsSelected(q, d);
    row := RowWith(Found(q.search), d, InRange(q));
    TooFew(row.name, s, ':');
  }

  lemma OneRow(row: Product, p: Params)
    ensures FindMany([row], p).total == if Selected(row, p) then 1 else 0
  {
    assert [row][..0] == [];
    assert Select([row][..0], p) == [];
  }

  // Different lists with one key and a range that admits something have, on some
  // table, different answers.
  lemma SharedKeyDiffers(p: Params, q: Params) returns (db: seq<Product>)
    requires p != q && ListKey(p) == ListKey(q) && !Empty(p)
    ensures Answer(db, ForList(p)) != Answer(db, ForList(q))
  {
    SharedParts(p, q);
    var row;
    if |Or(p.category, "*")| < |Or(q.category, "*")| {
      row := LongerTells(p, q);
    } else if |Or(q.category, "*")| < |Or(p.category, "*")| {
      row := LongerTells(q, p);
    } else {
      SameLength(Or(p.category, "*"), Or(p.search, "*"), Or(q.category, "*"), Or(q.search, "*"));
      row := StarTells(p, q);
    }
    db := [row];
    OneRow(row, p);
    OneRow(row, q);
  }

  lemma SameLength(a: string, b: string, c: string, d: string)
    requires |a| == |c| && Strings.Joined(a, b) == Strings.Joined(c, d)
    ensures a == c && b == d
  {
    assert a == Strings.Joined(a, b)[..|a|] && b == Strings.Joined(a, b)[|a| + 1..];
    assert c == Strings.Joined(c, d)[..|c|] && d == Strings.Joined(c, d)[|c| + 1..];
  }
}
