/**
 What the pages of a product list hold, told from the table: which rows meet
 the filters, in which order they come, and which of them each page shows.
 */
module ProductPages {
  import opened Common
  import opened Products

  /* ----- what a search finds ----- */

  predicate SameText(a: string, b: string) {
    |a| == |b| && forall k | 0 <= k < |a| :: LowerChar(a[k]) == LowerChar(b[k])
  }

  // The text at place i reads s, in either case.
  predicate ReadsAt(text: string, i: nat, s: string) {
    i + |s| <= |text| && forall k | 0 <= k < |s| :: LowerChar(text[i + k]) == LowerChar(s[k])
  }

  lemma {:induction false} LikeAnything(text: string)
    ensures Like(text, "%")
  {
    assert "%"[1..] == "";
    if text != [] { LikeAnything(text[1..]); }
  }

  lemma {:induction false} LikeBegins(text: string, s: string)
    requires forall c <- s :: c !in "%_\\"
    ensures Like(text, s + "%") <==> ReadsAt(text, 0, s)
    decreases |s|
  {
    if s == [] {
      assert s + "%" == "%";
      LikeAnything(text);
    } else {
      assert s[0] in s && (s + "%")[0] == s[0] && (s + "%")[1..] == s[1..] + "%";
      if text != [] {
        LikeBegins(text[1..], s[1..]);
        ReadsFirst(text, s);
      }
    }
  }

  lemma ReadsFirst(text: string, s: string)
    requires text != [] && s != []
    ensures ReadsAt(text, 0, s) <==> LowerChar(s[0]) == LowerChar(text[0]) && ReadsAt(text[1..], 0, s[1..])
  {
    hide LowerChar;
    if ReadsAt(text, 0, s) {
      forall k | 0 <= k < |s| - 1 ensures LowerChar(text[1..][0 + k]) == LowerChar(s[1..][k]) {
        assert LowerChar(text[0 + (k + 1)]) == LowerChar(s[k + 1]);
      }
      assert LowerChar(text[0 + 0]) == LowerChar(s[0]);
    }
    if LowerChar(s[0]) == LowerChar(text[0]) && ReadsAt(text[1..], 0, s[1..]) {
      forall k | 0 <= k < |s| ensures LowerChar(text[0 + k]) == LowerChar(s[k]) {
        if k > 0 { assert LowerChar(text[1..][0 + (k - 1)]) == LowerChar(s[1..][k - 1]); }
      }
    }
  }

  lemma {:induction false} LikeAfter(text: string, pattern: string)
    ensures Like(text, "%" + pattern) <==> exists i | 0 <= i <= |text| :: Like(text[i..], pattern)
    decreases |text|
  {
    assert ("%" + pattern)[1..] == pattern;
    assert text[0..] == text;
    if text != [] {
      LikeAfter(text[1..], pattern);
      assert forall i | 0 <= i < |text| :: text[1..][i..] == text[i + 1..];
      assert forall i | 0 < i <= |text| :: text[i..] == text[1..][i - 1..];
    }
  }

  lemma BeginsAt(text: string, i: nat, s: string)
    requires i <= |text| && forall c <- s :: c !in "%_\\"
    ensures Like(text[i..], s + "%") <==> ReadsAt(text, i, s)
  {
    hide Like, LowerChar;
    LikeBegins(text[i..], s);
    assert forall k | 0 <= k < |text| - i :: text[i..][k] == text[i + k];
  }

  // A search without wildcards finds the texts that contain it, in either case.
  lemma SearchContains(text: string, s: string)
    requires forall c <- s :: c !in "%_\\"
    ensures Like(text, "%" + s + "%") <==> exists i: nat :: ReadsAt(text, i, s)
  {
    hide Like, LowerChar;
    assert "%" + s + "%" == "%" + (s + "%");
    LikeAfter(text, s + "%");
    forall i: nat | i <= |text|
      ensures Like(text[i..], s + "%") <==> ReadsAt(text, i, s)
    {
      BeginsAt(text, i, s);
    }
  }

  /* ----- what a page shows ----- */

  // The places in the table of the rows asked for.
  ghost function Places(db: seq<Product>, params: Params): seq<nat> {
    if db == [] then []
    else (if Selected(db[|db| - 1], params) then [|db| - 1] else []) + Places(db[..|db| - 1], params)
  }

  // The row meets the filters; an absent one and an empty text let it through.
  ghost predicate Meets(row: Product, params: Params) {
    && (params.category in {None, Some(""), Some(row.category)})
    && (params.search in {None, Some("")}
        || Like(row.name, "%" + params.search.value + "%") || Like(row.description, "%" + params.search.value + "%"))
    && (params.minPrice == None || params.minPrice.value <= row.price)
    && (params.maxPrice == None || row.price <= params.maxPrice.value)
  }

  // Each row that meets the filters once, newest first.
  ghost predicate Newest(db: seq<Product>, params: Params, places: seq<nat>) {
    && (forall j, k | 0 <= j < k < |places| :: places[j] > places[k])
    && (forall j | 0 <= j < |places| :: places[j] < |db|)
    && (forall i | 0 <= i < |db| :: i in places <==> Meets(db[i], params))
  }

  // The page is its part of them, and says how many there are in all.
  ghost predicate Shows(db: seq<Product>, params: Params, places: seq<nat>, page: Page)
    requires forall j | 0 <= j < |places| :: places[j] < |db|
  {
    var skip := (params.page - 1) * params.limit;
    && page.page == params.page && page.limit == params.limit && page.total == |places|
    && |page.data| == (if |places| <= skip then 0
                       else if |places| - skip < params.limit then |places| - skip
                       else params.limit)
    && forall j | 0 <= j < |page.data| :: page.data[j] == db[places[skip + j]]
  }

  // What one more row adds.
  lemma NewestStep(db: seq<Product>, params: Params, older: seq<nat>, places: seq<nat>)
    requires db != [] && Newest(db[..|db| - 1], params, older)
    requires places == (if Meets(db[|db| - 1], params) then [|db| - 1] else []) + older
    ensures Newest(db, params, places)
  {
    hide Meets;
    var last := |db| - 1;
    assert forall j | 0 <= j < |older| :: older[j] < last;
    forall i | 0 <= i < |db| ensures i in places <==> Meets(db[i], params) {
      if i == last {
        assert i !in older;
        if Meets(db[last], params) { assert places[0] == last; }
      } else {
        assert i in places <==> i in older;
        assert db[..last][i] == db[i];
      }
    }
  }

  lemma {:induction false} PlacesAreNewest(db: seq<Product>, params: Params)
    ensures Newest(db, params, Places(db, params))
  {
    if db != [] {
      PlacesAreNewest(db[..|db| - 1], params);
      assert Selected(db[|db| - 1], params) <==> Meets(db[|db| - 1], params);
      hide Newest, Selected, Meets;
      NewestStep(db, params, Places(db[..|db| - 1], params), Places(db, params));
    }
  }

  lemma {:induction false} SelectIsAtPlaces(db: seq<Product>, params: Params)
    ensures |Select(db, params)| == |Places(db, params)|
    ensures forall j | 0 <= j < |Places(db, params)| ::
              && Places(db, params)[j] < |db|
              && Select(db, params)[j] == db[Places(db, params)[j]]
  {
    hide Selected;
    if db != [] {
      var front := db[..|db| - 1];
      SelectIsAtPlaces(front, params);
      var head := if Selected(db[|db| - 1], params) then 1 else 0;
      forall j | head <= j < |Places(db, params)|
        ensures Places(db, params)[j] < |db| && Select(db, params)[j] == db[Places(db, params)[j]]
      {
        assert Places(db, params)[j] == Places(front, params)[j - head];
        assert Select(db, params)[j] == Select(front, params)[j - head];
      }
    }
  }

  // What a list request answers.
  lemma FindManyShows(db: seq<Product>, params: Params)
    ensures Newest(db, params, Places(db, params))
    ensures Shows(db, params, Places(db, params), FindMany(db, params))
  {
    PlacesAreNewest(db, params);
    hide Meets, Selected, Select, Places;
    SelectIsAtPlaces(db, params);
    assert 0 <= (params.page - 1) * params.limit;
  }

  /* ----- all pages together ----- */

  // The data of pages 1 to n, one after another.
  function Pages(db: seq<Product>, params: Params, n: nat): seq<Product> {
    if n == 0 then [] else Pages(db, params, n - 1) + FindMany(db, params.(page := n)).data
  }

  lemma {:induction false} PlacesOfAnyPage(db: seq<Product>, params: Params, n: pos)
    ensures Places(db, params.(page := n)) == Places(db, params)
  {
    if db != [] { PlacesOfAnyPage(db[..|db| - 1], params, n); }
  }

  // The rows at the first n of the places.
  ghost predicate Leads(db: seq<Product>, places: seq<nat>, n: nat, rows: seq<Product>)
    requires forall j | 0 <= j < |places| :: places[j] < |db|
  {
    && |rows| == (if |places| <= n then |places| else n)
    && forall j | 0 <= j < |rows| :: rows[j] == db[places[j]]
  }

  lemma LeadsFurther(db: seq<Product>, places: seq<nat>, skip: nat, rows: seq<Product>, params: Params, page: Page)
    requires forall j | 0 <= j < |places| :: places[j] < |db|
    requires Leads(db, places, skip, rows) && Shows(db, params, places, page)
    requires skip == (params.page - 1) * params.limit
    ensures Leads(db, places, skip + params.limit, rows + page.data)
  {
    if page.data != [] { assert |rows| == skip; }
    forall j | |rows| <= j < |rows + page.data| ensures (rows + page.data)[j] == db[places[j]] {
      assert (rows + page.data)[j] == page.data[j - |rows|];
      assert skip + (j - |rows|) == j;
    }
  }

  lemma InTable(db: seq<Product>, params: Params)
    ensures forall j | 0 <= j < |Places(db, params)| :: Places(db, params)[j] < |db|
  {
    PlacesAreNewest(db, params);
  }

  // What one more page adds.
  lemma NextPage(db: seq<Product>, params: Params, n: pos)
    requires forall j | 0 <= j < |Places(db, params)| :: Places(db, params)[j] < |db|
    requires Leads(db, Places(db, params), (n - 1) * params.limit, Pages(db, params, n - 1))
    ensures Leads(db, Places(db, params), n * params.limit, Pages(db, params, n))
  {
    var asked := params.(page := n);
    PlacesOfAnyPage(db, params, n);
    FindManyShows(db, asked);
    hide Newest, FindMany, Leads, Shows, Places;
    var skip := (n - 1) * params.limit;
    assert n * params.limit == skip + params.limit && 0 <= skip;
    LeadsFurther(db, Places(db, params), skip, Pages(db, params, n - 1), asked, FindMany(db, asked));
  }

  // Pages 1 to n hold the n * limit newest of the rows that meet the filters,
  // each once: all of them as soon as n * limit reaches the total.
  lemma {:induction false} PagesHoldEachOnce(db: seq<Product>, params: Params, n: nat)
    ensures Newest(db, params, Places(db, params))
    ensures Leads(db, Places(db, params), n * params.limit, Pages(db, params, n))
  {
    PlacesAreNewest(db, params);
    if n > 0 {
      PagesHoldEachOnce(db, params, n - 1);
      InTable(db, params);
      hide Newest, Leads, Places, Pages;
      NextPage(db, params, n);
    }
  }
}
