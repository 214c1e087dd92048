/**
 The product service and the cache client as they run: the table and the Redis
 keys change in place, request by request.  `lists` and `ids` are
 the list parameters and the spellings of ids in use; while keys keep the lists
 apart and each row goes by one spelling, every caller is answered from the
 table as it is now, and the cache stays fit for the next one.
 */
module ProductRequests {
  import opened Common
  import opened Products
  import opened ProductKeys
  import opened ProductCache
  import opened ProductPages

  class ProductService {
    var db: seq<Product>
    var cache: Cache
    var now: int
    const defaultTtl: nat
    ghost const lists: iset<Params>
    ghost const ids: iset<string>

    ghost function Now(): State
      reads this
    {
      State(db, cache, now, defaultTtl)
    }

    ghost predicate Valid()
      reads this
    {
      KeptApart(lists) && IdsApart(ids) && Fresh(Now(), lists, ids)
    }

    constructor (ttl: nat, ghost lists: iset<Params>, ghost ids: iset<string>)
      ensures Now() == Start([], ttl) && this.lists == lists && this.ids == ids
      ensures KeptApart(lists) && IdsApart(ids) ==> Valid()
    {
      db, cache, now, defaultTtl := [], map[], 0, ttl;
      this.lists, this.ids := lists, ids;
    }

    method CacheGet(key: string) returns (value: Option<Json>)
      ensures value == Get(cache, key, now)
      ensures value.Some? <==> key in cache && now < cache[key].expires
      ensures value.Some? ==> value.value == cache[key].value
    {
      if key !in cache || cache[key].expires <= now {
        return None;
      }
      value := Some(cache[key].value);
    }

    method CacheSet(key: string, value: Json)
      modifies this`cache
      ensures Now() == Set(old(Now()), key, value)
      ensures cache.Keys == old(cache).Keys + {key} && cache[key] == Entry(value, now + defaultTtl)
      ensures forall other <- cache | other != key :: cache[other] == old(cache)[other]
    {
      cache := cache[key := Entry(value, now + defaultTtl)];
    }

    method InvalidateListCaches()
      modifies this`cache
      ensures cache == DropLists(old(cache))
      ensures forall key :: key in cache <==> key in old(cache) && !("product:list:" <= key)
      ensures forall key <- cache :: cache[key] == old(cache)[key]
    {
      var keys := set key | key in cache && LIST <= key;
      cache := cache - keys;
    }

    method List(params: Params) returns (result: Json)
      modifies this`cache
      ensures (Now(), Some(result)) == ReadThrough(old(Now()), ForList(params))
      ensures old(Valid()) && params in lists ==> Valid() && result == AList(FindMany(db, params))
      // The rows that meet the filters, newest first, and of them those of the page asked for.
      ensures Newest(db, params, Places(db, params))
      ensures old(Valid()) && params in lists ==> Shows(db, params, Places(db, params), result.page)
    {
      FindManyShows(db, params);
      hide FindMany, Newest, Places, Shows;
      ghost var before := Now();
      if Valid() && params in lists { ReadKeepsFresh(before, ForList(params), lists, ids); }
      var cacheKey := ListKey(params);
      var cached := CacheGet(cacheKey);
      if cached.Some? {
        return cached.value;
      }
      result := AList(FindMany(db, params));
      CacheSet(cacheKey, result);
    }

    // None stands for the NotFoundException.
    method FindProduct(id: string) returns (product: Option<Json>)
      modifies this`cache
      ensures (Now(), product) == ReadThrough(old(Now()), ForProduct(id))
      ensures old(Valid()) && id in ids && ':' !in id ==>
        && Valid()
        && var row := FindById(db, id);
           product == if row.Some? then Some(AProduct(row.value)) else None
    {
      if Valid() && id in ids && ':' !in id { ReadKeepsFresh(Now(), ForProduct(id), lists, ids); }
      var cacheKey := PRODUCT + id;
      product := CacheGet(cacheKey);
      if product.Some? {
        return;
      }
      var row := FindById(db, id);
      if row.None? {
        return None;
      }
      CacheSet(cacheKey, AProduct(row.value));
      product := Some(AProduct(row.value));
    }

    method FindPriceById(id: string) returns (price: Option<Json>)
      modifies this`cache
      ensures (Now(), price) == ReadThrough(old(Now()), ForPrice(id))
      ensures old(Valid()) && id in ids && ':' !in id ==>
        && Valid()
        && var row := FindById(db, id);
           price == if row.Some? then Some(APrice(row.value.price, row.value.currency)) else None
    {
      if Valid() && id in ids && ':' !in id { ReadKeepsFresh(Now(), ForPrice(id), lists, ids); }
      var cacheKey := PRICE + id;
      price := CacheGet(cacheKey);
      if price.Some? {
        return;
      }
      var row := FindById(db, id);
      if row.None? {
        return None;
      }
      var result := APrice(row.value.price, row.value.currency);
      CacheSet(cacheKey, result);
      price := Some(result);
    }

    // None stands for the unique constraint's rejection.
    method CreateProduct(dto: CreateDto, newId: string) returns (product: Option<Json>)
      modifies this`db, this`cache
      ensures (Now(), product) == CreateStep(old(Now()), dto, newId)
      ensures old(Valid()) ==> Valid()
      ensures product.Some? <==> forall row <- old(db) :: row.id != newId && row.sku != dto.sku
      ensures product.None? ==> db == old(db) && cache == old(cache)
      ensures product.Some? ==>
        && db == old(db) + [product.value.product]
        && (forall key :: key in cache <==> key in old(cache) && !("product:list:" <= key))
        && (forall key <- cache :: cache[key] == old(cache)[key])
      ensures product.Some? ==>
        var row := product.value.product;
        && row.id == newId && row.sku == dto.sku && row.name == dto.name && row.price == dto.price
        && row.description == (if dto.description.Some? then dto.description.value else "")
        && row.category == (if dto.category.Some? then dto.category.value else "")
        && row.currency == (if dto.currency.Some? then dto.currency.value else "USD")
        && row.reservationAware == (dto.reservationAware != Some(false))
        && row.isActive == (dto.isActive != Some(false))
        && row.imageUrl == dto.imageUrl
    {
      if Valid() { CreateIsPlain(Now(), dto, newId, lists, ids); }
      var row := NewProduct(dto, newId);
      if !CanInsert(db, row) {
        return None;
      }
      db := db + [row];
      InvalidateListCaches();
      product := Some(AProduct(row));
    }

    // Time passes; entries expire.
    method Pass(duration: nat)
      modifies this`now
      ensures now == old(now) + duration
      ensures old(Valid()) ==> Valid()
    {
      if Valid() { WaitKeepsFresh(Now(), duration, lists, ids); }
      now := now + duration;
    }

    // if (dto.field !== undefined) product.field = dto.field
    static method Assign<T>(changed: Option<T>, current: T) returns (value: T)
      ensures value == Or(changed, current)
    {
      value := current;
      if changed.Some? {
        value := changed.value;
      }
    }

    // The defined fields are the dto's, the others as they were.
    static ghost predicate Updates(was: Product, dto: UpdateDto, row: Product) {
      && row.id == was.id && row.sku == was.sku
      && (if dto.name.Some? then row.name == dto.name.value else row.name == was.name)
      && (if dto.description.Some? then row.description == dto.description.value
          else row.description == was.description)
      && (if dto.category.Some? then row.category == dto.category.value else row.category == was.category)
      && (if dto.price.Some? then row.price == dto.price.value else row.price == was.price)
      && (if dto.currency.Some? then row.currency == dto.currency.value else row.currency == was.currency)
      && (if dto.reservationAware.Some? then row.reservationAware == dto.reservationAware.value
          else row.reservationAware == was.reservationAware)
      && (if dto.isActive.Some? then row.isActive == dto.isActive.value else row.isActive == was.isActive)
      && (if dto.imageUrl.Some? then row.imageUrl == dto.imageUrl.value else row.imageUrl == was.imageUrl)
    }

    static method Assigned(found: Product, dto: UpdateDto) returns (product: Product)
      ensures product == Apply(found, dto)
      ensures Updates(found, dto, product)
    {
      var name, description, category := found.name, found.description, found.category;
      var price, currency, imageUrl := found.price, found.currency, found.imageUrl;
      var reservationAware, isActive := found.reservationAware, found.isActive;
      name := Assign(dto.name, name);
      description := Assign(dto.description, description);
      category := Assign(dto.category, category);
      price := Assign(dto.price, price);
      currency := Assign(dto.currency, currency);
      reservationAware := Assign(dto.reservationAware, reservationAware);
      isActive := Assign(dto.isActive, isActive);
      imageUrl := Assign(dto.imageUrl, imageUrl);
      product := Product(found.id, found.sku, name, description, category, price, currency,
                         reservationAware, isActive, imageUrl);
    }

    method UpdateProduct(id: string, dto: UpdateDto) returns (saved: Option<Json>)
      modifies this`db, this`cache
      ensures (Now(), saved) == UpdateStep(old(Now()), id, dto)
      // Whatever copy was cached, what is saved is the table's row with the defined fields changed.
      ensures old(Valid()) && id in ids && ':' !in id ==>
        && Valid()
        && var row := FindById(old(db), id);
           if row.None? then saved == None && db == old(db)
           else saved == Some(AProduct(Apply(row.value, dto))) && Updates(row.value, dto, saved.value.product)
      ensures |db| == |old(db)|
      ensures saved.None? ==> db == old(db)
      ensures saved.Some? ==>
        && saved.value.AProduct?
        && (forall i | 0 <= i < |db| ::
              db[i] == if old(db)[i].id == saved.value.product.id then saved.value.product else old(db)[i])
        && (forall key :: key in cache ==>
              key != "product:" + id && key != "product:price:" + id && !("product:list:" <= key))
    {
      if Valid() && id in ids && ':' !in id { UpdateKeepsFresh(Now(), id, dto, lists, ids); }
      hide Apply, Save, ReadThrough;
      var found := FindProduct(id);
      if found.None? || !found.value.AProduct? {
        return None;
      }
      var product := Assigned(found.value.product, dto);
      db := Save(db, product);
      cache := cache - {PRODUCT + id, PRICE + id};
      InvalidateListCaches();
      saved := Some(AProduct(product));
    }
  }
}
