/**
 * Request parameters as PHP builds them: an ordered array from keys to
 * scalars, grown by `$params[key] = value`, and the conditional builders of
 * getShipments, getCommission, getOwnOffers and getInventory.
 */
module Parameters {
  import opened Wrappers
  import opened Values

  datatype Param = Param(key: string, value: Value)

  /** A PHP array with string keys, in insertion order. */
  type Params = seq<Param>

  /** The keys of `ps`, in order. */
  function Keys(ps: Params): (ks: seq<string>)
    ensures |ks| == |ps|
    ensures forall k :: 0 <= k < |ps| ==> ks[k] == ps[k].key
  {
    if ps == [] then [] else [ps[0].key] + Keys(ps[1..])
  }

  /** `$params[key]`, or None when the key is not set. */
  function Lookup(ps: Params, key: string): Option<Value>
  {
    if ps == [] then None
    else if ps[0].key == key then Some(ps[0].value)
    else Lookup(ps[1..], key)
  }

  /** A key is found exactly when it is among the keys, and then with the value of its first entry. */
  lemma {:induction false} LookupFindsFirst(ps: Params, key: string)
    ensures Lookup(ps, key).None? <==> key !in Keys(ps)
    ensures Lookup(ps, key).Some? ==>
              exists i :: 0 <= i < |ps| && ps[i] == Param(key, Lookup(ps, key).value) &&
                          forall j :: 0 <= j < i ==> ps[j].key != key
  {
    if ps != [] {
      LookupFindsFirst(ps[1..], key);
      if ps[0].key != key {
        assert Keys(ps) == [ps[0].key] + Keys(ps[1..]);
        if Lookup(ps, key).Some? {
          var i :| 0 <= i < |ps[1..]| && ps[1..][i] == Param(key, Lookup(ps, key).value) &&
                   forall j :: 0 <= j < i ==> ps[1..][j].key != key;
          assert ps[i + 1] == Param(key, Lookup(ps, key).value);
          assert forall j :: 0 <= j < i + 1 ==> ps[j].key != key by {
            forall j | 0 <= j < i + 1
              ensures ps[j].key != key
            {
              if j > 0 {
                assert ps[j] == ps[1..][j - 1];
              }
            }
          }
        }
      } else {
        assert ps[0] == Param(key, Lookup(ps, key).value);
      }
    }
  }

  /**
   * `$params[key] = value`: a key already set keeps its place and takes the
   * new value; a new key is added at the end.
   */
  function Put(ps: Params, key: string, v: Value): (r: Params)
    ensures Lookup(r, key) == Some(v)
    ensures forall other :: other != key ==> Lookup(r, other) == Lookup(ps, other)
    ensures Keys(r) == if key in Keys(ps) then Keys(ps) else Keys(ps) + [key]
  {
    if ps == [] then [Param(key, v)]
    else if ps[0].key == key then [Param(key, v)] + ps[1..]
    else [ps[0]] + Put(ps[1..], key, v)
  }

  /** Keys of a concatenation are the keys of the parts. */
  lemma {:induction false} KeysAppend(a: Params, b: Params)
    ensures Keys(a + b) == Keys(a) + Keys(b)
    decreases |a|
  {
    if a != [] {
      assert (a + b)[1..] == a[1..] + b;
      KeysAppend(a[1..], b);
    } else {
      assert a + b == b;
    }
  }

  /** Looking a key up in a concatenation finds it in the first part that holds it. */
  lemma {:induction false} LookupAppend(a: Params, b: Params, key: string)
    ensures Lookup(a + b, key) == if key in Keys(a) then Lookup(a, key) else Lookup(b, key)
    decreases |a|
  {
    if a != [] {
      assert (a + b)[1..] == a[1..] + b;
      assert Keys(a) == [a[0].key] + Keys(a[1..]);
      LookupAppend(a[1..], b, key);
    } else {
      assert a + b == b;
    }
  }

  /** Setting a key that is not yet set appends it. */
  lemma {:induction false} PutNew(ps: Params, key: string, v: Value)
    requires key !in Keys(ps)
    ensures Put(ps, key, v) == ps + [Param(key, v)]
    decreases |ps|
  {
    if ps != [] {
      assert Keys(ps) == [ps[0].key] + Keys(ps[1..]);
      PutNew(ps[1..], key, v);
      assert ps == [ps[0]] + ps[1..];
    }
  }

  /** One optional entry: present or absent. */
  function Entry(present: bool, key: string, v: Value): Params
  {
    if present then [Param(key, v)] else []
  }

  lemma EntryKeysLookup(present: bool, key: string, v: Value, other: string)
    ensures Keys(Entry(present, key, v)) == if present then [key] else []
    ensures Lookup(Entry(present, key, v), other) == if present && other == key then Some(v) else None
  {
  }

  predicate IsStockFilter(stock: string)
  {
    stock == "sufficient" || stock == "insufficient"
  }

  predicate IsStateFilter(state: string)
  {
    state == "saleable" || state == "unsaleable"
  }

  /** `if (present) { $params[key] = v; }` for a key that is not yet set. */
  method SetWhen(params: Params, present: bool, key: string, v: Value) returns (r: Params)
    requires key !in Keys(params)
    ensures r == params + Entry(present, key, v)
    ensures Keys(r) == Keys(params) + (if present then [key] else [])
  {
    r := params;
    if present {
      PutNew(r, key, v);
      r := Put(r, key, v);
    }
    KeysAppend(params, Entry(present, key, v));
  }

  /** The parameters of getShipments. */
  function ShipmentQuery(page: int, fulfilmentMethod: string, orderId: Option<string>): Params
  {
    [Param("page", Int(page)), Param("fulfilment-method", Str(fulfilmentMethod))]
    + Entry(orderId.Some?, "order-id", Str(if orderId.Some? then orderId.value else ""))
  }

  /** getShipments builds its parameters by setting the order id on the fixed pair only when one is given. */
  method ShipmentParameters(page: int, fulfilmentMethod: string, orderId: Option<string>) returns (params: Params)
    ensures params == ShipmentQuery(page, fulfilmentMethod, orderId)
  {
    params := [Param("page", Int(page)), Param("fulfilment-method", Str(fulfilmentMethod))];
    assert Keys(params) == ["page", "fulfilment-method"];
    params := SetWhen(params, orderId.Some?, "order-id", Str(if orderId.Some? then orderId.value else ""));
  }

  /**
   * getShipments: `page` and `fulfilment-method` always, in that order, then
   * `order-id` exactly when an order id is given.
   */
  lemma ShipmentQueryContents(page: int, fulfilmentMethod: string, orderId: Option<string>)
    ensures Keys(ShipmentQuery(page, fulfilmentMethod, orderId))
         == ["page", "fulfilment-method"] + (if orderId.Some? then ["order-id"] else [])
    ensures Lookup(ShipmentQuery(page, fulfilmentMethod, orderId), "page") == Some(Int(page))
    ensures Lookup(ShipmentQuery(page, fulfilmentMethod, orderId), "fulfilment-method") == Some(Str(fulfilmentMethod))
    ensures Lookup(ShipmentQuery(page, fulfilmentMethod, orderId), "order-id")
         == if orderId.Some? then Some(Str(orderId.value)) else None
  {
    var fixed := [Param("page", Int(page)), Param("fulfilment-method", Str(fulfilmentMethod))];
    var e := Entry(orderId.Some?, "order-id", Str(if orderId.Some? then orderId.value else ""));
    assert Keys(fixed) == ["page", "fulfilment-method"];
    KeysAppend(fixed, e);
    EntryKeysLookup(orderId.Some?, "order-id", Str(if orderId.Some? then orderId.value else ""), "order-id");
    LookupAppend(fixed, e, "page");
    LookupAppend(fixed, e, "fulfilment-method");
    LookupAppend(fixed, e, "order-id");
    LookupFindsFirst(fixed, "order-id");
  }

  /** The parameters of getCommission. */
  function CommissionQuery(condition: Value, price: Value): Params
  {
    Entry(Truthy(condition), "Condition", condition) + Entry(Truthy(price), "price", price)
  }

  /** getCommission sets `Condition` and then `price`, each only when it is truthy. */
  method CommissionParameters(condition: Value, price: Value) returns (params: Params)
    ensures params == CommissionQuery(condition, price)
  {
    params := [];
    params := SetWhen(params, Truthy(condition), "Condition", condition);
    params := SetWhen(params, Truthy(price), "price", price);
  }

  /** getCommission: `Condition` and `price` appear, in that order, exactly when truthy. */
  lemma CommissionQueryContents(condition: Value, price: Value)
    ensures Keys(CommissionQuery(condition, price))
         == (if Truthy(condition) then ["Condition"] else []) + (if Truthy(price) then ["price"] else [])
    ensures Lookup(CommissionQuery(condition, price), "Condition") == if Truthy(condition) then Some(condition) else None
    ensures Lookup(CommissionQuery(condition, price), "price") == if Truthy(price) then Some(price) else None
  {
    var a := Entry(Truthy(condition), "Condition", condition);
    var b := Entry(Truthy(price), "price", price);
    KeysAppend(a, b);
    LookupAppend(a, b, "Condition");
    LookupAppend(a, b, "price");
  }

  /** The parameters of getOwnOffers. */
  function OwnOffersQuery(filter: string): Params
  {
    Entry(!EmptyString(filter), "filter", Str(filter))
  }

  /** getOwnOffers sets `filter` only when it is not empty. */
  method OwnOffersParameters(filter: string) returns (params: Params)
    ensures params == OwnOffersQuery(filter)
  {
    params := [];
    params := SetWhen(params, !EmptyString(filter), "filter", Str(filter));
  }

  /** getOwnOffers: an empty filter ("" or "0") sends no parameter at all, any other sends just `filter`. */
  lemma OwnOffersQueryContents(filter: string)
    ensures Keys(OwnOffersQuery(filter)) == if EmptyString(filter) then [] else ["filter"]
    ensures Lookup(OwnOffersQuery(filter), "filter") == if EmptyString(filter) then None else Some(Str(filter))
  {
    EntryKeysLookup(!EmptyString(filter), "filter", Str(filter), "filter");
  }

  /** The parameters of getInventory. */
  function InventoryQuery(page: int, quantity: Option<Value>, stock: Option<string>,
                          state: Option<string>, query: Option<string>): Params
  {
    [Param("page", Int(page))]
    + Entry(quantity.Some?, "quantity", if quantity.Some? then quantity.value else Int(0))
    + Entry(stock.Some? && IsStockFilter(stock.value), "stock", Str(if stock.Some? then stock.value else ""))
    + Entry(state.Some? && IsStateFilter(state.value), "state", Str(if state.Some? then state.value else ""))
    + Entry(query.Some?, "query", Str(if query.Some? then query.value else ""))
  }

  /**
   * getInventory starts from `page` and sets `quantity`, `stock`, `state` and
   * `query` in turn, each only when its condition holds.
   */
  method InventoryParameters(page: int, quantity: Option<Value>, stock: Option<string>,
                             state: Option<string>, query: Option<string>) returns (params: Params)
    ensures params == InventoryQuery(page, quantity, stock, state, query)
  {
    params := [Param("page", Int(page))];
    assert Keys(params) == ["page"];
    params := SetWhen(params, quantity.Some?, "quantity", if quantity.Some? then quantity.value else Int(0));
    params := SetWhen(params, stock.Some? && IsStockFilter(stock.value), "stock",
                      Str(if stock.Some? then stock.value else ""));
    params := SetWhen(params, state.Some? && IsStateFilter(state.value), "state",
                      Str(if state.Some? then state.value else ""));
    params := SetWhen(params, query.Some?, "query", Str(if query.Some? then query.value else ""));
  }

  /** Keys of a fixed prefix followed by four optional entries. */
  lemma {:induction false} KeysAfterEntries(p0: Params, e1: Params, e2: Params, e3: Params, e4: Params)
    ensures Keys(p0 + e1 + e2 + e3 + e4) == Keys(p0) + Keys(e1) + Keys(e2) + Keys(e3) + Keys(e4)
  {
    KeysAppend(p0 + e1 + e2 + e3, e4);
    KeysAppend(p0 + e1 + e2, e3);
    KeysAppend(p0 + e1, e2);
    KeysAppend(p0, e1);
  }

  /** Looking a key up in four optional entries after a fixed prefix. */
  lemma {:induction false} LookupAfterEntries(p0: Params, e1: Params, e2: Params, e3: Params, e4: Params, key: string)
    ensures Lookup(p0 + e1 + e2 + e3 + e4, key)
         == if key in Keys(p0) then Lookup(p0, key)
            else if key in Keys(e1) then Lookup(e1, key)
            else if key in Keys(e2) then Lookup(e2, key)
            else if key in Keys(e3) then Lookup(e3, key)
            else Lookup(e4, key)
  {
    LookupAppend(p0 + e1 + e2 + e3, e4, key);
    LookupAppend(p0 + e1 + e2, e3, key);
    LookupAppend(p0 + e1, e2, key);
    LookupAppend(p0, e1, key);
    KeysAppend(p0 + e1 + e2, e3);
    KeysAppend(p0 + e1, e2);
    KeysAppend(p0, e1);
  }

  /**
   * getInventory: `page` always comes first; `quantity` and `query` appear
   * exactly when given; `stock` only when it is "sufficient" or
   * "insufficient" and `state` only when it is "saleable" or "unsaleable";
   * no other key appears, and the order is fixed.
   */
  lemma InventoryQueryKeys(page: int, quantity: Option<Value>, stock: Option<string>,
                           state: Option<string>, query: Option<string>)
    ensures Keys(InventoryQuery(page, quantity, stock, state, query))
         == ["page"]
          + (if quantity.Some? then ["quantity"] else [])
          + (if stock.Some? && IsStockFilter(stock.value) then ["stock"] else [])
          + (if state.Some? && IsStateFilter(state.value) then ["state"] else [])
          + (if query.Some? then ["query"] else [])
  {
    var p0: Params := [Param("page", Int(page))];
    var e1 := Entry(quantity.Some?, "quantity", if quantity.Some? then quantity.value else Int(0));
    var e2 := Entry(stock.Some? && IsStockFilter(stock.value), "stock", Str(if stock.Some? then stock.value else ""));
    var e3 := Entry(state.Some? && IsStateFilter(state.value), "state", Str(if state.Some? then state.value else ""));
    var e4 := Entry(query.Some?, "query", Str(if query.Some? then query.value else ""));
    assert Keys(p0) == ["page"];
    KeysAfterEntries(p0, e1, e2, e3, e4);
    EntryKeysLookup(quantity.Some?, "quantity", if quantity.Some? then quantity.value else Int(0), "");
    EntryKeysLookup(stock.Some? && IsStockFilter(stock.value), "stock", Str(if stock.Some? then stock.value else ""), "");
    EntryKeysLookup(state.Some? && IsStateFilter(state.value), "state", Str(if state.Some? then state.value else ""), "");
    EntryKeysLookup(query.Some?, "query", Str(if query.Some? then query.value else ""), "");
  }

  /** The keys and lookups of the four optional entries of getInventory, one by one. */
  lemma InventoryEntries(quantity: Option<Value>, stock: Option<string>, state: Option<string>, query: Option<string>)
    ensures var e1 := Entry(quantity.Some?, "quantity", if quantity.Some? then quantity.value else Int(0));
            && Keys(e1) == (if quantity.Some? then ["quantity"] else [])
            && Lookup(e1, "quantity") == quantity
    ensures var e2 := Entry(stock.Some? && IsStockFilter(stock.value), "stock", Str(if stock.Some? then stock.value else ""));
            && Keys(e2) == (if stock.Some? && IsStockFilter(stock.value) then ["stock"] else [])
            && Lookup(e2, "stock") == if stock.Some? && IsStockFilter(stock.value) then Some(Str(stock.value)) else None
    ensures var e3 := Entry(state.Some? && IsStateFilter(state.value), "state", Str(if state.Some? then state.value else ""));
            && Keys(e3) == (if state.Some? && IsStateFilter(state.value) then ["state"] else [])
            && Lookup(e3, "state") == if state.Some? && IsStateFilter(state.value) then Some(Str(state.value)) else None
    ensures var e4 := Entry(query.Some?, "query", Str(if query.Some? then query.value else ""));
            && Keys(e4) == (if query.Some? then ["query"] else [])
            && Lookup(e4, "query") == if query.Some? then Some(Str(query.value)) else None
  {
    EntryKeysLookup(quantity.Some?, "quantity", if quantity.Some? then quantity.value else Int(0), "quantity");
    EntryKeysLookup(stock.Some? && IsStockFilter(stock.value), "stock", Str(if stock.Some? then stock.value else ""), "stock");
    EntryKeysLookup(state.Some? && IsStateFilter(state.value), "state", Str(if state.Some? then state.value else ""), "state");
    EntryKeysLookup(query.Some?, "query", Str(if query.Some? then query.value else ""), "query");
  }

  /** getInventory: `page` is sent as the integer given, and each optional value as given when it is sent. */
  lemma InventoryQueryValues(page: int, quantity: Option<Value>, stock: Option<string>,
                             state: Option<string>, query: Option<string>)
    ensures Lookup(InventoryQuery(page, quantity, stock, state, query), "page") == Some(Int(page))
    ensures Lookup(InventoryQuery(page, quantity, stock, state, query), "quantity") == quantity
    ensures Lookup(InventoryQuery(page, quantity, stock, state, query), "stock")
         == if stock.Some? && IsStockFilter(stock.value) then Some(Str(stock.value)) else None
    ensures Lookup(InventoryQuery(page, quantity, stock, state, query), "state")
         == if state.Some? && IsStateFilter(state.value) then Some(Str(state.value)) else None
    ensures Lookup(InventoryQuery(page, quantity, stock, state, query), "query")
         == if query.Some? then Some(Str(query.value)) else None
  {
    var p0: Params := [Param("page", Int(page))];
    var e1 := Entry(quantity.Some?, "quantity", if quantity.Some? then quantity.value else Int(0));
    var e2 := Entry(stock.Some? && IsStockFilter(stock.value), "stock", Str(if stock.Some? then stock.value else ""));
    var e3 := Entry(state.Some? && IsStateFilter(state.value), "state", Str(if state.Some? then state.value else ""));
    var e4 := Entry(query.Some?, "query", Str(if query.Some? then query.value else ""));
    assert Keys(p0) == ["page"] && Lookup(p0, "page") == Some(Int(page));
    assert "page" != "quantity" && "page" != "stock" && "page" != "state" && "page" != "query";
    assert "quantity" != "stock" && "quantity" != "state" && "quantity" != "query";
    assert "stock" != "state" && "stock" != "query" && "state" != "query";
    InventoryEntries(quantity, stock, state, query);
    LookupAfterEntries(p0, e1, e2, e3, e4, "page");
    LookupAfterEntries(p0, e1, e2, e3, e4, "quantity");
    LookupAfterEntries(p0, e1, e2, e3, e4, "stock");
    LookupAfterEntries(p0, e1, e2, e3, e4, "state");
    LookupAfterEntries(p0, e1, e2, e3, e4, "query");
  }
}
