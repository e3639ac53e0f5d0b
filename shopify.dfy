/** The storefront client (services/shopify.js): order lookup by reference,
    location resolution, inventory-item lookup, inventory writes and the variant
    listing. Each endpoint is an oracle giving the field of the response the
    client reads (`None` when the field is absent) or the error the call throws. */
module Shopify {
  import opened Wrappers
  import opened Js
  import opened Orders

  datatype Location = Location(id: Value)

  /** A listed variant: the fields the client reads. */
  datatype Variant = Variant(id: Value, sku: Value, inventoryItemId: Value)

  /** What `listRecentVariantSKUs` keeps of a variant. */
  datatype VariantSku = VariantSku(id: Value, sku: Value, inventoryItemId: Value)

  /** The body of an inventory-level write. */
  datatype LevelPayload = LevelPayload(locationId: Number, inventoryItemId: Number, available: Number)

  /** A request sent to the storefront. */
  datatype Request =
    | OrdersByName(name: Value, status: string, limit: int)
    | OrderById(id: string)
    | ListLocations
    | VariantsBySku(sku: string, limit: int)
    | ListVariants(limit: int)
    | SetInventoryLevel(payload: LevelPayload)

  datatype Api = Api(
    ordersNamed: Value -> Result<Option<seq<Order>>, Thrown>,      // data.orders of GET /orders.json
    orderWithId: string -> Result<Option<Order>, Thrown>,          // data.order of GET /orders/{id}.json
    locations: Result<Option<seq<Location>>, Thrown>,              // data.locations of GET /locations.json
    variantsWithSku: string -> Result<Option<seq<Variant>>, Thrown>, // data.variants of GET /variants.json?sku=…
    variants: int -> Result<Option<seq<Variant>>, Thrown>,         // data.variants of GET /variants.json?limit=…
    setLevel: LevelPayload -> Result<Value, Thrown>)               // data of POST /inventory_levels/set.json

  /** The sentinel an unconfigured location id holds. */
  const LocationPlaceholder := "########"

  /** `list?.[0]`: the first element, if there is one. */
  function First<T>(list: Option<seq<T>>): Option<T> {
    if list.Some? && |list.value| > 0 then Some(list.value[0]) else None
  }

  /** A reference whose printed form starts with '#' is looked up by name;
      any other reference is looked up by id. */
  predicate IsNameRef(ref: Value) {
    StartsWith(ToStr(ref), "#")
  }

  /** `fetchOrderByRef`: the order a reference names, or `None` when the storefront
      has none. A name lookup asks for at most one order; an id lookup uses the
      digits of the reference with everything else deleted. */
  function FetchOrderByRef(api: Api, ref: Value): (st: Step<Request, Option<Order>>)
    ensures |st.requests| == 1
    ensures st.requests[0].OrdersByName? <==> IsNameRef(ref)
    ensures IsNameRef(ref) ==>
      && st.requests[0] == OrdersByName(ref, "any", 1)
      && st.result == match api.ordersNamed(ref) case Err(e) => Err(e) case Ok(os) => Ok(First(os))
    ensures !IsNameRef(ref) ==>
      && st.requests[0] == OrderById(DigitsOf(ToStr(ref)))
      && AllDigits(st.requests[0].id)
      && st.result == api.orderWithId(DigitsOf(ToStr(ref)))
  {
    if IsNameRef(ref) then
      var req := OrdersByName(ref, "any", 1);
      Step([req], match api.ordersNamed(ref) case Err(e) => Err(e) case Ok(os) => Ok(First(os)))
    else
      var id := DigitsOf(ToStr(ref));
      Step([OrderById(id)], api.orderWithId(id))
  }

  /** "#1001" goes to the name lookup. */
  lemma HashRefIsLookedUpByName(api: Api)
    ensures FetchOrderByRef(api, Str("#1001")).requests == [OrdersByName(Str("#1001"), "any", 1)]
  {
    assert IsNameRef(Str("#1001"));
  }

  /** "1001" and "abc1001" both name order 1001. */
  lemma DigitRefsAreLookedUpById(api: Api)
    ensures FetchOrderByRef(api, Str("1001")).requests == [OrderById("1001")]
    ensures FetchOrderByRef(api, Str("abc1001")).requests == [OrderById("1001")]
  {
    assert AllDigits("1001");
    assert !IsNameRef(Str("1001")) && !IsNameRef(Str("abc1001"));
    assert "abc1001"[1..] == "bc1001" && "bc1001"[1..] == "c1001" && "c1001"[1..] == "1001";
    assert DigitsOf("abc1001") == DigitsOf("1001");
  }

  /** The number 1001 prints as "1001" and so names order 1001. */
  lemma NumericRefIsLookedUpById(api: Api)
    ensures FetchOrderByRef(api, Num(1001)).requests == [OrderById("1001")]
  {
    assert NatToStr(10) == "10";
    assert NatToStr(100) == "100";
    assert NatToStr(1001) == "1001";
    assert ToStr(Num(1001)) == "1001";
    assert AllDigits("1001");
  }

  /** `getLocationId`: a configured id that is set and not the placeholder is used
      as it is, with no request; otherwise the first listed location's id, which is
      `undefined` when the storefront lists none. */
  function GetLocationId(api: Api, configured: Value): (st: Step<Request, Value>)
    ensures Truthy(configured) && configured != Str(LocationPlaceholder) ==> st == Step([], Ok(configured))
    ensures !(Truthy(configured) && configured != Str(LocationPlaceholder)) ==>
      && st.requests == [ListLocations]
      && (api.locations.Err? ==> st.result == Err(api.locations.error))
      && (api.locations.Ok? ==>
            st.result == Ok(if First(api.locations.value).Some? then First(api.locations.value).value.id else Undefined))
  {
    if Truthy(configured) && configured != Str(LocationPlaceholder) then Step([], Ok(configured))
    else
      Step([ListLocations],
           match api.locations
           case Err(e) => Err(e)
           case Ok(ls) => Ok(if First(ls).Some? then First(ls).value.id else Undefined))
  }

  /** `getInventoryItemIdBySKU`: the first matching variant's inventory item, or `null`. */
  function GetInventoryItemIdBySku(api: Api, sku: string): (st: Step<Request, Value>)
    ensures st.requests == [VariantsBySku(sku, 1)]
    ensures api.variantsWithSku(sku).Err? ==> st.result == Err(api.variantsWithSku(sku).error)
    ensures api.variantsWithSku(sku).Ok? ==>
      var first := First(api.variantsWithSku(sku).value);
      st.result == Ok(if first.Some? then first.value.inventoryItemId else Null)
  {
    Step([VariantsBySku(sku, 1)],
         match api.variantsWithSku(sku)
         case Err(e) => Err(e)
         case Ok(vs) => Ok(if First(vs).Some? then First(vs).value.inventoryItemId else Null))
  }

  /** `updateInventoryLevel`: one write carrying exactly its three arguments, each
      through `Number(...)`; the quantity is already a number. */
  function UpdateInventoryLevel(api: Api, inventoryItemId: Value, locationId: Value, available: Number): (st: Step<Request, Value>)
    ensures |st.requests| == 1 && st.requests[0].SetInventoryLevel?
    ensures var p := st.requests[0].payload;
      p.locationId == ToNumber(locationId) && p.inventoryItemId == ToNumber(inventoryItemId) && p.available == available
    ensures st.result == api.setLevel(st.requests[0].payload)
  {
    var payload := LevelPayload(ToNumber(locationId), ToNumber(inventoryItemId), available);
    Step([SetInventoryLevel(payload)], api.setLevel(payload))
  }

  /** Numeric ids reach the payload unchanged. */
  lemma PayloadKeepsNumericIds(api: Api, item: int, location: int, available: Number)
    ensures UpdateInventoryLevel(api, Num(item), Num(location), available).requests
         == [SetInventoryLevel(LevelPayload(Finite(location), Finite(item), available))]
  {
  }

  function Project(v: Variant): VariantSku {
    VariantSku(v.id, v.sku, v.inventoryItemId)
  }

  /** `listRecentVariantSKUs`: one projected record per listed variant, in order,
      keeping empty and missing SKUs; no list gives no records. */
  function ListRecentVariantSkus(api: Api, limit: int): (st: Step<Request, seq<VariantSku>>)
    ensures st.requests == [ListVariants(limit)]
    ensures api.variants(limit).Err? ==> st.result == Err(api.variants(limit).error)
    ensures api.variants(limit) == Ok(None) ==> st.result == Ok([])
    ensures api.variants(limit).Ok? && api.variants(limit).value.Some? ==>
      var vs := api.variants(limit).value.value;
      && st.result.Ok? && |st.result.value| == |vs|
      && forall i :: 0 <= i < |vs| ==>
           st.result.value[i].id == vs[i].id && st.result.value[i].sku == vs[i].sku
           && st.result.value[i].inventoryItemId == vs[i].inventoryItemId
  {
    Step([ListVariants(limit)],
         match api.variants(limit)
         case Err(e) => Err(e)
         case Ok(None) => Ok([])
         case Ok(Some(vs)) => Ok(seq(|vs|, i requires 0 <= i < |vs| => Project(vs[i]))))
  }
}
