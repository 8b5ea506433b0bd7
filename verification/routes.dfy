/**
 * The HTTP handlers' decision logic, without the transport: how the product
 * listing turns query-string parameters into store filters, the not-found and
 * invalid-body paths of the product and build endpoints, and how an order
 * request is checked and its product ids resolved before the WooCommerce
 * payload is built. Each handler returns either its JSON result or the
 * failure that selects the error status.
 */
module Routes {
  import opened Wrappers
  import opened Seqs
  import opened Js
  import opened Schema
  import opened Storage
  import opened WooCommerce

  /** The handled failures; each answers with a fixed status. */
  datatype Failure =
    | ProductNotFound
    | BuildNotFound
    | InvalidBuildData
    | NotConfigured
    | InvalidRequest
    | NoValidProducts

  /** The HTTP status of a failure: lookups answer 404, everything else 400. */
  function Status(f: Failure): (code: nat)
    ensures code == 404 <==> f.ProductNotFound? || f.BuildNotFound?
    ensures code == 400 || code == 404
  {
    match f
    case ProductNotFound => 404
    case BuildNotFound => 404
    case _ => 400
  }

  // ---------------------------------------------------------------- product listing

  /** A query-string parameter is given when it is present and not the empty string. */
  predicate Given(q: Option<string>) {
    q.Some? && q.value != ""
  }

  /** The query-string parameters of `GET /api/products` (each at most once). */
  datatype ProductQuery = ProductQuery(
    category: Option<string>,
    brand: Option<string>,
    socket: Option<string>,
    search: Option<string>,
    minPrice: Option<string>,
    maxPrice: Option<string>)

  /** A comma-separated list parameter: split at every comma when given, absent otherwise. */
  function ListParam(q: Option<string>): (r: Option<seq<string>>)
    ensures r.Some? <==> Given(q)
    ensures r.Some? ==> |r.value| >= 1 && Join(r.value, ',') == q.value
  {
    if Given(q) then
      JoinSplit(q.value, ',');
      Some(Split(q.value, ','))
    else None
  }

  /**
   * The price range of a listing query: present only when a bound is given;
   * a given bound is read with `parseInt`, a missing lower bound is 0 and a
   * missing upper bound is `Number.MAX_SAFE_INTEGER`.
   */
  function PriceRangeFromQuery(minQ: Option<string>, maxQ: Option<string>): (r: Option<PriceRange>)
    ensures r.Some? <==> Given(minQ) || Given(maxQ)
    ensures r.Some? && !Given(minQ) ==> r.value.min == Int(0)
    ensures r.Some? && !Given(maxQ) ==> r.value.max == Int(MaxSafeInteger)
    ensures Given(minQ) ==> r.Some? && r.value.min == ParseInt(minQ.value)
    ensures Given(maxQ) ==> r.Some? && r.value.max == ParseInt(maxQ.value)
  {
    if Given(minQ) || Given(maxQ) then
      Some(PriceRange(
        if Given(minQ) then ParseInt(minQ.value) else Int(0),
        if Given(maxQ) then ParseInt(maxQ.value) else Int(MaxSafeInteger)))
    else None
  }

  /** The store filters a listing query asks for. */
  function QueryFilters(q: ProductQuery): ProductFilters {
    ProductFilters(ListParam(q.brand), ListParam(q.socket), PriceRangeFromQuery(q.minPrice, q.maxPrice), q.search)
  }

  /** `GET /api/products`: the catalogue products that pass every filter the query gives. */
  function HandleGetProducts(products: seq<Product>, q: ProductQuery): (r: seq<Product>)
    ensures IsSubsequence(r, products)
    ensures forall p :: p in r <==> p in products && MatchesAll(p, q.category, QueryFilters(q))
  {
    GetProducts(products, q.category, QueryFilters(q))
  }

  /** Printed integer bounds reach the store as exactly those integers. */
  lemma PriceQueryRoundTrip(lo: int, hi: int)
    ensures PriceRangeFromQuery(Some(IntToString(lo)), Some(IntToString(hi))) == Some(PriceRange(Int(lo), Int(hi)))
  {
    ParseIntOfIntToString(lo);
    ParseIntOfIntToString(hi);
  }

  /** A query without parameters lists the whole catalogue in catalogue order. */
  lemma EmptyQueryListsCatalog(products: seq<Product>)
    ensures HandleGetProducts(products, ProductQuery(None, None, None, None, None, None)) == products
  {
    var q := ProductQuery(None, None, None, None, None, None);
    FilterKeepsAll(products, (p: Product) => MatchesAll(p, q.category, QueryFilters(q)));
  }

  /** Every product listed for a brand query carries one of the comma-separated brands. */
  lemma BrandQueryKeepsListedBrands(products: seq<Product>, q: ProductQuery)
    requires Given(q.brand)
    ensures forall p :: p in HandleGetProducts(products, q) ==> p.brand in Split(q.brand.value, ',')
  {
  }

  /** A lower bound that `parseInt` cannot read empties the listing. */
  lemma UnreadableMinPriceListsNothing(products: seq<Product>, q: ProductQuery)
    requires Given(q.minPrice) && ParseInt(q.minPrice.value).NaN?
    ensures HandleGetProducts(products, q) == []
  {
    FilterKeepsNone(products, (p: Product) => MatchesAll(p, q.category, QueryFilters(q)));
  }

  /** A product with a price inside printed bounds is listed by a query on just those bounds. */
  lemma PriceQueryIsInclusive(products: seq<Product>, p: Product, lo: int, hi: int)
    requires p in products && lo <= p.price <= hi
    ensures p in HandleGetProducts(products, ProductQuery(None, None, None, None, Some(IntToString(lo)), Some(IntToString(hi))))
  {
    PriceQueryRoundTrip(lo, hi);
    NatToStringNonEmpty(lo);
    NatToStringNonEmpty(hi);
  }

  /** A printed integer is never the empty string. */
  lemma NatToStringNonEmpty(i: int)
    ensures IntToString(i) != ""
  {
  }

  // ---------------------------------------------------------------- product and build endpoints

  /** `GET /api/products/:id`: the product, or 404 when no product has the id. */
  function HandleGetProduct(products: seq<Product>, id: string): (r: Result<Product, Failure>)
    ensures r.Ok? ==> r.value in products && r.value.id == id
    ensures r.Err? <==> forall p :: p in products ==> p.id != id
    ensures r.Err? ==> r.error == ProductNotFound
  {
    match GetProduct(products, id)
    case Some(p) => Ok(p)
    case None => Err(ProductNotFound)
  }

  /** `GET /api/builds/:id`: the build, or 404 when no build has the id. */
  function HandleGetBuild(builds: map<string, Build>, id: string): (r: Result<Build, Failure>)
    ensures r.Ok? <==> id in builds
    ensures r.Ok? ==> r.value == builds[id]
    ensures r.Err? ==> r.error == BuildNotFound
  {
    match GetBuild(builds, id)
    case Some(b) => Ok(b)
    case None => Err(BuildNotFound)
  }

  /**
   * `POST /api/builds`: a body that fails validation (`None`) answers 400 and
   * stores nothing; a valid one is stored under the fresh id.
   */
  function HandleCreateBuild(st: Store, body: Option<InsertBuild>, freshId: string, now: string): (r: Outcome<Result<Build, Failure>>)
    requires freshId !in st.builds
    ensures body.None? ==> r.value == Err(InvalidBuildData) && r.store == st
    ensures body.Some? ==> r.value.Ok?
    ensures body.Some? ==>
      && r.value.value.id == freshId
      && r.value.value.createdAt == now
      && r.value.value.name == body.value.name
      && r.value.value.components == body.value.components
      && r.value.value.totalPrice == body.value.totalPrice
    ensures r.store.products == st.products
    ensures forall id :: id != freshId ==> GetBuild(r.store.builds, id) == GetBuild(st.builds, id)
  {
    match body
    case None => Outcome(st, Err(InvalidBuildData))
    case Some(insert) =>
      var created := CreateBuild(st, insert, freshId, now);
      Outcome(created.store, Ok(created.value))
  }

  /** A created build is what fetching its id returns. */
  lemma CreatedBuildIsFetchable(st: Store, insert: InsertBuild, freshId: string, now: string)
    requires freshId !in st.builds
    ensures var r := HandleCreateBuild(st, Some(insert), freshId, now);
      HandleGetBuild(r.store.builds, freshId) == r.value
  {
  }

  /**
   * `PATCH /api/builds/:id`: the body is validated first (400, nothing
   * changes), then a missing id answers 404 and changes nothing, and
   * otherwise the stored build is the merge of the old one and the patch.
   */
  function HandlePatchBuild(st: Store, id: string, body: Option<BuildPatch>): (r: Outcome<Result<Build, Failure>>)
    ensures body.None? ==> r.value == Err(InvalidBuildData) && r.store == st
    ensures body.Some? && id !in st.builds ==> r.value == Err(BuildNotFound) && r.store == st
    ensures body.Some? && id in st.builds ==>
      && r.value.Ok?
      && r.store.builds == st.builds[id := r.value.value]
      && r.value.value.id == st.builds[id].id
      && r.value.value.createdAt == st.builds[id].createdAt
    ensures body.Some? && id in st.builds ==>
      var patch, before, after := body.value, st.builds[id], r.value.value;
      && after.name == (if patch.name.Some? then patch.name.value else before.name)
      && after.components == (if patch.components.Some? then patch.components.value else before.components)
      && after.totalPrice == (if patch.totalPrice.Some? then patch.totalPrice.value else before.totalPrice)
    ensures r.store.products == st.products
  {
    match body
    case None => Outcome(st, Err(InvalidBuildData))
    case Some(patch) =>
      var updated := UpdateBuild(st, id, patch);
      match updated.value
      case None => Outcome(updated.store, Err(BuildNotFound))
      case Some(b) => Outcome(updated.store, Ok(b))
  }

  /** After a successful patch, fetching the id returns the patched build. */
  lemma PatchedBuildIsFetchable(st: Store, id: string, patch: BuildPatch)
    ensures var r := HandlePatchBuild(st, id, Some(patch));
      r.value.Ok? ==> HandleGetBuild(r.store.builds, id) == r.value
  {
  }

  // ---------------------------------------------------------------- orders

  /** An id names a catalogue product. */
  predicate Resolvable(catalog: seq<Product>, id: string) {
    GetProduct(catalog, id).Some?
  }

  /** The ids of a request that name catalogue products, in request order. */
  function ResolvableIds(catalog: seq<Product>, ids: seq<string>): seq<string> {
    Filter(ids, (id: string) => Resolvable(catalog, id))
  }

  /** The ids of some products, in order. */
  function ProductIds(products: seq<Product>): seq<string> {
    MapSeq(products, (p: Product) => p.id)
  }

  /** The product an id resolves to, as a list of zero or one element. */
  function Resolved(catalog: seq<Product>, id: string): (r: seq<Product>)
    ensures |r| <= 1
    ensures |r| == 1 <==> Resolvable(catalog, id)
    ensures |r| == 1 ==> r[0] in catalog && r[0].id == id
  {
    match GetProduct(catalog, id)
    case None => []
    case Some(p) => [p]
  }

  /** The products of an order request: each id looked up in turn, unresolved ids skipped. */
  function ResolveIds(catalog: seq<Product>, ids: seq<string>): (r: seq<Product>)
    ensures |r| <= |ids|
    ensures forall p :: p in r ==> p in catalog && p.id in ids
    decreases |ids|
  {
    if |ids| == 0 then []
    else
      var prefix := ids[..|ids| - 1];
      var r := ResolveIds(catalog, prefix) + Resolved(catalog, ids[|ids| - 1]);
      assert forall id :: id in prefix ==> id in ids;
      r
  }

  /** Listing ids distributes over concatenation. */
  lemma ProductIdsAppend(a: seq<Product>, b: seq<Product>)
    ensures ProductIds(a + b) == ProductIds(a) + ProductIds(b)
  {
  }

  /** The resolved products are exactly the resolvable ids' products, in request order. */
  lemma {:induction false} ResolveIdsInOrder(catalog: seq<Product>, ids: seq<string>)
    ensures ProductIds(ResolveIds(catalog, ids)) == ResolvableIds(catalog, ids)
    decreases |ids|
  {
    if |ids| > 0 {
      var prefix, last := ids[..|ids| - 1], ids[|ids| - 1];
      ResolveIdsInOrder(catalog, prefix);
      ProductIdsAppend(ResolveIds(catalog, prefix), Resolved(catalog, last));
      assert ids == prefix + [last];
      FilterAppend(prefix, [last], (id: string) => Resolvable(catalog, id));
      assert [last][1..] == [];
    }
  }

  /** The order collects no product exactly when no requested id resolves. */
  lemma ResolveIdsEmpty(catalog: seq<Product>, ids: seq<string>)
    ensures ResolveIds(catalog, ids) == [] <==> forall id :: id in ids ==> !Resolvable(catalog, id)
  {
    ResolveIdsInOrder(catalog, ids);
    var kept := ResolvableIds(catalog, ids);
    assert |ResolveIds(catalog, ids)| == |kept|;
    if kept != [] {
      assert kept[0] in kept;
    }
  }

  /**
   * The product-collection loop of the order endpoint: walk the ids in order,
   * keeping each product the catalogue knows.
   */
  method CollectOrderProducts(catalog: seq<Product>, ids: seq<string>) returns (products: seq<Product>)
    ensures products == ResolveIds(catalog, ids)
    ensures ProductIds(products) == ResolvableIds(catalog, ids)
    ensures forall p :: p in products ==> p in catalog
  {
    products := [];
    var i := 0;
    while i < |ids|
      invariant 0 <= i <= |ids|
      invariant products == ResolveIds(catalog, ids[..i])
    {
      assert ids[..i + 1][..i] == ids[..i];
      assert ResolveIds(catalog, ids[..i + 1]) == products + Resolved(catalog, ids[i]);
      var found := GetProduct(catalog, ids[i]);
      if found.Some? {
        products := products + [found.value];
      }
      i := i + 1;
    }
    assert ids[..i] == ids;
    ResolveIdsInOrder(catalog, ids);
  }

  /**
   * `POST /api/woocommerce/order`: 400 when the shop is not configured, 400
   * when the component array or the customer is missing, 400 when no id
   * resolves, and otherwise the order payload for the resolved products.
   */
  function HandleCreateOrder(
    configured: bool,
    catalog: seq<Product>,
    components: Option<seq<string>>,
    customer: Option<CustomerInfo>,
    now: string): (r: Result<OrderPayload, Failure>)
    ensures !configured ==> r == Err(NotConfigured)
    ensures configured && (components.None? || customer.None?) ==> r == Err(InvalidRequest)
    ensures configured && components.Some? && customer.Some? ==>
      (r == Err(NoValidProducts) <==> forall id :: id in components.value ==> !Resolvable(catalog, id))
    ensures configured && components.Some? && customer.Some? && (exists id :: id in components.value && Resolvable(catalog, id))
      ==> r.Ok?
    ensures r.Ok? ==>
      && configured && components.Some? && customer.Some?
      && MapSeq(r.value.lineItems, (item: LineItem) => item.productId) == ResolvableIds(catalog, components.value)
      && r.value == CreatePCBuildOrder(ResolveIds(catalog, components.value), customer.value, now)
  {
    if !configured then Err(NotConfigured)
    else if components.None? || customer.None? then Err(InvalidRequest)
    else
      var products := ResolveIds(catalog, components.value);
      ResolveIdsEmpty(catalog, components.value);
      if products == [] then Err(NoValidProducts)
      else
        var order := CreatePCBuildOrder(products, customer.value, now);
        ResolveIdsInOrder(catalog, components.value);
        assert MapSeq(order.lineItems, (item: LineItem) => item.productId) == ProductIds(products);
        Ok(order)
  }

  /** An empty component array is accepted as a request but resolves to nothing. */
  lemma EmptyOrderHasNoValidProducts(catalog: seq<Product>, customer: CustomerInfo, now: string)
    ensures HandleCreateOrder(true, catalog, Some([]), Some(customer), now) == Err(NoValidProducts)
  {
  }
}
