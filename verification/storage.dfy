/**
 * The in-memory store: an insertion-ordered product catalogue answering
 * conjunctive filtered queries, and a map of builds that are created with a
 * fresh id and timestamp and later shallow-merged by id. Operations are pure:
 * each returns the updated store alongside its result.
 */
module Storage {
  import opened Wrappers
  import opened Seqs
  import opened Js
  import opened Schema

  /** The store state: catalogue in insertion order (keyed by product id), and builds by id. */
  datatype Store = Store(products: seq<Product>, builds: map<string, Build>)

  /** A store operation's updated state together with its result. */
  datatype Outcome<+T> = Outcome(store: Store, value: T)

  /** The catalogue is keyed by product id: no id occurs twice. */
  predicate ValidCatalog(products: seq<Product>) {
    forall i, j :: 0 <= i < j < |products| ==> products[i].id != products[j].id
  }

  /** An inclusive price range; a bound may be NaN when its query text did not parse. */
  datatype PriceRange = PriceRange(min: Num, max: Num)

  /** The optional filters of a product query. */
  datatype ProductFilters = ProductFilters(
    brand: Option<seq<string>>,
    socket: Option<seq<string>>,
    priceRange: Option<PriceRange>,
    search: Option<string>)

  /** The category filter: applied only when a non-empty category is given. */
  predicate CategoryMatches(p: Product, category: Option<string>) {
    category.None? || category.value == "" || p.category == category.value
  }

  /** The brand filter: a non-empty list keeps products whose brand is listed (case-sensitive). */
  predicate BrandMatches(p: Product, brand: Option<seq<string>>) {
    brand.None? || |brand.value| == 0 || p.brand in brand.value
  }

  /** The socket filter: a non-empty list keeps products with a non-empty, listed socket. */
  predicate SocketMatches(p: Product, socket: Option<seq<string>>) {
    socket.None? || |socket.value| == 0 || (TruthyText(p.socket) && p.socket.value in socket.value)
  }

  /** The price filter: inclusive at both ends; a NaN bound admits nothing. */
  predicate PriceMatches(p: Product, range: Option<PriceRange>) {
    range.None? ||
    (range.value.min.Int? && range.value.max.Int? &&
     range.value.min.n <= p.price <= range.value.max.n)
  }

  /** The search filter: the lower-cased query occurs in the lower-cased name or brand. */
  predicate SearchMatches(p: Product, search: Option<string>) {
    search.None? || search.value == "" ||
    Contains(Lower(p.name), Lower(search.value)) ||
    Contains(Lower(p.brand), Lower(search.value))
  }

  /** A product satisfies every supplied filter. */
  predicate MatchesAll(p: Product, category: Option<string>, filters: ProductFilters) {
    && CategoryMatches(p, category)
    && BrandMatches(p, filters.brand)
    && SocketMatches(p, filters.socket)
    && PriceMatches(p, filters.priceRange)
    && SearchMatches(p, filters.search)
  }

  /** The category pass of the query. */
  function CategoryStage(s: seq<Product>, category: Option<string>): seq<Product> {
    if category.Some? && category.value != "" then Filter(s, (p: Product) => p.category == category.value) else s
  }

  /** The brand pass of the query. */
  function BrandStage(s: seq<Product>, brand: Option<seq<string>>): seq<Product> {
    if brand.Some? && |brand.value| > 0 then Filter(s, (p: Product) => p.brand in brand.value) else s
  }

  /** The socket pass of the query: a product without a (non-empty) socket never passes. */
  function SocketStage(s: seq<Product>, socket: Option<seq<string>>): seq<Product> {
    if socket.Some? && |socket.value| > 0
    then Filter(s, (p: Product) => TruthyText(p.socket) && p.socket.value in socket.value)
    else s
  }

  /** The price pass of the query. */
  function PriceStage(s: seq<Product>, range: Option<PriceRange>): seq<Product> {
    if range.Some? then Filter(s, (p: Product) => PriceMatches(p, range)) else s
  }

  /** The search pass of the query: the query is lower-cased once, then compared with each name and brand. */
  function SearchStage(s: seq<Product>, search: Option<string>): seq<Product> {
    if search.Some? && search.value != "" then
      var query := Lower(search.value);
      Filter(s, (p: Product) => Contains(Lower(p.name), query) || Contains(Lower(p.brand), query))
    else s
  }

  /** The query as the store runs it: one filter pass per supplied filter, in a fixed order. */
  function FilterInStages(products: seq<Product>, category: Option<string>, filters: ProductFilters): seq<Product> {
    SearchStage(
      PriceStage(
        SocketStage(
          BrandStage(CategoryStage(products, category), filters.brand),
          filters.socket),
        filters.priceRange),
      filters.search)
  }

  /**
   * `getProducts`: the catalogue products that satisfy every supplied filter,
   * as an order-preserving subsequence of the catalogue.
   */
  function GetProducts(products: seq<Product>, category: Option<string>, filters: ProductFilters): (r: seq<Product>)
    ensures r == Filter(products, (p: Product) => MatchesAll(p, category, filters))
    ensures IsSubsequence(r, products)
    ensures forall p :: p in r <==> p in products && MatchesAll(p, category, filters)
  {
    StagesAreConjunction(products, category, filters);
    FilterIsSubsequence(products, (p: Product) => MatchesAll(p, category, filters));
    FilterInStages(products, category, filters)
  }

  /** One pass that may be skipped equals a filter by a condition that holds of everything when skipped. */
  lemma StageIsFilter(s: seq<Product>, active: bool, f: Product -> bool, g: Product -> bool)
    requires forall p :: g(p) == (!active || f(p))
    ensures (if active then Filter(s, f) else s) == Filter(s, g)
  {
    if active {
      FilterExtensional(s, f, g);
    } else {
      FilterKeepsAll(s, g);
    }
  }

  /** Each pass is a filter by the corresponding condition. */
  lemma StagesAreFilters(s: seq<Product>, category: Option<string>, filters: ProductFilters)
    ensures CategoryStage(s, category) == Filter(s, (p: Product) => CategoryMatches(p, category))
    ensures BrandStage(s, filters.brand) == Filter(s, (p: Product) => BrandMatches(p, filters.brand))
    ensures SocketStage(s, filters.socket) == Filter(s, (p: Product) => SocketMatches(p, filters.socket))
    ensures PriceStage(s, filters.priceRange) == Filter(s, (p: Product) => PriceMatches(p, filters.priceRange))
    ensures SearchStage(s, filters.search) == Filter(s, (p: Product) => SearchMatches(p, filters.search))
  {
    if category.Some? && category.value != "" {
      StageIsFilter(s, true, (p: Product) => p.category == category.value, (p: Product) => CategoryMatches(p, category));
    } else {
      StageIsFilter(s, false, (p: Product) => true, (p: Product) => CategoryMatches(p, category));
    }
    var brand := filters.brand;
    if brand.Some? && |brand.value| > 0 {
      StageIsFilter(s, true, (p: Product) => p.brand in brand.value, (p: Product) => BrandMatches(p, brand));
    } else {
      StageIsFilter(s, false, (p: Product) => true, (p: Product) => BrandMatches(p, brand));
    }
    var socket := filters.socket;
    if socket.Some? && |socket.value| > 0 {
      StageIsFilter(s, true, (p: Product) => TruthyText(p.socket) && p.socket.value in socket.value,
        (p: Product) => SocketMatches(p, socket));
    } else {
      StageIsFilter(s, false, (p: Product) => true, (p: Product) => SocketMatches(p, socket));
    }
    var range := filters.priceRange;
    StageIsFilter(s, range.Some?, (p: Product) => PriceMatches(p, range), (p: Product) => PriceMatches(p, range));
    var search := filters.search;
    if search.Some? && search.value != "" {
      var query := Lower(search.value);
      StageIsFilter(s, true, (p: Product) => Contains(Lower(p.name), query) || Contains(Lower(p.brand), query),
        (p: Product) => SearchMatches(p, search));
    } else {
      StageIsFilter(s, false, (p: Product) => true, (p: Product) => SearchMatches(p, search));
    }
  }

  /** Running the filter passes in sequence is one filter by their conjunction. */
  lemma StagesAreConjunction(products: seq<Product>, category: Option<string>, filters: ProductFilters)
    ensures FilterInStages(products, category, filters) == Filter(products, (p: Product) => MatchesAll(p, category, filters))
  {
    var c := (p: Product) => CategoryMatches(p, category);
    var b := (p: Product) => BrandMatches(p, filters.brand);
    var so := (p: Product) => SocketMatches(p, filters.socket);
    var pr := (p: Product) => PriceMatches(p, filters.priceRange);
    var se := (p: Product) => SearchMatches(p, filters.search);
    var cb := (p: Product) => c(p) && b(p);
    var cbs := (p: Product) => cb(p) && so(p);
    var cbsp := (p: Product) => cbs(p) && pr(p);
    var all := (p: Product) => MatchesAll(p, category, filters);

    var s1 := CategoryStage(products, category);
    StagesAreFilters(products, category, filters);
    assert s1 == Filter(products, c);
    var s2 := BrandStage(s1, filters.brand);
    StagesAreFilters(s1, category, filters);
    FilterFilter(products, c, b, cb);
    assert s2 == Filter(products, cb);
    var s3 := SocketStage(s2, filters.socket);
    StagesAreFilters(s2, category, filters);
    FilterFilter(products, cb, so, cbs);
    assert s3 == Filter(products, cbs);
    var s4 := PriceStage(s3, filters.priceRange);
    StagesAreFilters(s3, category, filters);
    FilterFilter(products, cbs, pr, cbsp);
    assert s4 == Filter(products, cbsp);
    StagesAreFilters(s4, category, filters);
    FilterFilter(products, cbsp, se, all);
  }

  /** `getProduct`: the catalogue entry with the given id, if any. */
  function GetProduct(products: seq<Product>, id: string): (r: Option<Product>)
    ensures r.Some? ==> r.value in products && r.value.id == id
    ensures r.None? <==> forall p :: p in products ==> p.id != id
    decreases |products|
  {
    if |products| == 0 then None
    else if products[0].id == id then Some(products[0])
    else
      assert forall p :: p in products ==> p == products[0] || p in products[1..];
      GetProduct(products[1..], id)
  }

  /** `products.set(p.id, p)`: replace the entry with `p`'s id in place, or append `p`. */
  function SetProduct(products: seq<Product>, p: Product): (r: seq<Product>)
    ensures GetProduct(products, p.id).None? ==> r == products + [p]
    ensures |r| == |products| || |r| == |products| + 1
    decreases |products|
  {
    if |products| == 0 then [p]
    else if products[0].id == p.id then [p] + products[1..]
    else [products[0]] + SetProduct(products[1..], p)
  }

  /** After `set`, the product's id reads back as the stored product. */
  lemma {:induction false} SetProductSame(products: seq<Product>, p: Product)
    ensures GetProduct(SetProduct(products, p), p.id) == Some(p)
    decreases |products|
  {
    if |products| > 0 && products[0].id != p.id {
      SetProductSame(products[1..], p);
      assert SetProduct(products, p)[1..] == SetProduct(products[1..], p);
    }
  }

  /** After `set`, every other id reads as before. */
  lemma {:induction false} SetProductOther(products: seq<Product>, p: Product, other: string)
    requires other != p.id
    ensures GetProduct(SetProduct(products, p), other) == GetProduct(products, other)
    decreases |products|
  {
    if |products| > 0 && products[0].id != p.id {
      SetProductOther(products[1..], p, other);
      assert SetProduct(products, p)[1..] == SetProduct(products[1..], p);
    }
  }

  /** The ids after `set` are the ids before, plus `p`'s id when it is new. */
  lemma {:induction false} SetProductIds(products: seq<Product>, p: Product)
    ensures forall q :: q in SetProduct(products, p) ==> q == p || q in products
    ensures forall q :: q in SetProduct(products, p) ==> q.id == p.id || exists k :: 0 <= k < |products| && products[k] == q
    decreases |products|
  {
    if |products| > 0 && products[0].id != p.id {
      SetProductIds(products[1..], p);
      forall q | q in SetProduct(products, p) && q.id != p.id
        ensures exists k :: 0 <= k < |products| && products[k] == q
      {
        if q != products[0] {
          assert q in SetProduct(products[1..], p);
          var k :| 0 <= k < |products[1..]| && products[1..][k] == q;
          assert products[k + 1] == q;
        }
      }
    }
  }

  /** `set` keeps the catalogue keyed by id. */
  lemma {:induction false} SetProductValid(products: seq<Product>, p: Product)
    requires ValidCatalog(products)
    ensures ValidCatalog(SetProduct(products, p))
    decreases |products|
  {
    if |products| > 0 {
      var tail := products[1..];
      assert ValidCatalog(tail) by {
        forall i, j | 0 <= i < j < |tail| ensures tail[i].id != tail[j].id {
          assert tail[i] == products[i + 1] && tail[j] == products[j + 1];
        }
      }
      var r := SetProduct(products, p);
      if products[0].id == p.id {
        forall i, j | 0 <= i < j < |r| ensures r[i].id != r[j].id {
          assert r[j] == products[j];
          if i > 0 {
            assert r[i] == products[i];
          }
        }
      } else {
        SetProductValid(tail, p);
        SetProductIds(tail, p);
        var rest := SetProduct(tail, p);
        assert r == [products[0]] + rest;
        forall i, j | 0 <= i < j < |r| ensures r[i].id != r[j].id {
          if i == 0 {
            assert r[j] == rest[j - 1];
            if r[j].id != p.id {
              var k :| 0 <= k < |tail| && tail[k] == r[j];
              assert products[k + 1] == r[j];
            }
          } else {
            assert r[i] == rest[i - 1] && r[j] == rest[j - 1];
          }
        }
      }
    }
  }

  /** `createProduct`: store the insert shape under a fresh id (the id generator is modelled by the caller's `freshId`). */
  function CreateProduct(st: Store, insert: InsertProduct, freshId: string): (r: Outcome<Product>)
    requires ValidCatalog(st.products)
    requires GetProduct(st.products, freshId).None?
    ensures r.value.id == freshId && Unkeyed(r.value) == insert
    ensures r.store.products == st.products + [r.value]
    ensures r.store.builds == st.builds
    ensures GetProduct(r.store.products, freshId) == Some(r.value)
    ensures forall id :: id != freshId ==> GetProduct(r.store.products, id) == GetProduct(st.products, id)
    ensures ValidCatalog(r.store.products)
  {
    var p := WithId(insert, freshId);
    SetProductSame(st.products, p);
    SetProductValid(st.products, p);
    forall id | id != freshId
      ensures GetProduct(SetProduct(st.products, p), id) == GetProduct(st.products, id)
    {
      SetProductOther(st.products, p, id);
    }
    Outcome(Store(SetProduct(st.products, p), st.builds), p)
  }

  /** `saveProduct`: store a complete product under its own id, replacing any product with that id. */
  function SaveProduct(st: Store, p: Product): (r: Outcome<Product>)
    requires ValidCatalog(st.products)
    ensures r.value == p
    ensures GetProduct(r.store.products, p.id) == Some(p)
    ensures forall id :: id != p.id ==> GetProduct(r.store.products, id) == GetProduct(st.products, id)
    ensures r.store.builds == st.builds
    ensures ValidCatalog(r.store.products)
  {
    SetProductSame(st.products, p);
    SetProductValid(st.products, p);
    forall id | id != p.id
      ensures GetProduct(SetProduct(st.products, p), id) == GetProduct(st.products, id)
    {
      SetProductOther(st.products, p, id);
    }
    Outcome(Store(SetProduct(st.products, p), st.builds), p)
  }

  /** `getBuild`: the build with the given id, if any. */
  function GetBuild(builds: map<string, Build>, id: string): (r: Option<Build>)
    ensures r.Some? <==> id in builds
    ensures r.Some? ==> r.value == builds[id]
  {
    if id in builds then Some(builds[id]) else None
  }

  /** `createBuild`: store the insert shape under a fresh id with the given creation time. */
  function CreateBuild(st: Store, insert: InsertBuild, freshId: string, now: string): (r: Outcome<Build>)
    requires freshId !in st.builds
    ensures r.value.id == freshId && r.value.createdAt == now
    ensures r.value.name == insert.name && r.value.components == insert.components
    ensures r.value.totalPrice == insert.totalPrice
    ensures GetBuild(r.store.builds, freshId) == Some(r.value)
    ensures forall id :: id != freshId ==> GetBuild(r.store.builds, id) == GetBuild(st.builds, id)
    ensures r.store.products == st.products
  {
    var b := Build(freshId, insert.name, insert.components, insert.totalPrice, now);
    Outcome(Store(st.products, st.builds[freshId := b]), b)
  }

  /** `{ ...build, ...patch }`: supplied fields override, everything else is kept. */
  function Merge(b: Build, patch: BuildPatch): Build {
    Build(
      b.id,
      if patch.name.Some? then patch.name.value else b.name,
      if patch.components.Some? then patch.components.value else b.components,
      if patch.totalPrice.Some? then patch.totalPrice.value else b.totalPrice,
      b.createdAt)
  }

  /**
   * `updateBuild`: a missing id gives not-found and changes nothing; otherwise
   * the supplied fields override the stored ones, `id` and `createdAt` are kept,
   * and the total price is never recomputed from the components.
   */
  function UpdateBuild(st: Store, id: string, patch: BuildPatch): (r: Outcome<Option<Build>>)
    ensures id !in st.builds ==> r.value.None? && r.store == st
    ensures id in st.builds ==> r.value.Some? && r.store.products == st.products
    ensures id in st.builds ==> r.store.builds == st.builds[id := r.value.value]
    ensures id in st.builds ==>
      var before, after := st.builds[id], r.value.value;
      && after.id == before.id
      && after.createdAt == before.createdAt
      && (patch.name.None? ==> after.name == before.name)
      && (patch.name.Some? ==> after.name == patch.name.value)
      && (patch.components.None? ==> after.components == before.components)
      && (patch.components.Some? ==> after.components == patch.components.value)
      && (patch.totalPrice.None? ==> after.totalPrice == before.totalPrice)
      && (patch.totalPrice.Some? ==> after.totalPrice == patch.totalPrice.value)
  {
    match GetBuild(st.builds, id)
    case None => Outcome(st, None)
    case Some(b) =>
      var updated := Merge(b, patch);
      Outcome(Store(st.products, st.builds[id := updated]), Some(updated))
  }

  /** Applying the same patch twice is the same as applying it once. */
  lemma UpdateBuildIdempotent(st: Store, id: string, patch: BuildPatch)
    ensures UpdateBuild(UpdateBuild(st, id, patch).store, id, patch) == UpdateBuild(st, id, patch)
  {
  }
}
