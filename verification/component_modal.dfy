/**
 * The product picker's pure logic: folding the ticked price buckets into one
 * price interval and the query parameters it becomes, the list checkboxes,
 * the filter state with its page reset, the brand and socket choices offered,
 * and six-per-page pagination.
 */
module ComponentModal {
  import opened Wrappers
  import opened Seqs
  import opened Js
  import opened Schema
  import opened Storage
  import opened Routes

  // ---------------------------------------------------------------- price buckets

  const FiveMillion: int := 5000000
  const TenMillion: int := 10000000

  /** A price interval, both ends inclusive. */
  datatype Bounds = Bounds(min: int, max: int)

  /** The interval nothing has narrowed yet: from 0 to `Number.MAX_SAFE_INTEGER`. */
  const Unbounded: Bounds := Bounds(0, MaxSafeInteger)

  /** The bucket identifiers the picker offers. */
  predicate KnownBucket(range: string) {
    range == "under-5m" || range == "5m-10m" || range == "over-10m"
  }

  /** The interval a bucket stands for. */
  function BucketBounds(range: string): Bounds
    requires KnownBucket(range)
  {
    if range == "under-5m" then Bounds(0, FiveMillion)
    else if range == "5m-10m" then Bounds(FiveMillion, TenMillion)
    else Bounds(TenMillion, MaxSafeInteger)
  }

  function Max(a: int, b: int): int { if a < b then b else a }
  function Min(a: int, b: int): int { if a < b then a else b }

  /** One step of the fold: a known bucket tightens the interval, anything else leaves it. */
  function NarrowBy(b: Bounds, range: string): Bounds {
    if range == "under-5m" then Bounds(b.min, Min(b.max, FiveMillion))
    else if range == "5m-10m" then Bounds(Max(b.min, FiveMillion), Min(b.max, TenMillion))
    else if range == "over-10m" then Bounds(Max(b.min, TenMillion), b.max)
    else b
  }

  /** The ticked buckets folded left to right, starting from the unbounded interval. */
  function FoldPriceRanges(ranges: seq<string>): Bounds
    decreases |ranges|
  {
    if |ranges| == 0 then Unbounded
    else NarrowBy(FoldPriceRanges(ranges[..|ranges| - 1]), ranges[|ranges| - 1])
  }

  /** The largest lower end among the ticked buckets (0 when none has one). */
  function LowestAdmitted(ranges: seq<string>): int {
    if "over-10m" in ranges then TenMillion
    else if "5m-10m" in ranges then FiveMillion
    else 0
  }

  /** The smallest upper end among the ticked buckets (`MAX_SAFE_INTEGER` when none has one). */
  function HighestAdmitted(ranges: seq<string>): int {
    if "under-5m" in ranges then FiveMillion
    else if "5m-10m" in ranges then TenMillion
    else MaxSafeInteger
  }

  /** The fold computes the intersection of the ticked buckets' ends, whatever their order. */
  lemma {:induction false} FoldIsIntersection(ranges: seq<string>)
    ensures FoldPriceRanges(ranges) == Bounds(LowestAdmitted(ranges), HighestAdmitted(ranges))
    decreases |ranges|
  {
    if |ranges| > 0 {
      var prefix, last := ranges[..|ranges| - 1], ranges[|ranges| - 1];
      FoldIsIntersection(prefix);
      assert ranges == prefix + [last];
      assert forall x :: x in ranges <==> x in prefix || x == last;
    }
  }

  /** Ticking the same buckets in another order, or repeatedly, gives the same interval. */
  lemma FoldOrderIndependent(a: seq<string>, b: seq<string>)
    requires forall x :: x in a <==> x in b
    ensures FoldPriceRanges(a) == FoldPriceRanges(b)
  {
    FoldIsIntersection(a);
    FoldIsIntersection(b);
  }

  /** A price lies in the folded interval iff it lies in every ticked bucket (and in the safe range). */
  lemma FoldAdmitsExactlyTheCommonPrices(ranges: seq<string>, price: int)
    ensures var b := FoldPriceRanges(ranges);
      b.min <= price <= b.max <==>
        && 0 <= price <= MaxSafeInteger
        && forall r :: r in ranges && KnownBucket(r) ==> BucketBounds(r).min <= price <= BucketBounds(r).max
  {
    FoldIsIntersection(ranges);
  }

  /** The `minPrice`/`maxPrice` query parameters: a bound is sent only when it narrows anything. */
  function PriceParams(ranges: seq<string>): (Option<string>, Option<string>) {
    if |ranges| == 0 then (None, None)
    else
      var b := FoldPriceRanges(ranges);
      (if b.min > 0 then Some(IntToString(b.min)) else None,
       if b.max < MaxSafeInteger then Some(IntToString(b.max)) else None)
  }

  /**
   * The server reads the parameters back as the folded interval; when no
   * parameter is sent the interval was the unbounded one, which no price
   * filter would narrow either.
   */
  lemma PriceParamsReachServer(ranges: seq<string>)
    ensures var (lo, hi) := PriceParams(ranges);
      var b := FoldPriceRanges(ranges);
      var r := PriceRangeFromQuery(lo, hi);
      && (r.Some? ==> r.value == PriceRange(Int(b.min), Int(b.max)))
      && (r.None? ==> b == Unbounded)
  {
    var (lo, hi) := PriceParams(ranges);
    var b := FoldPriceRanges(ranges);
    FoldIsIntersection(ranges);
    assert 0 <= b.min && b.max <= MaxSafeInteger;
    if |ranges| > 0 {
      BoundParamReadsBack(b.min, lo, b.min > 0);
      BoundParamReadsBack(b.max, hi, b.max < MaxSafeInteger);
    }
  }

  /** A bound sent as its decimal text is read back as itself; a bound not sent is not given. */
  lemma BoundParamReadsBack(x: int, param: Option<string>, sent: bool)
    requires param == if sent then Some(IntToString(x)) else None
    ensures Given(param) <==> sent
    ensures sent ==> ParseInt(param.value) == Int(x)
  {
    if sent {
      ParseIntOfIntToString(x);
      NatToStringNonEmpty(x);
    }
  }

  /** A lone `5m-10m` tick asks the server for prices from 5,000,000 to 10,000,000. */
  lemma MiddleBucketQuery()
    ensures PriceRangeFromQuery(PriceParams(["5m-10m"]).0, PriceParams(["5m-10m"]).1)
      == Some(PriceRange(Int(FiveMillion), Int(TenMillion)))
  {
    PriceParamsReachServer(["5m-10m"]);
    FoldIsIntersection(["5m-10m"]);
  }

  // ---------------------------------------------------------------- checkboxes

  /** A checkbox change: ticking appends the value, unticking removes every occurrence of it. */
  function Toggle(list: seq<string>, v: string, checked: bool): (r: seq<string>)
    ensures checked ==> |r| == |list| + 1 && r[..|list|] == list && r[|list|] == v
    ensures !checked ==> v !in r && IsSubsequence(r, list)
    ensures !checked ==> forall x :: x != v ==> multiset(r)[x] == multiset(list)[x]
  {
    if checked then list + [v]
    else
      FilterIsSubsequence(list, (x: string) => x != v);
      FilterCounts(list, (x: string) => x != v);
      Filter(list, (x: string) => x != v)
  }

  /** Unticking after ticking is unticking alone: the appended copy goes with all the others. */
  lemma UntickAfterTick(list: seq<string>, v: string)
    ensures Toggle(Toggle(list, v, true), v, false) == Toggle(list, v, false)
  {
    FilterAppend(list, [v], (x: string) => x != v);
  }

  /** Ticking an unticked value and unticking it again restores the list. */
  lemma TickThenUntickRestores(list: seq<string>, v: string)
    requires v !in list
    ensures Toggle(Toggle(list, v, true), v, false) == list
  {
    UntickAfterTick(list, v);
    FilterKeepsAll(list, (x: string) => x != v);
  }

  // ---------------------------------------------------------------- filter state

  /** The picker's filter state and current page. */
  datatype ModalState = ModalState(
    search: string,
    brands: seq<string>,
    sockets: seq<string>,
    priceRanges: seq<string>,
    page: int)

  /** The state the picker opens with. */
  const Opened: ModalState := ModalState("", [], [], [], 1)

  /** The three checkbox lists. */
  datatype FilterList = Brands | Sockets | PriceRanges

  /**
   * A checkbox change on one list. Every change makes a new list, and a new
   * filter list sends the picker back to page 1.
   */
  function ToggleFilter(st: ModalState, which: FilterList, v: string, checked: bool): (r: ModalState)
    ensures r.page == 1 && r.search == st.search
    ensures r.brands == (if which == Brands then Toggle(st.brands, v, checked) else st.brands)
    ensures r.sockets == (if which == Sockets then Toggle(st.sockets, v, checked) else st.sockets)
    ensures r.priceRanges == (if which == PriceRanges then Toggle(st.priceRanges, v, checked) else st.priceRanges)
  {
    match which
    case Brands => st.(brands := Toggle(st.brands, v, checked), page := 1)
    case Sockets => st.(sockets := Toggle(st.sockets, v, checked), page := 1)
    case PriceRanges => st.(priceRanges := Toggle(st.priceRanges, v, checked), page := 1)
  }

  /** Typing in the search box: the page resets only when the text actually changes. */
  function SetSearch(st: ModalState, text: string): (r: ModalState)
    ensures r.search == text
    ensures r.brands == st.brands && r.sockets == st.sockets && r.priceRanges == st.priceRanges
    ensures r.page == if text == st.search then st.page else 1
  {
    if text == st.search then st else st.(search := text, page := 1)
  }

  /** `clearAllFilters`: every list and the search text emptied, back on page 1. */
  function ClearAllFilters(st: ModalState): (r: ModalState)
    ensures r.search == "" && r.brands == [] && r.sockets == [] && r.priceRanges == []
    ensures r.page == 1
  {
    ModalState("", [], [], [], 1)
  }

  /** Clearing filters after any change returns to the state the picker opened with. */
  lemma ClearingReturnsToOpened(st: ModalState)
    ensures ClearAllFilters(st) == Opened
  {
  }

  /** A list parameter: the ticked values joined with commas, omitted when nothing is ticked. */
  function ListText(xs: seq<string>): (r: Option<string>)
    ensures r.None? <==> |xs| == 0
  {
    if |xs| > 0 then Some(Join(xs, ',')) else None
  }

  /** The listing query the picker sends for a category. */
  function RequestQuery(category: Category, st: ModalState): (q: ProductQuery)
    ensures q.category == Some(Key(category))
    ensures q.brand == ListText(st.brands) && q.socket == ListText(st.sockets)
    ensures (q.minPrice, q.maxPrice) == PriceParams(st.priceRanges)
    ensures st.search != "" ==> q.search == Some(st.search)
    ensures Given(q.search) <==> st.search != ""
  {
    var (lo, hi) := PriceParams(st.priceRanges);
    ProductQuery(
      Some(Key(category)),
      ListText(st.brands),
      ListText(st.sockets),
      if st.search != "" then Some(st.search) else None,
      lo,
      hi)
  }

  /** Ticked values without commas reach the server as the same list. */
  lemma TickedListReachesServer(xs: seq<string>)
    requires |xs| > 0 && Join(xs, ',') != ""
    requires forall k :: 0 <= k < |xs| ==> ',' !in xs[k]
    ensures ListParam(ListText(xs)) == Some(xs)
  {
    SplitJoin(xs, ',');
  }

  /** The ticked values can be sent as a list parameter: each is non-empty and free of commas. */
  predicate Sendable(xs: seq<string>) {
    forall k :: 0 <= k < |xs| ==> xs[k] != "" && ',' !in xs[k]
  }

  /** The server reads a list parameter of sendable ticked values as those values, or as no filter when none is ticked. */
  lemma ListTextReachesServer(xs: seq<string>)
    requires Sendable(xs)
    ensures ListParam(ListText(xs)) == if |xs| == 0 then None else Some(xs)
  {
    if |xs| > 0 {
      assert Join(xs, ',') != "" by {
        if |xs| > 1 {
          assert |Join(xs, ',')| >= |xs[0] + [',']|;
        }
      }
      TickedListReachesServer(xs);
    }
  }

  /** A price the picker's price filter admits: every price when no bucket narrows the interval, otherwise the folded interval. */
  predicate PriceAdmitted(ranges: seq<string>, price: int) {
    var b := FoldPriceRanges(ranges);
    b == Unbounded || b.min <= price <= b.max
  }

  /** The price parameters the picker sends admit exactly the prices of the folded interval. */
  lemma PriceParamsFilter(ranges: seq<string>, p: Product)
    ensures PriceMatches(p, PriceRangeFromQuery(PriceParams(ranges).0, PriceParams(ranges).1))
        <==> PriceAdmitted(ranges, p.price)
  {
    PriceParamsReachServer(ranges);
    FoldIsIntersection(ranges);
  }

  /** The category the picker sends keeps exactly the products of that category. */
  lemma PickerCategoryFilter(c: Category, st: ModalState, p: Product)
    ensures CategoryMatches(p, RequestQuery(c, st).category) <==> p.category == Key(c)
  {
    assert Key(c) != "";
  }

  /** The brand parameter the picker sends keeps exactly the products with a ticked brand, or all when none is ticked. */
  lemma PickerBrandFilter(c: Category, st: ModalState, p: Product)
    requires Sendable(st.brands)
    ensures BrandMatches(p, QueryFilters(RequestQuery(c, st)).brand) <==> |st.brands| == 0 || p.brand in st.brands
  {
    ListTextReachesServer(st.brands);
  }

  /** The socket parameter the picker sends keeps exactly the products with a ticked socket, or all when none is ticked. */
  lemma PickerSocketFilter(c: Category, st: ModalState, p: Product)
    requires Sendable(st.sockets)
    ensures SocketMatches(p, QueryFilters(RequestQuery(c, st)).socket) <==>
      |st.sockets| == 0 || (TruthyText(p.socket) && p.socket.value in st.sockets)
  {
    ListTextReachesServer(st.sockets);
  }

  /** The price parameters the picker sends keep exactly the products with an admitted price. */
  lemma PickerPriceFilter(c: Category, st: ModalState, p: Product)
    ensures PriceMatches(p, QueryFilters(RequestQuery(c, st)).priceRange) <==> PriceAdmitted(st.priceRanges, p.price)
  {
    PriceParamsFilter(st.priceRanges, p);
  }

  /** The search parameter the picker sends keeps exactly the products whose name or brand contains the text. */
  lemma PickerSearchFilter(c: Category, st: ModalState, p: Product)
    ensures SearchMatches(p, QueryFilters(RequestQuery(c, st)).search) <==>
      st.search == "" || Contains(Lower(p.name), Lower(st.search)) || Contains(Lower(p.brand), Lower(st.search))
  {
  }

  /**
   * End to end: with sendable ticked brands and sockets, the listing the
   * server returns for the picker's query holds exactly the catalogue
   * products of the category that carry a ticked brand, a ticked socket and
   * an admitted price, and whose name or brand contains the search text.
   */
  lemma PickerListsMatchingProducts(catalog: seq<Product>, c: Category, st: ModalState, p: Product)
    requires Sendable(st.brands) && Sendable(st.sockets)
    ensures p in HandleGetProducts(catalog, RequestQuery(c, st)) <==>
      && p in catalog
      && p.category == Key(c)
      && (|st.brands| == 0 || p.brand in st.brands)
      && (|st.sockets| == 0 || (TruthyText(p.socket) && p.socket.value in st.sockets))
      && PriceAdmitted(st.priceRanges, p.price)
      && (st.search == "" || Contains(Lower(p.name), Lower(st.search)) || Contains(Lower(p.brand), Lower(st.search)))
  {
    var q := RequestQuery(c, st);
    var filters := QueryFilters(q);
    PickerCategoryFilter(c, st, p);
    PickerBrandFilter(c, st, p);
    PickerSocketFilter(c, st, p);
    PickerPriceFilter(c, st, p);
    PickerSearchFilter(c, st, p);
    assert MatchesAll(p, q.category, filters) <==>
      && CategoryMatches(p, q.category) && BrandMatches(p, filters.brand) && SocketMatches(p, filters.socket)
      && PriceMatches(p, filters.priceRange) && SearchMatches(p, filters.search);
  }

  /** A lone empty brand joins to the empty parameter, which the server ignores. */
  lemma EmptyBrandIsIgnored()
    ensures ListParam(ListText([""])) == None
  {
  }

  // ---------------------------------------------------------------- filter choices

  /** The distinct brands of the listed products, in order of first appearance. */
  function AvailableBrands(products: seq<Product>): (r: seq<string>)
    ensures Distinct(r)
    ensures forall b :: b in r <==> exists p :: p in products && p.brand == b
  {
    var brands := MapSeq(products, (p: Product) => p.brand);
    assert forall p :: p in products ==> p.brand in brands by {
      forall p | p in products ensures p.brand in brands {
        var i :| 0 <= i < |products| && products[i] == p;
        assert brands[i] == p.brand;
      }
    }
    Dedup(brands)
  }

  /** A product's socket when it has a non-empty one. */
  predicate HasSocket(p: Product) {
    TruthyText(p.socket)
  }

  /** The socket text of a product that has one. */
  function SocketText(p: Product): string {
    if p.socket.Val? then p.socket.value else ""
  }

  /** The distinct non-empty sockets of the listed products, in order of first appearance. */
  function AvailableSockets(products: seq<Product>): (r: seq<string>)
    ensures Distinct(r)
    ensures forall s :: s in r <==> exists p :: p in products && HasSocket(p) && p.socket.value == s
    ensures "" !in r
  {
    var withSocket := Filter(products, HasSocket);
    var sockets := MapSeq(withSocket, SocketText);
    assert forall p :: p in withSocket ==> SocketText(p) in sockets by {
      forall p | p in withSocket ensures SocketText(p) in sockets {
        var i :| 0 <= i < |withSocket| && withSocket[i] == p;
        assert sockets[i] == SocketText(p);
      }
    }
    assert forall s :: s in sockets ==> exists p :: p in products && HasSocket(p) && p.socket.value == s by {
      forall s | s in sockets ensures exists p :: p in products && HasSocket(p) && p.socket.value == s {
        var j :| 0 <= j < |sockets| && sockets[j] == s;
        assert withSocket[j] in withSocket;
      }
    }
    Dedup(sockets)
  }

  // ---------------------------------------------------------------- pagination

  const ItemsPerPage: nat := 6

  /** `Math.ceil(n / 6)`: the fewest six-item pages that hold `n` items. */
  function TotalPages(n: nat): (t: nat)
    ensures t * ItemsPerPage >= n
    ensures t > 0 ==> (t - 1) * ItemsPerPage < n
  {
    (n + ItemsPerPage - 1) / ItemsPerPage
  }

  /** The items page `page` shows: `slice((page - 1) * 6, page * 6)`. */
  function Page<T>(items: seq<T>, page: int): seq<T> {
    Slice(items, (page - 1) * ItemsPerPage, page * ItemsPerPage)
  }

  /** Page `p` (counting from 1) is the run of at most six items starting at `(p - 1) * 6`. */
  lemma PageContents<T>(items: seq<T>, p: int)
    requires p >= 1
    ensures var start := Min((p - 1) * ItemsPerPage, |items|);
      var end := Min(p * ItemsPerPage, |items|);
      Page(items, p) == items[start..end]
  {
  }

  /** Pages 1 to `k` one after another. */
  function PagesUpTo<T>(items: seq<T>, k: nat): seq<T>
    decreases k
  {
    if k == 0 then [] else PagesUpTo(items, k - 1) + Page(items, k)
  }

  /** Pages 1 to `k` together are the first `6k` items. */
  lemma {:induction false} PagesUpToPrefix<T>(items: seq<T>, k: nat)
    ensures PagesUpTo(items, k) == items[..Min(k * ItemsPerPage, |items|)]
    decreases k
  {
    if k > 0 {
      PagesUpToPrefix(items, k - 1);
      PageContents(items, k);
      var a, b := Min((k - 1) * ItemsPerPage, |items|), Min(k * ItemsPerPage, |items|);
      assert items[..a] + items[a..b] == items[..b];
    }
  }

  /** The pages 1 to `totalPages` partition the list: in order, they are exactly the items. */
  lemma PagesPartition<T>(items: seq<T>)
    ensures PagesUpTo(items, TotalPages(|items|)) == items
  {
    PagesUpToPrefix(items, TotalPages(|items|));
    assert items[..|items|] == items;
  }

  /** Every page up to `totalPages` holds at least one item, and no later page does. */
  lemma PagesNonEmptyExactlyUpToTotal<T>(items: seq<T>, p: int)
    requires p >= 1
    ensures |Page(items, p)| > 0 <==> p <= TotalPages(|items|)
  {
    PageContents(items, p);
  }

  /** The previous-page button. */
  function PreviousPage(page: int): (r: int)
    ensures page > 1 ==> r == page - 1
    ensures page <= 1 ==> r == 1
  {
    Max(1, page - 1)
  }

  /** The next-page button. */
  function NextPage(page: int, totalPages: nat): (r: int)
    ensures page < totalPages ==> r == page + 1
    ensures page >= totalPages ==> r == totalPages
  {
    Min(totalPages, page + 1)
  }

  /** Both buttons keep a page inside `[1, totalPages]`. */
  lemma ButtonsStayInRange(page: int, totalPages: nat)
    requires 1 <= page <= totalPages
    ensures 1 <= PreviousPage(page) <= totalPages
    ensures 1 <= NextPage(page, totalPages) <= totalPages
  {
  }
}
