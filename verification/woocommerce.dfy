/**
 * The WooCommerce adapter's pure parts: the order payload built for a PC
 * build, the conversions between catalogue products and WooCommerce
 * products, and the category-slug mapping.
 */
module WooCommerce {
  import opened Wrappers
  import opened Seqs
  import opened Js
  import opened Ordered
  import opened Schema

  /** The customer details sent with an order; the address fields are optional. */
  datatype CustomerInfo = CustomerInfo(
    firstName: string,
    lastName: string,
    email: string,
    phone: string,
    address1: Option<string>,
    city: Option<string>,
    postcode: Option<string>,
    country: Option<string>)

  /** One order line. */
  datatype LineItem = LineItem(productId: string, quantity: int, name: string, price: int)

  /** The build record attached to an order (serialised to JSON in the request). */
  datatype BuildConfiguration = BuildConfiguration(
    components: seq<Product>,
    totalPrice: int,
    buildDate: string,
    builderVersion: string)

  /** The order's meta-data entries. */
  datatype OrderMeta =
    | PcBuildConfiguration(configuration: BuildConfiguration)
    | OrderType(orderType: string)

  /** The body of the order-creation request. */
  datatype OrderPayload = OrderPayload(
    paymentMethod: string,
    paymentMethodTitle: string,
    setPaid: bool,
    billing: CustomerInfo,
    shipping: CustomerInfo,
    lineItems: seq<LineItem>,
    metaData: seq<OrderMeta>)

  /** `products.reduce((sum, p) => sum + p.price, 0)`. */
  function PriceSum(products: seq<Product>): int {
    SumOf(products, (p: Product) => p.price)
  }

  /** The order line for one product: quantity one at the product's price. */
  function LineItemFor(p: Product): LineItem {
    LineItem(p.id, 1, p.name, p.price)
  }

  /**
   * `createPCBuildOrder`'s payload: one line per product in the given order,
   * billing and shipping both the customer's details, not marked paid, and a
   * build record whose total is the sum of the product prices.
   */
  function CreatePCBuildOrder(products: seq<Product>, customer: CustomerInfo, now: string): (r: OrderPayload)
    ensures |r.lineItems| == |products|
    ensures forall i :: 0 <= i < |products| ==>
      && r.lineItems[i].productId == products[i].id
      && r.lineItems[i].quantity == 1
      && r.lineItems[i].name == products[i].name
      && r.lineItems[i].price == products[i].price
    ensures r.billing == customer && r.shipping == customer && !r.setPaid
    ensures r.paymentMethod == "bacs"
    ensures |r.metaData| == 2 && r.metaData[1] == OrderType("pc_build")
    ensures r.metaData[0].PcBuildConfiguration?
    ensures r.metaData[0].configuration.components == products
    ensures r.metaData[0].configuration.totalPrice == PriceSum(products)
    ensures r.metaData[0].configuration.buildDate == now
  {
    OrderPayload(
      "bacs",
      "Chuyển khoản ngân hàng",
      false,
      customer,
      customer,
      MapSeq(products, LineItemFor),
      [PcBuildConfiguration(BuildConfiguration(products, PriceSum(products), now, "1.0")),
       OrderType("pc_build")])
  }

  /** The sum of the line prices (each line has quantity one). */
  function LineTotal(items: seq<LineItem>): int {
    SumOf(items, (item: LineItem) => item.quantity * item.price)
  }

  /** The recorded build total equals what the order lines add up to. */
  lemma {:induction false} RecordedTotalMatchesLines(products: seq<Product>, customer: CustomerInfo, now: string)
    ensures var r := CreatePCBuildOrder(products, customer, now);
      LineTotal(r.lineItems) == r.metaData[0].configuration.totalPrice
    decreases |products|
  {
    if |products| > 0 {
      RecordedTotalMatchesLines(products[1..], customer, now);
      assert MapSeq(products, LineItemFor)[1..] == MapSeq(products[1..], LineItemFor);
    }
  }

  /** A WooCommerce image reference. */
  datatype Image = Image(src: string, alt: string)

  /** A WooCommerce category reference. */
  datatype WooCategory = WooCategory(id: int, name: string, slug: string)

  /** A WooCommerce meta-data entry. */
  datatype Meta = Meta(key: string, value: string)

  /** A product as WooCommerce returns it. */
  datatype WooProduct = WooProduct(
    id: int,
    name: string,
    slug: string,
    description: string,
    shortDescription: string,
    price: string,
    regularPrice: string,
    salePrice: string,
    images: seq<Image>,
    categories: seq<WooCategory>,
    metaData: seq<Meta>)

  /** The partial WooCommerce product produced from a catalogue product. */
  datatype WooProductDraft = WooProductDraft(
    name: string,
    description: Option<string>,
    regularPrice: string,
    categories: seq<WooCategory>,
    metaData: seq<Meta>)

  /** `meta_data.find(meta => meta.key === key)`: the first entry with the key. */
  function FindMeta(meta: seq<Meta>, key: string): (r: Option<Meta>)
    ensures r.Some? ==> r.value.key == key && r.value in meta
    ensures r.None? <==> forall m :: m in meta ==> m.key != key
    decreases |meta|
  {
    if |meta| == 0 then None
    else if meta[0].key == key then Some(meta[0])
    else
      assert forall m :: m in meta ==> m == meta[0] || m in meta[1..];
      FindMeta(meta[1..], key)
  }

  /** `name.split(' ')[0]`: the text before the first space. */
  function FirstWord(name: string): (w: string)
    ensures ' ' !in w
    ensures |w| <= |name| && w == name[..|w|]
    ensures |w| < |name| ==> name[|w|] == ' '
  {
    FirstPieceOfSplit(name, ' ');
    Split(name, ' ')[0]
  }

  /** The first piece of a split is the prefix before the first separator. */
  lemma {:induction false} FirstPieceOfSplit(s: string, sep: char)
    ensures sep !in Split(s, sep)[0]
    ensures |Split(s, sep)[0]| <= |s| && Split(s, sep)[0] == s[..|Split(s, sep)[0]|]
    ensures |Split(s, sep)[0]| < |s| ==> s[|Split(s, sep)[0]|] == sep
    decreases |s|
  {
    if |s| > 0 && s[0] != sep {
      FirstPieceOfSplit(s[1..], sep);
    }
  }

  /** The placeholder image used when a WooCommerce product has none. */
  const PlaceholderImage: string := "/placeholder-product.jpg"

  /** `images[0]?.src || '/placeholder-product.jpg'`. */
  function ImportedImage(images: seq<Image>): (s: string)
    ensures |images| > 0 && images[0].src != "" ==> s == images[0].src
    ensures |images| == 0 || images[0].src == "" ==> s == PlaceholderImage
  {
    if |images| > 0 && images[0].src != "" then images[0].src else PlaceholderImage
  }

  /** `parseFloat(regular_price || price || '0')`, with `parseFloat` the parameter `parsePrice`. */
  function ImportedPrice(wc: WooProduct, parsePrice: string -> int): (n: int)
    ensures wc.regularPrice != "" ==> n == parsePrice(wc.regularPrice)
    ensures wc.regularPrice == "" && wc.price != "" ==> n == parsePrice(wc.price)
    ensures wc.regularPrice == "" && wc.price == "" ==> n == parsePrice("0")
  {
    parsePrice(if wc.regularPrice != "" then wc.regularPrice else if wc.price != "" then wc.price else "0")
  }

  /** `short_description || description`. */
  function ImportedDescription(wc: WooProduct): (d: string)
    ensures wc.shortDescription != "" ==> d == wc.shortDescription
    ensures wc.shortDescription == "" ==> d == wc.description
  {
    if wc.shortDescription != "" then wc.shortDescription else wc.description
  }

  /** `wattageMeta ? parseInt(wattageMeta.value) : undefined`, then `|| null`: a non-zero parse, else null. */
  function ImportedWattage(wattageMeta: Option<Meta>): (w: Nullable<int>)
    ensures wattageMeta.Some? && ParseInt(wattageMeta.value.value).Int? && ParseInt(wattageMeta.value.value).n != 0
      ==> w == Val(ParseInt(wattageMeta.value.value).n)
    ensures w == Null || (TruthyInt(w) && wattageMeta.Some? && ParseInt(wattageMeta.value.value) == Int(w.value))
  {
    var wattage := if wattageMeta.Some? then ParseInt(wattageMeta.value.value) else NaN;
    if wattage.Int? && wattage.n != 0 then Val(wattage.n) else Null
  }

  /**
   * `convertToProduct`. The brand is the first `brand` meta value when
   * non-empty, else the first word of the name; the socket is null unless a
   * non-empty `socket` meta value exists; the wattage is null unless the
   * `wattage` meta value parses to a non-zero integer; the image falls back to
   * the placeholder; the product is always in stock. JSON parsing of the
   * `specs` meta value and `parseFloat` of the price are the parameters
   * `parseSpecs` and `parsePrice`.
   */
  function ConvertToProduct(wc: WooProduct, category: string, parseSpecs: string -> Specs, parsePrice: string -> int): (r: Product)
    ensures r.id == IntToString(wc.id) && r.name == wc.name && r.category == category
    ensures r.inStock == Val(true)
    ensures FindMeta(wc.metaData, "brand").Some? && FindMeta(wc.metaData, "brand").value.value != "" ==>
      r.brand == FindMeta(wc.metaData, "brand").value.value
    ensures FindMeta(wc.metaData, "brand").None? || FindMeta(wc.metaData, "brand").value.value == "" ==>
      r.brand == FirstWord(wc.name)
    ensures r.socket == Null || (TruthyText(r.socket) && FindMeta(wc.metaData, "socket") == Some(Meta("socket", r.socket.value)))
    ensures r.socket == Null <==> FindMeta(wc.metaData, "socket").None? || FindMeta(wc.metaData, "socket").value.value == ""
    ensures r.wattage == Null || (TruthyInt(r.wattage) &&
      FindMeta(wc.metaData, "wattage").Some? && ParseInt(FindMeta(wc.metaData, "wattage").value.value) == Int(r.wattage.value))
    ensures
      && FindMeta(wc.metaData, "wattage").Some?
      && ParseInt(FindMeta(wc.metaData, "wattage").value.value).Int?
      && ParseInt(FindMeta(wc.metaData, "wattage").value.value).n != 0
      ==> r.wattage == Val(ParseInt(FindMeta(wc.metaData, "wattage").value.value).n)
    ensures |wc.images| > 0 && wc.images[0].src != "" ==> r.image == wc.images[0].src
    ensures |wc.images| == 0 || wc.images[0].src == "" ==> r.image == PlaceholderImage
    ensures r.image != ""
    ensures wc.shortDescription != "" ==> r.description == Val(wc.shortDescription)
    ensures wc.shortDescription == "" ==> r.description == Val(wc.description)
    ensures wc.regularPrice != "" ==> r.price == parsePrice(wc.regularPrice)
    ensures wc.regularPrice == "" && wc.price != "" ==> r.price == parsePrice(wc.price)
    ensures wc.regularPrice == "" && wc.price == "" ==> r.price == parsePrice("0")
    ensures FindMeta(wc.metaData, "specs").Some? ==> r.specs == Val(parseSpecs(FindMeta(wc.metaData, "specs").value.value))
    ensures FindMeta(wc.metaData, "specs").None? ==> r.specs == Val([])
  {
    var specsMeta := FindMeta(wc.metaData, "specs");
    var brandMeta := FindMeta(wc.metaData, "brand");
    var socketMeta := FindMeta(wc.metaData, "socket");
    Product(
      IntToString(wc.id),
      wc.name,
      category,
      if brandMeta.Some? && brandMeta.value.value != "" then brandMeta.value.value else FirstWord(wc.name),
      ImportedPrice(wc, parsePrice),
      ImportedImage(wc.images),
      Val(ImportedDescription(wc)),
      Val(if specsMeta.Some? then parseSpecs(specsMeta.value.value) else []),
      if socketMeta.Some? && socketMeta.value.value != "" then Val(socketMeta.value.value) else Null,
      ImportedWattage(FindMeta(wc.metaData, "wattage")),
      Val(true))
  }

  /**
   * `convertFromProduct`. The meta data always starts with the brand and the
   * serialised specs (`stringify` stands for `JSON.stringify`); a socket and a
   * wattage entry follow only when those fields are truthy.
   */
  function ConvertFromProduct(p: Product, categoryId: int, stringify: Nullable<Specs> -> string): (r: WooProductDraft)
    ensures r.name == p.name && r.regularPrice == IntToString(p.price)
    ensures r.description == (if TruthyText(p.description) then Some(p.description.value) else None)
    ensures r.categories == [WooCategory(categoryId, "", "")]
    ensures |r.metaData| >= 2 && r.metaData[0] == Meta("brand", p.brand) && r.metaData[1] == Meta("specs", stringify(p.specs))
    ensures |r.metaData| == 2 + (if TruthyText(p.socket) then 1 else 0) + (if TruthyInt(p.wattage) then 1 else 0)
    ensures TruthyText(p.socket) ==> r.metaData[2] == Meta("socket", p.socket.value)
    ensures TruthyInt(p.wattage) ==> r.metaData[|r.metaData| - 1] == Meta("wattage", IntToString(p.wattage.value))
  {
    WooProductDraft(
      p.name,
      if TruthyText(p.description) then Some(p.description.value) else None,
      IntToString(p.price),
      [WooCategory(categoryId, "", "")],
      [Meta("brand", p.brand), Meta("specs", stringify(p.specs))]
        + (if TruthyText(p.socket) then [Meta("socket", p.socket.value)] else [])
        + (if TruthyInt(p.wattage) then [Meta("wattage", IntToString(p.wattage.value))] else []))
  }

  /** In exported meta data, the brand is found first, and socket and wattage entries exactly when truthy. */
  lemma ExportedMetaLookups(p: Product, categoryId: int, stringify: Nullable<Specs> -> string)
    ensures var meta := ConvertFromProduct(p, categoryId, stringify).metaData;
      && FindMeta(meta, "brand") == Some(Meta("brand", p.brand))
      && FindMeta(meta, "socket") == (if TruthyText(p.socket) then Some(Meta("socket", p.socket.value)) else None)
      && FindMeta(meta, "wattage") == (if TruthyInt(p.wattage) then Some(Meta("wattage", IntToString(p.wattage.value))) else None)
  {
    var meta := ConvertFromProduct(p, categoryId, stringify).metaData;
    FindFirstKey(meta, "brand", 0);
    ExportedSocketLookup(p, categoryId, stringify);
    ExportedWattageLookup(p, categoryId, stringify);
  }

  /** The socket entry of exported meta data is found exactly when the socket is truthy. */
  lemma ExportedSocketLookup(p: Product, categoryId: int, stringify: Nullable<Specs> -> string)
    ensures FindMeta(ConvertFromProduct(p, categoryId, stringify).metaData, "socket")
         == (if TruthyText(p.socket) then Some(Meta("socket", p.socket.value)) else None)
  {
    var meta := ConvertFromProduct(p, categoryId, stringify).metaData;
    if TruthyText(p.socket) {
      assert meta[0].key == "brand" && meta[1].key == "specs";
      FindFirstKey(meta, "socket", 2);
    } else {
      forall i | 0 <= i < |meta| ensures meta[i].key != "socket" {}
    }
  }

  /** The wattage entry of exported meta data is found exactly when the wattage is truthy. */
  lemma ExportedWattageLookup(p: Product, categoryId: int, stringify: Nullable<Specs> -> string)
    ensures FindMeta(ConvertFromProduct(p, categoryId, stringify).metaData, "wattage")
         == (if TruthyInt(p.wattage) then Some(Meta("wattage", IntToString(p.wattage.value))) else None)
  {
    var meta := ConvertFromProduct(p, categoryId, stringify).metaData;
    if TruthyInt(p.wattage) {
      forall j | 0 <= j < |meta| - 1 ensures meta[j].key != "wattage" {}
      FindFirstKey(meta, "wattage", |meta| - 1);
    } else {
      forall i | 0 <= i < |meta| ensures meta[i].key != "wattage" {}
    }
  }

  /**
   * Exporting a product and importing the result keeps its name, brand
   * (a non-empty one; an empty brand is replaced by the name's first word),
   * truthy socket and wattage, and maps falsy ones to null.
   */
  lemma ConvertRoundTrip(p: Product, categoryId: int, stringify: Nullable<Specs> -> string,
                         wc: WooProduct, parseSpecs: string -> Specs, parsePrice: string -> int)
    requires wc.name == p.name
    requires wc.metaData == ConvertFromProduct(p, categoryId, stringify).metaData
    ensures var q := ConvertToProduct(wc, p.category, parseSpecs, parsePrice);
      && q.name == p.name
      && q.category == p.category
      && q.brand == (if p.brand != "" then p.brand else FirstWord(p.name))
      && q.socket == (if TruthyText(p.socket) then p.socket else Null)
      && q.wattage == (if TruthyInt(p.wattage) then p.wattage else Null)
  {
    ExportedMetaLookups(p, categoryId, stringify);
    if TruthyInt(p.wattage) {
      ParseIntOfIntToString(p.wattage.value);
    }
  }

  /** The first entry with a key is found at the first index holding it. */
  lemma {:induction false} FindFirstKey(meta: seq<Meta>, key: string, k: nat)
    requires k < |meta| && meta[k].key == key
    requires forall j :: 0 <= j < k ==> meta[j].key != key
    ensures FindMeta(meta, key) == Some(meta[k])
    decreases k
  {
    if k > 0 {
      FindFirstKey(meta[1..], key, k - 1);
    }
  }

  /** `WOOCOMMERCE_CATEGORY_MAPPING`, in its declared order. */
  const WooCategoryMapping: Entries<string, string> := [
    ("cpu", "cpu"),
    ("vga", "vga"),
    ("mainboard", "mainboard"),
    ("ram", "ram"),
    ("psu", "psu"),
    ("ssd", "ssd"),
    ("hdd", "hdd"),
    ("case", "case"),
    ("fan", "fan"),
    ("cpu-cooler", "cpu-cooler"),
    ("monitor", "monitor"),
    ("mouse", "mouse"),
    ("keyboard", "keyboard"),
    ("headphones", "headphones")
  ]

  /** The mapping has fourteen distinct keys and maps each key to itself. */
  lemma CategoryMappingIsIdentity()
    ensures |WooCategoryMapping| == 14 && DistinctKeys(WooCategoryMapping)
    ensures forall i :: 0 <= i < |WooCategoryMapping| ==> WooCategoryMapping[i].1 == WooCategoryMapping[i].0
  {
  }

  /** Every category other than cooler and headset is a key of the mapping, mapped to itself. */
  lemma CategoryMappingCoversTheRest()
    ensures forall c: Category :: c != Cooler && c != Headset ==> Get(WooCategoryMapping, Key(c)) == Some(Key(c))
  {
    forall c: Category | c != Cooler && c != Headset ensures Get(WooCategoryMapping, Key(c)) == Some(Key(c)) {
      MappedAtIndex(c);
    }
  }

  /** A key of the mapping maps to itself. */
  lemma MappedKeyMapsToItself(k: string)
    requires k in Keys(WooCategoryMapping)
    ensures Get(WooCategoryMapping, k) == Some(k)
  {
    CategoryMappingIsIdentity();
    var r := Get(WooCategoryMapping, k);
    var i :| 0 <= i < |WooCategoryMapping| && WooCategoryMapping[i] == (k, r.value);
  }

  /** Where a category other than cooler and headset sits in the mapping. */
  function MappingIndex(c: Category): (i: nat)
    requires c != Cooler && c != Headset
    ensures i < |WooCategoryMapping| && WooCategoryMapping[i].0 == Key(c)
  {
    match c
    case Cpu => 0
    case Vga => 1
    case Mainboard => 2
    case Ram => 3
    case Psu => 4
    case Ssd => 5
    case Hdd => 6
    case Case => 7
    case Fan => 8
    case Monitor => 10
    case Mouse => 11
    case Keyboard => 12
  }

  /**
   * Two of the mapping's keys are not category keys: the cooler and headset
   * categories have no entry, and `cpu-cooler`/`headphones` name no category.
   */
  lemma CategoryMappingMissesTwoCategories()
    ensures Get(WooCategoryMapping, Key(Cooler)).None?
    ensures Get(WooCategoryMapping, Key(Headset)).None?
    ensures FromKey("cpu-cooler").None? && FromKey("headphones").None?
  {
    assert Key(Cooler) == "cooler" && Key(Headset) == "headset";
    NotAMappingKey("cooler");
    NotAMappingKey("headset");
  }

  /** A key that no entry of the mapping spells out finds nothing. */
  lemma NotAMappingKey(k: string)
    requires k == "cooler" || k == "headset"
    ensures Get(WooCategoryMapping, k).None?
  {
    var m := WooCategoryMapping;
    forall i | 0 <= i < |m| ensures m[i].0 != k {
    }
    assert k !in Keys(m);
  }

  /** A category other than cooler and headset is found at its index and maps to its own key. */
  lemma MappedAtIndex(c: Category)
    requires c != Cooler && c != Headset
    ensures Get(WooCategoryMapping, Key(c)) == Some(Key(c))
  {
    var i := MappingIndex(c);
    assert Keys(WooCategoryMapping)[i] == Key(c);
    MappedKeyMapsToItself(Key(c));
  }

  /** The mapping keyed by the schema's own category keys: each category maps to its key. */
  function CategoryMapping(): (m: Entries<string, string>)
    ensures |m| == |ComponentCategories| && DistinctKeys(m)
    ensures forall c: Category :: Get(m, Key(c)) == Some(Key(c))
  {
    var m := seq(|ComponentCategories|, i requires 0 <= i < |ComponentCategories| =>
      (Key(ComponentCategories[i].id), Key(ComponentCategories[i].id)));
    CategoryTable();
    assert DistinctKeys(m) by {
      forall i, j | 0 <= i < j < |m| ensures Keys(m)[i] != Keys(m)[j] {
        KeyRoundTrip(ComponentCategories[i].id);
        KeyRoundTrip(ComponentCategories[j].id);
      }
    }
    forall c: Category ensures Get(m, Key(c)) == Some(Key(c)) {
      var i := CategoryIndex(c);
      assert Keys(m)[i] == Key(c);
      var r := Get(m, Key(c));
      var j :| 0 <= j < |m| && m[j] == (Key(c), r.value);
    }
    m
  }
}
