/**
 * The shared record shapes: the fourteen component categories and their
 * display table, products, builds, and the insert/patch shapes that leave out
 * the fields the store assigns itself.
 */
module Schema {
  import opened Wrappers
  import opened Seqs
  import opened Js
  import opened Ordered

  /** `ComponentCategory`: the fourteen kinds of PC component. */
  datatype Category =
    | Cpu | Vga | Mainboard | Psu | Ram | Ssd | Hdd
    | Case | Cooler | Monitor | Fan | Mouse | Keyboard | Headset

  /** The category's string key, as used in product records and id maps. */
  function Key(c: Category): string {
    match c
    case Cpu => "cpu"
    case Vga => "vga"
    case Mainboard => "mainboard"
    case Psu => "psu"
    case Ram => "ram"
    case Ssd => "ssd"
    case Hdd => "hdd"
    case Case => "case"
    case Cooler => "cooler"
    case Monitor => "monitor"
    case Fan => "fan"
    case Mouse => "mouse"
    case Keyboard => "keyboard"
    case Headset => "headset"
  }

  /** The category whose key is `s`, if there is one. */
  function FromKey(s: string): (r: Option<Category>)
    ensures r.Some? ==> Key(r.value) == s
    ensures r.None? ==> forall c :: Key(c) != s
  {
    if s == "cpu" then Some(Cpu)
    else if s == "vga" then Some(Vga)
    else if s == "mainboard" then Some(Mainboard)
    else if s == "psu" then Some(Psu)
    else if s == "ram" then Some(Ram)
    else if s == "ssd" then Some(Ssd)
    else if s == "hdd" then Some(Hdd)
    else if s == "case" then Some(Case)
    else if s == "cooler" then Some(Cooler)
    else if s == "monitor" then Some(Monitor)
    else if s == "fan" then Some(Fan)
    else if s == "mouse" then Some(Mouse)
    else if s == "keyboard" then Some(Keyboard)
    else if s == "headset" then Some(Headset)
    else None
  }

  /** One row of the category table: the category, its picker title and its display position. */
  datatype CategoryInfo = CategoryInfo(id: Category, name: string, order: int)

  /** `COMPONENT_CATEGORIES`, in display order. */
  const ComponentCategories: seq<CategoryInfo> := [
    CategoryInfo(Cpu, "Chọn CPU", 1),
    CategoryInfo(Vga, "Chọn VGA - Card màn hình", 2),
    CategoryInfo(Mainboard, "Chọn Mainboard", 3),
    CategoryInfo(Psu, "Chọn PSU - Nguồn", 4),
    CategoryInfo(Cooler, "Chọn Tản nhiệt CPU", 5),
    CategoryInfo(Ram, "Chọn Ram", 6),
    CategoryInfo(Case, "Chọn Case - Thùng máy", 7),
    CategoryInfo(Ssd, "Chọn SSD", 8),
    CategoryInfo(Hdd, "Chọn HDD", 9),
    CategoryInfo(Monitor, "Chọn LCD - Màn hình", 10),
    CategoryInfo(Fan, "Chọn Fan Case", 11),
    CategoryInfo(Mouse, "Chọn Chuột", 12),
    CategoryInfo(Keyboard, "Chọn Bàn phím", 13),
    CategoryInfo(Headset, "Chọn Tai nghe", 14)
  ]

  /** The number of categories, compared against by the build summary. */
  const CategoryTotal: nat := 14

  /** The position of a category in the table: it is listed there exactly once, and its `order` is its position plus one. */
  function CategoryIndex(c: Category): (i: nat)
    ensures i < |ComponentCategories|
    ensures ComponentCategories[i].id == c
    ensures ComponentCategories[i].order == i + 1
    ensures forall j :: 0 <= j < |ComponentCategories| && ComponentCategories[j].id == c ==> j == i
  {
    match c
    case Cpu => 0
    case Vga => 1
    case Mainboard => 2
    case Psu => 3
    case Cooler => 4
    case Ram => 5
    case Case => 6
    case Ssd => 7
    case Hdd => 8
    case Monitor => 9
    case Fan => 10
    case Mouse => 11
    case Keyboard => 12
    case Headset => 13
  }

  /** The table has fourteen rows, no category twice, ordered 1..14 consecutively. */
  lemma CategoryTable()
    ensures |ComponentCategories| == CategoryTotal
    ensures forall i :: 0 <= i < |ComponentCategories| ==> ComponentCategories[i].order == i + 1
    ensures forall i, j :: 0 <= i < j < |ComponentCategories| ==> ComponentCategories[i].id != ComponentCategories[j].id
  {
    forall i, j | 0 <= i < j < |ComponentCategories|
      ensures ComponentCategories[i].id != ComponentCategories[j].id
    {
      var k := CategoryIndex(ComponentCategories[i].id);
    }
  }

  /** Keys identify categories: reading a category's key back gives the category. */
  lemma KeyRoundTrip(c: Category)
    ensures FromKey(Key(c)) == Some(c)
  {
  }

  /** A product's free-form specification record (`specs`), keys in insertion order. */
  type Specs = Entries<string, Json>

  /**
   * A catalogue product. `price` is a non-null integer; `description`,
   * `specs`, `socket`, `wattage` and `inStock` may be missing or null, and
   * the model keeps the two apart because the compatibility check does.
   */
  datatype Product = Product(
    id: string,
    name: string,
    category: string,
    brand: string,
    price: int,
    image: string,
    description: Nullable<string>,
    specs: Nullable<Specs>,
    socket: Nullable<string>,
    wattage: Nullable<int>,
    inStock: Nullable<bool>)

  /** `InsertProduct`: a product without its `id`, which only the store assigns. */
  datatype InsertProduct = InsertProduct(
    name: string,
    category: string,
    brand: string,
    price: int,
    image: string,
    description: Nullable<string>,
    specs: Nullable<Specs>,
    socket: Nullable<string>,
    wattage: Nullable<int>,
    inStock: Nullable<bool>)

  /** `{ ...insertProduct, id }`: the insert shape completed with an id. */
  function WithId(p: InsertProduct, id: string): (r: Product)
    ensures r.id == id
    ensures Unkeyed(r) == p
  {
    Product(id, p.name, p.category, p.brand, p.price, p.image,
            p.description, p.specs, p.socket, p.wattage, p.inStock)
  }

  /** A product with its id dropped: the insert shape it came from. */
  function Unkeyed(p: Product): InsertProduct {
    InsertProduct(p.name, p.category, p.brand, p.price, p.image,
                  p.description, p.specs, p.socket, p.wattage, p.inStock)
  }

  /** A category-key to product-id map (`Record<string, string>`), keys in insertion order. */
  type IdMap = Entries<string, string>

  /** A saved build: a name, at most one product id per category, a caller-supplied total and a creation time. */
  datatype Build = Build(
    id: string,
    name: string,
    components: Nullable<IdMap>,
    totalPrice: int,
    createdAt: string)

  /** `InsertBuild`: a build without `id` and `createdAt`, which only the store assigns. */
  datatype InsertBuild = InsertBuild(
    name: string,
    components: Nullable<IdMap>,
    totalPrice: int)

  /** `Partial<InsertBuild>`: each field either supplied or left out; `id` and `createdAt` cannot be supplied. */
  datatype BuildPatch = BuildPatch(
    name: Option<string>,
    components: Option<Nullable<IdMap>>,
    totalPrice: Option<int>)
}
