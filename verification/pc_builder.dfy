/**
 * The configurator page's state: the per-category selection, the running
 * total, the category-to-id projection sent to the server, and the requests
 * the page derives from it (compatibility check, saved build, checkout list).
 */
module PcBuilder {
  import opened Wrappers
  import opened Seqs
  import opened Js
  import opened Ordered
  import opened Schema
  import opened Storage
  import opened Compatibility
  import opened WooCommerce
  import opened Routes

  /**
   * `Record<ComponentCategory, Product | null>`: a category never chosen has
   * no entry, a removed one maps to `null` (`None`), a chosen one to its product.
   */
  type Selection = Entries<Category, Option<Product>>

  /** The price a selection entry contributes: `product?.price || 0`. */
  function PriceOf(entry: Option<Product>): int {
    if entry.Some? then entry.value.price else 0
  }

  /** `Object.values(selected).filter(Boolean)`: the chosen products in entry order. */
  function Chosen(sel: Selection): (r: seq<Product>)
    ensures |r| <= |sel|
    ensures forall p :: p in r <==> exists i :: 0 <= i < |sel| && sel[i].1 == Some(p)
    decreases |sel|
  {
    if |sel| == 0 then []
    else
      var rest := Chosen(sel[1..]);
      assert forall i :: 0 < i < |sel| ==> sel[i] == sel[1..][i - 1];
      assert forall p :: (exists i :: 0 <= i < |sel[1..]| && sel[1..][i].1 == Some(p)) ==>
                          (exists i :: 0 <= i < |sel| && sel[i].1 == Some(p)) by {
        forall p | exists i :: 0 <= i < |sel[1..]| && sel[1..][i].1 == Some(p)
          ensures exists i :: 0 <= i < |sel| && sel[i].1 == Some(p)
        {
          var i :| 0 <= i < |sel[1..]| && sel[1..][i].1 == Some(p);
          assert sel[i + 1].1 == Some(p);
        }
      }
      if sel[0].1.Some? then [sel[0].1.value] + rest else rest
  }

  /** The running total: the prices of the chosen products added up over the entries. */
  function TotalPrice(sel: Selection): int
    decreases |sel|
  {
    if |sel| == 0 then 0 else PriceOf(sel[0].1) + TotalPrice(sel[1..])
  }

  /** The running total is the order total of the checkout list. */
  lemma {:induction false} TotalIsPriceOfChosen(sel: Selection)
    ensures TotalPrice(sel) == PriceSum(Chosen(sel))
    decreases |sel|
  {
    if |sel| > 0 {
      TotalIsPriceOfChosen(sel[1..]);
      if sel[0].1.Some? {
        SumOfAppend([sel[0].1.value], Chosen(sel[1..]), (p: Product) => p.price);
      }
    }
  }

  /** The price of what an entry held before: nothing when the category had no entry. */
  function PreviousPrice(entry: Option<Option<Product>>): int {
    if entry.Some? then PriceOf(entry.value) else 0
  }

  /** Setting one category changes the total by the new price minus the price it replaces. */
  lemma {:induction false} TotalAfterPut(sel: Selection, c: Category, v: Option<Product>)
    ensures TotalPrice(Put(sel, c, v)) == TotalPrice(sel) - PreviousPrice(Get(sel, c)) + PriceOf(v)
    decreases |sel|
  {
    if |sel| > 0 && sel[0].0 != c {
      TotalAfterPut(sel[1..], c, v);
      assert Put(sel, c, v)[1..] == Put(sel[1..], c, v);
    }
  }

  /** The id a selection entry contributes to the id map, if any. */
  function IdOf(entry: Option<Option<Product>>): Option<string> {
    if entry.Some? && entry.value.Some? then Some(entry.value.value.id) else None
  }

  /**
   * `Object.fromEntries(entries.filter(([_, p]) => p).map(([c, p]) => [c, p.id]))`:
   * the chosen categories' keys mapped to the chosen products' ids.
   */
  function ComponentIds(sel: Selection): (r: IdMap)
    ensures |r| == |Chosen(sel)|
    ensures forall i :: 0 <= i < |r| ==> FromKey(r[i].0).Some?
    decreases |sel|
  {
    if |sel| == 0 then []
    else
      var rest := ComponentIds(sel[1..]);
      KeyRoundTrip(sel[0].0);
      if sel[0].1.Some? then [(Key(sel[0].0), sel[0].1.value.id)] + rest else rest
  }

  /** The id map reads, for every category, the id of the product chosen for it and nothing else. */
  lemma {:induction false} ComponentIdsLookup(sel: Selection, c: Category)
    requires DistinctKeys(sel)
    ensures Get(ComponentIds(sel), Key(c)) == IdOf(Get(sel, c))
    decreases |sel|
  {
    if |sel| > 0 {
      var tail := sel[1..];
      DistinctKeysTail(sel);
      ComponentIdsLookup(tail, c);
      GetCons(sel[0].0, sel[0].1, tail, c);
      assert [sel[0]] + tail == sel;
      var rest := ComponentIds(tail);
      if sel[0].1.Some? {
        GetCons(Key(sel[0].0), sel[0].1.value.id, rest, Key(c));
        KeyRoundTrip(sel[0].0);
        KeyRoundTrip(c);
      } else if sel[0].0 == c {
        assert Get(tail, c).None?;
      }
    }
  }

  /** The page's state: the selection and the category whose picker is open. */
  datatype BuilderState = BuilderState(selection: Selection, current: Option<Category>, modalOpen: bool)

  /** The page as first shown: nothing chosen, no picker open. */
  const Start: BuilderState := BuilderState([], None, false)

  /** Every state the page reaches keeps one entry per category. */
  predicate Valid(st: BuilderState) {
    DistinctKeys(st.selection)
  }

  /** Opening the picker for a category. */
  function OpenPicker(st: BuilderState, c: Category): (r: BuilderState)
    ensures r.current == Some(c) && r.modalOpen && r.selection == st.selection
  {
    st.(current := Some(c), modalOpen := true)
  }

  /**
   * `selectProduct`: with a category current, it takes the product and the
   * picker closes; with none current, nothing happens.
   */
  function SelectProduct(st: BuilderState, p: Product): (r: BuilderState)
    ensures st.current.None? ==> r == st
    ensures st.current.Some? ==> r.current.None? && !r.modalOpen
    ensures st.current.Some? ==> Get(r.selection, st.current.value) == Some(Some(p))
    ensures st.current.Some? ==> forall c :: c != st.current.value ==> Get(r.selection, c) == Get(st.selection, c)
    ensures Valid(st) ==> Valid(r)
  {
    match st.current
    case None => st
    case Some(c) =>
      PutFrame(st.selection, c, Some(p));
      BuilderState(Put(st.selection, c, Some(p)), None, false)
  }

  /** `removeComponent`: the category maps to `null`, every other entry is kept. */
  function RemoveComponent(st: BuilderState, c: Category): (r: BuilderState)
    ensures Get(r.selection, c) == Some(None)
    ensures forall other :: other != c ==> Get(r.selection, other) == Get(st.selection, other)
    ensures r.current == st.current && r.modalOpen == st.modalOpen
    ensures Valid(st) ==> Valid(r)
  {
    PutFrame(st.selection, c, None);
    st.(selection := Put(st.selection, c, None))
  }

  /** Choosing a product changes the total by its price minus the price of what it replaces. */
  lemma SelectProductTotal(st: BuilderState, p: Product)
    requires st.current.Some?
    ensures TotalPrice(SelectProduct(st, p).selection)
      == TotalPrice(st.selection) - PreviousPrice(Get(st.selection, st.current.value)) + p.price
  {
    TotalAfterPut(st.selection, st.current.value, Some(p));
  }

  /** Removing a component takes exactly its price off the total. */
  lemma RemoveComponentTotal(st: BuilderState, c: Category)
    ensures TotalPrice(RemoveComponent(st, c).selection) == TotalPrice(st.selection) - PreviousPrice(Get(st.selection, c))
  {
    TotalAfterPut(st.selection, c, None);
  }

  /** Removing a component drops its id from the id map. */
  lemma RemovedCategoryLeavesIdMap(st: BuilderState, c: Category)
    requires Valid(st)
    ensures Get(ComponentIds(RemoveComponent(st, c).selection), Key(c)).None?
  {
    ComponentIdsLookup(RemoveComponent(st, c).selection, c);
  }

  /** `resetConfiguration`: the selection is emptied. */
  function ResetConfiguration(st: BuilderState): (r: BuilderState)
    ensures Chosen(r.selection) == [] && TotalPrice(r.selection) == 0 && ComponentIds(r.selection) == []
    ensures Valid(r)
    ensures r.current == st.current && r.modalOpen == st.modalOpen
  {
    st.(selection := [])
  }

  /** The outcome of the add-to-cart button. */
  datatype CartOutcome = NothingSelected | Added(count: nat)

  /** `addToCart`: an empty selection only reports an error; otherwise the number of products is reported. */
  function AddToCart(sel: Selection): (r: CartOutcome)
    ensures r.NothingSelected? <==> Chosen(sel) == []
    ensures r.Added? ==> r.count == |Chosen(sel)| && r.count > 0
  {
    var n := |Chosen(sel)|;
    if n == 0 then NothingSelected else Added(n)
  }

  /** The products handed to checkout: the chosen ones, in entry order. */
  function CheckoutSelection(sel: Selection): (r: seq<Product>)
    ensures TotalPrice(sel) == PriceSum(r)
    ensures forall p :: p in r <==> exists i :: 0 <= i < |sel| && sel[i].1 == Some(p)
  {
    TotalIsPriceOfChosen(sel);
    Chosen(sel)
  }

  /** The body of the save-build request; `dateText` is the locale-formatted date. */
  function SaveBuildBody(sel: Selection, dateText: string): (r: InsertBuild)
    ensures r.name == "Build " + dateText
    ensures r.components == Val(ComponentIds(sel))
    ensures r.totalPrice == PriceSum(Chosen(sel))
  {
    TotalIsPriceOfChosen(sel);
    InsertBuild("Build " + dateText, Val(ComponentIds(sel)), TotalPrice(sel))
  }

  /** A saved build reads back with the selection's id for every category and the page's total. */
  lemma SavedBuildRecordsSelection(st: Store, sel: Selection, dateText: string, freshId: string, now: string, c: Category)
    requires freshId !in st.builds && DistinctKeys(sel)
    ensures var saved := HandleCreateBuild(st, Some(SaveBuildBody(sel, dateText)), freshId, now);
      && saved.value.Ok?
      && saved.value.value.components.Val?
      && Get(saved.value.value.components.value, Key(c)) == IdOf(Get(sel, c))
      && saved.value.value.totalPrice == TotalPrice(sel)
  {
    ComponentIdsLookup(sel, c);
    TotalIsPriceOfChosen(sel);
  }

  // ---------------------------------------------------------------- compatibility request

  /** The id map as a JSON body whose members are the category keys, as the page posts it. */
  function BareBody(ids: IdMap): (r: Body)
    ensures Keys(r) == Keys(ids)
  {
    seq(|ids|, i requires 0 <= i < |ids| => (ids[i].0, Text(ids[i].1)))
  }

  /** The compatibility request as the page sends it: the bare id map, or none when nothing is chosen. */
  function CompatibilityRequestAsWritten(sel: Selection): (r: Option<Body>)
    ensures r.None? <==> Chosen(sel) == []
  {
    var ids := ComponentIds(sel);
    if |ids| == 0 then None else Some(BareBody(ids))
  }

  /** No category key is `components`, so the handler never finds the member it reads. */
  lemma BareBodyLacksComponents(sel: Selection)
    ensures Get(BareBody(ComponentIds(sel)), "components").None?
  {
    var ids := ComponentIds(sel);
    assert FromKey("components").None?;
    forall i | 0 <= i < |ids| ensures Keys(ids)[i] != "components" {
      assert FromKey(ids[i].0).Some?;
    }
  }

  /** Every compatibility request the page sends as written is answered with a server error. */
  lemma AsWrittenRequestFails(catalog: seq<Product>, sel: Selection)
    requires CompatibilityRequestAsWritten(sel).Some?
    ensures HandleCompatibility(catalog, CompatibilityRequestAsWritten(sel).value) == Err(ServerError)
  {
    BareBodyLacksComponents(sel);
  }

  /** The compatibility request wrapped as the handler reads it: the id map under `components`. */
  function CompatibilityRequest(sel: Selection): (r: Option<Body>)
    ensures r.None? <==> Chosen(sel) == []
    ensures r.Some? ==> Get(r.value, "components") == Some(Object(ComponentIds(sel)))
  {
    var ids := ComponentIds(sel);
    if |ids| == 0 then None else Some([("components", Object(ids))])
  }

  /** The wrapped request is evaluated on exactly the page's id map. */
  lemma RequestIsEvaluated(catalog: seq<Product>, sel: Selection)
    requires CompatibilityRequest(sel).Some?
    ensures HandleCompatibility(catalog, CompatibilityRequest(sel).value) == Ok(Evaluate(catalog, ComponentIds(sel)))
  {
  }

  /** With the wrapped request, a PSU on the page is the PSU the server checks. */
  lemma RequestCarriesPsu(sel: Selection, p: Product)
    requires DistinctKeys(sel) && Get(sel, Psu) == Some(Some(p))
    ensures Get(ComponentIds(sel), Key(Psu)) == Some(p.id)
  {
    ComponentIdsLookup(sel, Psu);
  }
}
