# PC builder — a Dafny model of its core

This project models the decision logic of a PC-configurator web application. A
shopper picks one product for each of fourteen component categories (CPU,
graphics card, mainboard, PSU, RAM, SSD, HDD, case, cooler, monitor, fan, mouse,
keyboard, headset). The page keeps a running total and asks the server whether
the parts fit together. The shopper can save the build, or check out through a
WooCommerce shop.

The model covers the following, one Dafny module per source file:

- `Schema`: the category list and the record shapes.
- `Storage`: the in-memory store and its filtered catalogue query.
- `Compatibility`: the compatibility evaluator.
- `Routes`: the HTTP handlers' decisions.
- `WooCommerce`: the order payload and product conversions.
- Five client modules:
  - `ComponentModal`: the product picker's filters and pagination.
  - `PcBuilder`: the builder page's state and requests.
  - `CompatibilitySidebar`: the summary sidebar.
  - `SelectedProduct`: the spec summary line.
  - `Checkout`: the checkout form.

Four helper modules support them:

- `Wrappers`: `Option` and `Result`.
- `Seqs`: filter, subsequence and sum.
- `Js`: JavaScript's `parseInt`, `Number`, `split`/`join`, `slice`, `toLowerCase` and whitespace.
- `Ordered`: JavaScript objects as insertion-ordered entry lists.

How JavaScript concepts are represented:

- **Objects.** JavaScript objects keyed by strings (the component id map, a product's `specs`, the page's selection) are sequences of key/value pairs. A read finds the first entry with the key. An assignment replaces that entry in place, or appends one.
- **Missing values.** A missing field (`undefined`) and `null` are kept apart, because the compatibility check compares them with `!==`.
- **Numbers.** Numbers are integers or NaN.
- **Operations.** Every operation is a pure function that returns the new store alongside its result.
- **Parameters.** The random id generator and the clock become parameters. `JSON.parse`, `JSON.stringify` and `parseFloat` also become parameters.

Three behaviours of the compatibility handler are easy to misread; the model follows the code:

- **Missing sockets.** Sockets are compared with `cpu?.socket !== mainboard?.socket` (server/routes.ts:123). Two ids that both fail to resolve give `undefined !== undefined`, which is false, so they count as compatible. A CPU with a null socket against an unresolvable mainboard counts as a mismatch.
- **PSU wattage.** The PSU capacity is `psu?.specs?.wattage || 750` (server/routes.ts:140). A wattage of 0 or an empty string falls back to 750, just as a missing one does.
- **Missing `components`.** The handler destructures `components` from the body and reads `components.cpu` inside its `try` (server/routes.ts:110-119). A body without a `components` member, or with `components: null`, therefore throws, and the `catch` answers 500 (server/routes.ts:152-153).

## Model

| member | source | states |
|---|---|---|
| Schema.FromKey | shared/schema.ts:42-56 | reading a string as a category succeeds exactly for the fourteen category keys, and yields the category with that key |
| Schema.KeyRoundTrip | shared/schema.ts:42-56 | every category reads back from its own key |
| Schema.CategoryIndex | shared/schema.ts:58-77 | every category is listed in the display table exactly once, at the position one below its `order` |
| Schema.CategoryTable | shared/schema.ts:58-77 | the display table has fourteen rows, no category twice, and orders 1 to 14 in sequence |
| Schema.WithId | shared/schema.ts:28-30 | completing an insert shape with an id gives a product with that id, which drops back to the same insert shape |
| Storage.GetProducts | server/storage.ts:149-184 | the listing keeps the catalogue's order and contains a product exactly when it satisfies every supplied filter (category, brand list, socket list, inclusive price range, case-insensitive search in name or brand) |
| Storage.StagesAreFilters | server/storage.ts:157-181 | each filter pass that applies keeps exactly the products meeting its condition; a pass that does not apply keeps everything |
| Storage.StagesAreConjunction | server/storage.ts:155-183 | running the five passes one after another equals one filter by the conjunction of their conditions |
| Storage.GetProduct | server/storage.ts:186-188 | a lookup finds a catalogue product with the requested id, and fails exactly when no product has that id |
| Storage.SetProductSame | server/storage.ts:193 | after storing a product, its id reads back as that product |
| Storage.SetProductOther | server/storage.ts:193 | storing a product leaves every other id's product unchanged |
| Storage.SetProductIds | server/storage.ts:193 | after storing, every product is the stored one or was already in the catalogue |
| Storage.SetProductValid | server/storage.ts:193 | storing keeps the catalogue keyed by id (no id twice) |
| Storage.CreateProduct | server/storage.ts:190-195 | the created product has the fresh id and the inserted fields, is appended to the catalogue and reads back, and no other id or build changes |
| Storage.SaveProduct | server/storage.ts:221-224 | saving stores the product under its own id, replacing any previous one, and leaves every other id and all builds unchanged |
| Storage.GetBuild | server/storage.ts:197-199 | a build lookup succeeds exactly when the id is stored, and returns that build |
| Storage.CreateBuild | server/storage.ts:201-210 | the created build has the fresh id, the given creation time and the inserted fields, reads back by its id, and no other build or product changes |
| Storage.UpdateBuild | server/storage.ts:212-219 | an unknown id gives not-found and changes nothing; otherwise each supplied field overrides, every omitted field, the id and the creation time are kept, and only that build changes |
| Storage.UpdateBuildIdempotent | server/storage.ts:212-219 | applying the same patch twice is the same as applying it once |
| Compatibility.Evaluate | server/routes.ts:111-151 | RAM/mainboard always passes; the CPU/mainboard check fails exactly when both ids are given and the looked-up sockets differ as JavaScript values; the wattage is summed over every id; the PSU status is judged only when a PSU id is given; the warnings are the socket warning then the PSU warning |
| Compatibility.PsuCapacity | server/routes.ts:139-140 | when the PSU id resolves to a product whose `specs.wattage` is truthy, the capacity is that value read as a number; when the id does not resolve, the product has no specs, or the wattage is missing or falsy, it is 750 W |
| Compatibility.RatedPsuSetsCapacity | server/routes.ts:138-148 | a selected PSU with a non-zero numeric `specs.wattage` is judged against exactly that wattage |
| Compatibility.UnratedPsuUsesDefault | server/routes.ts:138-148 | a selected PSU that does not resolve, or has no truthy `specs.wattage`, is judged against 750 W |
| Compatibility.PsuStatusFor | server/routes.ts:142-148 | insufficient exactly above 0.8 of the capacity, marginal exactly above 0.6 up to 0.8, adequate otherwise; a NaN capacity is adequate |
| Compatibility.WarningsShape | server/routes.ts:115-148 | at most two warnings; the socket warning is present exactly when the CPU/mainboard flag is false, and then comes first; each PSU warning matches its status; without a PSU there is no PSU warning |
| Compatibility.PsuStatusMonotone | server/routes.ts:142-148 | for a fixed capacity, a larger total draw never gives a better status |
| Compatibility.WattageThresholdExamples | server/routes.ts:140-148 | 700 W is insufficient for 750 W, marginal for 1000 W and adequate for 1500 W |
| Compatibility.PsuWattageIsCounted | server/routes.ts:130-136 | the PSU's own wattage is part of the total draw it is judged against |
| Compatibility.TotalWattageReorder | server/routes.ts:130-136 | any rearrangement of the selected ids (the same ids, with the same repeats) gives the same total draw |
| Compatibility.UndefinedVersusNullSockets | server/routes.ts:119-127 | two unresolvable ids count as compatible, while a null CPU socket against an unresolvable mainboard counts as a mismatch |
| Compatibility.HandleCompatibility | server/routes.ts:108-155 | a body without `components`, or with `components: null`, answers 500; an id-map member is evaluated |
| WooCommerce.CreatePCBuildOrder | server/woocommerce.ts:101-141 | one line per product in order (id, quantity one, name, price); billing and shipping are the customer; not paid; bank transfer; the build record holds the products, the sum of their prices and the build date |
| WooCommerce.RecordedTotalMatchesLines | server/woocommerce.ts:120-131 | the recorded build total equals what the order lines add up to |
| WooCommerce.FindMeta | server/woocommerce.ts:157 | the meta entry found has the requested key, and none is found exactly when no entry has it |
| WooCommerce.FirstWord | server/woocommerce.ts:162 | the fallback brand is the prefix of the name before its first space |
| WooCommerce.ConvertToProduct | server/woocommerce.ts:155-185 | an imported product keeps the WooCommerce id as text, the name and the category, and is in stock; the brand comes from a non-empty brand meta or else the name's first word; the socket is null exactly when there is no non-empty socket meta; the wattage is the `parseInt` of the wattage meta when that is a non-zero integer, and null otherwise; the image is the first image's non-empty source, else the placeholder; the description is the short description when non-empty, else the long one; the price is `parsePrice` of the regular price, else the price, else "0"; the specs are the parsed `specs` meta, or empty without one |
| WooCommerce.ImportedImage | server/woocommerce.ts:179 | the first image's source when there is one and it is non-empty, otherwise the placeholder image |
| WooCommerce.ImportedPrice | server/woocommerce.ts:176 | the price is parsed from the regular price when non-empty, else from the price when non-empty, else from "0" |
| WooCommerce.ImportedDescription | server/woocommerce.ts:175 | the short description when non-empty, otherwise the long description |
| WooCommerce.ImportedWattage | server/woocommerce.ts:169-182 | a wattage meta that parses to a non-zero integer gives that integer; every other case gives null |
| WooCommerce.ConvertFromProduct | server/woocommerce.ts:188-201 | the exported meta data starts with brand and specs, followed by socket and wattage exactly when those are truthy; the price is printed as an integer |
| WooCommerce.ExportedMetaLookups | server/woocommerce.ts:194-199 | in exported meta data the brand is found, and socket and wattage are found exactly when truthy |
| WooCommerce.ExportedSocketLookup | server/woocommerce.ts:197 | the exported socket meta is found exactly when the socket is truthy |
| WooCommerce.ExportedWattageLookup | server/woocommerce.ts:198 | the exported wattage meta is found exactly when the wattage is truthy |
| WooCommerce.ConvertRoundTrip | server/woocommerce.ts:155-201 | exporting then importing keeps the name, the category, a non-empty brand (an empty one becomes the name's first word), and truthy socket and wattage; falsy ones become null |
| WooCommerce.CategoryMappingIsIdentity | server/woocommerce.ts:205-219 | the mapping has fourteen distinct keys, each mapped to itself |
| WooCommerce.MappedKeyMapsToItself | server/woocommerce.ts:205-219 | looking up any key of the mapping gives the key itself |
| WooCommerce.CategoryMappingCoversTheRest | server/woocommerce.ts:205-219 | every category other than cooler and headset is a key of the mapping and maps to its own key |
| WooCommerce.CategoryMappingMissesTwoCategories | server/woocommerce.ts:205-219 | the cooler and headset categories have no entry, and the keys `cpu-cooler` and `headphones` name no category |
| WooCommerce.CategoryMapping | server/woocommerce.ts:205-219 | the corrected mapping has one distinct key per category and maps every category's key to itself |
| Js.ParseIntOfIntToString | server/routes.ts:32-33 | `parseInt` of a printed integer gives the integer back |
| Js.SplitJoin | server/routes.ts:25-26 | splitting a comma-joined list whose items contain no comma gives the list back |
| Js.JoinSplit | server/routes.ts:25-26 | joining the pieces of a split gives the text back |
| Routes.Status | server/routes.ts:54-188 | the two not-found failures answer 404 and every other handled failure answers 400 |
| Routes.ListParam | server/routes.ts:25-26 | a list parameter yields a list exactly when it is given and non-empty, and the list joins back to the parameter text |
| Routes.PriceRangeFromQuery | server/routes.ts:29-35 | a price range exists exactly when a bound is given; a given bound is its `parseInt`; a missing lower bound is 0 and a missing upper bound is `MAX_SAFE_INTEGER` |
| Routes.HandleGetProducts | server/routes.ts:22-48 | the listing keeps the catalogue's order and contains exactly the products that pass the filters the query gives |
| Routes.PriceQueryRoundTrip | server/routes.ts:32-33 | printed integer bounds reach the store as those integers |
| Routes.EmptyQueryListsCatalog | server/routes.ts:24-42 | a query without parameters lists the whole catalogue in order |
| Routes.BrandQueryKeepsListedBrands | server/routes.ts:25 | every product listed for a brand query has one of the comma-separated brands |
| Routes.UnreadableMinPriceListsNothing | server/routes.ts:32 | a minimum price that `parseInt` cannot read empties the listing |
| Routes.PriceQueryIsInclusive | server/routes.ts:29-35 | a catalogue product priced within printed bounds is listed, bounds included |
| Routes.HandleGetProduct | server/routes.ts:51-61 | the product with the id, or 404 exactly when no product has it |
| Routes.HandleGetBuild | server/routes.ts:78-88 | the build with the id, or 404 exactly when it is not stored |
| Routes.HandleCreateBuild | server/routes.ts:64-75 | an invalid body answers 400 and changes nothing; a valid one is stored under the fresh id with the given time and its own fields, and no other build changes |
| Routes.CreatedBuildIsFetchable | server/routes.ts:64-88 | fetching a created build's id returns that build |
| Routes.HandlePatchBuild | server/routes.ts:91-105 | an invalid body answers 400 before the id is looked up; an unknown id answers 404; neither changes anything; otherwise only that build changes and the answer is the merged build: each field the patch supplies replaces the old one, every other field, the id and the creation time are kept |
| Routes.PatchedBuildIsFetchable | server/routes.ts:91-105 | after a successful patch, fetching the id returns the patched build |
| Routes.Resolved | server/routes.ts:180-183 | an id contributes one product exactly when it names a catalogue product, and then that product |
| Routes.ResolveIds | server/routes.ts:178-184 | the collected products are catalogue products whose ids were requested, no more of them than ids |
| Routes.ResolveIdsInOrder | server/routes.ts:178-184 | the collected products' ids are the resolvable requested ids, in request order, repeats included |
| Routes.ResolveIdsEmpty | server/routes.ts:178-188 | nothing is collected exactly when no requested id resolves |
| Routes.CollectOrderProducts | server/routes.ts:178-184 | the loop collects exactly the resolvable ids' products in order, all from the catalogue |
| Routes.HandleCreateOrder | server/routes.ts:160-191 | an unconfigured shop answers 400 first; a missing component array or customer answers 400; "no valid products" exactly when no id resolves; a configured, complete request with at least one resolvable id always succeeds, and the order has one line per resolvable id in request order, for that customer |
| Routes.EmptyOrderHasNoValidProducts | server/routes.ts:171-188 | an empty component array passes validation but is refused for having no valid products |
| ComponentModal.FoldIsIntersection | client/src/components/component-modal.tsx:48-65 | folding the ticked price buckets gives the highest of their lower bounds and the lowest of their upper bounds |
| ComponentModal.FoldOrderIndependent | client/src/components/component-modal.tsx:52-65 | the folded bounds depend only on which buckets are ticked, not on their order or repeats |
| ComponentModal.FoldAdmitsExactlyTheCommonPrices | client/src/components/component-modal.tsx:52-65 | a price lies within the folded bounds exactly when every ticked known bucket admits it |
| ComponentModal.PriceParamsReachServer | client/src/components/component-modal.tsx:48-69 | the server reads the price parameters back as exactly the folded bounds, and sends no range when the fold is unbounded |
| ComponentModal.BoundParamReadsBack | client/src/components/component-modal.tsx:67-68 | a bound that is sent is given and reads back as that integer; one that is not sent is not given |
| ComponentModal.MiddleBucketQuery | client/src/components/component-modal.tsx:57-60 | ticking only 5m-10m asks the server for the range 5,000,000 to 10,000,000 |
| ComponentModal.Toggle | client/src/components/component-modal.tsx:99-115 | ticking appends the value at the end; unticking removes every copy of it and keeps every copy of each other ticked value, in order |
| ComponentModal.UntickAfterTick | client/src/components/component-modal.tsx:99-103 | ticking then unticking equals just unticking |
| ComponentModal.TickThenUntickRestores | client/src/components/component-modal.tsx:99-103 | ticking then unticking a value that was not ticked restores the list |
| ComponentModal.ToggleFilter | client/src/components/component-modal.tsx:88-115 | a checkbox change alters only its own list and puts the picker back on page 1 |
| ComponentModal.SetSearch | client/src/components/component-modal.tsx:88-90 | typing replaces the search text; the page resets to 1 exactly when the text changed |
| ComponentModal.ClearAllFilters | client/src/components/component-modal.tsx:92-97 | clearing empties the search and every ticked list and returns to page 1 |
| ComponentModal.ClearingReturnsToOpened | client/src/components/component-modal.tsx:92-97 | clearing gives the state the picker opens with |
| ComponentModal.ListText | client/src/components/component-modal.tsx:44-45 | an empty ticked list sends no parameter |
| ComponentModal.RequestQuery | client/src/components/component-modal.tsx:38-66 | the request names the category; the brand and socket parameters are the ticked values joined with commas, absent when none is ticked; the price parameters are those of the folded buckets; the search text is sent exactly when it is non-empty |
| ComponentModal.ListTextReachesServer | client/src/components/component-modal.tsx:44-45 | non-empty, comma-free ticked values reach the server as the same list, and an empty list as no filter |
| ComponentModal.PriceParamsFilter | client/src/components/component-modal.tsx:47-66 | the price parameters sent admit a price exactly when it lies in the folded interval, or every price when no bucket narrows it |
| ComponentModal.PickerCategoryFilter | client/src/components/component-modal.tsx:39-41 | the category sent keeps a product exactly when it belongs to the picker's category |
| ComponentModal.PickerBrandFilter | client/src/components/component-modal.tsx:44 | for non-empty, comma-free ticked brands, the brand filter the server reads keeps a product exactly when its brand is ticked, or every product when none is |
| ComponentModal.PickerSocketFilter | client/src/components/component-modal.tsx:45 | for non-empty, comma-free ticked sockets, the socket filter the server reads keeps a product exactly when it has a ticked socket, or every product when none is |
| ComponentModal.PickerPriceFilter | client/src/components/component-modal.tsx:47-66 | the price range the server reads from the picker's query keeps a product exactly when its price is admitted by every ticked bucket |
| ComponentModal.PickerSearchFilter | client/src/components/component-modal.tsx:43 | the search filter the server reads keeps a product exactly when the typed text is empty or occurs, ignoring case, in its name or brand |
| ComponentModal.PickerListsMatchingProducts | client/src/components/component-modal.tsx:35-72 | the server's answer to the picker's query holds exactly the catalogue products of the category with a ticked brand, a ticked socket, an admitted price and the search text in the name or brand |
| ComponentModal.TickedListReachesServer | client/src/components/component-modal.tsx:44-45 | the server splits a sent list of comma-free values back into the same list |
| ComponentModal.EmptyBrandIsIgnored | client/src/components/component-modal.tsx:44 | a list holding only the empty brand reaches the server as no filter |
| ComponentModal.AvailableBrands | client/src/components/component-modal.tsx:77 | the brand choices have no repeats and are exactly the brands of the listed products |
| ComponentModal.AvailableSockets | client/src/components/component-modal.tsx:78 | the socket choices have no repeats and are exactly the non-empty sockets of the listed products |
| ComponentModal.TotalPages | client/src/components/component-modal.tsx:81 | the page count is the least number of six-item pages that holds every product |
| ComponentModal.PageContents | client/src/components/component-modal.tsx:82-85 | page p shows the items from position 6(p-1) to 6p, cut at the end of the list |
| ComponentModal.PagesUpToPrefix | client/src/components/component-modal.tsx:82-85 | the first k pages together are the first 6k items |
| ComponentModal.PagesPartition | client/src/components/component-modal.tsx:81-85 | the pages up to the page count together are the whole list, in order |
| ComponentModal.PagesNonEmptyExactlyUpToTotal | client/src/components/component-modal.tsx:81-85 | a page is non-empty exactly when its number is at most the page count |
| ComponentModal.PreviousPage | client/src/components/component-modal.tsx:354 | from page 2 or later the button steps back one page; from page 1 or below it goes to page 1 |
| ComponentModal.NextPage | client/src/components/component-modal.tsx:375 | before the last page the button steps forward one page; on or past the last page it goes to the last page |
| ComponentModal.ButtonsStayInRange | client/src/components/component-modal.tsx:354-375 | from a valid page, both buttons lead to a valid page |
| PcBuilder.Chosen | client/src/pages/pc-builder.tsx:26-27 | the chosen products are exactly the non-null entries of the selection |
| PcBuilder.TotalIsPriceOfChosen | client/src/pages/pc-builder.tsx:25-30 | the running total is the sum of the chosen products' prices |
| PcBuilder.TotalAfterPut | client/src/pages/pc-builder.tsx:86-101 | setting one category changes the total by the new price minus the old one |
| PcBuilder.ComponentIds | client/src/pages/pc-builder.tsx:36-40 | the id map has one entry per chosen product, each under a category key |
| PcBuilder.ComponentIdsLookup | client/src/pages/pc-builder.tsx:36-40 | reading a category in the id map gives the id of the product chosen for it, and nothing when none is chosen |
| PcBuilder.OpenPicker | client/src/pages/pc-builder.tsx:81-84 | opening a picker records its category and shows the modal, without touching the selection |
| PcBuilder.SelectProduct | client/src/pages/pc-builder.tsx:86-95 | with no open category nothing changes; otherwise the product fills that category alone, the picker closes, and one entry per category is kept |
| PcBuilder.RemoveComponent | client/src/pages/pc-builder.tsx:97-102 | removing sets only that category to null and keeps one entry per category |
| PcBuilder.SelectProductTotal | client/src/pages/pc-builder.tsx:86-95 | choosing a product changes the total by its price minus the replaced product's price |
| PcBuilder.RemoveComponentTotal | client/src/pages/pc-builder.tsx:97-102 | removing lowers the total by the removed product's price |
| PcBuilder.RemovedCategoryLeavesIdMap | client/src/pages/pc-builder.tsx:97-102 | a removed category has no entry in the id map sent to the server |
| PcBuilder.ResetConfiguration | client/src/pages/pc-builder.tsx:104-105 | resetting leaves nothing chosen, a zero total and an empty id map |
| PcBuilder.AddToCart | client/src/pages/pc-builder.tsx:112-127 | adding to the cart is refused exactly when nothing is chosen, and otherwise reports how many products are chosen |
| PcBuilder.CheckoutSelection | client/src/pages/pc-builder.tsx:275 | the products handed to checkout are exactly the chosen ones, and their prices add up to the page total |
| PcBuilder.SaveBuildBody | client/src/pages/pc-builder.tsx:53-63 | the saved build is named after the date and records the id map and the page total |
| PcBuilder.SavedBuildRecordsSelection | client/src/pages/pc-builder.tsx:53-63 | a saved build reads back, for every category, the id of the product chosen for it |
| PcBuilder.BareBody | client/src/pages/pc-builder.tsx:44 | the body as posted has exactly the id map's keys at top level |
| PcBuilder.CompatibilityRequestAsWritten | client/src/pages/pc-builder.tsx:36-44 | no request is sent exactly when nothing is chosen |
| PcBuilder.BareBodyLacksComponents | client/src/pages/pc-builder.tsx:44 | the posted body has no `components` member |
| PcBuilder.AsWrittenRequestFails | client/src/pages/pc-builder.tsx:44 | every compatibility request the page sends as written answers 500 |
| PcBuilder.CompatibilityRequest | client/src/pages/pc-builder.tsx:36-44 | the corrected request wraps the id map in a `components` member and is sent exactly when something is chosen |
| PcBuilder.RequestIsEvaluated | client/src/pages/pc-builder.tsx:44 | the corrected request is evaluated on exactly the page's id map |
| PcBuilder.RequestCarriesPsu | client/src/pages/pc-builder.tsx:36-40 | a chosen PSU reaches the evaluator under the `psu` key with its own id |
| CompatibilitySidebar.Picked | client/src/components/compatibility-sidebar.tsx:23-24 | a category reads as a product exactly when its entry holds one |
| CompatibilitySidebar.SelectedCountAtMostTotal | client/src/components/compatibility-sidebar.tsx:19-20 | with one entry per category, the count never exceeds the fourteen shown as the total |
| CompatibilitySidebar.TierFor | client/src/components/compatibility-sidebar.tsx:31-36 | above 20M is High-End, above 12M Mid-High, above 8M Mid-Range, otherwise Entry-Level; every threshold is strict |
| CompatibilitySidebar.PerformanceLevel | client/src/components/compatibility-sidebar.tsx:22-37 | the level is not rated exactly when neither a CPU nor a graphics card is chosen, and otherwise is the tier of the CPU price plus the graphics-card price, a missing one counting as 0 |
| CompatibilitySidebar.CpuAndVgaRatedOnTheirSum | client/src/components/compatibility-sidebar.tsx:29-36 | with both a CPU and a graphics card chosen, the tier is that of the sum of their prices |
| CompatibilitySidebar.TierMonotone | client/src/components/compatibility-sidebar.tsx:33-36 | a higher price never gives a lower tier |
| CompatibilitySidebar.TierBoundaries | client/src/components/compatibility-sidebar.tsx:33-36 | each boundary price belongs to the tier below it |
| CompatibilitySidebar.CpuAloneIsRatedOnItsPrice | client/src/components/compatibility-sidebar.tsx:29-31 | a CPU without a graphics card is rated on the CPU's price alone |
| CompatibilitySidebar.Recommendations | client/src/components/compatibility-sidebar.tsx:131-159 | server warnings, when present, are shown alone and in order; otherwise the SSD hint appears exactly without an SSD, the PSU hint exactly with a graphics card but no PSU, and the start hint exactly with nothing chosen, each at most once and in the fixed order SSD, PSU, start |
| CompatibilitySidebar.EmptyPageHints | client/src/components/compatibility-sidebar.tsx:139-159 | an empty page shows the SSD and the start hints |
| SelectedProduct.Text | client/src/components/selected-product.tsx:26-39 | a truthy spec value prints as non-empty text |
| SelectedProduct.Candidate | client/src/components/selected-product.tsx:29-40 | a fragment is produced exactly when its spec is truthy |
| SelectedProduct.CoresAndThreads | client/src/components/selected-product.tsx:26-28 | the cores fragment is produced exactly when both cores and threads are truthy |
| SelectedProduct.Fragments | client/src/components/selected-product.tsx:24-40 | every collected fragment is non-empty |
| SelectedProduct.FragmentsFollowPriority | client/src/components/selected-product.tsx:26-40 | the fragments are the present candidates, in the fixed priority order cores, boost, memory, core clock, chipset |
| SelectedProduct.Shown | client/src/components/selected-product.tsx:42 | at most the first two fragments are shown, all of them when there are fewer than two |
| SelectedProduct.GetSpecsDisplay | client/src/components/selected-product.tsx:20-43 | no specs record gives the empty text; otherwise the shown fragments are joined with a comma |
| SelectedProduct.DisplayEmptyIffNoFragments | client/src/components/selected-product.tsx:20-43 | the summary is empty exactly when there is no record or no fragment |
| SelectedProduct.CoresAndThreadsLead | client/src/components/selected-product.tsx:26-28 | with truthy cores and threads, the summary starts with them |
| SelectedProduct.ChipsetAloneIsShown | client/src/components/selected-product.tsx:38-42 | a record with only a chipset shows just the chipset |
| Checkout.HandleInputChange | client/src/components/woocommerce-checkout.tsx:109-111 | an edit sets the named field to the new text and leaves every other field as it was |
| Checkout.InputChangeWithSameTextIsNoOp | client/src/components/woocommerce-checkout.tsx:109-111 | writing a field's own text back changes nothing |
| Checkout.SplitShape | client/src/components/woocommerce-checkout.tsx:92 | a matching address has a non-empty local part, label and suffix, contains no whitespace, and its only `@` is the one it splits at |
| Checkout.WhitespaceRulesOut | client/src/components/woocommerce-checkout.tsx:92 | an address containing whitespace never matches |
| Checkout.SecondAtRulesOut | client/src/components/woocommerce-checkout.tsx:92 | an address with two `@` never matches |
| Checkout.NoLocalPartRulesOut | client/src/components/woocommerce-checkout.tsx:92 | without text before a single `@`, or without an `@`, nothing matches |
| Checkout.NoInnerDotRulesOut | client/src/components/woocommerce-checkout.tsx:92 | without a dot that has text on both sides after the `@`, nothing matches |
| Checkout.InnerDotMatches | client/src/components/woocommerce-checkout.tsx:92 | a clean address with one `@` after some text and an inner dot in the domain matches |
| Checkout.CheckEmail | client/src/components/woocommerce-checkout.tsx:92-93 | the one-pass scan accepts exactly the addresses the email pattern matches |
| Checkout.EmailExamples | client/src/components/woocommerce-checkout.tsx:92 | `a@b.c` matches; `a@b`, `a b@c.d` and `a@@b.c` do not |
| Checkout.HandleSubmit | client/src/components/woocommerce-checkout.tsx:78-107 | an empty first name, last name, email or phone is refused first; then an email failing the pattern is refused; otherwise the chosen ids are sent in order with the form unchanged |
| Checkout.InitialFormIsRefused | client/src/components/woocommerce-checkout.tsx:33-42 | the empty form, as first shown and as reset after an order, is refused for missing fields |
| Checkout.OptionalFieldsIgnored | client/src/components/woocommerce-checkout.tsx:82 | address, city, postcode and country never decide whether a submit is sent |
| Checkout.OrderCustomer | client/src/components/woocommerce-checkout.tsx:103-106 | the server receives the four required fields as typed, and the four address fields as present text |
| Checkout.CatalogIdsResolve | server/routes.ts:178-184 | ids of catalogue products all resolve, so the server keeps every one of them |
| Checkout.SentOrderIsAccepted | client/src/components/woocommerce-checkout.tsx:103-106 | a valid submit of catalogue products to a configured shop becomes an order with one line per chosen product in order, billed to the form's customer |
| Checkout.ShowsDialog | client/src/components/woocommerce-checkout.tsx:113-115 | the dialog renders exactly when some product is chosen |
| Checkout.DialogMatchesCartGuard | client/src/components/woocommerce-checkout.tsx:113-115 | the dialog shows exactly when the page's add-to-cart would accept the selection |

## Left out

- The user interface is not modelled: rendering, toasts, collapsible panels, formatting of prices and dates, and navigation.
- HTTP transport is not modelled. Also not modelled: request parsing, JSON encoding, the 500 answers of handlers whose store calls cannot fail, and the WooCommerce REST calls (`request`, `getProducts`, `getProduct`, `getCategories`) with their credentials from environment variables. The shop's configuration is the parameter `configured`.
- Zod validation is reduced to "valid or not": the build endpoints take an `Option` of the already-parsed body.
- The order endpoint treats a `components` value that is not an array like a missing one; the model has no separate non-array case.
- Repeated query-string parameters (arrays in `req.query`) are left out; each parameter is present at most once.
- The store's seed catalogue is left out; the catalogue is whatever sequence the caller passes.
- The database default `inStock = true` is left out; the field is carried as given.
- `randomUUID`, `new Date()` and `toLocaleDateString` become parameters (`freshId`, `now`, `dateText`). Fresh ids are required to be unused, which the source only assumes.
- `JSON.parse` and `JSON.stringify` of product specs are the parameters `parseSpecs` and `stringify`. `parseFloat` of WooCommerce prices is the parameter `parsePrice`.
- Prices and wattages are integers. Floating-point products such as `psuWattage * 0.8` are compared exactly by cross-multiplication.
- Js.StringToNumber: reads only optionally signed decimal digit strings (and blank text as 0). Exponent forms such as `1e3`, `0x`/`0o`/`0b` prefixes, `Infinity` and fractions are NaN in the model, although JavaScript's `Number` reads them as numbers. A PSU whose `specs.wattage` is such a string is therefore judged against a NaN capacity (always adequate) here, while the source compares against the number.
- `parseInt` reads decimal only. Hex prefixes and radix arguments are left out.
- `toLowerCase` lowers ASCII letters only. Full Unicode case mapping is left out.
- Product `specs` hold JSON scalars only. Nested objects and arrays inside specs are left out.
- React's state batching, effects and the query cache are left out: each handler is one synchronous state change.
- client/src/lib/queryClient.ts is not part of this model. The checkout dialog calls `apiRequest(url, options)`, while the builder page calls `apiRequest(method, url, data)`. Whether the checkout request is sent correctly depends on that file, so the model takes the payload as sent.
- WooCommerce.ConvertToProduct: `JSON.parse` throwing on a malformed `specs` meta value is not modelled; the parameter `parseSpecs` always returns a specs record.
- Compatibility.HandleCompatibility: a `components` member that is a string or a scalar does not throw in the source. These cases are modelled in the body, but the ensures clauses only describe the object, missing and null cases.

## Findings

| source | as written | input that shows it | evidently intended | confidence | as-written member | corrected member |
|---|---|---|---|---|---|---|
| client/src/pages/pc-builder.tsx:44 | the page posts the bare id map, e.g. `{ "cpu": "1" }`, while the handler destructures `components` from the body (server/routes.ts:110) and reads `components.cpu` | any selection with one product, e.g. just a CPU: the body has no `components` member, so reading `.cpu` of undefined throws and the handler answers 500 | post `{ components: componentIds }`, so that the evaluator sees the id map | high (not executed) | PcBuilder.AsWrittenRequestFails | PcBuilder.RequestIsEvaluated |
| server/woocommerce.ts:205-219 | the category mapping uses the keys `cpu-cooler` and `headphones` | the categories `cooler` and `headset` (shared/schema.ts:51, 56): looking them up in the mapping finds nothing | one entry per schema category, keyed by the schema's own category keys | medium (not executed; no code in these files reads the mapping yet) | WooCommerce.CategoryMappingMissesTwoCategories | WooCommerce.CategoryMapping |
