/**
 * The compatibility evaluator behind `POST /api/compatibility`: a socket
 * comparison between the selected CPU and mainboard, a RAM/mainboard flag
 * that is always true, the summed wattage of every selected id, and a
 * three-way PSU status against 80% and 60% of the PSU's capacity.
 */
module Compatibility {
  import opened Wrappers
  import opened Seqs
  import opened Js
  import opened Ordered
  import opened Schema
  import opened Storage

  /** The PSU verdict. */
  datatype PsuStatus = Adequate | Marginal | Insufficient

  /** The warnings the evaluator can raise. */
  datatype Warning = SocketMismatch | PowerMayBeInsufficient | ConsiderHigherWattage

  /** The text shown for each warning. */
  function WarningText(w: Warning): string {
    match w
    case SocketMismatch => "CPU và Mainboard không tương thích về socket"
    case PowerMayBeInsufficient => "Công suất nguồn có thể không đủ"
    case ConsiderHigherWattage => "Cân nhắc nguồn có công suất cao hơn"
  }

  /** The `compatibility` object of the response. */
  datatype Verdict = Verdict(cpuMainboard: bool, ramMainboard: bool, psuWattage: PsuStatus, warnings: seq<Warning>)

  /** The response body `{ compatibility, totalWattage }`. */
  datatype Response = Response(compatibility: Verdict, totalWattage: int)

  /** The capacity assumed for a PSU whose specs give no wattage. */
  const DefaultPsuCapacity: int := 750

  /** `components[key]` is truthy: the key is present with a non-empty id. */
  predicate Selected(components: IdMap, key: string) {
    Get(components, key).Some? && Get(components, key).value != ""
  }

  /** `product?.socket` after looking up `id`: undefined when the lookup fails, else the product's own field. */
  function SocketOf(catalog: seq<Product>, id: string): Nullable<string> {
    match GetProduct(catalog, id)
    case None => Undef
    case Some(p) => p.socket
  }

  /** What `id` adds to the wattage sum: the product's wattage when it resolves and is truthy, else 0. */
  function WattageOf(catalog: seq<Product>, id: string): int {
    match GetProduct(catalog, id)
    case None => 0
    case Some(p) => if TruthyInt(p.wattage) then p.wattage.value else 0
  }

  /** The wattage summed over a list of ids, duplicates included. */
  function TotalWattage(catalog: seq<Product>, ids: seq<string>): int {
    SumOf(ids, (id: string) => WattageOf(catalog, id))
  }

  /** JavaScript's numeric conversion of a truthy JSON scalar, as used by `psuWattage * 0.8`. */
  function ToNumber(v: Json): Num {
    match v
    case JNull => Int(0)
    case JBool(b) => Int(if b then 1 else 0)
    case JNum(n) => Int(n)
    case JStr(s) => StringToNumber(s)
  }

  /** `p.specs?.wattage`: the `wattage` member of the product's specs, absent when there are no specs. */
  function SpecsWattage(p: Product): Option<Json> {
    if p.specs.Val? then Get(p.specs.value, "wattage") else None
  }

  /** The PSU id resolves to a product whose `specs.wattage` is truthy. */
  predicate HasRatedWattage(catalog: seq<Product>, psuId: string) {
    GetProduct(catalog, psuId).Some? && SpecsWattage(GetProduct(catalog, psuId).value).Some?
    && Truthy(SpecsWattage(GetProduct(catalog, psuId).value).value)
  }

  /**
   * `psu?.specs?.wattage || 750`: the numeric value of the resolved PSU's
   * truthy `specs.wattage`; the default capacity when the id does not resolve,
   * the product has no specs, or the wattage is missing or falsy.
   */
  function PsuCapacity(catalog: seq<Product>, psuId: string): (c: Num)
    ensures forall p, v ::
      GetProduct(catalog, psuId) == Some(p) && p.specs.Val? && Get(p.specs.value, "wattage") == Some(v) && Truthy(v)
      ==> c == ToNumber(v)
    ensures GetProduct(catalog, psuId).None? ==> c == Int(DefaultPsuCapacity)
    ensures forall p ::
      GetProduct(catalog, psuId) == Some(p) && p.specs.Val? && Get(p.specs.value, "wattage").None?
      ==> c == Int(DefaultPsuCapacity)
    ensures forall p :: GetProduct(catalog, psuId) == Some(p) && !p.specs.Val? ==> c == Int(DefaultPsuCapacity)
    ensures forall p, v ::
      GetProduct(catalog, psuId) == Some(p) && p.specs.Val? && Get(p.specs.value, "wattage") == Some(v) && !Truthy(v)
      ==> c == Int(DefaultPsuCapacity)
  {
    if HasRatedWattage(catalog, psuId) then ToNumber(SpecsWattage(GetProduct(catalog, psuId).value).value)
    else Int(DefaultPsuCapacity)
  }

  /** A status rank: adequate < marginal < insufficient. */
  function Severity(s: PsuStatus): nat {
    match s
    case Adequate => 0
    case Marginal => 1
    case Insufficient => 2
  }

  /**
   * The PSU status for a total draw against a capacity: insufficient above
   * 0.8 of the capacity, marginal above 0.6 (up to 0.8), adequate otherwise.
   * The fractions are compared exactly, by cross-multiplying by 5; a NaN
   * capacity fails both comparisons.
   */
  function PsuStatusFor(total: int, capacity: Num): (s: PsuStatus)
    ensures capacity.NaN? ==> s == Adequate
    ensures capacity.Int? ==> (s == Insufficient <==> 5 * total > 4 * capacity.n)
    ensures capacity.Int? ==> (s == Marginal <==> 5 * total <= 4 * capacity.n && 5 * total > 3 * capacity.n)
    ensures capacity.Int? ==> (s == Adequate <==> 5 * total <= 4 * capacity.n && 5 * total <= 3 * capacity.n)
  {
    match capacity
    case NaN => Adequate
    case Int(c) =>
      if 5 * total > 4 * c then Insufficient
      else if 5 * total > 3 * c then Marginal
      else Adequate
  }

  /** The warning that accompanies a PSU status, if any. */
  function PsuWarning(s: PsuStatus): seq<Warning> {
    match s
    case Adequate => []
    case Marginal => [ConsiderHigherWattage]
    case Insufficient => [PowerMayBeInsufficient]
  }

  /**
   * The evaluator. Sockets are compared as JavaScript values, so a failed
   * lookup (undefined) equals another failed lookup or a product without a
   * socket key, but differs from a null socket. A request's id map comes
   * from `JSON.parse`, which never leaves two members with the same key; on
   * such maps the first-entry read agrees with JavaScript's property read.
   */
  function Evaluate(catalog: seq<Product>, components: IdMap): (r: Response)
    ensures r.compatibility.ramMainboard
    ensures !r.compatibility.cpuMainboard <==>
      && Selected(components, "cpu") && Selected(components, "mainboard")
      && SocketOf(catalog, Get(components, "cpu").value) != SocketOf(catalog, Get(components, "mainboard").value)
    ensures r.totalWattage == TotalWattage(catalog, Values(components))
    ensures !Selected(components, "psu") ==> r.compatibility.psuWattage == Adequate
    ensures Selected(components, "psu") ==>
      r.compatibility.psuWattage == PsuStatusFor(r.totalWattage, PsuCapacity(catalog, Get(components, "psu").value))
    ensures r.compatibility.warnings ==
      (if r.compatibility.cpuMainboard then [] else [SocketMismatch]) + PsuWarning(r.compatibility.psuWattage)
  {
    var socketsDiffer :=
      Selected(components, "cpu") && Selected(components, "mainboard") &&
      SocketOf(catalog, Get(components, "cpu").value) != SocketOf(catalog, Get(components, "mainboard").value);
    var socketWarnings := if socketsDiffer then [SocketMismatch] else [];
    var total := TotalWattage(catalog, Values(components));
    var status :=
      if Selected(components, "psu") then PsuStatusFor(total, PsuCapacity(catalog, Get(components, "psu").value))
      else Adequate;
    Response(Verdict(!socketsDiffer, true, status, socketWarnings + PsuWarning(status)), total)
  }

  /** At most two warnings; the socket warning, when present, comes first; each warning matches its flag. */
  lemma WarningsShape(catalog: seq<Product>, components: IdMap)
    ensures var v := Evaluate(catalog, components).compatibility;
      && |v.warnings| <= 2
      && (SocketMismatch in v.warnings <==> !v.cpuMainboard)
      && (SocketMismatch in v.warnings ==> v.warnings[0] == SocketMismatch)
      && (PowerMayBeInsufficient in v.warnings <==> v.psuWattage == Insufficient)
      && (ConsiderHigherWattage in v.warnings <==> v.psuWattage == Marginal)
      && (!Selected(components, "psu") ==> PowerMayBeInsufficient !in v.warnings && ConsiderHigherWattage !in v.warnings)
  {
  }

  /** For a fixed capacity the status never improves as the total draw grows. */
  lemma PsuStatusMonotone(t1: int, t2: int, capacity: Num)
    requires t1 <= t2
    ensures Severity(PsuStatusFor(t1, capacity)) <= Severity(PsuStatusFor(t2, capacity))
  {
  }

  /** A draw of 700 W is insufficient for 750 W, marginal for 1000 W and adequate for 1500 W. */
  lemma WattageThresholdExamples()
    ensures PsuStatusFor(700, Int(750)) == Insufficient
    ensures PsuStatusFor(700, Int(1000)) == Marginal
    ensures PsuStatusFor(700, Int(1500)) == Adequate
    ensures PsuStatusFor(600, Int(750)) == Marginal
    ensures PsuStatusFor(450, Int(750)) == Adequate
  {
  }

  /** The sum counts every entry, the PSU's own wattage included: splitting the map at the PSU entry splits the sum. */
  lemma {:induction false} PsuWattageIsCounted(catalog: seq<Product>, before: IdMap, psuId: string, after: IdMap)
    ensures Evaluate(catalog, before + [("psu", psuId)] + after).totalWattage
         == WattageOf(catalog, psuId) + TotalWattage(catalog, Values(before)) + TotalWattage(catalog, Values(after))
  {
    var f := (id: string) => WattageOf(catalog, id);
    var m := before + [("psu", psuId)] + after;
    ValuesAppend(before + [("psu", psuId)], after);
    ValuesAppend(before, [("psu", psuId)]);
    assert Values([("psu", psuId)]) == [psuId];
    SumOfAppend(Values(before) + [psuId], Values(after), f);
    SumOfAppend(Values(before), [psuId], f);
  }

  /** A selected PSU with a non-zero numeric `specs.wattage` is judged against exactly that capacity. */
  lemma RatedPsuSetsCapacity(catalog: seq<Product>, components: IdMap, p: Product, specs: Specs, n: int)
    requires Get(components, "psu") == Some(p.id) && p.id != ""
    requires GetProduct(catalog, p.id) == Some(p)
    requires p.specs == Val(specs) && Get(specs, "wattage") == Some(JNum(n)) && n != 0
    ensures Evaluate(catalog, components).compatibility.psuWattage
         == PsuStatusFor(TotalWattage(catalog, Values(components)), Int(n))
  {
  }

  /** A selected PSU that does not resolve, or whose specs give no truthy wattage, is judged against 750 W. */
  lemma UnratedPsuUsesDefault(catalog: seq<Product>, components: IdMap)
    requires Selected(components, "psu") && !HasRatedWattage(catalog, Get(components, "psu").value)
    ensures Evaluate(catalog, components).compatibility.psuWattage
         == PsuStatusFor(TotalWattage(catalog, Values(components)), Int(DefaultPsuCapacity))
  {
  }

  /** The summed wattage does not depend on the order of the selected ids: any rearrangement gives the same total. */
  lemma {:induction false} TotalWattageReorder(catalog: seq<Product>, a: seq<string>, b: seq<string>)
    requires multiset(a) == multiset(b)
    ensures TotalWattage(catalog, a) == TotalWattage(catalog, b)
  {
    SumOfPermutation(a, b, (id: string) => WattageOf(catalog, id));
  }

  /**
   * Two failed lookups count as matching sockets, while a CPU whose socket is
   * null against a mainboard id that does not resolve counts as a mismatch.
   */
  lemma UndefinedVersusNullSockets(catalog: seq<Product>, cpuId: string, boardId: string)
    requires cpuId != "" && boardId != ""
    ensures GetProduct(catalog, cpuId).None? && GetProduct(catalog, boardId).None? ==>
      Evaluate(catalog, [("cpu", cpuId), ("mainboard", boardId)]).compatibility.cpuMainboard
    ensures GetProduct(catalog, cpuId).Some? && GetProduct(catalog, cpuId).value.socket == Null &&
            GetProduct(catalog, boardId).None? ==>
      !Evaluate(catalog, [("cpu", cpuId), ("mainboard", boardId)]).compatibility.cpuMainboard
  {
    var m := [("cpu", cpuId), ("mainboard", boardId)];
    assert Get(m, "cpu") == Some(cpuId);
    assert Get(m, "mainboard") == Some(boardId);
  }

  /** The `components` member of a request body, as far as the handler's behaviour depends on it. */
  datatype BodyValue =
    | Object(entries: IdMap)   // a JSON object of ids
    | Text(text: string)       // a JSON string
    | Scalar                   // a JSON number or boolean
    | JsonNull                 // JSON null

  /** A request body: a JSON object whose members are in insertion order. */
  type Body = Entries<string, BodyValue>

  /** The handler's failure: HTTP 500 "Failed to check compatibility". */
  datatype HandlerError = ServerError

  /**
   * `POST /api/compatibility`: reads `req.body.components`. Reading `.cpu` of
   * an absent or null member throws, which the handler turns into a 500.
   * A string member has no `cpu`/`mainboard`/`psu` properties, and its
   * `Object.values` are its single characters.
   */
  function HandleCompatibility(catalog: seq<Product>, body: Body): (r: Result<Response, HandlerError>)
    ensures Get(body, "components").None? ==> r == Err(ServerError)
    ensures Get(body, "components") == Some(JsonNull) ==> r == Err(ServerError)
    ensures Get(body, "components").Some? && Get(body, "components").value.Object? ==>
      r == Ok(Evaluate(catalog, Get(body, "components").value.entries))
    ensures r.Ok? ==> r.value.compatibility.ramMainboard
  {
    var member: Option<BodyValue> := Get(body, "components");
    match member
    case None => Err(ServerError)
    case Some(JsonNull) => Err(ServerError)
    case Some(Object(m)) => Ok(Evaluate(catalog, m))
    case Some(Scalar) => Ok(Response(Verdict(true, true, Adequate, []), 0))
    case Some(Text(s)) =>
      var ids := seq(|s|, i requires 0 <= i < |s| => [s[i]]);
      Ok(Response(Verdict(true, true, Adequate, []), TotalWattage(catalog, ids)))
  }
}
