/**
 * The summary sidebar: how many categories are filled, the performance tier
 * read off the CPU and graphics-card prices, and which hints it shows.
 */
module CompatibilitySidebar {
  import opened Wrappers
  import opened Seqs
  import opened Ordered
  import opened Schema
  import opened Compatibility
  import opened PcBuilder

  /** `selected[c]` read as a product: `undefined` and `null` both give none. */
  function Picked(sel: Selection, c: Category): (r: Option<Product>)
    ensures r.Some? <==> Get(sel, c).Some? && Get(sel, c).value.Some?
    ensures r.Some? ==> Get(sel, c) == Some(Some(r.value))
  {
    var entry: Option<Option<Product>> := Get(sel, c);
    if entry.Some? && entry.value.Some? then entry.value else None
  }

  /** `selectedCount`: the number of chosen products. */
  function SelectedCount(sel: Selection): nat {
    |Chosen(sel)|
  }

  /** All fourteen categories. */
  const AllCategories: set<Category> :=
    {Cpu, Vga, Mainboard, Psu, Ram, Ssd, Hdd, Case, Cooler, Monitor, Fan, Mouse, Keyboard, Headset}

  /** A sequence without repetitions has as many elements as the set of its elements. */
  lemma {:induction false} DistinctCardinality<T>(s: seq<T>)
    requires Distinct(s)
    ensures |set x | x in s| == |s|
    decreases |s|
  {
    if |s| > 0 {
      var tail := s[1..];
      assert Distinct(tail) by {
        forall i, j | 0 <= i < j < |tail| ensures tail[i] != tail[j] {
          assert tail[i] == s[i + 1] && tail[j] == s[j + 1];
        }
      }
      DistinctCardinality(tail);
      assert s[0] !in tail by {
        forall j | 0 <= j < |tail| ensures tail[j] != s[0] {
          assert tail[j] == s[j + 1];
        }
      }
      assert (set x | x in s) == (set x | x in tail) + {s[0]};
    }
  }

  /** A subset has no more elements than its superset. */
  lemma {:induction false} SubsetCardinality<T>(a: set<T>, b: set<T>)
    requires a <= b
    ensures |a| <= |b|
    decreases |a|
  {
    if a != {} {
      var x :| x in a;
      SubsetCardinality(a - {x}, b - {x});
    }
  }

  /** With one entry per category, the count never exceeds the fourteen shown as the total. */
  lemma SelectedCountAtMostTotal(sel: Selection)
    requires DistinctKeys(sel)
    ensures SelectedCount(sel) <= CategoryTotal
  {
    var keys := Keys(sel);
    DistinctCardinality(keys);
    forall c: Category ensures c in AllCategories {
      match c
      case Cpu => case Vga => case Mainboard => case Psu => case Ram => case Ssd => case Hdd =>
      case Case => case Cooler => case Monitor => case Fan => case Mouse => case Keyboard => case Headset =>
    }
    var present := set x | x in keys;
    assert present <= AllCategories;
    assert |AllCategories| == 14;
    SubsetCardinality(present, AllCategories);
    assert |Chosen(sel)| <= |keys| == |present|;
  }

  /** The performance tiers, lowest first. */
  datatype Tier = NotRated | EntryLevel | MidRange | MidHigh | HighEnd

  /** The label the sidebar shows for a tier. */
  function TierText(t: Tier): string {
    match t
    case NotRated => "Chưa đánh giá"
    case EntryLevel => "Entry-Level"
    case MidRange => "Mid-Range"
    case MidHigh => "Mid-High"
    case HighEnd => "High-End"
  }

  /** A tier's position, lowest first. */
  function Rank(t: Tier): nat {
    match t
    case NotRated => 0
    case EntryLevel => 1
    case MidRange => 2
    case MidHigh => 3
    case HighEnd => 4
  }

  /** The tier of a CPU-plus-graphics price; every threshold is strict. */
  function TierFor(total: int): (t: Tier)
    ensures t != NotRated
    ensures t == HighEnd <==> total > 20000000
    ensures t == MidHigh <==> 12000000 < total <= 20000000
    ensures t == MidRange <==> 8000000 < total <= 12000000
    ensures t == EntryLevel <==> total <= 8000000
  {
    if total > 20000000 then HighEnd
    else if total > 12000000 then MidHigh
    else if total > 8000000 then MidRange
    else EntryLevel
  }

  /** `getPerformanceLevel`: not rated without a CPU and a graphics card, else the tier of their prices. */
  function PerformanceLevel(sel: Selection): (t: Tier)
    ensures t == NotRated <==> Picked(sel, Cpu).None? && Picked(sel, Vga).None?
    ensures t != NotRated ==> t == TierFor(PriceOf(Picked(sel, Cpu)) + PriceOf(Picked(sel, Vga)))
  {
    var cpu, vga := Picked(sel, Cpu), Picked(sel, Vga);
    if cpu.None? && vga.None? then NotRated
    else TierFor(PriceOf(cpu) + PriceOf(vga))
  }

  /** A higher price never gives a lower tier. */
  lemma TierMonotone(t1: int, t2: int)
    requires t1 <= t2
    ensures Rank(TierFor(t1)) <= Rank(TierFor(t2))
  {
  }

  /** The boundaries belong to the tier below: exactly 20,000,000 is Mid-High. */
  lemma TierBoundaries()
    ensures TierFor(20000000) == MidHigh
    ensures TierFor(12000000) == MidRange
    ensures TierFor(8000000) == EntryLevel
    ensures TierFor(20000001) == HighEnd
  {
  }

  /** A CPU alone is rated on its own price. */
  lemma CpuAloneIsRatedOnItsPrice(sel: Selection, cpu: Product)
    requires Picked(sel, Cpu) == Some(cpu) && Picked(sel, Vga).None?
    ensures PerformanceLevel(sel) == TierFor(cpu.price)
  {
  }

  /** With both a CPU and a graphics card chosen, the tier is that of the sum of their prices. */
  lemma CpuAndVgaRatedOnTheirSum(sel: Selection, cpu: Product, vga: Product)
    requires Picked(sel, Cpu) == Some(cpu) && Picked(sel, Vga) == Some(vga)
    ensures PerformanceLevel(sel) == TierFor(cpu.price + vga.price)
  {
  }

  /** One item of the hints panel. */
  datatype Hint =
    | ShowWarning(w: Warning)
    | AddSsd
    | PowerForGraphics
    | StartWithCpuAndBoard

  /** The hint's text. */
  function HintText(h: Hint): string {
    match h
    case ShowWarning(w) => WarningText(w)
    case AddSsd => "Khuyến nghị thêm SSD để tăng tốc độ khởi động"
    case PowerForGraphics => "Cân nhắc nguồn 750W cho VGA hiệu năng cao"
    case StartWithCpuAndBoard => "Bắt đầu bằng việc chọn CPU và Mainboard"
  }

  /** The warnings of a compatibility answer, if one has arrived. */
  function WarningsOf(data: Option<Response>): seq<Warning> {
    if data.Some? then data.value.compatibility.warnings else []
  }

  /** The hints panel: the server's warnings when there are any, otherwise the page's own hints. */
  function Recommendations(sel: Selection, data: Option<Response>): (r: seq<Hint>)
    ensures |WarningsOf(data)| > 0 ==> r == MapSeq(WarningsOf(data), (w: Warning) => ShowWarning(w))
    ensures |WarningsOf(data)| == 0 ==>
      && (AddSsd in r <==> Picked(sel, Ssd).None?)
      && (PowerForGraphics in r <==> Picked(sel, Vga).Some? && Picked(sel, Psu).None?)
      && (StartWithCpuAndBoard in r <==> SelectedCount(sel) == 0)
      && forall h :: h in r ==> !h.ShowWarning?
    ensures |WarningsOf(data)| == 0 ==>
      && |r| == (if AddSsd in r then 1 else 0) + (if PowerForGraphics in r then 1 else 0)
                + (if StartWithCpuAndBoard in r then 1 else 0)
      && (AddSsd in r ==> r[0] == AddSsd)
      && (StartWithCpuAndBoard in r ==> r[|r| - 1] == StartWithCpuAndBoard)
  {
    var warnings := WarningsOf(data);
    if |warnings| > 0 then MapSeq(warnings, (w: Warning) => ShowWarning(w))
    else
      (if Picked(sel, Ssd).None? then [AddSsd] else []) +
      (if Picked(sel, Vga).Some? && Picked(sel, Psu).None? then [PowerForGraphics] else []) +
      (if SelectedCount(sel) == 0 then [StartWithCpuAndBoard] else [])
  }

  /** An empty page, before any answer, suggests an SSD and where to start. */
  lemma EmptyPageHints()
    ensures Recommendations([], None) == [AddSsd, StartWithCpuAndBoard]
  {
  }
}
