/**
 * The one-line specification summary under a chosen product: up to two
 * fragments picked from the product's `specs` record in a fixed priority
 * order, joined with a comma and a space.
 */
module SelectedProduct {
  import opened Wrappers
  import opened Seqs
  import opened Js
  import opened Ordered
  import opened Schema

  /** `specs[k]` is truthy. */
  predicate Present(specs: Specs, k: string) {
    var v: Option<Json> := Get(specs, k);
    v.Some? && Truthy(v.value)
  }

  /** `${specs[k]}` for a member that is present. */
  function Text(specs: Specs, k: string): (t: string)
    requires Present(specs, k)
    ensures t != ""
  {
    var v: Option<Json> := Get(specs, k);
    JsonToString(v.value)
  }

  /** A candidate fragment: the text when its member is present. */
  function Candidate(specs: Specs, k: string, prefix: string): (r: Option<string>)
    ensures r.Some? <==> Present(specs, k)
  {
    if Present(specs, k) then Some(prefix + Text(specs, k)) else None
  }

  /** The cores-and-threads fragment, which needs both members. */
  function CoresAndThreads(specs: Specs): (r: Option<string>)
    ensures r.Some? <==> Present(specs, "cores") && Present(specs, "threads")
  {
    if Present(specs, "cores") && Present(specs, "threads")
    then Some(Text(specs, "cores") + " cores, " + Text(specs, "threads") + " threads")
    else None
  }

  /** The candidate fragments in priority order. */
  function Candidates(specs: Specs): (r: seq<Option<string>>)
    ensures |r| == 5
  {
    [CoresAndThreads(specs),
     Candidate(specs, "boostFreq", "up to "),
     Candidate(specs, "memory", ""),
     Candidate(specs, "coreClock", ""),
     Candidate(specs, "chipset", "")]
  }

  /** The texts of the present candidates, in order. */
  function Somes(xs: seq<Option<string>>): (r: seq<string>)
    ensures |r| <= |xs|
    decreases |xs|
  {
    if |xs| == 0 then []
    else Pushed(xs[0]) + Somes(xs[1..])
  }

  /** The fragments pushed one after another, each when its condition holds. */
  function Fragments(specs: Specs): (r: seq<string>)
    ensures forall t :: t in r ==> t != ""
  {
    var ct := CoresAndThreads(specs);
    var boost := Candidate(specs, "boostFreq", "up to ");
    var memory := Candidate(specs, "memory", "");
    var clock := Candidate(specs, "coreClock", "");
    var chipset := Candidate(specs, "chipset", "");
    Pushed(ct) + (Pushed(boost) + (Pushed(memory) + (Pushed(clock) + Pushed(chipset))))
  }

  /** What one conditional `push` adds: the text when there is one. */
  function Pushed(x: Option<string>): seq<string> {
    if x.Some? then [x.value] else []
  }

  /** The pushed fragments are the present candidates in priority order. */
  lemma FragmentsFollowPriority(specs: Specs)
    ensures Fragments(specs) == Somes(Candidates(specs))
  {
    var c := Candidates(specs);
    SomesOfFive(c[0], c[1], c[2], c[3], c[4]);
    assert c == [c[0], c[1], c[2], c[3], c[4]];
  }

  /** Collecting the texts of five candidates is pushing each in turn. */
  lemma SomesOfFive(a: Option<string>, b: Option<string>, c: Option<string>, d: Option<string>, e: Option<string>)
    ensures Somes([a, b, c, d, e]) == Pushed(a) + (Pushed(b) + (Pushed(c) + (Pushed(d) + Pushed(e))))
  {
    var t4: seq<Option<string>> := [e];
    var t3 := [d] + t4;
    var t2 := [c] + t3;
    var t1 := [b] + t2;
    var t0 := [a] + t1;
    SomesCons(e, []);
    assert [e] + [] == t4;
    SomesCons(d, t4);
    SomesCons(c, t3);
    SomesCons(b, t2);
    SomesCons(a, t1);
    assert t0 == [a, b, c, d, e];
  }

  /** One candidate in front pushes its text in front. */
  lemma SomesCons(x: Option<string>, ys: seq<Option<string>>)
    ensures Somes([x] + ys) == Pushed(x) + Somes(ys)
  {
    assert ([x] + ys)[1..] == ys;
  }

  /** `xs.join(", ")`. */
  function JoinComma(xs: seq<string>): string
    decreases |xs|
  {
    if |xs| == 0 then ""
    else if |xs| == 1 then xs[0]
    else xs[0] + ", " + JoinComma(xs[1..])
  }

  /** The fragments shown: `slice(0, 2)` of the fragments. */
  function Shown(specs: Specs): (r: seq<string>)
    ensures |r| <= 2 && |r| <= |Fragments(specs)|
    ensures r == Fragments(specs)[..|r|]
    ensures |r| < 2 ==> r == Fragments(specs)
  {
    Slice(Fragments(specs), 0, 2)
  }

  /** `getSpecsDisplay`: empty without a record, otherwise the shown fragments joined with ", ". */
  function GetSpecsDisplay(specs: Nullable<Specs>): (r: string)
    ensures !specs.Val? ==> r == ""
    ensures specs.Val? ==> r == JoinComma(Shown(specs.value))
  {
    if specs.Val? then JoinComma(Shown(specs.value)) else ""
  }

  /** The summary is empty exactly when there is no record or no fragment. */
  lemma DisplayEmptyIffNoFragments(specs: Nullable<Specs>)
    ensures GetSpecsDisplay(specs) == "" <==> !specs.Val? || Fragments(specs.value) == []
  {
    if specs.Val? && Fragments(specs.value) != [] {
      var shown := Shown(specs.value);
      assert shown[0] in Fragments(specs.value);
    }
  }

  /** With both counts present, the summary starts with them. */
  lemma CoresAndThreadsLead(specs: Specs)
    requires Present(specs, "cores") && Present(specs, "threads")
    ensures Shown(specs)[0] == Text(specs, "cores") + " cores, " + Text(specs, "threads") + " threads"
  {
  }

  /** A record with only a chipset shows just the chipset. */
  lemma ChipsetAloneIsShown(chipset: string)
    requires chipset != ""
    ensures GetSpecsDisplay(Val([("chipset", JStr(chipset))])) == chipset
  {
    var specs := [("chipset", JStr(chipset))];
    assert Get(specs, "chipset") == Some(JStr(chipset));
    assert Present(specs, "chipset") && Text(specs, "chipset") == chipset;
    assert !Present(specs, "cores") && !Present(specs, "boostFreq") && !Present(specs, "memory")
      && !Present(specs, "coreClock");
    assert "" + chipset == chipset;
    assert Candidate(specs, "chipset", "") == Some(chipset);
    assert Fragments(specs) == [chipset];
  }
}
