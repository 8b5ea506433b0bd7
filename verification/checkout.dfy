/**
 * The checkout dialog: the customer form, its field-by-field edits, the
 * submit-time validation (required fields first, then the email pattern
 * `^[^\s@]+@[^\s@]+\.[^\s@]+$`) and the order request a valid submit sends.
 */
module Checkout {
  import opened Wrappers
  import opened Seqs
  import opened Js
  import opened Schema
  import opened Storage
  import opened WooCommerce
  import opened Routes
  import opened PcBuilder

  // ---------------------------------------------------------------- the form

  /** The form state; every field is text, the optional ones start empty and the country as `VN`. */
  datatype CustomerForm = CustomerForm(
    firstName: string,
    lastName: string,
    email: string,
    phone: string,
    address1: string,
    city: string,
    postcode: string,
    country: string)

  /** The form as the dialog opens it. */
  const InitialForm: CustomerForm := CustomerForm("", "", "", "", "", "", "", "VN")

  /** The form's fields. */
  datatype Field = FirstName | LastName | Email | Phone | Address1 | City | Postcode | Country

  /** The text of one field. */
  function Read(f: CustomerForm, field: Field): string {
    match field
    case FirstName => f.firstName
    case LastName => f.lastName
    case Email => f.email
    case Phone => f.phone
    case Address1 => f.address1
    case City => f.city
    case Postcode => f.postcode
    case Country => f.country
  }

  /** `handleInputChange`: the named field takes the new text, every other field keeps its own. */
  function HandleInputChange(f: CustomerForm, field: Field, value: string): (r: CustomerForm)
    ensures Read(r, field) == value
    ensures forall other :: other != field ==> Read(r, other) == Read(f, other)
  {
    match field
    case FirstName => f.(firstName := value)
    case LastName => f.(lastName := value)
    case Email => f.(email := value)
    case Phone => f.(phone := value)
    case Address1 => f.(address1 := value)
    case City => f.(city := value)
    case Postcode => f.(postcode := value)
    case Country => f.(country := value)
  }

  /** Writing back a field's own text changes nothing. */
  lemma InputChangeWithSameTextIsNoOp(f: CustomerForm, field: Field)
    ensures HandleInputChange(f, field, Read(f, field)) == f
  {
  }

  // ---------------------------------------------------------------- the email pattern

  /** A run the pattern's `[^\s@]+` accepts: non-empty, without whitespace or `@`. */
  predicate Plain(s: string) {
    |s| > 0 && forall i :: 0 <= i < |s| ==> !IsWhitespace(s[i]) && s[i] != '@'
  }

  /** `e` reads as local part, `@` at `at`, domain label, `.` at `dot`, and the rest. */
  predicate SplitsAsEmail(e: string, at: int, dot: int) {
    && 0 <= at < dot < |e|
    && e[at] == '@' && e[dot] == '.'
    && Plain(e[..at]) && Plain(e[at + 1..dot]) && Plain(e[dot + 1..])
  }

  /** `^[^\s@]+@[^\s@]+\.[^\s@]+$` matches `e`. */
  predicate EmailPattern(e: string) {
    exists at, dot | 0 <= at < dot < |e| :: SplitsAsEmail(e, at, dot)
  }

  /** In a matching address the local part and both domain runs are non-empty, the only `@` is the split one and nothing is whitespace. */
  lemma SplitShape(e: string, at: int, dot: int)
    ensures SplitsAsEmail(e, at, dot) ==>
      && 0 < at && at + 2 <= dot < |e| - 1
      && forall j :: 0 <= j < |e| ==> !IsWhitespace(e[j]) && (e[j] == '@' <==> j == at)
  {
    if SplitsAsEmail(e, at, dot) {
      assert |e[..at]| > 0 && |e[at + 1..dot]| > 0 && |e[dot + 1..]| > 0;
      forall j | 0 <= j < |e| ensures !IsWhitespace(e[j]) && (e[j] == '@' <==> j == at) {
        if j < at {
          assert e[j] == e[..at][j];
        } else if at < j < dot {
          assert e[j] == e[at + 1..dot][j - at - 1];
        } else if dot < j {
          assert e[j] == e[dot + 1..][j - dot - 1];
        }
      }
    }
  }

  /** A whitespace character rules the pattern out. */
  lemma WhitespaceRulesOut(e: string, i: int)
    requires 0 <= i < |e| && IsWhitespace(e[i])
    ensures !EmailPattern(e)
  {
    forall at, dot | 0 <= at < dot < |e| ensures !SplitsAsEmail(e, at, dot) {
      SplitShape(e, at, dot);
    }
  }

  /** A second `@` rules the pattern out. */
  lemma SecondAtRulesOut(e: string, first: int, second: int)
    requires 0 <= first < second < |e| && e[first] == '@' && e[second] == '@'
    ensures !EmailPattern(e)
  {
    forall at, dot | 0 <= at < dot < |e| ensures !SplitsAsEmail(e, at, dot) {
      SplitShape(e, at, dot);
    }
  }

  /** Without an `@` after a non-empty local part, nothing matches. */
  lemma NoLocalPartRulesOut(e: string, at: int)
    requires at <= 0
    requires forall j :: 0 <= j < |e| ==> (e[j] == '@' ==> j == at)
    ensures !EmailPattern(e)
  {
    forall a, dot | 0 <= a < dot < |e| ensures !SplitsAsEmail(e, a, dot) {
      SplitShape(e, a, dot);
    }
  }

  /** Without a dot inside the domain, nothing matches. */
  lemma NoInnerDotRulesOut(e: string, at: int)
    requires 0 <= at < |e| && e[at] == '@'
    requires forall j :: 0 <= j < |e| ==> (e[j] == '@' ==> j == at)
    requires forall d :: at + 2 <= d < |e| - 1 ==> e[d] != '.'
    ensures !EmailPattern(e)
  {
    forall a, dot | 0 <= a < dot < |e| ensures !SplitsAsEmail(e, a, dot) {
      SplitShape(e, a, dot);
    }
  }

  /** A clean address with one `@` after some text and an inner dot in the domain matches. */
  lemma InnerDotMatches(e: string, at: int, dot: int)
    requires 0 < at && at + 2 <= dot < |e| - 1 && e[at] == '@' && e[dot] == '.'
    requires forall j :: 0 <= j < |e| ==> !IsWhitespace(e[j]) && (e[j] == '@' ==> j == at)
    ensures EmailPattern(e)
  {
    var local, domainLabel, rest := e[..at], e[at + 1..dot], e[dot + 1..];
    forall i | 0 <= i < |local| ensures !IsWhitespace(local[i]) && local[i] != '@' {
      assert local[i] == e[i];
    }
    forall i | 0 <= i < |domainLabel| ensures !IsWhitespace(domainLabel[i]) && domainLabel[i] != '@' {
      assert domainLabel[i] == e[at + 1 + i];
    }
    forall i | 0 <= i < |rest| ensures !IsWhitespace(rest[i]) && rest[i] != '@' {
      assert rest[i] == e[dot + 1 + i];
    }
    assert SplitsAsEmail(e, at, dot);
  }

  /**
   * The pattern test as a scan: find the only `@` while rejecting whitespace
   * and a second `@`, then look for a dot with text on both sides of it.
   */
  method CheckEmail(e: string) returns (ok: bool)
    ensures ok <==> EmailPattern(e)
  {
    var at := -1;
    var i := 0;
    while i < |e|
      invariant 0 <= i <= |e|
      invariant -1 <= at < i
      invariant at >= 0 ==> e[at] == '@'
      invariant forall j :: 0 <= j < i ==> !IsWhitespace(e[j]) && (e[j] == '@' ==> j == at)
    {
      if IsWhitespace(e[i]) {
        WhitespaceRulesOut(e, i);
        return false;
      }
      if e[i] == '@' {
        if at >= 0 {
          SecondAtRulesOut(e, at, i);
          return false;
        }
        at := i;
      }
      i := i + 1;
    }
    if at <= 0 {
      NoLocalPartRulesOut(e, at);
      return false;
    }
    var k := at + 2;
    while k < |e| - 1
      invariant at + 2 <= k
      invariant forall d :: at + 2 <= d < k && d < |e| - 1 ==> e[d] != '.'
    {
      if e[k] == '.' {
        InnerDotMatches(e, at, k);
        return true;
      }
      k := k + 1;
    }
    NoInnerDotRulesOut(e, at);
    return false;
  }

  /** Sample addresses: the plain one matches; a missing dot, a space or a doubled `@` does not. */
  lemma EmailExamples()
    ensures EmailPattern("a@b.c")
    ensures !EmailPattern("a@b")
    ensures !EmailPattern("a b@c.d")
    ensures !EmailPattern("a@@b.c")
  {
    InnerDotMatches("a@b.c", 1, 3);
    NoInnerDotRulesOut("a@b", 1);
    WhitespaceRulesOut("a b@c.d", 1);
    SecondAtRulesOut("a@@b.c", 1, 2);
  }

  // ---------------------------------------------------------------- submitting

  /** Why a submit is refused. */
  datatype Rejection = MissingRequired | InvalidEmail

  /** What a submit does: refuse with one reason, or send the order request. */
  datatype SubmitOutcome =
    | Rejected(reason: Rejection)
    | Sent(components: seq<string>, customer: CustomerForm)

  /** The four fields a submit requires; the address fields are never checked. */
  predicate RequiredFilled(f: CustomerForm) {
    f.firstName != "" && f.lastName != "" && f.email != "" && f.phone != ""
  }

  /**
   * `handleSubmit`: missing required text is reported first, then a bad
   * email; otherwise the chosen products' ids are sent, in order, with the
   * form exactly as filled in.
   */
  function HandleSubmit(selected: seq<Product>, f: CustomerForm): (r: SubmitOutcome)
    ensures r == Rejected(MissingRequired) <==> !RequiredFilled(f)
    ensures r == Rejected(InvalidEmail) <==> RequiredFilled(f) && !EmailPattern(f.email)
    ensures r.Sent? <==> RequiredFilled(f) && EmailPattern(f.email)
    ensures r.Sent? ==> r.components == ProductIds(selected) && r.customer == f
  {
    if !RequiredFilled(f) then Rejected(MissingRequired)
    else if !EmailPattern(f.email) then Rejected(InvalidEmail)
    else Sent(ProductIds(selected), f)
  }

  /** The form as first shown, and as reset after a successful order, is refused for its empty required fields. */
  lemma InitialFormIsRefused(selected: seq<Product>)
    ensures HandleSubmit(selected, InitialForm) == Rejected(MissingRequired)
  {
  }

  /** The optional fields never decide a submit. */
  lemma OptionalFieldsIgnored(selected: seq<Product>, f: CustomerForm, field: Field, value: string)
    requires field in {Address1, City, Postcode, Country}
    ensures HandleSubmit(selected, HandleInputChange(f, field, value)).Sent? <==> HandleSubmit(selected, f).Sent?
  {
  }

  /** The order customer the server receives from the form. */
  function OrderCustomer(f: CustomerForm): (c: CustomerInfo)
    ensures c.firstName == f.firstName && c.lastName == f.lastName && c.email == f.email && c.phone == f.phone
    ensures c.address1 == Some(f.address1) && c.city == Some(f.city)
    ensures c.postcode == Some(f.postcode) && c.country == Some(f.country)
  {
    CustomerInfo(f.firstName, f.lastName, f.email, f.phone,
                 Some(f.address1), Some(f.city), Some(f.postcode), Some(f.country))
  }

  /** Ids of catalogue products all resolve, so the server keeps every one of them. */
  lemma {:induction false} CatalogIdsResolve(catalog: seq<Product>, selected: seq<Product>)
    requires forall p :: p in selected ==> p in catalog
    ensures ResolvableIds(catalog, ProductIds(selected)) == ProductIds(selected)
  {
    var ids := ProductIds(selected);
    forall id | id in ids ensures Resolvable(catalog, id) {
      var i :| 0 <= i < |ids| && ids[i] == id;
      assert selected[i] in catalog;
    }
    FilterKeepsAll(ids, (id: string) => Resolvable(catalog, id));
  }

  /**
   * A valid submit of catalogue products to a configured shop becomes an
   * order with one line per product, in the order they were chosen.
   */
  lemma SentOrderIsAccepted(catalog: seq<Product>, selected: seq<Product>, f: CustomerForm, now: string)
    requires |selected| > 0
    requires forall p :: p in selected ==> p in catalog
    requires HandleSubmit(selected, f).Sent?
    ensures var sent := HandleSubmit(selected, f);
      var r := HandleCreateOrder(true, catalog, Some(sent.components), Some(OrderCustomer(f)), now);
      && r.Ok?
      && MapSeq(r.value.lineItems, (item: LineItem) => item.productId) == ProductIds(selected)
      && r.value.billing == OrderCustomer(f)
  {
    var ids := ProductIds(selected);
    CatalogIdsResolve(catalog, selected);
    assert selected[0] in catalog;
    assert Resolvable(catalog, ids[0]);
    assert ids[0] in ids;
  }

  /** `if (selectedComponents.length === 0) return null`: the dialog shows only with something chosen. */
  function ShowsDialog(selected: seq<Product>): (r: bool)
    ensures r <==> |selected| > 0
  {
    |selected| != 0
  }

  /** The dialog shows exactly when the page's add-to-cart would accept the selection. */
  lemma DialogMatchesCartGuard(sel: Selection)
    ensures ShowsDialog(CheckoutSelection(sel)) <==> AddToCart(sel).Added?
  {
  }
}
