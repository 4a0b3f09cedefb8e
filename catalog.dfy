/** The product data of lib/shopify.ts and its pure helpers: the retail
    ("menudeo") classification of variants, the retail price range, the
    policy filter and the customer fallback. Amounts are integers. */
module Catalog {
  import opened Wrappers
  import opened Text

  datatype Money = Money(amount: int, currencyCode: string)
  datatype PriceRange = PriceRange(minVariantPrice: Money, maxVariantPrice: Money)
  datatype SelectedOption = SelectedOption(name: string, value: string)
  datatype Image = Image(url: string, altText: string)

  datatype Variant = Variant(
    id: string, title: string, availableForSale: bool, quantityAvailable: int,
    price: Money, selectedOptions: seq<SelectedOption>)

  /** `ShopifyProduct`, with the `edges`/`node` wrappers removed. */
  datatype Product = Product(
    id: string, title: string, handle: string, description: string, availableForSale: bool,
    images: seq<Image>, priceRange: PriceRange, variants: seq<Variant>)

  const RetailWord := "menudeo"
  const WholesaleWord := "mayoreo"

  /** The lowered option values, in order. */
  function LoweredValues(options: seq<SelectedOption>): (r: seq<string>)
    ensures |r| == |options| && forall k :: 0 <= k < |options| ==> r[k] == ToLower(options[k].value)
  {
    seq(|options|, k requires 0 <= k < |options| => ToLower(options[k].value))
  }

  /** `variant.selectedOptions.map(opt => opt.value.toLowerCase()).join(" ")`. */
  function OptionsText(v: Variant): string {
    Join(LoweredValues(v.selectedOptions), " ")
  }

  /** `isMenudeoVariant`: an explicit retail mention wins, a wholesale mention
      without one excludes, and a variant mentioning neither counts as retail. */
  function IsMenudeoVariant(variant: Option<Variant>): (r: bool)
    ensures variant.None? ==> !r
    ensures variant.Some? && (Contains(ToLower(variant.value.title), RetailWord) || Contains(OptionsText(variant.value), RetailWord)) ==> r
    ensures variant.Some? && !Contains(ToLower(variant.value.title), RetailWord) && !Contains(OptionsText(variant.value), RetailWord)
            ==> (r <==> !Contains(ToLower(variant.value.title), WholesaleWord) && !Contains(OptionsText(variant.value), WholesaleWord))
  {
    match variant
    case None => false
    case Some(v) =>
      var title := ToLower(v.title);
      var options := OptionsText(v);
      if Contains(title, RetailWord) || Contains(options, RetailWord) then true
      else if Contains(title, WholesaleWord) || Contains(options, WholesaleWord) then false
      else true
  }

  /** The word appears in the lowered title or in one lowered option value. */
  ghost predicate Mentions(v: Variant, word: string) {
    Contains(ToLower(v.title), word)
    || exists k :: 0 <= k < |v.selectedOptions| && Contains(ToLower(v.selectedOptions[k].value), word)
  }

  /** Joining the option values with spaces creates no false mention: the rule
      is about the title and the individual values. */
  lemma MenudeoByParts(v: Variant)
    ensures IsMenudeoVariant(Some(v)) <==> Mentions(v, RetailWord) || !Mentions(v, WholesaleWord)
  {
    var vals := LoweredValues(v.selectedOptions);
    JoinContains(vals, ' ', RetailWord);
    JoinContains(vals, ' ', WholesaleWord);
  }

  /** `variants.filter(isMenudeoVariant)`. */
  function RetailVariants(vs: seq<Variant>): (r: seq<Variant>)
    ensures forall v :: v in r <==> v in vs && IsMenudeoVariant(Some(v))
    decreases |vs|
  {
    if |vs| == 0 then []
    else
      var rest := RetailVariants(vs[1..]);
      assert forall v :: v in vs <==> v == vs[0] || v in vs[1..] by {
        assert vs == [vs[0]] + vs[1..];
      }
      if IsMenudeoVariant(Some(vs[0])) then [vs[0]] + rest else rest
  }

  /** `Math.min(...prices)` and `Math.max(...prices)` over a non-empty list. */
  function MinAmount(vs: seq<Variant>): (m: int)
    requires |vs| > 0
    ensures forall v :: v in vs ==> m <= v.price.amount
    ensures exists i :: 0 <= i < |vs| && vs[i].price.amount == m
    decreases |vs|
  {
    if |vs| == 1 then vs[0].price.amount
    else
      var m := MinAmount(vs[1..]);
      assert forall v :: v in vs[1..] ==> m <= v.price.amount;
      assert vs == [vs[0]] + vs[1..];
      var i :| 0 <= i < |vs[1..]| && vs[1..][i].price.amount == m;
      assert vs[i + 1].price.amount == m;
      if vs[0].price.amount < m then vs[0].price.amount else m
  }

  function MaxAmount(vs: seq<Variant>): (m: int)
    requires |vs| > 0
    ensures forall v :: v in vs ==> v.price.amount <= m
    ensures exists i :: 0 <= i < |vs| && vs[i].price.amount == m
    decreases |vs|
  {
    if |vs| == 1 then vs[0].price.amount
    else
      var m := MaxAmount(vs[1..]);
      assert forall v :: v in vs[1..] ==> v.price.amount <= m;
      assert vs == [vs[0]] + vs[1..];
      var i :| 0 <= i < |vs[1..]| && vs[1..][i].price.amount == m;
      assert vs[i + 1].price.amount == m;
      if m < vs[0].price.amount then vs[0].price.amount else m
  }

  /** `getMenudeoPriceRange`. */
  function GetMenudeoPriceRange(product: Product): (r: PriceRange)
    // no retail variant: the product's own range, unchanged
    ensures (forall v :: v in product.variants ==> !IsMenudeoVariant(Some(v))) ==> r == product.priceRange
    // otherwise the cheapest and dearest retail prices, in the first retail variant's currency
    ensures (exists v :: v in product.variants && IsMenudeoVariant(Some(v))) ==>
      && r.minVariantPrice.amount <= r.maxVariantPrice.amount
      && (forall v :: v in product.variants && IsMenudeoVariant(Some(v)) ==>
            r.minVariantPrice.amount <= v.price.amount <= r.maxVariantPrice.amount)
      && (exists v :: v in product.variants && IsMenudeoVariant(Some(v)) && v.price.amount == r.minVariantPrice.amount)
      && (exists v :: v in product.variants && IsMenudeoVariant(Some(v)) && v.price.amount == r.maxVariantPrice.amount)
      && r.minVariantPrice.currencyCode == r.maxVariantPrice.currencyCode
         == RetailVariants(product.variants)[0].price.currencyCode
  {
    var retail := RetailVariants(product.variants);
    if |retail| == 0 then product.priceRange
    else
      var minPrice := MinAmount(retail);
      var maxPrice := MaxAmount(retail);
      assert retail[0] in retail;
      var i :| 0 <= i < |retail| && retail[i].price.amount == minPrice;
      var j :| 0 <= j < |retail| && retail[j].price.amount == maxPrice;
      assert retail[i] in retail && retail[j] in retail;
      var currencyCode := retail[0].price.currencyCode;
      PriceRange(Money(minPrice, currencyCode), Money(maxPrice, currencyCode))
  }

  /** The first retail variant is the first variant the rule accepts. */
  lemma RetailCurrencyIsFirst(vs: seq<Variant>, k: nat)
    requires k < |vs| && IsMenudeoVariant(Some(vs[k])) && forall j :: 0 <= j < k ==> !IsMenudeoVariant(Some(vs[j]))
    ensures |RetailVariants(vs)| > 0 && RetailVariants(vs)[0] == vs[k]
    decreases k
  {
    if k > 0 {
      RetailCurrencyIsFirst(vs[1..], k - 1);
    }
  }

  datatype Policy = Policy(title: string, body: string)

  /** `shop`, whose members `Object.values` lists in this order. */
  datatype Shop = Shop(privacyPolicy: Option<Policy>, refundPolicy: Option<Policy>,
                       termsOfService: Option<Policy>, shippingPolicy: Option<Policy>)

  function ShopValues(shop: Shop): seq<Option<Policy>> {
    [shop.privacyPolicy, shop.refundPolicy, shop.termsOfService, shop.shippingPolicy]
  }

  /** `.filter(policy => policy !== null && policy.body.trim() !== '')`. */
  function KeepPolicies(xs: seq<Option<Policy>>): seq<Policy>
    decreases |xs|
  {
    if |xs| == 0 then []
    else if xs[0].Some? && Trim(xs[0].value.body) != "" then [xs[0].value] + KeepPolicies(xs[1..])
    else KeepPolicies(xs[1..])
  }

  function GetAllPolicies(shop: Shop): seq<Policy> {
    KeepPolicies(ShopValues(shop))
  }

  /** The kept policies are exactly the present ones with a non-blank body. */
  lemma {:induction false} KeepPoliciesMembers(xs: seq<Option<Policy>>)
    ensures forall p :: p in KeepPolicies(xs) <==> Some(p) in xs && !AllWhitespace(p.body)
    decreases |xs|
  {
    if |xs| > 0 {
      KeepPoliciesMembers(xs[1..]);
      if xs[0].Some? {
        TrimEmptyIff(xs[0].value.body);
      }
      assert xs == [xs[0]] + xs[1..];
    }
  }

  /** Filtering keeps the order: the kept policies of a concatenation are those of each part. */
  lemma {:induction false} KeepPoliciesConcat(a: seq<Option<Policy>>, b: seq<Option<Policy>>)
    ensures KeepPolicies(a + b) == KeepPolicies(a) + KeepPolicies(b)
    decreases |a|
  {
    if |a| == 0 {
      assert a + b == b;
    } else {
      assert (a + b)[1..] == a[1..] + b;
      KeepPoliciesConcat(a[1..], b);
    }
  }

  /** The kept policies are the present ones with a non-blank body, there are at
      most four, and a kept privacy policy comes first. */
  lemma PoliciesInOrder(shop: Shop)
    ensures forall p :: p in GetAllPolicies(shop) <==> Some(p) in ShopValues(shop) && !AllWhitespace(p.body)
    ensures |GetAllPolicies(shop)| <= 4
    ensures shop.privacyPolicy.Some? && !AllWhitespace(shop.privacyPolicy.value.body) ==>
      GetAllPolicies(shop)[0] == shop.privacyPolicy.value
  {
    KeepPoliciesMembers(ShopValues(shop));
    KeepPoliciesLength(ShopValues(shop));
    if shop.privacyPolicy.Some? {
      TrimEmptyIff(shop.privacyPolicy.value.body);
    }
  }

  lemma {:induction false} KeepPoliciesLength(xs: seq<Option<Policy>>)
    ensures |KeepPolicies(xs)| <= |xs|
    decreases |xs|
  {
    if |xs| > 0 {
      KeepPoliciesLength(xs[1..]);
    }
  }

  datatype Customer = Customer(id: string, email: Option<string>, firstName: Option<string>, lastName: Option<string>)
  datatype CustomerData = CustomerData(customer: Option<Customer>)
  /** The response body of the customer query: `data` may be missing. */
  datatype CustomerBody = CustomerBody(data: Option<CustomerData>)

  /** `body?.data?.customer ?? null`. */
  function GetCustomer(body: Option<CustomerBody>): (r: Option<Customer>)
    ensures r.Some? <==> body.Some? && body.value.data.Some? && body.value.data.value.customer.Some?
    ensures r.Some? ==> r == body.value.data.value.customer
  {
    match body
    case None => None
    case Some(b) =>
      match b.data
      case None => None
      case Some(d) => d.customer
  }
}
