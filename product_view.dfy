/** The derivations that components/FloatingProductCard.tsx and
    components/ProductPageContent.tsx share: the size list, the variant for the
    chosen size, the price shown, and the image carousel. The card shows three
    thumbnails and the page four; only the page computes the stock flag. */
module ProductView {
  import opened Wrappers
  import opened Text
  import opened Catalog

  /** The thumbnail slots of the card's and the page's carousel loops. */
  const FloatingCardWindow: nat := 3
  const ProductPageWindow: nat := 4

  /** The lowered option names that mean "size". */
  predicate IsSizeName(lowered: string) {
    lowered == "size" || lowered == "talla" || lowered == "tama\U{F1}o" || lowered == "tama\U{F1}o de accesorio"
  }

  predicate IsSizeOption(o: SelectedOption) {
    IsSizeName(ToLower(o.name))
  }

  /** `options.find(...)` for a size-named option. */
  function FindSizeOption(options: seq<SelectedOption>): (r: Option<SelectedOption>)
    ensures r.Some? <==> exists k :: 0 <= k < |options| && IsSizeOption(options[k])
    ensures r.Some? ==> exists k :: 0 <= k < |options| && options[k] == r.value && IsSizeOption(r.value)
                                    && forall j :: 0 <= j < k ==> !IsSizeOption(options[j])
    decreases |options|
  {
    if |options| == 0 then None
    else if IsSizeOption(options[0]) then Some(options[0])
    else
      var r := FindSizeOption(options[1..]);
      if r.Some? then
        var k :| 0 <= k < |options[1..]| && options[1..][k] == r.value && IsSizeOption(r.value)
                 && forall j :: 0 <= j < k ==> !IsSizeOption(options[1..][j]);
        assert options[k + 1] == r.value;
        assert forall j :: 0 < j < k + 1 ==> options[j] == options[1..][j - 1];
        r
      else
        assert forall k :: 0 < k < |options| ==> options[k] == options[1..][k - 1];
        r
  }

  /** The size a variant contributes: its first size-named option, or else its
      only option when that one is not named `Title`. */
  function SizeOf(options: seq<SelectedOption>): Option<string> {
    var sizeOpt := FindSizeOption(options);
    if sizeOpt.None? && |options| == 1 && options[0].name != "Title" then Some(options[0].value)
    else if sizeOpt.Some? then Some(sizeOpt.value.value)
    else None
  }

  /** The rule `SizeOf` applies, stated over the options themselves. */
  lemma SizeOfSpec(options: seq<SelectedOption>)
    ensures (exists k :: 0 <= k < |options| && IsSizeOption(options[k])) ==>
      SizeOf(options).Some?
      && (exists k :: 0 <= k < |options| && IsSizeOption(options[k]) && SizeOf(options).value == options[k].value
                      && forall j :: 0 <= j < k ==> !IsSizeOption(options[j]))
    ensures (forall k :: 0 <= k < |options| ==> !IsSizeOption(options[k])) ==>
      SizeOf(options) == (if |options| == 1 && options[0].name != "Title" then Some(options[0].value) else None)
  {
  }

  /** `.map(...).filter(Boolean)`: the non-empty sizes, in variant order. */
  function RawSizes(variants: seq<Variant>): (r: seq<string>)
    ensures forall s :: s in r <==> s != "" && exists v :: v in variants && SizeOf(v.selectedOptions) == Some(s)
    decreases |variants|
  {
    if |variants| == 0 then []
    else
      var rest := RawSizes(variants[1..]);
      assert forall v :: v in variants <==> v == variants[0] || v in variants[1..] by {
        assert variants == [variants[0]] + variants[1..];
      }
      var head := SizeOf(variants[0].selectedOptions);
      if head.Some? && head.value != "" then [head.value] + rest else rest
  }

  /** `Array.from(new Set(xs))`: each value once, where it first appears. */
  function Dedup(xs: seq<string>): (r: seq<string>)
    ensures forall x :: x in r <==> x in xs
    decreases |xs|
  {
    if |xs| == 0 then []
    else
      var p := xs[..|xs| - 1];
      assert xs == p + [xs[|xs| - 1]];
      var d := Dedup(p);
      if xs[|xs| - 1] in d then d else d + [xs[|xs| - 1]]
  }

  ghost predicate NoDuplicates(xs: seq<string>) {
    forall i, j :: 0 <= i < j < |xs| ==> xs[i] != xs[j]
  }

  /** The position of the first occurrence. */
  function FirstIndex(xs: seq<string>, x: string): (i: nat)
    requires x in xs
    ensures i < |xs| && xs[i] == x && forall j :: 0 <= j < i ==> xs[j] != x
    decreases |xs|
  {
    if xs[0] == x then 0 else 1 + FirstIndex(xs[1..], x)
  }

  lemma FirstIndexOfPrefix(xs: seq<string>, y: string, x: string)
    requires x in xs
    ensures x in xs + [y] && FirstIndex(xs + [y], x) == FirstIndex(xs, x)
  {
    var i := FirstIndex(xs, x);
    var k := FirstIndex(xs + [y], x);
    assert (xs + [y])[i] == x;
    assert k <= i;
    assert xs[k] == (xs + [y])[k];
  }

  /** `Dedup` lists each value once. */
  lemma {:induction false} DedupNoDuplicates(xs: seq<string>)
    ensures NoDuplicates(Dedup(xs))
    decreases |xs|
  {
    if |xs| > 0 {
      DedupNoDuplicates(xs[..|xs| - 1]);
    }
  }

  /** `Dedup` lists the values in order of first occurrence. */
  lemma {:induction false} DedupOrder(xs: seq<string>)
    ensures forall i, j :: 0 <= i < j < |Dedup(xs)| ==>
      FirstIndex(xs, Dedup(xs)[i]) < FirstIndex(xs, Dedup(xs)[j])
    decreases |xs|
  {
    if |xs| > 0 {
      var p := xs[..|xs| - 1];
      var y := xs[|xs| - 1];
      assert xs == p + [y];
      DedupOrder(p);
      var d := Dedup(p);
      var e := Dedup(xs);
      forall x | x in d ensures FirstIndex(xs, x) == FirstIndex(p, x) {
        FirstIndexOfPrefix(p, y, x);
      }
      if y !in d {
        FirstIndexNew(p, y);
        assert e == d + [y];
        forall i, j | 0 <= i < j < |e| ensures FirstIndex(xs, e[i]) < FirstIndex(xs, e[j]) {
          assert e[i] == d[i] && d[i] in d;
          if j < |d| {
            assert e[j] == d[j] && d[j] in d;
          }
        }
      }
    }
  }

  /** A value that is new at the end is first found there. */
  lemma FirstIndexNew(p: seq<string>, y: string)
    requires y !in p
    ensures y in p + [y] && FirstIndex(p + [y], y) == |p|
    ensures forall x :: x in p ==> FirstIndex(p + [y], x) < |p|
  {
    var xs := p + [y];
    assert xs[|p|] == y;
    forall x | x in p ensures FirstIndex(xs, x) < |p| {
      FirstIndexOfPrefix(p, y, x);
    }
  }

  /** `Dedup` keeps exactly the values of its input, each once, in order of first occurrence. */
  lemma DedupSpec(xs: seq<string>)
    ensures forall x :: x in Dedup(xs) <==> x in xs
    ensures NoDuplicates(Dedup(xs))
    ensures forall i, j :: 0 <= i < j < |Dedup(xs)| ==>
      FirstIndex(xs, Dedup(xs)[i]) < FirstIndex(xs, Dedup(xs)[j])
  {
    DedupNoDuplicates(xs);
    DedupOrder(xs);
  }

  /** The size list both components show. */
  function Sizes(variants: seq<Variant>): seq<string> {
    Dedup(RawSizes(variants))
  }

  /** No duplicates, no empty or undefined value, exactly the sizes the
      variants contribute, listed where each first appears. */
  lemma SizesSpec(variants: seq<Variant>)
    ensures NoDuplicates(Sizes(variants))
    ensures forall s :: s in Sizes(variants) <==> s != "" && exists v :: v in variants && SizeOf(v.selectedOptions) == Some(s)
    ensures forall i, j :: 0 <= i < j < |Sizes(variants)| ==>
      FirstIndex(RawSizes(variants), Sizes(variants)[i]) < FirstIndex(RawSizes(variants), Sizes(variants)[j])
  {
    DedupSpec(RawSizes(variants));
  }

  /** The variant test of `selectedVariant`: a size-named option with the chosen
      value, or a sole option with it. An undefined size matches nothing. */
  ghost predicate MatchesSize(v: Variant, size: Option<string>) {
    size.Some? &&
    ((exists k :: 0 <= k < |v.selectedOptions| && IsSizeOption(v.selectedOptions[k]) && v.selectedOptions[k].value == size.value)
     || (|v.selectedOptions| == 1 && v.selectedOptions[0].value == size.value))
  }

  function HasMatchingOption(options: seq<SelectedOption>, size: string): (r: bool)
    ensures r <==> exists k :: 0 <= k < |options| && IsSizeOption(options[k]) && options[k].value == size
    decreases |options|
  {
    if |options| == 0 then false
    else if IsSizeOption(options[0]) && options[0].value == size then true
    else
      var r := HasMatchingOption(options[1..], size);
      assert forall k :: 0 < k < |options| ==> options[k] == options[1..][k - 1];
      assert r ==> exists k :: 0 <= k < |options| && IsSizeOption(options[k]) && options[k].value == size by {
        if r {
          var k :| 0 <= k < |options[1..]| && IsSizeOption(options[1..][k]) && options[1..][k].value == size;
          assert options[k + 1] == options[1..][k];
        }
      }
      r
  }

  /** The test `selectedVariant` applies to one variant. */
  predicate Matches(v: Variant, size: string) {
    HasMatchingOption(v.selectedOptions, size)
    || (|v.selectedOptions| == 1 && v.selectedOptions[0].value == size)
  }

  /** `variants.find(...)?.node`: the first variant matching the chosen size. */
  function SelectedVariant(variants: seq<Variant>, size: Option<string>): (r: Option<Variant>)
    ensures r.Some? <==> exists i :: 0 <= i < |variants| && MatchesSize(variants[i], size)
    ensures r.Some? ==> exists i :: 0 <= i < |variants| && variants[i] == r.value && MatchesSize(r.value, size)
                                    && forall j :: 0 <= j < i ==> !MatchesSize(variants[j], size)
  {
    if size.None? then None else FindFrom(variants, size.value, 0)
  }

  /** The search of `find` from position `k` on. */
  function FindFrom(variants: seq<Variant>, size: string, k: nat): (r: Option<Variant>)
    requires k <= |variants|
    ensures r.Some? <==> exists i :: k <= i < |variants| && Matches(variants[i], size)
    ensures r.Some? ==> exists i :: k <= i < |variants| && variants[i] == r.value && Matches(r.value, size)
                                    && forall j :: k <= j < i ==> !Matches(variants[j], size)
    decreases |variants| - k
  {
    if k == |variants| then None
    else if Matches(variants[k], size) then Some(variants[k])
    else FindFrom(variants, size, k + 1)
  }

  /** What the price line shows; the number formatting is left out. */
  datatype PriceDisplay = VariantPrice(price: Money) | SinglePrice(price: Money) | PriceSpan(min: Money, max: Money)

  function PriceDisplayFor(product: Product, selectedSize: Option<string>): (r: PriceDisplay)
    ensures Truthy(selectedSize) && SelectedVariant(product.variants, selectedSize).Some? ==>
      r == VariantPrice(SelectedVariant(product.variants, selectedSize).value.price)
    ensures !(Truthy(selectedSize) && SelectedVariant(product.variants, selectedSize).Some?) ==>
      r == (if product.priceRange.minVariantPrice.amount == product.priceRange.maxVariantPrice.amount
            then SinglePrice(product.priceRange.minVariantPrice)
            else PriceSpan(product.priceRange.minVariantPrice, product.priceRange.maxVariantPrice))
  {
    var selectedVariant := SelectedVariant(product.variants, selectedSize);
    if Truthy(selectedSize) && selectedVariant.Some? then VariantPrice(selectedVariant.value.price)
    else if product.priceRange.minVariantPrice.amount == product.priceRange.maxVariantPrice.amount then
      SinglePrice(product.priceRange.minVariantPrice)
    else PriceSpan(product.priceRange.minVariantPrice, product.priceRange.maxVariantPrice)
  }

  /** The add-to-cart button of the product page is disabled. */
  function IsOutOfStock(product: Product, selectedSize: Option<string>): (r: bool)
    ensures Truthy(selectedSize) ==>
      (r <==> !(exists i :: 0 <= i < |product.variants| && MatchesSize(product.variants[i], selectedSize))
              || !SelectedVariant(product.variants, selectedSize).value.availableForSale)
    ensures !Truthy(selectedSize) ==> (r <==> !product.availableForSale)
  {
    var selectedVariant := SelectedVariant(product.variants, selectedSize);
    if Truthy(selectedSize) then
      (if selectedVariant.Some? then !selectedVariant.value.availableForSale else true)
    else !product.availableForSale
  }

  /** An image and the index it has in `allImages`. */
  datatype Thumbnail = Thumbnail(img: Image, actualIndex: nat)

  /** `(prev - 1 + n) % n` and `(prev + 1) % n`; for `0 <= prev < n` the
      JavaScript remainder is never taken of a negative number. */
  function PrevStart(prev: int, n: nat): (r: int)
    requires n > 0 && 0 <= prev < n
    ensures 0 <= r < n && r == (if prev == 0 then n - 1 else prev - 1)
  {
    (prev - 1 + n) % n
  }

  function NextStart(prev: int, n: nat): (r: int)
    requires n > 0 && 0 <= prev < n
    ensures 0 <= r < n && r == (if prev == n - 1 then 0 else prev + 1)
  {
    (prev + 1) % n
  }

  /** Next undoes prev and prev undoes next. */
  lemma PrevNextInverse(s: int, n: nat)
    requires n > 0 && 0 <= s < n
    ensures NextStart(PrevStart(s, n), n) == s && PrevStart(NextStart(s, n), n) == s
  {
  }

  /** The thumbnails for a window of `window` slots starting at `start`. */
  ghost predicate IsWindow(images: seq<Image>, start: nat, window: nat, r: seq<Thumbnail>) {
    && |r| == (if |images| > 0 then window else 0)
    && forall i :: 0 <= i < |r| ==> r[i] == Thumbnail(images[(start + i) % |images|], (start + i) % |images|)
  }

  /** With at least as many images as slots, no image is shown twice. */
  lemma WindowDistinct(images: seq<Image>, start: nat, window: nat, r: seq<Thumbnail>)
    requires IsWindow(images, start, window, r) && start < |images| && window <= |images|
    ensures forall i, j :: 0 <= i < j < |r| ==> r[i].actualIndex != r[j].actualIndex
  {
    var n := |images|;
    forall i, j | 0 <= i < j < |r| ensures r[i].actualIndex != r[j].actualIndex {
      WrapDistinct(start, i, j, n);
    }
  }

  lemma WrapDistinct(start: nat, i: nat, j: nat, n: nat)
    requires start < n && i < j < n
    ensures (start + i) % n != (start + j) % n
  {
    WrapOnce(start + i, n);
    WrapOnce(start + j, n);
  }

  /** Below `2 * n` the remainder subtracts `n` at most once. */
  lemma WrapOnce(x: nat, n: nat)
    requires 0 < n && x < 2 * n
    ensures x % n == (if x < n then x else x - n)
  {
    if n <= x {
      assert (x - n) % n == x - n;
    }
  }

  /** The carousel and image selection of one product view. */
  class Gallery {
    const allImages: seq<Image>
    const window: nat
    var carouselStartIndex: nat
    var selectedImageIndex: nat

    ghost predicate Valid()
      reads this
    {
      |allImages| == 0 || carouselStartIndex < |allImages|
    }

    constructor(allImages: seq<Image>, window: nat)
      ensures this.allImages == allImages && this.window == window
      ensures carouselStartIndex == 0 && selectedImageIndex == 0 && Valid()
    {
      this.allImages := allImages;
      this.window := window;
      carouselStartIndex := 0;
      selectedImageIndex := 0;
    }

    method HandlePrev()
      requires Valid()
      modifies this
      ensures Valid() && selectedImageIndex == old(selectedImageIndex)
      ensures |allImages| == 0 ==> carouselStartIndex == old(carouselStartIndex)
      ensures |allImages| > 0 ==> carouselStartIndex == PrevStart(old(carouselStartIndex), |allImages|)
    {
      if |allImages| == 0 {
        return;
      }
      carouselStartIndex := (carouselStartIndex - 1 + |allImages|) % |allImages|;
    }

    method HandleNext()
      requires Valid()
      modifies this
      ensures Valid() && selectedImageIndex == old(selectedImageIndex)
      ensures |allImages| == 0 ==> carouselStartIndex == old(carouselStartIndex)
      ensures |allImages| > 0 ==> carouselStartIndex == NextStart(old(carouselStartIndex), |allImages|)
    {
      if |allImages| == 0 {
        return;
      }
      carouselStartIndex := (carouselStartIndex + 1) % |allImages|;
    }

    /** A click on a thumbnail. */
    method SelectImage(actualIndex: nat)
      modifies this
      ensures selectedImageIndex == actualIndex && carouselStartIndex == old(carouselStartIndex)
    {
      selectedImageIndex := actualIndex;
    }

    /** `allImages[selectedImageIndex] || allImages[0]`. */
    function MainImage(): (r: Option<Image>)
      reads this
      ensures selectedImageIndex < |allImages| ==> r == Some(allImages[selectedImageIndex])
      ensures selectedImageIndex >= |allImages| && |allImages| > 0 ==> r == Some(allImages[0])
      ensures |allImages| == 0 ==> r.None?
    {
      if selectedImageIndex < |allImages| then Some(allImages[selectedImageIndex])
      else if |allImages| > 0 then Some(allImages[0])
      else None
    }

    /** The `for` loop that fills `visibleImages`. */
    method VisibleImages() returns (visibleImages: seq<Thumbnail>)
      requires Valid()
      ensures IsWindow(allImages, carouselStartIndex, window, visibleImages)
      ensures window <= |allImages| ==>
        forall i, j :: 0 <= i < j < |visibleImages| ==> visibleImages[i].actualIndex != visibleImages[j].actualIndex
    {
      visibleImages := [];
      if |allImages| > 0 {
        for i := 0 to window
          invariant |visibleImages| == i
          invariant forall k :: 0 <= k < i ==>
            visibleImages[k] == Thumbnail(allImages[(carouselStartIndex + k) % |allImages|], (carouselStartIndex + k) % |allImages|)
        {
          var index := (carouselStartIndex + i) % |allImages|;
          visibleImages := visibleImages + [Thumbnail(allImages[index], index)];
        }
      }
      if window <= |allImages| && |allImages| > 0 {
        WindowDistinct(allImages, carouselStartIndex, window, visibleImages);
      }
    }
  }

  /** The gallery state `FloatingProductCard` sets up for a product's images. */
  method FloatingCardGallery(allImages: seq<Image>) returns (g: Gallery)
    ensures g.allImages == allImages && g.window == FloatingCardWindow
    ensures g.carouselStartIndex == 0 && g.selectedImageIndex == 0 && g.Valid()
  {
    g := new Gallery(allImages, FloatingCardWindow);
  }

  /** The gallery state `ProductPageContent` sets up for a product's images. */
  method ProductPageGallery(allImages: seq<Image>) returns (g: Gallery)
    ensures g.allImages == allImages && g.window == ProductPageWindow
    ensures g.carouselStartIndex == 0 && g.selectedImageIndex == 0 && g.Valid()
  {
    g := new Gallery(allImages, ProductPageWindow);
  }
}
