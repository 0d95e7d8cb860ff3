/** The product detail page: looking the product up in the mock catalogue, the
    four-image gallery and its carousel, the quantity picker, and the
    add-to-cart button that repeats one store call per unit. */
module ProductPage {
  import opened Seqs
  import opened CartStore
  import opened Text

  /** The fields of a mock catalogue entry that the page uses. */
  datatype MockProduct = MockProduct(id: string, title: string, price: real,
                                     image: string, seller: string, category: string)

  function IdIs(id: string): MockProduct -> bool
  {
    (p: MockProduct) => p.id == id
  }

  /** `mockProducts.find(p => p.id === id)`. */
  function Lookup(catalog: seq<MockProduct>, id: string): (r: Option<MockProduct>)
    ensures r.None? <==> forall p :: p in catalog ==> p.id != id
    ensures r.Some? ==> r.value.id == id && r.value in catalog
    ensures r.Some? ==> exists k :: 0 <= k < |catalog| && catalog[k] == r.value &&
                                    forall j :: 0 <= j < k ==> catalog[j].id != id
  {
    FindFirst(catalog, IdIs(id))
  }

  /** The number of images in the gallery. */
  const ImageCount: nat := 4

  /** The gallery: the product image, then three variants of its URL with the
      first `w=400`, `h=400` and `fit=crop` rewritten. */
  function Gallery(image: string): (images: seq<string>)
    ensures |images| == ImageCount && images[0] == image
  {
    [image,
     ReplaceFirst(image, "w=400", "w=500"),
     ReplaceFirst(image, "h=400", "h=500"),
     ReplaceFirst(image, "fit=crop", "fit=cover")]
  }

  /** An image URL with none of the three parameters gives four copies of
      itself. */
  lemma GalleryOfPlainUrl(image: string)
    requires !Contains(image, "w=400") && !Contains(image, "h=400") && !Contains(image, "fit=crop")
    ensures Gallery(image) == [image, image, image, image]
  {
    ReplaceFirstWithoutPattern(image, "w=400", "w=500");
    ReplaceFirstWithoutPattern(image, "h=400", "h=500");
    ReplaceFirstWithoutPattern(image, "fit=crop", "fit=cover");
  }

  /** The URL shape of the catalogue images, `base?w=400&h=400&fit=crop`. */
  function SizedUrl(base: string): string
  {
    base + "?" + "w=400" + "&" + "h=400" + "&" + "fit=crop"
  }

  /** A pattern whose `k`th character is `=` cannot start at a position of a
      base without `=` when that character would fall inside the base. */
  lemma BaseMismatch(base: string, tail: string, pat: string, k: nat, i: nat)
    requires '=' !in base && k < |pat| && pat[k] == '=' && i + k < |base|
    ensures !OccursAt(base + tail, pat, i)
  {
    assert base[i + k] in base;
    assert (base + tail)[i + k] == base[i + k];
    MismatchAt(base + tail, pat, i, k);
  }

  /** The second image widens the URL and leaves the rest as it was. */
  lemma WidthVariant(base: string)
    requires '=' !in base
    ensures ReplaceFirst(SizedUrl(base), "w=400", "w=500") ==
            base + "?" + "w=500" + "&" + "h=400" + "&" + "fit=crop"
  {
    var pat, post := "w=400", "&" + "h=400" + "&" + "fit=crop";
    var s := base + "?" + pat + post;
    assert SizedUrl(base) == s && s == base + ("?" + pat + post);
    forall i | 0 <= i < |base + "?"|
      ensures !OccursAt(s, pat, i)
    {
      if i + 1 < |base| {
        BaseMismatch(base, "?" + pat + post, pat, 1, i);
      } else if i + 1 == |base| {
        MismatchAt(s, pat, i, 1);
      } else {
        MismatchAt(s, pat, i, 0);
      }
    }
    ReplaceAfterPrefix(base + "?", pat, post, "w=500");
  }

  /** The third image heightens the URL and leaves the rest as it was. */
  lemma HeightVariant(base: string)
    requires '=' !in base
    ensures ReplaceFirst(SizedUrl(base), "h=400", "h=500") ==
            base + "?" + "w=400" + "&" + "h=500" + "&" + "fit=crop"
  {
    var before, pat, post := "?" + "w=400" + "&", "h=400", "&" + "fit=crop";
    var s := base + before + pat + post;
    assert SizedUrl(base) == s && s == base + (before + pat + post);
    forall i | 0 <= i < |base + before|
      ensures !OccursAt(s, pat, i)
    {
      if i + 1 < |base| {
        BaseMismatch(base, before + pat + post, pat, 1, i);
      } else if i + 1 == |base| {
        MismatchAt(s, pat, i, 1);
      } else {
        assert s[i] == before[i - |base|] && before[i - |base|] in before;
        MismatchAt(s, pat, i, 0);
      }
    }
    ReplaceAfterPrefix(base + before, pat, post, "h=500");
  }

  /** No `fit=crop` starts before the one a catalogue URL ends with. */
  lemma FitOnlyAtEnd(base: string)
    requires '=' !in base
    ensures var pre := base + "?" + "w=400" + "&" + "h=400" + "&";
      forall i :: 0 <= i < |pre| ==> !OccursAt(pre + "fit=crop" + "", "fit=crop", i)
  {
    var before, pat := "?" + "w=400" + "&" + "h=400" + "&", "fit=crop";
    var s := base + before + pat;
    assert s == base + (before + pat);
    assert base + "?" + "w=400" + "&" + "h=400" + "&" + pat + "" == s;
    forall i | 0 <= i < |base + before|
      ensures !OccursAt(s, pat, i)
    {
      if i + 3 < |base| {
        BaseMismatch(base, before + pat, pat, 3, i);
      } else if i < |base| {
        var j := i + 3 - |base|;
        assert s[i + 1] == (if i + 1 < |base| then base[i + 1] else before[0]);
        assert s[i + 3] == before[j];
        if j == 2 {
          MismatchAt(s, pat, i, 1);
        } else {
          MismatchAt(s, pat, i, 3);
        }
      } else {
        assert s[i] == before[i - |base|] && before[i - |base|] in before;
        MismatchAt(s, pat, i, 0);
      }
    }
  }

  /** The fourth image changes the fit and leaves the rest as it was. */
  lemma FitVariant(base: string)
    requires '=' !in base
    ensures ReplaceFirst(SizedUrl(base), "fit=crop", "fit=cover") ==
            base + "?" + "w=400" + "&" + "h=400" + "&" + "fit=cover"
  {
    var pre := base + "?" + "w=400" + "&" + "h=400" + "&";
    FitOnlyAtEnd(base);
    ReplaceAfterPrefix(pre, "fit=crop", "", "fit=cover");
    assert pre + "fit=crop" + "" == pre + "fit=crop";
    assert pre + "fit=cover" + "" == pre + "fit=cover";
  }

  /** The gallery of a catalogue image URL (its base, `https://…/photo-…`,
      holds no `=`): the URL itself, then the wider, the taller and the
      `fit=cover` variant, each differing from the URL only in its own
      parameter. */
  lemma GalleryOfSizedUrl(base: string)
    requires '=' !in base
    ensures Gallery(SizedUrl(base)) ==
      [base + "?" + "w=400" + "&" + "h=400" + "&" + "fit=crop",
       base + "?" + "w=500" + "&" + "h=400" + "&" + "fit=crop",
       base + "?" + "w=400" + "&" + "h=500" + "&" + "fit=crop",
       base + "?" + "w=400" + "&" + "h=400" + "&" + "fit=cover"]
  {
    WidthVariant(base);
    HeightVariant(base);
    FitVariant(base);
  }

  /** The next-image arrow: from the last image back to the first, otherwise
      one on. */
  function NextIndex(i: int, n: int): (r: int)
    ensures 0 <= i < n ==> 0 <= r < n && r == (i + 1) % n
  {
    if i == n - 1 then 0 else i + 1
  }

  /** The previous-image arrow: from the first image to the last, otherwise one
      back. */
  function PrevIndex(i: int, n: int): (r: int)
    ensures 0 <= i < n ==> 0 <= r < n && r == (i - 1) % n
  {
    if i == 0 then n - 1 else i - 1
  }

  /** The two arrows undo each other. */
  lemma ArrowsAreInverse(i: int, n: int)
    requires 0 <= i < n
    ensures PrevIndex(NextIndex(i, n), n) == i
    ensures NextIndex(PrevIndex(i, n), n) == i
  {
  }

  /** The index reached by pressing next `k` times from `i`. */
  function NextTimes(i: int, k: nat): int
  {
    if k == 0 then i else NextIndex(NextTimes(i, k - 1), ImageCount)
  }

  /** Pressing next `k` times from a valid index moves `k` places round the
      gallery; in particular four presses come back to the start. */
  lemma {:induction false} NextTimesWraps(i: int, k: nat)
    requires 0 <= i < ImageCount
    ensures NextTimes(i, k) == (i + k) % ImageCount
  {
    if k > 0 {
      NextTimesWraps(i, k - 1);
      NextWrapsModulo(i + k - 1);
    }
  }

  /** One step of next on the residue of `x` is the residue of `x + 1`. */
  lemma NextWrapsModulo(x: int)
    ensures NextIndex(x % ImageCount, ImageCount) == (x + 1) % ImageCount
  {
    var q, m := x / 4, x % 4;
    assert x == 4 * q + m && 0 <= m < 4;
    if m == 3 {
      assert x + 1 == 4 * (q + 1);
    } else {
      assert x + 1 == 4 * q + (m + 1);
    }
  }

  /** The minus button of the quantity picker. */
  function DecrementQuantity(q: int): (r: int)
    ensures r >= 1
    ensures q > 1 ==> r == q - 1
    ensures q <= 1 ==> r == 1
  {
    if 1 > q - 1 then 1 else q - 1
  }

  /** The item handed to the cart store. */
  function Snapshot(p: MockProduct): (item: StoreItem)
    ensures item.id == p.id && item.title == p.title && item.price == p.price
    ensures item.image == p.image && item.seller == p.seller
  {
    StoreItem(p.id, p.title, p.price, p.image, p.seller)
  }

  /** What the page renders for an id. */
  datatype View = NotFound | Detail(product: MockProduct, images: seq<string>)

  function Render(catalog: seq<MockProduct>, id: string): (v: View)
    ensures v.NotFound? <==> forall p :: p in catalog ==> p.id != id
    ensures v.Detail? ==> Lookup(catalog, id) == Some(v.product) && v.images == Gallery(v.product.image)
  {
    match Lookup(catalog, id)
    case None => NotFound
    case Some(p) => Detail(p, Gallery(p.image))
  }

  /** The detail view of a found product, with its carousel and quantity state. */
  class ProductDetail {
    const product: MockProduct
    const images: seq<string>
    var currentImageIndex: int
    var quantity: int

    /** The index always names an image and the quantity is at least 1. */
    ghost predicate Valid()
      reads this
    {
      |images| == ImageCount && 0 <= currentImageIndex < |images| && quantity >= 1
    }

    constructor (product: MockProduct)
      ensures Valid()
      ensures this.product == product && images == Gallery(product.image)
      ensures currentImageIndex == 0 && quantity == 1
    {
      this.product := product;
      images := Gallery(product.image);
      currentImageIndex := 0;
      quantity := 1;
    }

    method Previous()
      requires Valid()
      modifies this`currentImageIndex
      ensures Valid()
      ensures currentImageIndex == PrevIndex(old(currentImageIndex), |images|)
    {
      currentImageIndex := if currentImageIndex == 0 then |images| - 1 else currentImageIndex - 1;
    }

    method Next()
      requires Valid()
      modifies this`currentImageIndex
      ensures Valid()
      ensures currentImageIndex == NextIndex(old(currentImageIndex), |images|)
    {
      currentImageIndex := if currentImageIndex == |images| - 1 then 0 else currentImageIndex + 1;
    }

    /** A thumbnail click; thumbnails exist only for positions of `images`. */
    method SelectThumbnail(index: int)
      requires Valid() && 0 <= index < |images|
      modifies this`currentImageIndex
      ensures Valid() && currentImageIndex == index
    {
      currentImageIndex := index;
    }

    method DecreaseQuantity()
      requires Valid()
      modifies this`quantity
      ensures Valid() && quantity == DecrementQuantity(old(quantity))
    {
      quantity := if 1 > quantity - 1 then 1 else quantity - 1;
    }

    method IncreaseQuantity()
      requires Valid()
      modifies this`quantity
      ensures Valid() && quantity == old(quantity) + 1
    {
      quantity := quantity + 1;
    }

    /** `handleAddToCart`: one `addToCart` call per unit, all with the same
        snapshot of the product. */
    method HandleAddToCart() returns (calls: seq<StoreCall>)
      ensures |calls| == if quantity > 0 then quantity else 0
      ensures forall k :: 0 <= k < |calls| ==> calls[k] == AddToCart(Snapshot(product))
    {
      calls := [];
      var i := 0;
      while i < quantity
        invariant 0 <= i <= (if quantity > 0 then quantity else 0)
        invariant |calls| == i
        invariant forall k :: 0 <= k < |calls| ==> calls[k] == AddToCart(Snapshot(product))
      {
        calls := calls + [AddToCart(StoreItem(product.id, product.title, product.price,
                                              product.image, product.seller))];
        i := i + 1;
      }
    }
  }
}
