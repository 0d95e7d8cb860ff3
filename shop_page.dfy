/** The shop page: which product list it loads, the price-range filter it
    applies on top, the free-shipping badge, and the item it adds to the cart. */
module ShopPage {
  import opened Seqs
  import opened CartStore
  import opened Database
  import Pricing

  /** The slider's initial range, which is also the whole track it can move
      along: its minimum is 0 and its maximum 500. */
  const DefaultLow: real := 0.0
  const DefaultHigh: real := 500.0

  /** A range the slider can produce: both thumbs on the track, in order. */
  predicate SliderRange(low: real, high: real)
  {
    DefaultLow <= low <= high <= DefaultHigh
  }

  /** Where the product list comes from. */
  datatype Source = BySearch(query: string) | ByCategory(category: string) | AllProducts

  /** A non-empty search query wins over a category, and a category over
      loading everything. */
  function LoadSource(searchQuery: string, categoryFilter: string): (src: Source)
    ensures searchQuery != "" ==> src == BySearch(searchQuery)
    ensures searchQuery == "" && categoryFilter != "" ==> src == ByCategory(categoryFilter)
    ensures searchQuery == "" && categoryFilter == "" ==> src == AllProducts
  {
    if searchQuery != "" then BySearch(searchQuery)
    else if categoryFilter != "" then ByCategory(categoryFilter)
    else AllProducts
  }

  /** The list the chosen product service returns over the products table. */
  function Fetch(table: seq<Product>, src: Source): (r: seq<Product>)
    ensures IsSubsequence(r, table)
    ensures forall p :: p in r ==> p in table
  {
    match src
    case BySearch(q) => Search(table, q)
    case ByCategory(c) => GetByCategory(table, c)
    case AllProducts =>
      FilterKeepsAll(table, (p: Product) => true);
      FilterIsOrderedSelection(table, (p: Product) => true);
      table
  }

  function InPriceRange(low: real, high: real): Product -> bool
  {
    (p: Product) => low <= p.price <= high
  }

  /** The price filter: exactly the products priced within the range, each as
      often as in the loaded list, in their original order. */
  function PriceFilter(products: seq<Product>, low: real, high: real): (r: seq<Product>)
    ensures forall p :: p in r ==> p in products && low <= p.price <= high
    ensures forall p :: p in products && low <= p.price <= high ==> p in r
    ensures forall p :: p in products && low <= p.price <= high ==> multiset(r)[p] == multiset(products)[p]
    ensures IsSubsequence(r, products)
  {
    FilterIsOrderedSelection(products, InPriceRange(low, high));
    Filter(products, InPriceRange(low, high))
  }

  /** The initial range hides products above 500. */
  lemma DefaultRangeHidesAbove500(products: seq<Product>, p: Product)
    requires p.price > DefaultHigh
    ensures p !in PriceFilter(products, DefaultLow, DefaultHigh)
  {
  }

  /** The slider cannot reach beyond 500, so no range it produces lets a
      product above 500 through, and none drops a product priced within it. */
  lemma SliderRangeHidesAbove500(products: seq<Product>, low: real, high: real)
    requires SliderRange(low, high)
    ensures forall p :: p in PriceFilter(products, low, high) ==> DefaultLow <= p.price <= DefaultHigh
    ensures forall p :: p in products && low <= p.price <= high ==> p in PriceFilter(products, low, high)
  {
  }

  /** The FREE shipping badge and label show from 35 upwards. */
  predicate FreeShippingBadge(price: real)
  {
    price >= 35.0
  }

  /** The badge's boundary is not the checkout's: a 35.00 product shows the
      badge, yet a cart holding just that product pays shipping. Above 35 the
      two agree. */
  lemma BadgeBoundaryDiffersFromShipping(price: real)
    ensures FreeShippingBadge(35.0) && Pricing.Shipping(35.0) == Pricing.FlatShipping
    ensures price > 35.0 ==> FreeShippingBadge(price) && Pricing.Shipping(price) == 0.0
    ensures !FreeShippingBadge(price) ==> Pricing.Shipping(price) == Pricing.FlatShipping
  {
  }

  /** `handleAddToCart`: the product's own fields, with `''` for a missing (or
      empty) image and 'Unknown Seller' for a missing or empty seller name. */
  function CartItemFor(p: Product): (item: StoreItem)
    ensures item.id == p.id && item.title == p.title && item.price == p.price
    ensures p.image.Some? ==> item.image == p.image.value
    ensures p.image.None? ==> item.image == ""
    ensures p.sellerName.Some? && p.sellerName.value != "" ==> item.seller == p.sellerName.value
    ensures p.sellerName.None? || p.sellerName == Some("") ==> item.seller == "Unknown Seller"
  {
    var image := if p.image.Some? then p.image.value else "";
    var seller := if p.sellerName.Some? && p.sellerName.value != "" then p.sellerName.value else "Unknown Seller";
    StoreItem(p.id, p.title, p.price, image, seller)
  }

  class ShopState {
    /** The `search` and `category` query parameters (`''` when absent). */
    const searchQuery: string
    const categoryFilter: string

    var priceLow: real
    var priceHigh: real
    var products: seq<Product>
    var filteredProducts: seq<Product>
    var loading: bool

    /** The range is one the slider can produce. */
    ghost predicate Valid()
      reads this
    {
      SliderRange(priceLow, priceHigh)
    }

    constructor (searchQuery: string, categoryFilter: string)
      ensures this.searchQuery == searchQuery && this.categoryFilter == categoryFilter
      ensures priceLow == DefaultLow && priceHigh == DefaultHigh
      ensures products == [] && filteredProducts == [] && loading
      ensures Valid()
    {
      this.searchQuery := searchQuery;
      this.categoryFilter := categoryFilter;
      priceLow, priceHigh := DefaultLow, DefaultHigh;
      products, filteredProducts := [], [];
      loading := true;
    }

    /** The loading effect: a loaded list replaces both `products` and
        `filteredProducts`; a failed fetch leaves them as they were. Either way
        loading ends. `fetchFails` stands for a rejected request. */
    method LoadProducts(table: seq<Product>, fetchFails: bool)
      requires Valid()
      modifies this`products, this`filteredProducts, this`loading
      ensures Valid()
      ensures !loading
      ensures !fetchFails ==>
        var loaded := Fetch(table, LoadSource(searchQuery, categoryFilter));
        products == loaded && filteredProducts == loaded
      ensures fetchFails ==> products == old(products) && filteredProducts == old(filteredProducts)
    {
      loading := true;
      if !fetchFails {
        var loadedProducts := Fetch(table, LoadSource(searchQuery, categoryFilter));
        products := loadedProducts;
        filteredProducts := loadedProducts;
      }
      loading := false;
    }

    /** The price-filter effect, run whenever `products` or the range
        changes. Once it has run, nothing above 500 is shown. */
    method ApplyPriceFilter()
      requires Valid()
      modifies this`filteredProducts
      ensures Valid()
      ensures filteredProducts == PriceFilter(products, priceLow, priceHigh)
      ensures forall p :: p in filteredProducts ==> p.price <= DefaultHigh
    {
      filteredProducts := PriceFilter(products, priceLow, priceHigh);
    }

    /** Moving the slider, followed by the filter effect it triggers. */
    method SetPriceRange(low: real, high: real)
      requires Valid() && SliderRange(low, high)
      modifies this`priceLow, this`priceHigh, this`filteredProducts
      ensures Valid()
      ensures priceLow == low && priceHigh == high
      ensures filteredProducts == PriceFilter(products, low, high)
      ensures forall p :: p in filteredProducts ==> p.price <= DefaultHigh
    {
      priceLow, priceHigh := low, high;
      ApplyPriceFilter();
    }

    /** A load followed by the filter effect its new `products` triggers: what
        is shown is the loaded list cut to the current price range. */
    method Reload(table: seq<Product>)
      requires Valid()
      modifies this`products, this`filteredProducts, this`loading
      ensures Valid()
      ensures !loading
      ensures products == Fetch(table, LoadSource(searchQuery, categoryFilter))
      ensures filteredProducts == PriceFilter(products, priceLow, priceHigh)
      ensures forall p :: p in filteredProducts ==> p in table && priceLow <= p.price <= priceHigh
      ensures forall p :: p in filteredProducts ==> p.price <= DefaultHigh
    {
      LoadProducts(table, false);
      ApplyPriceFilter();
    }
  }
}
