/** The data-access services over the hosted database, with the database itself
    replaced by in-memory tables (sequences of records in table order):
    `list` with a `where` filter keeps the matching rows in order, `create`
    appends a row, `update(id, ...)` patches every row with that id and
    `delete(id)` drops every row with that id. Identifiers and timestamps built
    from the clock and from `Math.random` are passed in as parameters. */
module Database {
  import opened Seqs
  import opened Text

  datatype Product = Product(
    id: string, title: string, description: Option<string>, price: real,
    image: Option<string>, category: Option<string>, sellerId: Option<string>,
    sellerName: Option<string>, rating: Option<real>, reviewCount: Option<int>,
    inStock: Option<bool>)

  datatype CartItem = CartItem(id: string, userId: string, productId: string, quantity: int)

  datatype Order = Order(
    id: string, userId: string, orderNumber: string, status: string,
    totalAmount: real, shippingCost: real, taxAmount: real, paymentMethod: string,
    paymentStatus: string, shippingAddress: string, billingAddress: string)

  datatype OrderItem = OrderItem(
    id: string, orderId: string, productId: string, quantity: int, price: real, total: real)

  datatype Review = Review(id: string, productId: string, userId: string, rating: real, comment: Option<string>)

  /** One element of `createOrder`'s `items` argument. */
  datatype OrderRequest = OrderRequest(productId: string, quantity: int, price: real)

  /** A cart row joined with its product, as `getCartItems` returns it. */
  datatype CartEntry = CartEntry(item: CartItem, product: Product)

  // ---------------------------------------------------------------------------
  // productService

  function HasProductId(id: string): Product -> bool
  {
    (p: Product) => p.id == id
  }

  /** `getById`: the first product with that id, or nothing. */
  function GetById(products: seq<Product>, id: string): (r: Option<Product>)
    ensures r.None? <==> forall p :: p in products ==> p.id != id
    ensures r.Some? ==> r.value.id == id && r.value in products
    ensures r.Some? ==> exists k :: 0 <= k < |products| && products[k] == r.value &&
                                    forall j :: 0 <= j < k ==> products[j].id != id
  {
    FindFirst(products, HasProductId(id))
  }

  function InCategory(category: string): Product -> bool
  {
    (p: Product) => p.category == Some(category)
  }

  /** `getByCategory`: the products filed under `category`, each as often as
      in the table, in table order. */
  function GetByCategory(products: seq<Product>, category: string): (r: seq<Product>)
    ensures forall p :: p in r ==> p in products && p.category == Some(category)
    ensures forall p :: p in products && p.category == Some(category) ==> p in r
    ensures forall p :: p in products && p.category == Some(category) ==> multiset(r)[p] == multiset(products)[p]
    ensures IsSubsequence(r, products)
  {
    FilterIsOrderedSelection(products, InCategory(category));
    Filter(products, InCategory(category))
  }

  /** The `search` test: the lower-cased query occurs in the lower-cased title,
      description or category. A missing description or category never matches. */
  predicate MatchesQuery(p: Product, query: string)
  {
    var q := Lower(query);
    || Contains(Lower(p.title), q)
    || (p.description.Some? && Contains(Lower(p.description.value), q))
    || (p.category.Some? && Contains(Lower(p.category.value), q))
  }

  function MatchesQueryP(query: string): Product -> bool
  {
    (p: Product) => MatchesQuery(p, query)
  }

  /** `search`: the products matching the query, case-insensitively, each as
      often as in the table, in table order. */
  function Search(products: seq<Product>, query: string): (r: seq<Product>)
    ensures forall p :: p in r ==> p in products && MatchesQuery(p, query)
    ensures forall p :: p in products && MatchesQuery(p, query) ==> p in r
    ensures forall p :: p in products && MatchesQuery(p, query) ==> multiset(r)[p] == multiset(products)[p]
    ensures IsSubsequence(r, products)
  {
    FilterIsOrderedSelection(products, MatchesQueryP(query));
    Filter(products, MatchesQueryP(query))
  }

  /** An empty query matches every product: the whole list comes back. */
  lemma {:induction false} SearchEmptyQueryKeepsAll(products: seq<Product>)
    ensures Search(products, "") == products
  {
    forall p | p in products
      ensures MatchesQueryP("")(p)
    {
      ContainsEmpty(Lower(p.title));
    }
    FilterKeepsAll(products, MatchesQueryP(""));
  }

  /** Searching is case-insensitive: lower-casing the query changes nothing. */
  lemma {:induction false} SearchIgnoresQueryCase(products: seq<Product>, query: string)
    ensures Search(products, Lower(query)) == Search(products, query)
  {
    LowerIdempotent(query);
    FilterCongruent(products, MatchesQueryP(Lower(query)), MatchesQueryP(query));
  }

  // ---------------------------------------------------------------------------
  // cartService: queries

  /** Each cart row id occurs once. Fresh ids keep it so. */
  ghost predicate UniqueIds(rows: seq<CartItem>)
  {
    forall i, j :: 0 <= i < j < |rows| ==> rows[i].id != rows[j].id
  }

  function OwnedBy(userId: string): CartItem -> bool
  {
    (c: CartItem) => c.userId == userId
  }

  function NotOwnedBy(userId: string): CartItem -> bool
  {
    (c: CartItem) => c.userId != userId
  }

  function SameLine(userId: string, productId: string): CartItem -> bool
  {
    (c: CartItem) => c.userId == userId && c.productId == productId
  }

  function IdIsNot(id: string): CartItem -> bool
  {
    (c: CartItem) => c.id != id
  }

  function IdNotIn(ids: set<string>): CartItem -> bool
  {
    (c: CartItem) => c.id !in ids
  }

  /** The rows whose product lookup finds a product. */
  function HasProduct(products: seq<Product>): CartItem -> bool
  {
    (c: CartItem) => GetById(products, c.productId).Some?
  }

  /** The user's rows whose product lookup finds a product. */
  function OwnedWithProduct(userId: string, products: seq<Product>): CartItem -> bool
  {
    (c: CartItem) => c.userId == userId && GetById(products, c.productId).Some?
  }

  /** `r` holds one entry per row of `kept`, in the same order, each row
      joined with the product its lookup finds. */
  ghost predicate JoinsEach(r: seq<CartEntry>, kept: seq<CartItem>, products: seq<Product>)
  {
    |r| == |kept| &&
    forall i :: 0 <= i < |r| ==> r[i].item == kept[i] && GetById(products, kept[i].productId) == Some(r[i].product)
  }

  lemma JoinsEachCons(c: CartItem, p: Product, r: seq<CartEntry>, kept: seq<CartItem>, products: seq<Product>)
    requires JoinsEach(r, kept, products) && GetById(products, c.productId) == Some(p)
    ensures JoinsEach([CartEntry(c, p)] + r, [c] + kept, products)
  {
  }

  /** Joining rows with their products, dropping rows whose product is gone:
      one entry per kept row, in row order. */
  function AttachProducts(rows: seq<CartItem>, products: seq<Product>): (r: seq<CartEntry>)
    ensures |r| <= |rows|
    ensures forall e :: e in r ==> e.item in rows && GetById(products, e.item.productId) == Some(e.product)
    ensures forall c :: c in rows && GetById(products, c.productId).Some? ==>
      CartEntry(c, GetById(products, c.productId).value) in r
    ensures JoinsEach(r, Filter(rows, HasProduct(products)), products)
    decreases |rows|
  {
    if rows == [] then []
    else
      var rest := AttachProducts(rows[1..], products);
      assert forall c :: c in rows ==> c == rows[0] || c in rows[1..];
      var kept := Filter(rows, HasProduct(products));
      match GetById(products, rows[0].productId)
      case None =>
        assert kept == Filter(rows[1..], HasProduct(products));
        rest
      case Some(p) =>
        assert kept == [rows[0]] + Filter(rows[1..], HasProduct(products));
        JoinsEachCons(rows[0], p, rest, kept[1..], products);
        [CartEntry(rows[0], p)] + rest
  }

  /** `getCartItems`: the user's rows that still have a product, in table
      order, each joined with the first product carrying its product id. */
  function GetCartItems(rows: seq<CartItem>, products: seq<Product>, userId: string): (r: seq<CartEntry>)
    ensures forall e :: e in r ==>
      e.item in rows && e.item.userId == userId && GetById(products, e.item.productId) == Some(e.product)
    ensures forall c :: c in rows && c.userId == userId && GetById(products, c.productId).Some? ==>
      CartEntry(c, GetById(products, c.productId).value) in r
    ensures JoinsEach(r, Filter(rows, OwnedWithProduct(userId, products)), products)
  {
    FilterTwice(rows, OwnedBy(userId), HasProduct(products), OwnedWithProduct(userId, products));
    AttachProducts(Filter(rows, OwnedBy(userId)), products)
  }

  // ---------------------------------------------------------------------------
  // cartService: the row operations behind update and delete

  /** `cartItems.delete(id)`. */
  function DeleteById(rows: seq<CartItem>, id: string): seq<CartItem>
  {
    Filter(rows, IdIsNot(id))
  }

  /** `cartItems.update(id, { quantity })`. */
  function SetQuantityById(rows: seq<CartItem>, id: string, quantity: int): (r: seq<CartItem>)
    ensures |r| == |rows|
  {
    seq(|rows|, i requires 0 <= i < |rows| =>
      if rows[i].id == id then rows[i].(quantity := quantity) else rows[i])
  }

  /** A suffix of a table with unique ids has unique ids, none of them the head's. */
  lemma UniqueTail(rows: seq<CartItem>)
    requires UniqueIds(rows) && rows != []
    ensures UniqueIds(rows[1..])
    ensures forall c :: c in rows[1..] ==> c.id != rows[0].id
  {
    forall i, j | 0 <= i < j < |rows[1..]| ensures rows[1..][i].id != rows[1..][j].id {
      assert rows[1..][i] == rows[i + 1] && rows[1..][j] == rows[j + 1];
    }
    forall c | c in rows[1..] ensures c.id != rows[0].id {
      var j :| 0 <= j < |rows[1..]| && rows[1..][j] == c;
      assert rows[j + 1] == c;
    }
  }

  /** Deleting the id of row `k` from a table with unique ids removes exactly that row. */
  lemma {:induction false} DeleteUniqueRow(rows: seq<CartItem>, k: nat)
    requires UniqueIds(rows) && k < |rows|
    ensures DeleteById(rows, rows[k].id) == rows[..k] + rows[k + 1..]
    decreases |rows|
  {
    var id := rows[k].id;
    UniqueTail(rows);
    if k == 0 {
      assert DeleteById(rows, id) == DeleteById(rows[1..], id);
      DeleteAbsentId(rows[1..], id);
    } else {
      assert rows[1..][k - 1] == rows[k];
      DeleteUniqueRow(rows[1..], k - 1);
      assert DeleteById(rows, id) == [rows[0]] + DeleteById(rows[1..], id);
      assert rows[1..][..k - 1] + rows[1..][k..] == rows[1..k] + rows[k + 1..];
      assert rows[..k] == [rows[0]] + rows[1..k];
    }
  }

  /** Deleting an id no row carries leaves the table as it is. */
  lemma DeleteAbsentId(rows: seq<CartItem>, id: string)
    requires forall c :: c in rows ==> c.id != id
    ensures DeleteById(rows, id) == rows
  {
    FilterKeepsAll(rows, IdIsNot(id));
  }

  /** In a table with unique ids, setting the quantity of row `k`'s id touches row `k` only. */
  lemma SetQuantityUniqueRow(rows: seq<CartItem>, k: nat, quantity: int)
    requires UniqueIds(rows) && k < |rows|
    ensures SetQuantityById(rows, rows[k].id, quantity) == rows[k := rows[k].(quantity := quantity)]
  {
  }

  /** Appending a row with a fresh id keeps the ids unique. */
  lemma AppendFreshKeepsUnique(rows: seq<CartItem>, row: CartItem)
    requires UniqueIds(rows) && forall c :: c in rows ==> c.id != row.id
    ensures UniqueIds(rows + [row])
  {
    forall i, j | 0 <= i < j < |rows + [row]|
      ensures (rows + [row])[i].id != (rows + [row])[j].id
    {
      if j == |rows| {
        assert rows[i] in rows;
      }
    }
  }

  /** Removing rows keeps the ids unique. */
  lemma {:induction false} FilterKeepsUnique(rows: seq<CartItem>, p: CartItem -> bool)
    requires UniqueIds(rows)
    ensures UniqueIds(Filter(rows, p))
    decreases |rows|
  {
    if rows != [] {
      UniqueTail(rows);
      FilterKeepsUnique(rows[1..], p);
      var rest := Filter(rows[1..], p);
      if p(rows[0]) {
        var r := [rows[0]] + rest;
        assert Filter(rows, p) == r;
        forall i, j | 0 <= i < j < |r| ensures r[i].id != r[j].id {
          assert r[j] == rest[j - 1] && r[j] in rest;
          if i > 0 {
            assert r[i] == rest[i - 1];
          }
        }
      } else {
        assert Filter(rows, p) == rest;
      }
    }
  }

  /** With unique ids, dropping the ids of a user's rows is dropping that user's rows. */
  lemma DroppingOwnedIds(rows: seq<CartItem>, userId: string)
    requires UniqueIds(rows)
    ensures Filter(rows, IdNotIn(IdsOf(Filter(rows, OwnedBy(userId))))) == Filter(rows, NotOwnedBy(userId))
  {
    var owned := Filter(rows, OwnedBy(userId));
    forall c | c in rows ensures IdNotIn(IdsOf(owned))(c) == NotOwnedBy(userId)(c) {
      if c.id in IdsOf(owned) {
        var d :| d in owned && d.id == c.id;
        var i :| 0 <= i < |rows| && rows[i] == c;
        var j :| 0 <= j < |rows| && rows[j] == d;
        assert i == j;
      }
    }
    FilterCongruent(rows, IdNotIn(IdsOf(owned)), NotOwnedBy(userId));
  }

  function IdsOf(rows: seq<CartItem>): set<string>
  {
    set c | c in rows :: c.id
  }

  // ---------------------------------------------------------------------------
  // orderService and reviewService: the derived values

  /** The order item `createOrder` writes for one requested item. */
  function OrderLine(orderId: string, request: OrderRequest, itemId: string): OrderItem
  {
    OrderItem(itemId, orderId, request.productId, request.quantity, request.price,
              request.price * request.quantity as real)
  }

  /** The order items `createOrder` writes, one per requested item, in order. */
  function OrderLines(orderId: string, requests: seq<OrderRequest>, itemIds: seq<string>): (r: seq<OrderItem>)
    requires |itemIds| == |requests|
    ensures |r| == |requests|
    ensures forall i :: 0 <= i < |r| ==>
      r[i].orderId == orderId && r[i].productId == requests[i].productId &&
      r[i].quantity == requests[i].quantity && r[i].price == requests[i].price &&
      r[i].total == requests[i].price * requests[i].quantity as real
  {
    seq(|requests|, i requires 0 <= i < |requests| => OrderLine(orderId, requests[i], itemIds[i]))
  }

  /** The sum of price times quantity over the requested items. */
  function RequestedAmount(requests: seq<OrderRequest>): real
  {
    if requests == [] then 0.0
    else requests[0].price * requests[0].quantity as real + RequestedAmount(requests[1..])
  }

  /** The sum of the `total` column of some order items. */
  function LinesAmount(lines: seq<OrderItem>): real
  {
    if lines == [] then 0.0 else lines[0].total + LinesAmount(lines[1..])
  }

  /** The written order items add up to the requested items' price times quantity. */
  lemma {:induction false} OrderLinesAddUp(orderId: string, requests: seq<OrderRequest>, itemIds: seq<string>)
    requires |itemIds| == |requests|
    ensures LinesAmount(OrderLines(orderId, requests, itemIds)) == RequestedAmount(requests)
    decreases |requests|
  {
    if requests != [] {
      OrderLinesAddUp(orderId, requests[1..], itemIds[1..]);
      assert OrderLines(orderId, requests, itemIds)[1..] == OrderLines(orderId, requests[1..], itemIds[1..]);
    }
  }

  function ForProduct(productId: string): Review -> bool
  {
    (r: Review) => r.productId == productId
  }

  /** `getProductReviews`: the reviews of one product, each as often as in
      the table, in table order. */
  function ReviewsOf(reviews: seq<Review>, productId: string): (r: seq<Review>)
    ensures forall x :: x in r ==> x in reviews && x.productId == productId
    ensures forall x :: x in reviews && x.productId == productId ==> x in r
    ensures forall x :: x in reviews && x.productId == productId ==> multiset(r)[x] == multiset(reviews)[x]
    ensures IsSubsequence(r, reviews)
  {
    FilterIsOrderedSelection(reviews, ForProduct(productId));
    Filter(reviews, ForProduct(productId))
  }

  /** The sum of the ratings of some reviews. */
  function RatingSum(reviews: seq<Review>): real
  {
    if reviews == [] then 0.0 else reviews[0].rating + RatingSum(reviews[1..])
  }

  /** The mean rating of a non-empty list of reviews. */
  function MeanRating(reviews: seq<Review>): real
    requires |reviews| > 0
  {
    RatingSum(reviews) / |reviews| as real
  }

  /** `Math.round(x * 10) / 10`, with `Math.round` rounding halves upwards: the
      nearest tenth, never more than half a tenth away. */
  function RoundToTenth(x: real): (r: real)
    ensures x - 0.05 < r <= x + 0.05
    ensures (r * 10.0).Floor as real == r * 10.0
  {
    (x * 10.0 + 0.5).Floor as real / 10.0
  }

  /** Star ratings (1 to 5) add up to between one and five times their number. */
  lemma {:induction false} StarRatingSum(reviews: seq<Review>)
    requires forall x :: x in reviews ==> 1.0 <= x.rating <= 5.0
    ensures |reviews| as real <= RatingSum(reviews) <= 5.0 * |reviews| as real
    decreases |reviews|
  {
    if reviews != [] {
      assert forall x :: x in reviews[1..] ==> x in reviews;
      StarRatingSum(reviews[1..]);
    }
  }

  /** A quotient of a sum bounded by `count` times `lo` and `hi` lies between them. */
  lemma QuotientBetween(sum: real, count: real, lo: real, hi: real)
    requires count > 0.0 && count * lo <= sum <= count * hi
    ensures lo <= sum / count <= hi
  {
  }

  /** With every rating between 1 and 5 stars, the mean and the stored (rounded)
      product rating are between 1 and 5 too. */
  lemma {:induction false} StoredRatingInRange(reviews: seq<Review>)
    requires |reviews| > 0
    requires forall x :: x in reviews ==> 1.0 <= x.rating <= 5.0
    ensures 1.0 <= MeanRating(reviews) <= 5.0
    ensures 1.0 <= RoundToTenth(MeanRating(reviews)) <= 5.0
  {
    StarRatingSum(reviews);
    QuotientBetween(RatingSum(reviews), |reviews| as real, 1.0, 5.0);
    var m := MeanRating(reviews);
    assert (m * 10.0 + 0.5).Floor >= 10;
    assert (m * 10.0 + 0.5).Floor <= 50;
  }

  /** `products.update(id, { rating, reviewCount })`. */
  function SetRatingById(products: seq<Product>, id: string, rating: real, count: int): (r: seq<Product>)
    ensures |r| == |products|
    ensures forall i :: 0 <= i < |r| && products[i].id != id ==> r[i] == products[i]
    ensures forall i :: 0 <= i < |r| && products[i].id == id ==>
      r[i] == products[i].(rating := Some(rating), reviewCount := Some(count))
  {
    seq(|products|, i requires 0 <= i < |products| =>
      if products[i].id == id then products[i].(rating := Some(rating), reviewCount := Some(count))
      else products[i])
  }

  // ---------------------------------------------------------------------------
  // The tables and the services that change them

  class Tables {
    var products: seq<Product>
    var cartItems: seq<CartItem>
    var orders: seq<Order>
    var orderItems: seq<OrderItem>
    var reviews: seq<Review>

    ghost predicate Valid()
      reads this
    {
      UniqueIds(cartItems)
    }

    constructor (products: seq<Product>)
      ensures Valid()
      ensures this.products == products
      ensures cartItems == [] && orders == [] && orderItems == [] && reviews == []
    {
      this.products := products;
      cartItems := [];
      orders := [];
      orderItems := [];
      reviews := [];
    }

    /** `addToCart`: if the user already has a row for the product, the first
        such row's quantity grows by `quantity` and no row is created;
        otherwise exactly one row is appended. `newId` is the generated id, and
        `quantity` defaults to 1. */
    method AddToCart(userId: string, productId: string, newId: string, quantity: int := 1)
      requires Valid()
      requires forall c :: c in cartItems ==> c.id != newId
      modifies this`cartItems
      ensures Valid()
      ensures match FirstIndex(old(cartItems), SameLine(userId, productId))
        case Some(k) =>
          cartItems == old(cartItems)[k := old(cartItems)[k].(quantity := old(cartItems)[k].quantity + quantity)]
        case None =>
          cartItems == old(cartItems) + [CartItem(newId, userId, productId, quantity)]
    {
      ghost var before := cartItems;
      var existingItems := Filter(cartItems, SameLine(userId, productId));
      if |existingItems| > 0 {
        var existingItem := existingItems[0];
        FilterHeadIsFirst(cartItems, SameLine(userId, productId));
        ghost var k := FirstIndex(before, SameLine(userId, productId)).value;
        assert existingItem == before[k];
        SetQuantityUniqueRow(before, k, existingItem.quantity + quantity);
        cartItems := SetQuantityById(cartItems, existingItem.id, existingItem.quantity + quantity);
        assert UniqueIds(cartItems) by {
          assert forall i :: 0 <= i < |cartItems| ==> cartItems[i].id == before[i].id;
        }
      } else {
        assert forall i :: 0 <= i < |before| ==> before[i] !in existingItems;
        assert FirstIndex(before, SameLine(userId, productId)).None?;
        AppendFreshKeepsUnique(before, CartItem(newId, userId, productId, quantity));
        cartItems := cartItems + [CartItem(newId, userId, productId, quantity)];
      }
    }

    /** `updateQuantity`: a quantity of zero or less deletes the row, any other
        sets it; no other row changes, and an unknown id changes nothing. */
    method UpdateQuantity(cartItemId: string, quantity: int)
      requires Valid()
      modifies this`cartItems
      ensures Valid()
      ensures forall k :: 0 <= k < |old(cartItems)| && old(cartItems)[k].id == cartItemId ==>
        cartItems == if quantity <= 0 then old(cartItems)[..k] + old(cartItems)[k + 1..]
                     else old(cartItems)[k := old(cartItems)[k].(quantity := quantity)]
      ensures (forall c :: c in old(cartItems) ==> c.id != cartItemId) ==> cartItems == old(cartItems)
    {
      ghost var before := cartItems;
      if quantity <= 0 {
        FilterKeepsUnique(cartItems, IdIsNot(cartItemId));
        cartItems := DeleteById(cartItems, cartItemId);
        forall k | 0 <= k < |before| && before[k].id == cartItemId
          ensures cartItems == before[..k] + before[k + 1..]
        {
          DeleteUniqueRow(before, k);
        }
        if forall c :: c in before ==> c.id != cartItemId {
          DeleteAbsentId(before, cartItemId);
        }
      } else {
        cartItems := SetQuantityById(cartItems, cartItemId, quantity);
        forall k | 0 <= k < |before| && before[k].id == cartItemId
          ensures cartItems == before[k := before[k].(quantity := quantity)]
        {
          SetQuantityUniqueRow(before, k, quantity);
        }
      }
    }

    /** `removeFromCart`: deletes the row with that id and nothing else. */
    method RemoveFromCart(cartItemId: string)
      requires Valid()
      modifies this`cartItems
      ensures Valid()
      ensures forall k :: 0 <= k < |old(cartItems)| && old(cartItems)[k].id == cartItemId ==>
        cartItems == old(cartItems)[..k] + old(cartItems)[k + 1..]
      ensures (forall c :: c in old(cartItems) ==> c.id != cartItemId) ==> cartItems == old(cartItems)
    {
      ghost var before := cartItems;
      FilterKeepsUnique(cartItems, IdIsNot(cartItemId));
      cartItems := DeleteById(cartItems, cartItemId);
      forall k | 0 <= k < |before| && before[k].id == cartItemId
        ensures cartItems == before[..k] + before[k + 1..]
      {
        DeleteUniqueRow(before, k);
      }
      if forall c :: c in before ==> c.id != cartItemId {
        DeleteAbsentId(before, cartItemId);
      }
    }

    /** `clearCart`: lists the user's rows and deletes them one by one; every
        row of that user goes and every other user's row stays, in order. */
    method ClearCart(userId: string)
      requires Valid()
      modifies this`cartItems
      ensures Valid()
      ensures cartItems == Filter(old(cartItems), NotOwnedBy(userId))
    {
      ghost var before := cartItems;
      var listed := Filter(cartItems, OwnedBy(userId));
      var i := 0;
      assert IdsOf(listed[..0]) == {};
      FilterKeepsAll(before, IdNotIn({}));
      while i < |listed|
        invariant 0 <= i <= |listed|
        invariant cartItems == Filter(before, IdNotIn(IdsOf(listed[..i])))
        invariant UniqueIds(cartItems)
      {
        var item := listed[i];
        FilterKeepsUnique(cartItems, IdIsNot(item.id));
        FilterTwice(before, IdNotIn(IdsOf(listed[..i])), IdIsNot(item.id), IdNotIn(IdsOf(listed[..i + 1])));
        cartItems := DeleteById(cartItems, item.id);
        i := i + 1;
      }
      assert listed[..i] == listed;
      DroppingOwnedIds(before, userId);
    }

    /** `createOrder`: writes one pending order, then one order item per
        requested item (total = price times quantity), then clears the user's
        cart. `orderId`, `orderNumber` and `itemIds` are the generated ids. */
    method CreateOrder(userId: string, items: seq<OrderRequest>, shippingAddress: string,
                       billingAddress: string, paymentMethod: string, totalAmount: real,
                       shippingCost: real, taxAmount: real,
                       orderId: string, orderNumber: string, itemIds: seq<string>)
      returns (order: Order)
      requires Valid()
      requires |itemIds| == |items|
      modifies this`orders, this`orderItems, this`cartItems
      ensures Valid()
      ensures order == Order(orderId, userId, orderNumber, "pending", totalAmount, shippingCost,
                             taxAmount, paymentMethod, "pending", shippingAddress, billingAddress)
      ensures orders == old(orders) + [order]
      ensures orderItems == old(orderItems) + OrderLines(orderId, items, itemIds)
      ensures cartItems == Filter(old(cartItems), NotOwnedBy(userId))
    {
      order := Order(orderId, userId, orderNumber, "pending", totalAmount, shippingCost,
                     taxAmount, paymentMethod, "pending", shippingAddress, billingAddress);
      orders := orders + [order];
      ghost var before := orderItems;
      var i := 0;
      while i < |items|
        invariant 0 <= i <= |items|
        invariant orderItems == before + OrderLines(orderId, items[..i], itemIds[..i])
        invariant cartItems == old(cartItems) && orders == old(orders) + [order]
      {
        var item := items[i];
        assert items[..i + 1] == items[..i] + [item] && itemIds[..i + 1] == itemIds[..i] + [itemIds[i]];
        assert OrderLines(orderId, items[..i + 1], itemIds[..i + 1]) ==
               OrderLines(orderId, items[..i], itemIds[..i]) + [OrderLine(orderId, item, itemIds[i])];
        var line := OrderItem(itemIds[i], orderId, item.productId, item.quantity,
                              item.price, item.price * item.quantity as real);
        assert line == OrderLine(orderId, item, itemIds[i]);
        orderItems := orderItems + [line];
        i := i + 1;
      }
      assert items[..i] == items && itemIds[..i] == itemIds;
      ClearCart(userId);
    }

    /** `addReview`: appends the review, then stores on the product the number
        of its reviews (the new one included) and their mean rating rounded to
        one decimal. `reviewId` is the generated id. */
    method AddReview(productId: string, userId: string, rating: real, comment: Option<string>, reviewId: string)
      modifies this`reviews, this`products
      ensures reviews == old(reviews) + [Review(reviewId, productId, userId, rating, comment)]
      ensures |ReviewsOf(reviews, productId)| == |ReviewsOf(old(reviews), productId)| + 1
      ensures products == SetRatingById(old(products), productId,
                                        RoundToTenth(MeanRating(ReviewsOf(reviews, productId))),
                                        |ReviewsOf(reviews, productId)|)
    {
      var review := Review(reviewId, productId, userId, rating, comment);
      ReviewsOfAppend(reviews, review);
      reviews := reviews + [review];
      var productReviews := ReviewsOf(reviews, productId);
      var averageRating := RatingSum(productReviews) / |productReviews| as real;
      products := SetRatingById(products, productId, RoundToTenth(averageRating), |productReviews|);
    }
  }

  /** Appending a review of a product adds exactly it to that product's reviews. */
  lemma {:induction false} ReviewsOfAppend(reviews: seq<Review>, review: Review)
    ensures ReviewsOf(reviews + [review], review.productId) == ReviewsOf(reviews, review.productId) + [review]
    decreases |reviews|
  {
    if reviews == [] {
      assert Filter([review], ForProduct(review.productId)) == [review] + Filter([], ForProduct(review.productId));
    } else {
      assert (reviews + [review])[1..] == reviews[1..] + [review];
      ReviewsOfAppend(reviews[1..], review);
    }
  }
}
