/**
 * The session-state reducers of App.tsx. Each takes the previous value of a
 * state slot (recently viewed, wishlist, comparison list, basket, orders) and
 * returns the next one; the `Storefront` class applies them to its fields.
 * Also the derived values App.tsx computes from the catalog: the shop filter,
 * the category list and the per-category counts, and the rehydration of
 * stored id lists.
 */
module Session {
  import opened Catalog
  import opened Seqs
  import Basket

  const RecentlyViewedCap: nat := 5
  const CompareCap: nat := 3

  // ---------------------------------------------------------------------
  // Product lists: recently viewed, wishlist, comparison

  /** `prev.filter(p => p.id !== id)`, as `removeFromCompare` does it. */
  function WithoutId(prev: seq<Product>, id: string): (r: seq<Product>)
    ensures !HasId(r, id)
    ensures forall x :: x in r <==> x in prev && x.id != id
    ensures HasId(prev, id) ==> |r| < |prev|
    ensures !HasId(prev, id) ==> r == prev
  {
    var f := (p: Product) => p.id != id;
    if HasId(prev, id) then
      var k :| 0 <= k < |prev| && prev[k].id == id;
      FilterShrinks(prev, f, k);
      Filter(prev, f)
    else
      FilterAll(prev, f);
      Filter(prev, f)
  }

  lemma WithoutIdKeepsOrder(prev: seq<Product>, id: string)
    ensures IsSubsequence(WithoutId(prev, id), prev)
    ensures forall x :: multiset(WithoutId(prev, id))[x] == if x.id != id then multiset(prev)[x] else 0
  {
    FilterIsSubsequence(prev, (p: Product) => p.id != id);
    FilterMultiplicity(prev, (p: Product) => p.id != id);
  }

  lemma WithoutIdKeepsUnique(prev: seq<Product>, id: string)
    requires UniqueIds(prev)
    ensures UniqueIds(WithoutId(prev, id))
  {
    FilterKeepsDistinctKeys(prev, (p: Product) => p.id != id, (p: Product) => p.id);
  }

  /** `trackProductView`: move the product to the front, keep at most five. */
  function TrackProductView(prev: seq<Product>, product: Product): (r: seq<Product>)
    ensures 1 <= |r| <= RecentlyViewedCap
    ensures r[0] == product
    ensures forall i :: 1 <= i < |r| ==> r[i].id != product.id
    ensures |r| == Min(RecentlyViewedCap, 1 + |WithoutId(prev, product.id)|)
    ensures r[1..] == WithoutId(prev, product.id)[..|r| - 1]
  {
    var rest := WithoutId(prev, product.id);
    var r := Take([product] + rest, RecentlyViewedCap);
    assert r[1..] == rest[..|r| - 1];
    assert forall i :: 1 <= i < |r| ==> r[i] == rest[i - 1] && rest[i - 1] in rest;
    r
  }

  /** The other entries keep their previous relative order. */
  lemma TrackProductViewKeepsOrder(prev: seq<Product>, product: Product)
    ensures IsSubsequence(TrackProductView(prev, product)[1..], prev)
  {
    var r := TrackProductView(prev, product);
    WithoutIdKeepsOrder(prev, product.id);
    PrefixOfSubsequence(WithoutId(prev, product.id), prev, |r| - 1);
  }

  /** The list never holds two entries with the same id. */
  lemma TrackProductViewKeepsUnique(prev: seq<Product>, product: Product)
    requires UniqueIds(prev)
    ensures UniqueIds(TrackProductView(prev, product))
  {
    var rest := WithoutId(prev, product.id);
    var r := TrackProductView(prev, product);
    WithoutIdKeepsUnique(prev, product.id);
    forall i, j | 0 <= i < j < |r|
      ensures r[i].id != r[j].id
    {
      if i > 0 {
        assert r[i] == rest[i - 1] && r[j] == rest[j - 1];
      }
    }
  }

  /** Viewing the same product twice in a row is the same as viewing it once. */
  lemma TrackProductViewIdempotent(prev: seq<Product>, product: Product)
    ensures TrackProductView(TrackProductView(prev, product), product) == TrackProductView(prev, product)
  {
    var r := TrackProductView(prev, product);
    var rest := WithoutId(prev, product.id);
    var inner := WithoutId(r, product.id);
    assert r == [product] + r[1..];
    FilterAppend([product], r[1..], (p: Product) => p.id != product.id);
    assert Filter([product], (p: Product) => p.id != product.id) == [];
    FilterAll(r[1..], (p: Product) => p.id != product.id);
    assert inner == r[1..];
  }

  /** `toggleWishlist`: remove the product if present, otherwise append it. */
  function ToggleWishlist(prev: seq<Product>, product: Product): (r: seq<Product>)
    ensures HasId(r, product.id) <==> !HasId(prev, product.id)
    ensures !HasId(prev, product.id) ==> r == prev + [product]
    ensures HasId(prev, product.id) ==> r == WithoutId(prev, product.id)
    ensures forall q: Product :: q.id != product.id ==> (q in r <==> q in prev)
  {
    if HasId(prev, product.id) then WithoutId(prev, product.id)
    else
      assert (prev + [product])[|prev|] == product;
      prev + [product]
  }

  /** Toggling an absent product twice restores the original list. */
  lemma ToggleWishlistTwiceRestores(prev: seq<Product>, product: Product)
    requires !HasId(prev, product.id)
    ensures ToggleWishlist(ToggleWishlist(prev, product), product) == prev
  {
    var f := (p: Product) => p.id != product.id;
    FilterAppend(prev, [product], f);
    FilterAll(prev, f);
    assert Filter([product], f) == [];
  }

  /** Toggling a present product twice moves it to the end. */
  lemma ToggleWishlistTwiceMovesToEnd(prev: seq<Product>, product: Product)
    requires HasId(prev, product.id)
    ensures ToggleWishlist(ToggleWishlist(prev, product), product) == WithoutId(prev, product.id) + [product]
  {
  }

  lemma ToggleWishlistKeepsUnique(prev: seq<Product>, product: Product)
    requires UniqueIds(prev)
    ensures UniqueIds(ToggleWishlist(prev, product))
  {
    if HasId(prev, product.id) {
      WithoutIdKeepsUnique(prev, product.id);
    } else {
      var r := prev + [product];
      forall i, j | 0 <= i < j < |r|
        ensures r[i].id != r[j].id
      {
        if j == |prev| {
          assert r[i] == prev[i];
        }
      }
    }
  }

  /** The comparison list is full: an absent product is refused with a notice. */
  predicate CompareRejects(prev: seq<Product>, product: Product)
  {
    !HasId(prev, product.id) && |prev| >= CompareCap
  }

  /** `toggleCompare`: remove if present, append if there is room, else refuse. */
  function ToggleCompare(prev: seq<Product>, product: Product): (r: seq<Product>)
    ensures |prev| <= CompareCap ==> |r| <= CompareCap
    ensures HasId(prev, product.id) ==> r == WithoutId(prev, product.id)
    ensures !HasId(prev, product.id) && |prev| < CompareCap ==> r == prev + [product]
    ensures CompareRejects(prev, product) ==> r == prev
    ensures HasId(r, product.id) <==> !HasId(prev, product.id) && |prev| < CompareCap
  {
    if HasId(prev, product.id) then WithoutId(prev, product.id)
    else if |prev| >= CompareCap then prev
    else
      assert (prev + [product])[|prev|] == product;
      prev + [product]
  }

  lemma ToggleCompareKeepsUnique(prev: seq<Product>, product: Product)
    requires UniqueIds(prev)
    ensures UniqueIds(ToggleCompare(prev, product))
  {
    if HasId(prev, product.id) || |prev| >= CompareCap {
      ToggleWishlistKeepsUnique(prev, product);
    } else {
      ToggleWishlistKeepsUnique(prev, product);
      assert ToggleCompare(prev, product) == ToggleWishlist(prev, product);
    }
  }

  // ---------------------------------------------------------------------
  // The basket

  /** `addToCart`: raise the quantity of the existing line, or append a line. */
  function AddToCart(prev: seq<CartItem>, product: Product, quantity: int): (r: seq<CartItem>)
    ensures CartHasId(r, product.id)
    ensures CartHasId(prev, product.id) ==>
      && |r| == |prev|
      && (forall i :: 0 <= i < |prev| ==> r[i].product == prev[i].product)
      && (forall i :: 0 <= i < |prev| && prev[i].Id() == product.id ==> r[i].quantity == prev[i].quantity + quantity)
      && (forall i :: 0 <= i < |prev| && prev[i].Id() != product.id ==> r[i] == prev[i])
    ensures !CartHasId(prev, product.id) ==> r == prev + [CartItem(product, quantity)]
  {
    if CartHasId(prev, product.id) then
      var r := seq(|prev|, i requires 0 <= i < |prev| =>
        if prev[i].Id() == product.id then CartItem(prev[i].product, prev[i].quantity + quantity) else prev[i]);
      var k :| 0 <= k < |prev| && prev[k].Id() == product.id;
      assert r[k].Id() == product.id;
      r
    else
      var r := prev + [CartItem(product, quantity)];
      assert r[|prev|].Id() == product.id;
      r
  }

  lemma AddToCartKeepsUnique(prev: seq<CartItem>, product: Product, quantity: int)
    requires CartUniqueIds(prev)
    ensures CartUniqueIds(AddToCart(prev, product, quantity))
  {
    var r := AddToCart(prev, product, quantity);
    if !CartHasId(prev, product.id) {
      forall i, j | 0 <= i < j < |r|
        ensures r[i].Id() != r[j].Id()
      {
        if j == |prev| {
          assert r[i] == prev[i];
        }
      }
    }
  }

  /** Two baskets that differ only at line `k` differ in subtotal by that line. */
  lemma {:induction false} SubtotalChangeAt(a: seq<CartItem>, b: seq<CartItem>, k: int)
    requires |a| == |b| && 0 <= k < |a|
    requires forall i :: 0 <= i < |a| && i != k ==> a[i] == b[i]
    ensures Basket.Subtotal(b) == Basket.Subtotal(a) - Basket.LineTotal(a[k]) + Basket.LineTotal(b[k])
  {
    if k == 0 {
      assert a[1..] == b[1..];
    } else {
      SubtotalChangeAt(a[1..], b[1..], k - 1);
    }
  }

  /** Adding `quantity` of a product to a basket with unique ids raises the
      subtotal by `price * quantity`. */
  lemma AddToCartSubtotal(prev: seq<CartItem>, product: Product, quantity: int)
    requires CartUniqueIds(prev)
    requires forall i :: 0 <= i < |prev| && prev[i].Id() == product.id ==> prev[i].product.price == product.price
    ensures Basket.Subtotal(AddToCart(prev, product, quantity)) == Basket.Subtotal(prev) + product.price * quantity
  {
    if CartHasId(prev, product.id) {
      var k :| 0 <= k < |prev| && prev[k].Id() == product.id;
      AddToCartExistingSubtotal(prev, product, quantity, k);
    } else {
      var line := CartItem(product, quantity);
      Basket.SubtotalAppend(prev, [line]);
      assert Basket.Subtotal([line]) == Basket.LineTotal(line) + Basket.Subtotal([]) by {
        assert [line][1..] == [];
      }
    }
  }

  lemma AddToCartExistingSubtotal(prev: seq<CartItem>, product: Product, quantity: int, k: int)
    requires CartUniqueIds(prev)
    requires 0 <= k < |prev| && prev[k].Id() == product.id && prev[k].product.price == product.price
    ensures Basket.Subtotal(AddToCart(prev, product, quantity)) == Basket.Subtotal(prev) + product.price * quantity
  {
    var r := AddToCart(prev, product, quantity);
    assert CartHasId(prev, product.id);
    forall i | 0 <= i < |prev| && i != k
      ensures prev[i] == r[i]
    {
      assert prev[i].Id() != product.id;
    }
    SubtotalChangeAt(prev, r, k);
    var price, q0 := prev[k].product.price, prev[k].quantity;
    assert r[k].product.price == price && r[k].quantity == q0 + quantity;
    assert Basket.LineTotal(r[k]) == price * (q0 + quantity);
    assert Basket.LineTotal(prev[k]) == price * q0;
    Distribute(price, q0, quantity);
  }

  /** Multiplication distributes over addition: the step from a line's old
      and new quantity to its old and new line total in `AddToCartExistingSubtotal`. */
  lemma Distribute(a: int, b: int, c: int)
    ensures a * (b + c) == a * b + a * c
  {
  }

  /** The header badge: `cart.reduce((s, i) => s + i.quantity, 0)`. */
  function ItemCount(items: seq<CartItem>): int
  {
    if items == [] then 0 else items[0].quantity + ItemCount(items[1..])
  }

  lemma {:induction false} ItemCountAppend(a: seq<CartItem>, b: seq<CartItem>)
    ensures ItemCount(a + b) == ItemCount(a) + ItemCount(b)
  {
    if a == [] {
      assert a + b == b;
    } else {
      assert (a + b)[1..] == a[1..] + b;
      ItemCountAppend(a[1..], b);
    }
  }

  lemma {:induction false} ItemCountChangeAt(a: seq<CartItem>, b: seq<CartItem>, k: int)
    requires |a| == |b| && 0 <= k < |a|
    requires forall i :: 0 <= i < |a| && i != k ==> a[i] == b[i]
    ensures ItemCount(b) == ItemCount(a) - a[k].quantity + b[k].quantity
  {
    if k == 0 {
      assert a[1..] == b[1..];
    } else {
      ItemCountChangeAt(a[1..], b[1..], k - 1);
    }
  }

  /** Adding `quantity` of a product raises the badge by `quantity`. */
  lemma AddToCartItemCount(prev: seq<CartItem>, product: Product, quantity: int)
    requires CartUniqueIds(prev)
    ensures ItemCount(AddToCart(prev, product, quantity)) == ItemCount(prev) + quantity
  {
    var r := AddToCart(prev, product, quantity);
    if CartHasId(prev, product.id) {
      var k :| 0 <= k < |prev| && prev[k].Id() == product.id;
      forall i | 0 <= i < |prev| && i != k
        ensures prev[i] == r[i]
      {
        assert prev[i].Id() != product.id;
      }
      ItemCountChangeAt(prev, r, k);
    } else {
      var line := CartItem(product, quantity);
      ItemCountAppend(prev, [line]);
      assert [line][1..] == [];
    }
  }

  /** `updateQuantity`: change the matching line by `delta`, never below 1. */
  function UpdateQuantity(prev: seq<CartItem>, id: string, delta: int): (r: seq<CartItem>)
    ensures |r| == |prev|
    ensures forall i :: 0 <= i < |r| ==> r[i].product == prev[i].product
    ensures forall i :: 0 <= i < |r| && prev[i].Id() == id ==>
      r[i].quantity == Max(1, prev[i].quantity + delta) && r[i].quantity >= 1
    ensures forall i :: 0 <= i < |r| && prev[i].Id() != id ==> r[i] == prev[i]
  {
    seq(|prev|, i requires 0 <= i < |prev| =>
      if prev[i].Id() == id then CartItem(prev[i].product, Max(1, prev[i].quantity + delta)) else prev[i])
  }

  /** The `+` then `-` buttons restore the basket. */
  lemma UpdateQuantityRoundTrip(prev: seq<CartItem>, id: string)
    requires forall i :: 0 <= i < |prev| && prev[i].Id() == id ==> prev[i].quantity >= 1
    ensures UpdateQuantity(UpdateQuantity(prev, id, 1), id, -1) == prev
  {
    var r := UpdateQuantity(UpdateQuantity(prev, id, 1), id, -1);
    assert forall i :: 0 <= i < |prev| ==> r[i] == prev[i];
  }

  /** The `-` button on a line of quantity 1 changes nothing. */
  lemma UpdateQuantityFloor(prev: seq<CartItem>, id: string)
    requires forall i :: 0 <= i < |prev| && prev[i].Id() == id ==> prev[i].quantity == 1
    ensures UpdateQuantity(prev, id, -1) == prev
  {
    var r := UpdateQuantity(prev, id, -1);
    assert forall i :: 0 <= i < |prev| ==> r[i] == prev[i];
  }

  /** `removeFromCart`. */
  function RemoveFromCart(prev: seq<CartItem>, id: string): (r: seq<CartItem>)
    ensures !CartHasId(r, id)
    ensures |r| <= |prev|
    ensures forall x :: x in r <==> x in prev && x.Id() != id
  {
    Filter(prev, (item: CartItem) => item.Id() != id)
  }

  lemma RemoveFromCartKeepsOrder(prev: seq<CartItem>, id: string)
    ensures IsSubsequence(RemoveFromCart(prev, id), prev)
    ensures CartUniqueIds(prev) ==> CartUniqueIds(RemoveFromCart(prev, id))
    ensures forall x :: multiset(RemoveFromCart(prev, id))[x] == if x.Id() != id then multiset(prev)[x] else 0
  {
    FilterIsSubsequence(prev, (item: CartItem) => item.Id() != id);
    FilterMultiplicity(prev, (item: CartItem) => item.Id() != id);
    if CartUniqueIds(prev) {
      FilterKeepsDistinctKeys(prev, (item: CartItem) => item.Id() != id, (item: CartItem) => item.Id());
    }
  }

  // ---------------------------------------------------------------------
  // Checkout

  /** What is ordered: the direct-buy line if one is set, otherwise the basket. */
  function OrderItems(cart: seq<CartItem>, directBuyItem: Option<CartItem>): seq<CartItem>
  {
    match directBuyItem
    case Some(item) => [item]
    case None => cart
  }

  /** The subtotal handed to the payment page (App.tsx, `PaymentGateway` props). */
  function CheckoutSubtotal(cart: seq<CartItem>, directBuyItem: Option<CartItem>): (s: int)
    ensures s == Basket.Subtotal(OrderItems(cart, directBuyItem))
  {
    match directBuyItem
    case Some(item) =>
      assert Basket.Subtotal([item]) == Basket.LineTotal(item) + Basket.Subtotal([]) by { assert [item][1..] == []; }
      Basket.LineTotal(item)
    case None => Basket.Subtotal(cart)
  }

  /** The state slots `handleCheckoutSuccess` updates. */
  datatype CheckoutState = CheckoutState(cart: seq<CartItem>, directBuyItem: Option<CartItem>, orders: seq<Order>)

  /** `handleCheckoutSuccess`: record one order; clear the direct-buy line if it
      was used, otherwise empty the basket. */
  function CheckoutSuccess(st: CheckoutState, orderId: string, date: string, finalTotal: int): (r: CheckoutState)
    ensures |r.orders| == |st.orders| + 1 && r.orders[..|st.orders|] == st.orders
    ensures r.orders[|st.orders|] == Order(orderId, date, OrderItems(st.cart, st.directBuyItem), finalTotal, Processing)
    ensures r.directBuyItem.None?
    ensures st.directBuyItem.Some? ==> r.cart == st.cart && r.orders[|st.orders|].items == [st.directBuyItem.value]
    ensures st.directBuyItem.None? ==> r.cart == [] && r.orders[|st.orders|].items == st.cart
  {
    var order := Order(orderId, date, OrderItems(st.cart, st.directBuyItem), finalTotal, Processing);
    var orders := st.orders + [order];
    assert orders[..|st.orders|] == st.orders;
    match st.directBuyItem
    case Some(_) => CheckoutState(st.cart, None, orders)
    case None => CheckoutState([], None, orders)
  }

  // ---------------------------------------------------------------------
  // Rehydrating stored id lists (App.tsx, first effect)

  /** `PRODUCTS.find(p => p.id === id)`. */
  function FindById(catalog: seq<Product>, id: string): (r: Option<Product>)
    ensures r.Some? <==> HasId(catalog, id)
    ensures r.Some? ==> r.value.id == id && r.value in catalog
  {
    if catalog == [] then None
    else if catalog[0].id == id then Some(catalog[0])
    else
      var r := FindById(catalog[1..], id);
      assert HasId(catalog, id) ==> HasId(catalog[1..], id) by {
        if HasId(catalog, id) {
          var k :| 0 <= k < |catalog| && catalog[k].id == id;
          assert catalog[1..][k - 1].id == id;
        }
      }
      assert r.Some? ==> r.value in catalog;
      r
  }

  /** `find` returns the first product with the id. */
  lemma {:induction false} FindByIdFirst(catalog: seq<Product>, id: string, k: int)
    requires 0 <= k < |catalog| && catalog[k].id == id
    requires forall j :: 0 <= j < k ==> catalog[j].id != id
    ensures FindById(catalog, id) == Some(catalog[k])
  {
    if k > 0 {
      FindByIdFirst(catalog[1..], id, k - 1);
    }
  }

  /** `ids.map(id => PRODUCTS.find(...)).filter(defined)`: unknown ids are dropped. */
  function Rehydrate(catalog: seq<Product>, ids: seq<string>): (r: seq<Product>)
    ensures |r| <= |ids|
    ensures forall p :: p in r ==> p in catalog
    ensures Ids(r) == Filter(ids, id => HasId(catalog, id))
  {
    if ids == [] then []
    else
      var rest := Rehydrate(catalog, ids[1..]);
      match FindById(catalog, ids[0])
      case Some(p) =>
        assert ([p] + rest)[1..] == rest;
        [p] + rest
      case None => rest
  }

  /** Storing the ids of a list of catalog products and loading them back gives
      the list back, when catalog ids are unique. */
  lemma {:induction false} RehydrateRoundTrip(catalog: seq<Product>, list: seq<Product>)
    requires UniqueIds(catalog)
    requires forall i :: 0 <= i < |list| ==> list[i] in catalog
    ensures Rehydrate(catalog, Ids(list)) == list
  {
    if list != [] {
      var p := list[0];
      assert Ids(list)[1..] == Ids(list[1..]);
      var k :| 0 <= k < |catalog| && catalog[k] == p;
      FindByIdFirst(catalog, p.id, k);
      RehydrateRoundTrip(catalog, list[1..]);
    }
  }

  // ---------------------------------------------------------------------
  // The shop filter and the category summaries

  /** The shop's filter state: `activeCategory`, `priceRange` (pence) and `minRating` (tenths). */
  datatype Filters = Filters(category: string, priceLo: int, priceHi: int, minRating: int)

  /** The state `clearFilters` restores: 'All', [£0, £2000], no minimum rating. */
  const DefaultFilters: Filters := Filters("All", 0, 200000, 0)

  predicate MatchesFilters(f: Filters, p: Product)
  {
    && (f.category == "All" || p.category.Name() == f.category)
    && f.priceLo <= p.price <= f.priceHi
    && p.rating >= f.minRating
  }

  /** `filteredProducts`. */
  function FilteredProducts(catalog: seq<Product>, f: Filters): (r: seq<Product>)
    ensures forall p :: p in r <==>
      && p in catalog
      && (f.category == "All" || p.category.Name() == f.category)
      && f.priceLo <= p.price <= f.priceHi
      && p.rating >= f.minRating
  {
    Filter(catalog, p => MatchesFilters(f, p))
  }

  lemma FilteredProductsKeepOrder(catalog: seq<Product>, f: Filters)
    ensures IsSubsequence(FilteredProducts(catalog, f), catalog)
    ensures forall p :: multiset(FilteredProducts(catalog, f))[p] == if MatchesFilters(f, p) then multiset(catalog)[p] else 0
  {
    FilterIsSubsequence(catalog, p => MatchesFilters(f, p));
    FilterMultiplicity(catalog, p => MatchesFilters(f, p));
  }

  /** With the default filters the shop lists the whole catalog. */
  lemma DefaultFiltersShowCatalog()
    ensures FilteredProducts(Products, DefaultFilters) == Products
  {
    forall i | 0 <= i < |Products|
      ensures MatchesFilters(DefaultFilters, Products[i])
    {
      PricesAndRatingsInRange(i);
    }
    FilterAll(Products, p => MatchesFilters(DefaultFilters, p));
  }

  lemma PricesAndRatingsInRange(i: int)
    requires 0 <= i < |Products|
    ensures 0 <= Products[i].price <= 200000 && Products[i].rating >= 0
  {
  }

  function CategoryNames(catalog: seq<Product>): (r: seq<string>)
    ensures |r| == |catalog| && forall i :: 0 <= i < |catalog| ==> r[i] == catalog[i].category.Name()
  {
    seq(|catalog|, i requires 0 <= i < |catalog| => catalog[i].category.Name())
  }

  /** `categories`: 'All' followed by each category once, in catalog order. */
  function CategoryList(catalog: seq<Product>): (r: seq<string>)
    ensures |r| >= 1 && r[0] == "All"
    ensures forall c :: c in r[1..] <==> exists i :: 0 <= i < |catalog| && catalog[i].category.Name() == c
    ensures forall i, j :: 0 <= i < j < |r| ==> r[i] != r[j]
  {
    var names := CategoryNames(catalog);
    var d := Distinct(names);
    var r := ["All"] + d;
    assert r[1..] == d;
    assert forall j :: 0 <= j < |d| ==> d[j] != "All" by {
      forall j | 0 <= j < |d|
        ensures d[j] != "All"
      {
        assert d[j] in names;
        var i :| 0 <= i < |names| && names[i] == d[j];
        assert names[i] == catalog[i].category.Name();
      }
    }
    assert forall c :: c in d <==> exists i :: 0 <= i < |catalog| && catalog[i].category.Name() == c by {
      forall c
        ensures c in d <==> exists i :: 0 <= i < |catalog| && catalog[i].category.Name() == c
      {
        if c in d {
          assert c in names;
          var i :| 0 <= i < |names| && names[i] == c;
          assert catalog[i].category.Name() == c;
        }
        if exists i :: 0 <= i < |catalog| && catalog[i].category.Name() == c {
          var i :| 0 <= i < |catalog| && catalog[i].category.Name() == c;
          assert names[i] == c;
          assert c in names;
        }
      }
    }
    r
  }

  lemma CategoryListKeepsOrder(catalog: seq<Product>)
    ensures IsSubsequence(CategoryList(catalog)[1..], CategoryNames(catalog))
    ensures FirstOccurrenceOrder(CategoryList(catalog)[1..], CategoryNames(catalog))
  {
    DistinctKeepsOrder(CategoryNames(catalog));
    DistinctFirstOccurrence(CategoryNames(catalog));
    assert CategoryList(catalog)[1..] == Distinct(CategoryNames(catalog));
  }

  /** The number of products in `catalog` of category `c`. */
  function CategoryCount(catalog: seq<Product>, c: Category): nat
  {
    if catalog == [] then 0
    else CategoryCount(catalog[..|catalog| - 1], c) + (if catalog[|catalog| - 1].category == c then 1 else 0)
  }

  lemma CategoryCountStep(catalog: seq<Product>, i: int, c: Category)
    requires 0 <= i < |catalog|
    ensures CategoryCount(catalog[..i + 1], c) ==
      CategoryCount(catalog[..i], c) + (if catalog[i].category == c then 1 else 0)
  {
    assert catalog[..i + 1][..i] == catalog[..i];
  }

  /** The count agrees with the number of products a category filter keeps. */
  lemma {:induction false} CategoryCountIsFilterLength(catalog: seq<Product>, c: Category)
    ensures CategoryCount(catalog, c) == |Filter(catalog, (p: Product) => p.category == c)|
  {
    if catalog != [] {
      var n := |catalog|;
      var f := (p: Product) => p.category == c;
      assert catalog == catalog[..n - 1] + [catalog[n - 1]];
      FilterAppend(catalog[..n - 1], [catalog[n - 1]], f);
      assert [catalog[n - 1]][1..] == [];
      CategoryCountIsFilterLength(catalog[..n - 1], c);
    }
  }

  /** `productCounts`: accumulate a count per category in one pass. The keys
      are the categories themselves, each standing for its display name. */
  method ProductCounts(catalog: seq<Product>) returns (counts: map<Category, int>)
    ensures forall c :: c in counts <==> exists i :: 0 <= i < |catalog| && catalog[i].category == c
    ensures forall c :: c in counts ==> counts[c] == CategoryCount(catalog, c) && counts[c] >= 1
  {
    counts := map[];
    var i := 0;
    while i < |catalog|
      invariant 0 <= i <= |catalog|
      invariant forall c :: c in counts <==> exists j :: 0 <= j < i && catalog[j].category == c
      invariant forall c :: c in counts ==> counts[c] == CategoryCount(catalog[..i], c) >= 1
      invariant forall c :: c !in counts ==> CategoryCount(catalog[..i], c) == 0
    {
      var cat := catalog[i].category;
      var prior := if cat in counts then counts[cat] else 0;
      forall c
        ensures CategoryCount(catalog[..i + 1], c) ==
          CategoryCount(catalog[..i], c) + (if catalog[i].category == c then 1 else 0)
      {
        CategoryCountStep(catalog, i, c);
      }
      counts := counts[cat := prior + 1];
      i := i + 1;
    }
    assert catalog[..i] == catalog;
  }
}
