/**
 * The App component's state and its handlers (App.tsx). Each React state slot
 * is a field, except that the three filter slots form one and the loading flag
 * has none; each handler is a method that applies the matching reducer of
 * `Session` to the field it updates and leaves every other field as it was.
 * The three localStorage entries the app reads and writes are fields too
 * (`savedViewed`, `savedWishlist`, `savedOrders`): their JSON encoding is not
 * modelled, an entry is either absent or holds its decoded value.
 */
module Store {
  import opened Catalog
  import opened Seqs
  import Session
  import Basket

  /** Every field of a `Storefront`, as one value. */
  datatype StoreState = StoreState(
    view: ViewMode,
    cart: seq<CartItem>,
    compareList: seq<Product>,
    recentlyViewed: seq<Product>,
    wishlist: seq<Product>,
    orders: seq<Order>,
    selectedProduct: Option<Product>,
    quickViewProduct: Option<Product>,
    filters: Session.Filters,
    directBuyItem: Option<CartItem>,
    toast: Option<string>,
    savedViewed: Option<seq<string>>,
    savedWishlist: Option<seq<string>>,
    savedOrders: Option<seq<Order>>)

  class Storefront {
    var view: ViewMode
    var cart: seq<CartItem>
    var compareList: seq<Product>
    var recentlyViewed: seq<Product>
    var wishlist: seq<Product>
    var orders: seq<Order>
    var selectedProduct: Option<Product>
    var quickViewProduct: Option<Product>
    var filters: Session.Filters
    var directBuyItem: Option<CartItem>
    var toast: Option<string>
    var savedViewed: Option<seq<string>>
    var savedWishlist: Option<seq<string>>
    var savedOrders: Option<seq<Order>>

    function State(): StoreState
      reads this
    {
      StoreState(view, cart, compareList, recentlyViewed, wishlist, orders, selectedProduct,
        quickViewProduct, filters, directBuyItem, toast, savedViewed, savedWishlist, savedOrders)
    }

    /** What the handlers maintain: no id twice in any list, the comparison
        list holds at most three products and the recently-viewed list five. */
    predicate Valid()
      reads this
    {
      && CartUniqueIds(cart)
      && UniqueIds(compareList) && |compareList| <= Session.CompareCap
      && UniqueIds(recentlyViewed) && |recentlyViewed| <= Session.RecentlyViewedCap
      && UniqueIds(wishlist)
    }

    /** The initial `useState` values; `storage` is what localStorage holds. */
    constructor (storage: (Option<seq<string>>, Option<seq<string>>, Option<seq<Order>>))
      ensures State() == StoreState(Home, [], [], [], [], [], None, None, Session.DefaultFilters, None, None,
        storage.0, storage.1, storage.2)
      ensures Valid()
    {
      view := Home;
      cart := [];
      compareList := [];
      recentlyViewed := [];
      wishlist := [];
      orders := [];
      selectedProduct := None;
      quickViewProduct := None;
      filters := Session.DefaultFilters;
      directBuyItem := None;
      toast := None;
      savedViewed, savedWishlist, savedOrders := storage.0, storage.1, storage.2;
    }

    /** The mount effect: load the stored lists, dropping ids the catalog no
        longer has; an absent entry leaves its list as it is. */
    method Load(catalog: seq<Product>)
      modifies this
      ensures State() == old(State()).(
        recentlyViewed := if savedViewed.Some? then Session.Rehydrate(catalog, savedViewed.value) else old(recentlyViewed),
        wishlist := if savedWishlist.Some? then Session.Rehydrate(catalog, savedWishlist.value) else old(wishlist),
        orders := if savedOrders.Some? then savedOrders.value else old(orders))
    {
      if savedViewed.Some? {
        recentlyViewed := Session.Rehydrate(catalog, savedViewed.value);
      }
      if savedWishlist.Some? {
        wishlist := Session.Rehydrate(catalog, savedWishlist.value);
      }
      if savedOrders.Some? {
        orders := savedOrders.value;
      }
    }

    /** `changeView`; the scroll to the top is not modelled. */
    method ChangeView(v: ViewMode)
      modifies this
      ensures State() == old(State()).(view := v)
      ensures old(Valid()) ==> Valid()
    {
      view := v;
    }

    /** `trackProductView`, which also saves the ids of the new list. */
    method TrackProductView(product: Product)
      modifies this
      ensures recentlyViewed == Session.TrackProductView(old(recentlyViewed), product)
      ensures State() == old(State()).(recentlyViewed := recentlyViewed, savedViewed := Some(Ids(recentlyViewed)))
      ensures recentlyViewed[0] == product
      ensures old(Valid()) ==> Valid()
    {
      if Valid() {
        Session.TrackProductViewKeepsUnique(recentlyViewed, product);
      }
      recentlyViewed := Session.TrackProductView(recentlyViewed, product);
      savedViewed := Some(Ids(recentlyViewed));
    }

    /** `toggleWishlist`, with its notice and the saved ids. */
    method ToggleWishlist(product: Product)
      modifies this
      ensures wishlist == Session.ToggleWishlist(old(wishlist), product)
      ensures State() == old(State()).(
        wishlist := wishlist,
        savedWishlist := Some(Ids(wishlist)),
        toast := Some(if HasId(old(wishlist), product.id) then "Removed from Wishlist" else "Added to Wishlist"))
      ensures old(Valid()) ==> Valid()
    {
      if Valid() {
        Session.ToggleWishlistKeepsUnique(wishlist, product);
      }
      toast := Some(if HasId(wishlist, product.id) then "Removed from Wishlist" else "Added to Wishlist");
      wishlist := Session.ToggleWishlist(wishlist, product);
      savedWishlist := Some(Ids(wishlist));
    }

    /** `addToCart`, with its notice. */
    method AddToCart(product: Product, quantity: int)
      modifies this
      ensures State() == old(State()).(
        cart := Session.AddToCart(old(cart), product, quantity),
        toast := Some("Added " + product.name + " to Basket"))
      ensures old(Valid()) ==> Valid()
    {
      if Valid() {
        Session.AddToCartKeepsUnique(cart, product, quantity);
      }
      cart := Session.AddToCart(cart, product, quantity);
      toast := Some("Added " + product.name + " to Basket");
    }

    /** `handleBuyNow`: a single line bought straight away, bypassing the basket. */
    method BuyNow(product: Product, quantity: int)
      modifies this
      ensures State() == old(State()).(directBuyItem := Some(CartItem(product, quantity)), view := Checkout)
      ensures old(Valid()) ==> Valid()
    {
      directBuyItem := Some(CartItem(product, quantity));
      view := Checkout;
    }

    /** `toggleCompare`; `rejected` says the "Max 3" notice was shown. */
    method ToggleCompare(product: Product) returns (rejected: bool)
      modifies this
      ensures rejected <==> Session.CompareRejects(old(compareList), product)
      ensures State() == old(State()).(
        compareList := Session.ToggleCompare(old(compareList), product),
        toast := if rejected then Some("Max 3 products for comparison") else old(toast))
      ensures rejected ==> compareList == old(compareList)
      ensures old(Valid()) ==> Valid()
    {
      if Valid() {
        Session.ToggleCompareKeepsUnique(compareList, product);
      }
      rejected := Session.CompareRejects(compareList, product);
      if rejected {
        toast := Some("Max 3 products for comparison");
      }
      compareList := Session.ToggleCompare(compareList, product);
    }

    /** `removeFromCompare`. */
    method RemoveFromCompare(id: string)
      modifies this
      ensures State() == old(State()).(compareList := Session.WithoutId(old(compareList), id))
      ensures !HasId(compareList, id)
      ensures old(Valid()) ==> Valid()
    {
      if Valid() {
        Session.WithoutIdKeepsUnique(compareList, id);
      }
      compareList := Session.WithoutId(compareList, id);
    }

    /** `viewProductDetails`: record the view, select the product, open its page. */
    method ViewProductDetails(product: Product)
      modifies this
      ensures recentlyViewed == Session.TrackProductView(old(recentlyViewed), product)
      ensures State() == old(State()).(
        recentlyViewed := recentlyViewed,
        savedViewed := Some(Ids(recentlyViewed)),
        selectedProduct := Some(product),
        view := ProductDetail)
      ensures old(Valid()) ==> Valid()
    {
      TrackProductView(product);
      selectedProduct := Some(product);
      view := ProductDetail;
    }

    /** `handleQuickView`: record the view and open the quick-view dialog. */
    method QuickView(product: Product)
      modifies this
      ensures recentlyViewed == Session.TrackProductView(old(recentlyViewed), product)
      ensures State() == old(State()).(
        recentlyViewed := recentlyViewed,
        savedViewed := Some(Ids(recentlyViewed)),
        quickViewProduct := Some(product))
      ensures old(Valid()) ==> Valid()
    {
      TrackProductView(product);
      quickViewProduct := Some(product);
    }

    /** `selectCategory`; the loading indicator and its timer are not modelled. */
    method SelectCategory(category: string)
      modifies this
      ensures State() == old(State()).(filters := old(filters).(category := category), view := Shop)
      ensures old(Valid()) ==> Valid()
    {
      filters := filters.(category := category);
      view := Shop;
    }

    /** `updateQuantity`. */
    method UpdateQuantity(id: string, delta: int)
      modifies this
      ensures State() == old(State()).(cart := Session.UpdateQuantity(old(cart), id, delta))
      ensures old(Valid()) ==> Valid()
    {
      cart := Session.UpdateQuantity(cart, id, delta);
    }

    /** `removeFromCart`, with its notice. */
    method RemoveFromCart(id: string)
      modifies this
      ensures State() == old(State()).(
        cart := Session.RemoveFromCart(old(cart), id),
        toast := Some("Item removed from Basket"))
      ensures old(Valid()) ==> Valid()
    {
      Session.RemoveFromCartKeepsOrder(cart, id);
      cart := Session.RemoveFromCart(cart, id);
      toast := Some("Item removed from Basket");
    }

    /** The subtotal of what is being checked out, as passed to the payment page. */
    function CheckoutSubtotal(): (s: int)
      reads this
      ensures s == Basket.Subtotal(Session.OrderItems(cart, directBuyItem))
    {
      Session.CheckoutSubtotal(cart, directBuyItem)
    }

    /** The slots `handleCheckoutSuccess` reads, as the current render sees them.
        The payment page's callback keeps the values of the render in which the
        payment was submitted. */
    function CheckoutSlots(): Session.CheckoutState
      reads this
    {
      Session.CheckoutState(cart, directBuyItem, orders)
    }

    /** `handleCheckoutSuccess`, run by the payment callback with the slots
        `captured` at submission. The order id and date, random and clock-based
        in the app, are parameters. The React setters then replace the current
        slots: the orders, and the direct-buy line or the basket as `captured`
        says. */
    method CheckoutSuccess(captured: Session.CheckoutState, orderId: string, date: string, finalTotal: int)
      modifies this
      ensures orders == captured.orders + [Order(orderId, date, Session.OrderItems(captured.cart, captured.directBuyItem), finalTotal, Processing)]
      ensures State() == old(State()).(
        cart := if captured.directBuyItem.Some? then old(cart) else [],
        directBuyItem := if captured.directBuyItem.Some? then None else old(directBuyItem),
        orders := orders,
        savedOrders := Some(orders),
        view := Success)
      ensures captured == old(CheckoutSlots()) ==>
        CheckoutSlots() == Session.CheckoutSuccess(captured, orderId, date, finalTotal)
      ensures old(Valid()) ==> Valid()
    {
      var next := Session.CheckoutSuccess(captured, orderId, date, finalTotal);
      assert next.orders == captured.orders + [next.orders[|captured.orders|]];
      orders := next.orders;
      if captured.directBuyItem.Some? {
        directBuyItem := None;
      } else {
        cart := [];
      }
      savedOrders := Some(orders);
      view := Success;
    }

    /** `handleCancelCheckout`: a direct purchase returns to the shop, a basket
        checkout to the basket. */
    method CancelCheckout()
      modifies this
      ensures old(directBuyItem).Some? ==> State() == old(State()).(directBuyItem := None, view := Shop)
      ensures old(directBuyItem).None? ==> State() == old(State()).(view := Cart)
      ensures old(Valid()) ==> Valid()
    {
      if directBuyItem.Some? {
        directBuyItem := None;
        view := Shop;
      } else {
        view := Cart;
      }
    }

    /** `clearFilters`. */
    method ClearFilters()
      modifies this
      ensures State() == old(State()).(filters := Session.DefaultFilters)
      ensures old(Valid()) ==> Valid()
    {
      filters := Session.DefaultFilters;
    }

    /** The comparison bar's "clear" button: empty the comparison list. */
    method ClearCompare()
      modifies this
      ensures State() == old(State()).(compareList := [])
      ensures old(Valid()) ==> Valid()
    {
      compareList := [];
    }

    /** Closing the quick-view dialog. */
    method CloseQuickView()
      modifies this
      ensures State() == old(State()).(quickViewProduct := None)
      ensures old(Valid()) ==> Valid()
    {
      quickViewProduct := None;
    }

    /** The notice's `onClose`, called by its own three-second timer. */
    method DismissToast()
      modifies this
      ensures State() == old(State()).(toast := None)
      ensures old(Valid()) ==> Valid()
    {
      toast := None;
    }

    /** The products the shop page lists. */
    function ShopProducts(catalog: seq<Product>): (r: seq<Product>)
      reads this
      ensures forall p :: p in r <==> p in catalog && Session.MatchesFilters(filters, p)
    {
      Session.FilteredProducts(catalog, filters)
    }
  }

  /** The payment callback is not cancelled with the checkout: a direct
      purchase submitted and then abandoned with "Back to Basket" is still
      ordered, the success page opens, and the basket is kept. */
  method CancelledPaymentStillOrders(p: Product, q: Product) returns (s: Storefront)
    ensures s.orders == [Order("HI-100000", "1 Jan 2026", [CartItem(q, 1)], 0, Processing)]
    ensures s.cart == [CartItem(p, 1)] && s.directBuyItem.None?
    ensures s.view == Success
  {
    s := new Storefront((None, None, None));
    s.AddToCart(p, 1);
    s.BuyNow(q, 1);
    var captured := s.CheckoutSlots();
    s.CancelCheckout();
    s.CheckoutSuccess(captured, "HI-100000", "1 Jan 2026", 0);
  }
}
