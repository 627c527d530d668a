/**
 * The purchase-history page: each of the user's orders joined with the
 * current catalogue line by line, sorted newest first in place.
 */
module Orders {
  import opened Wrappers
  import opened Data
  import Cart

  /** One displayed line: the product if it still exists, and the order's own quantity and price. */
  datatype ItemDetail = ItemDetail(product: Option<Product>, quantity: int, price: int)

  /** An order together with its displayed lines. */
  datatype OrderWithDetails = OrderWithDetails(order: Order, itemDetails: seq<ItemDetail>)

  const UnknownProduct: string := "Unknown Product"

  /** The lines of one order, each with the catalogue's product of that id (if any). */
  function Details(products: seq<Product>, items: seq<OrderLine>): (r: seq<ItemDetail>)
    ensures |r| == |items|
    ensures forall i :: 0 <= i < |items| ==>
      && r[i].product == FindProduct(products, items[i].productId)
      && r[i].quantity == items[i].quantity
      && r[i].price == items[i].price
  {
    seq(|items|, i requires 0 <= i < |items| =>
      ItemDetail(FindProduct(products, items[i].productId), items[i].quantity, items[i].price))
  }

  /** `userOrders.map(...)`: every order keeps its fields and gains its detail lines. */
  function WithDetails(products: seq<Product>, orders: seq<Order>): (r: seq<OrderWithDetails>)
    ensures |r| == |orders|
    ensures forall i :: 0 <= i < |orders| ==> r[i].order == orders[i] && r[i].itemDetails == Details(products, orders[i].items)
  {
    seq(|orders|, i requires 0 <= i < |orders| => OrderWithDetails(orders[i], Details(products, orders[i].items)))
  }

  /** The name shown for a line: the product's name, or "Unknown Product" when it is gone or unnamed. */
  function ProductLabel(d: ItemDetail): (r: string)
    ensures d.product.Some? && d.product.value.name != "" ==> r == d.product.value.name
    ensures d.product.None? || d.product.value.name == "" ==> r == UnknownProduct
  {
    match d.product
    case None => UnknownProduct
    case Some(p) => if p.name != "" then p.name else UnknownProduct
  }

  /** A line's subtotal: the frozen order price times the quantity. */
  function LineSubtotal(d: ItemDetail): int
  {
    d.price * d.quantity
  }

  function SubtotalsSum(details: seq<ItemDetail>): int
    decreases |details|
  {
    if details == [] then 0 else LineSubtotal(details[0]) + SubtotalsSum(details[1..])
  }

  /**
   * The displayed subtotals add up to the order's line total whatever the
   * catalogue now holds: a product's later repricing or removal does not
   * change them.
   */
  lemma {:induction false} SubtotalsMatchLines(products: seq<Product>, items: seq<OrderLine>)
    ensures SubtotalsSum(Details(products, items)) == Cart.LinesTotal(items)
    decreases |items|
  {
    if items != [] {
      SubtotalsMatchLines(products, items[1..]);
      assert Details(products, items)[1..] == Details(products, items[1..]);
    }
  }

  /** For an order placed by checkout, the displayed subtotals add up to the order total. */
  lemma CheckoutOrderSubtotals(products: seq<Product>, orderId: Id, userId: Id, lines: seq<Cart.CartLine>, now: int)
    ensures var o := Cart.CheckoutOrder(orderId, userId, lines, now);
      SubtotalsSum(Details(products, o.items)) == o.total
  {
    SubtotalsMatchLines(products, Cart.CheckoutOrder(orderId, userId, lines, now).items);
  }

  function Key(o: OrderWithDetails): int
  {
    o.order.createdAt
  }

  predicate NewestFirst(s: seq<OrderWithDetails>)
  {
    forall i, j :: 0 <= i < j < |s| ==> Key(s[i]) >= Key(s[j])
  }

  /** The first `n` entries of `a` are newest first. */
  predicate NewestFirstUpTo(a: seq<OrderWithDetails>, n: int)
    requires 0 <= n <= |a|
  {
    forall k, l :: 0 <= k < l < n ==> Key(a[k]) >= Key(a[l])
  }

  /** Exchange the neighbours at `j - 1` and `j`. */
  method Swap(a: array<OrderWithDetails>, j: int)
    requires 0 < j < a.Length
    modifies a
    ensures a[..] == old(a[..])[j - 1 := old(a[j])][j := old(a[j - 1])]
    ensures multiset(a[..]) == multiset(old(a[..]))
  {
    a[j - 1], a[j] := a[j], a[j - 1];
  }

  /** Move `a[i]` left past every strictly older neighbour, extending the sorted prefix by one. */
  method InsertNext(a: array<OrderWithDetails>, i: int)
    requires 0 <= i < a.Length && NewestFirstUpTo(a[..], i)
    modifies a
    ensures NewestFirstUpTo(a[..], i + 1)
    ensures multiset(a[..]) == multiset(old(a[..]))
  {
    var j := i;
    while j > 0 && Key(a[j - 1]) < Key(a[j])
      invariant 0 <= j <= i
      invariant multiset(a[..]) == multiset(old(a[..]))
      invariant forall k, l :: 0 <= k < l <= i && l != j ==> Key(a[k]) >= Key(a[l])
      invariant 0 < j < i ==> Key(a[j - 1]) >= Key(a[j + 1])
    {
      Swap(a, j);
      j := j - 1;
    }
  }

  /**
   * `ordersWithDetails.sort(...)` by creation time, newest first: an
   * insertion sort that only swaps strictly out-of-order neighbours, so
   * orders with equal times keep their relative order.
   */
  method SortNewestFirst(a: array<OrderWithDetails>)
    modifies a
    ensures NewestFirst(a[..])
    ensures multiset(a[..]) == multiset(old(a[..]))
  {
    var i := 0;
    while i < a.Length
      invariant 0 <= i <= a.Length
      invariant NewestFirstUpTo(a[..], i)
      invariant multiset(a[..]) == multiset(old(a[..]))
    {
      InsertNext(a, i);
      i := i + 1;
    }
  }

  /** The purchase-history page's state. */
  class OrdersPage {
    const store: DataStore
    const user: Option<User>
    var orders: seq<OrderWithDetails>

    constructor(store: DataStore, user: Option<User>)
      ensures this.store == store && this.user == user && orders == []
    {
      this.store := store;
      this.user := user;
      orders := [];
    }

    /**
     * The load effect: only the signed-in user's orders, each joined with
     * the catalogue, newest first; without a user nothing is loaded.
     */
    method Load()
      modifies this`orders, store`storedProducts
      ensures user.None? ==> orders == old(orders) && store.storedProducts == old(store.storedProducts)
      ensures user.Some? ==>
        && store.storedProducts == SeededStorage(old(store.storedProducts))
        && multiset(orders) == multiset(WithDetails(Catalogue(old(store.storedProducts)), store.GetOrders(user.value.id)))
        && NewestFirst(orders)
    {
      if user.None? {
        return;
      }
      var userOrders := store.GetOrders(user.value.id);
      var products := store.GetProducts();
      var details := WithDetails(products, userOrders);
      var a := new OrderWithDetails[|details|](i requires 0 <= i < |details| => details[i]);
      assert a[..] == details;
      SortNewestFirst(a);
      orders := a[..];
    }
  }
}
