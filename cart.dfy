/**
 * The cart page: the cart/catalogue join made when the page loads, quantity
 * changes with a floor of one, removal, the running total, and checkout,
 * which records a frozen-price order, marks the bought products sold out,
 * empties the cart and files a notification.
 */
module Cart {
  import opened Wrappers
  import opened Seqs
  import opened Text
  import opened Data

  /** A cart entry joined with its product (`CartItemWithProduct`). */
  datatype CartLine = CartLine(productId: Id, quantity: int, product: Product)

  /** The stored items a list of joined lines came from. */
  function ItemsOf(lines: seq<CartLine>): seq<CartItem>
    decreases |lines|
  {
    if lines == [] then [] else [CartItem(lines[0].productId, lines[0].quantity)] + ItemsOf(lines[1..])
  }

  /**
   * The load effect: every stored item joined with the first product of its
   * id; an item whose product no longer exists is dropped.
   */
  function JoinCart(cart: seq<CartItem>, products: seq<Product>): (r: seq<CartLine>)
    ensures ItemsOf(r) == Filter(cart, (item: CartItem) => FindProduct(products, item.productId).Some?)
    ensures forall i :: 0 <= i < |r| ==> FindProduct(products, r[i].productId) == Some(r[i].product)
    decreases |cart|
  {
    if cart == [] then []
    else
      var rest := JoinCart(cart[1..], products);
      match FindProduct(products, cart[0].productId)
      case None => rest
      case Some(p) =>
        var line := CartLine(cart[0].productId, cart[0].quantity, p);
        assert ([line] + rest)[1..] == rest;
        [line] + rest
  }

  /** `cart.find((i) => i.productId === productId)`, as an index. */
  function ItemIndex(cart: seq<CartItem>, productId: Id): (r: Option<nat>)
    ensures r.Some? ==> r.value < |cart| && cart[r.value].productId == productId
    ensures r.Some? ==> forall k :: 0 <= k < r.value ==> cart[k].productId != productId
    ensures r.None? ==> forall k :: 0 <= k < |cart| ==> cart[k].productId != productId
  {
    FirstIndex(cart, (item: CartItem) => item.productId == productId)
  }

  /** `Math.max(1, n)`. */
  function AtLeastOne(n: int): int
  {
    if n > 1 then n else 1
  }

  /** `productId` has no earlier entry than index `j`. */
  predicate FirstEntry(cart: seq<CartItem>, productId: Id, j: int)
    requires 0 <= j <= |cart|
  {
    forall k :: 0 <= k < j ==> cart[k].productId != productId
  }

  /**
   * The stored cart after `updateQuantity`: the first entry for the product
   * gets `max(1, quantity + change)`; nothing else changes.
   */
  function WithQuantityChanged(cart: seq<CartItem>, productId: Id, change: int): (r: seq<CartItem>)
    ensures |r| == |cart|
    ensures (forall j :: 0 <= j < |cart| ==> cart[j].productId != productId) ==> r == cart
    ensures forall j :: 0 <= j < |cart| && cart[j].productId == productId && FirstEntry(cart, productId, j) ==>
      r[j] == CartItem(productId, AtLeastOne(cart[j].quantity + change)) && r[j].quantity >= 1
    ensures forall j :: 0 <= j < |cart| && r[j] != cart[j] ==>
      cart[j].productId == productId && FirstEntry(cart, productId, j)
  {
    match ItemIndex(cart, productId)
    case None => cart
    case Some(i) => cart[i := cart[i].(quantity := AtLeastOne(cart[i].quantity + change))]
  }

  predicate QuantitiesPositive(cart: seq<CartItem>)
  {
    forall i :: 0 <= i < |cart| ==> cart[i].quantity >= 1
  }

  /** Changing a quantity never takes a cart out of the "every quantity at least one" state. */
  lemma UpdateQuantityKeepsPositive(cart: seq<CartItem>, productId: Id, change: int)
    requires QuantitiesPositive(cart)
    ensures QuantitiesPositive(WithQuantityChanged(cart, productId, change))
  {
    var r := WithQuantityChanged(cart, productId, change);
    forall j | 0 <= j < |r| ensures r[j].quantity >= 1 {
      if r[j] != cart[j] {
        assert cart[j].productId == productId && FirstEntry(cart, productId, j);
      }
    }
  }

  /** The stored cart after `removeItem`: every entry of the product goes, the rest stay in order. */
  function Without(cart: seq<CartItem>, productId: Id): (r: seq<CartItem>)
    ensures forall i :: 0 <= i < |r| ==> r[i].productId != productId
    ensures forall i :: 0 <= i < |cart| && cart[i].productId != productId ==> cart[i] in r
    ensures IsSubsequence(r, cart)
  {
    Filter(cart, (item: CartItem) => item.productId != productId)
  }

  /** Removal drops exactly the entries of the product: the two parts add up to the cart. */
  lemma RemoveItemCount(cart: seq<CartItem>, productId: Id)
    ensures |Without(cart, productId)| + |Filter(cart, (item: CartItem) => item.productId == productId)| == |cart|
  {
    FilterPartition(cart, (item: CartItem) => item.productId != productId,
                    (item: CartItem) => item.productId == productId);
  }

  /** The page's lines after `updateQuantity`: every line of the product shows the new quantity. */
  function LinesWithQuantity(lines: seq<CartLine>, productId: Id, quantity: int): seq<CartLine>
  {
    seq(|lines|, i requires 0 <= i < |lines| =>
      if lines[i].productId == productId then lines[i].(quantity := quantity) else lines[i])
  }

  /** The page's lines after `removeItem`. */
  function LinesWithout(lines: seq<CartLine>, productId: Id): seq<CartLine>
  {
    Filter(lines, (line: CartLine) => line.productId != productId)
  }

  /** All prices and quantities on the lines are non-negative. */
  predicate NonNegativeLines(lines: seq<CartLine>)
  {
    forall i :: 0 <= i < |lines| ==> lines[i].product.price >= 0 && lines[i].quantity >= 0
  }

  /**
   * The `reduce` behind `calculateTotal`: price times quantity, summed over
   * the lines from 0; it is never negative when no price or quantity is.
   */
  function Total(lines: seq<CartLine>): (r: int)
    ensures lines == [] ==> r == 0
    ensures NonNegativeLines(lines) ==> r >= 0
    decreases |lines|
  {
    if lines == [] then 0
    else
      var price, quantity := lines[0].product.price, lines[0].quantity;
      assert price >= 0 && quantity > 0 ==> price * quantity >= 0 by {
        if price >= 0 && quantity > 0 {
          assert price * quantity == price * (quantity - 1) + price;
        }
      }
      assert NonNegativeLines(lines) ==> NonNegativeLines(lines[1..]);
      price * quantity + Total(lines[1..])
  }

  lemma {:induction false} TotalAppend(a: seq<CartLine>, b: seq<CartLine>)
    ensures Total(a + b) == Total(a) + Total(b)
    decreases |a|
  {
    if a == [] {
      assert a + b == b;
    } else {
      assert (a + b)[1..] == a[1..] + b;
      TotalAppend(a[1..], b);
    }
  }

  /** One order line per cart line, with the product's price and name at checkout time. */
  function OrderLines(lines: seq<CartLine>): seq<OrderLine>
  {
    seq(|lines|, i requires 0 <= i < |lines| =>
      OrderLine(lines[i].product.id, lines[i].quantity, lines[i].product.price, lines[i].product.name))
  }

  /** The sum of an order's line subtotals (frozen price times quantity). */
  function LinesTotal(items: seq<OrderLine>): int
    decreases |items|
  {
    if items == [] then 0 else items[0].price * items[0].quantity + LinesTotal(items[1..])
  }

  lemma {:induction false} OrderLinesTotal(lines: seq<CartLine>)
    ensures LinesTotal(OrderLines(lines)) == Total(lines)
    decreases |lines|
  {
    if lines != [] {
      OrderLinesTotal(lines[1..]);
      assert OrderLines(lines)[1..] == OrderLines(lines[1..]);
    }
  }

  /**
   * The order checkout records: one line per cart line, prices frozen from
   * the joined product, and a total that is both the page's total and the
   * sum of the order's own line subtotals.
   */
  function CheckoutOrder(orderId: Id, userId: Id, lines: seq<CartLine>, now: int): (o: Order)
    ensures o.id == orderId && o.userId == userId && o.status == OrderCompleted && o.createdAt == now
    ensures |o.items| == |lines|
    ensures forall i :: 0 <= i < |lines| ==>
      && o.items[i].productId == lines[i].product.id
      && o.items[i].quantity == lines[i].quantity
      && o.items[i].price == lines[i].product.price
      && o.items[i].productName == lines[i].product.name
    ensures o.total == Total(lines) == LinesTotal(o.items)
  {
    OrderLinesTotal(lines);
    Order(orderId, userId, OrderLines(lines), Total(lines), OrderCompleted, now)
  }

  /** The notification filed by checkout. */
  const OrderMessagePrefix: string := "Order completed! "

  /**
   * The unread order notification filed by checkout; the number after the
   * message's fixed opening reads back as the item count.
   */
  function OrderNotification(id: Id, userId: Id, count: nat, now: int): (r: Notification)
    ensures r.id == id && r.userId == userId && r.kind == OrderNotice && !r.read && r.createdAt == now
    ensures StartsWith(r.message, OrderMessagePrefix)
    ensures ParseIntPrefix(r.message[|OrderMessagePrefix|..]) == Some(count)
  {
    var message := OrderMessagePrefix + DecimalString(count) + " item(s) purchased.";
    assert message[|OrderMessagePrefix|..] == DecimalString(count) + " item(s) purchased.";
    ParseDecimalBeforeText(count, " item(s) purchased.");
    Notification(id, userId, message, OrderNotice, false, now)
  }

  /** The ids of the products on the cart lines. */
  function PurchasedIds(lines: seq<CartLine>): seq<Id>
  {
    seq(|lines|, i requires 0 <= i < |lines| => lines[i].product.id)
  }

  /**
   * The catalogue after checkout: for each purchased id, the first product
   * with that id is sold out; nothing else changes.
   */
  function SoldOutMarked(products: seq<Product>, lines: seq<CartLine>): (r: seq<Product>)
    ensures |r| == |products|
    ensures forall j :: 0 <= j < |r| ==> r[j] == products[j].(soldOut := r[j].soldOut)
    ensures forall j :: 0 <= j < |r| && products[j].id !in PurchasedIds(lines) ==> r[j] == products[j]
  {
    seq(|products|, j requires 0 <= j < |products| =>
      if products[j].id in PurchasedIds(lines) && FirstWithId(products, j)
      then products[j].(soldOut := true) else products[j])
  }

  /** Every cart line whose product is still in the catalogue finds it sold out after checkout. */
  lemma PurchasedProductsSoldOut(products: seq<Product>, lines: seq<CartLine>)
    ensures forall i, k :: 0 <= i < |lines| && ProductIndex(products, lines[i].product.id) == Some(k) ==>
      SoldOutMarked(products, lines)[k].soldOut
  {
    forall i, k | 0 <= i < |lines| && ProductIndex(products, lines[i].product.id) == Some(k)
      ensures SoldOutMarked(products, lines)[k].soldOut
    {
      assert PurchasedIds(lines)[i] == lines[i].product.id;
      assert FirstWithId(products, k);
    }
  }

  /** With distinct ids, exactly the purchased products end up sold out (the others keep their flag). */
  lemma SoldOutMarkedDistinct(products: seq<Product>, lines: seq<CartLine>)
    requires DistinctIds(products)
    ensures forall j :: 0 <= j < |products| ==>
      SoldOutMarked(products, lines)[j].soldOut == (products[j].id in PurchasedIds(lines) || products[j].soldOut)
  {
  }

  /**
   * The checkout loop: for each line in turn, find the first product with the
   * line's product id and set its sold-out flag.
   */
  method MarkSoldOut(products: seq<Product>, lines: seq<CartLine>) returns (r: seq<Product>)
    ensures r == SoldOutMarked(products, lines)
  {
    r := products;
    for n := 0 to |lines|
      invariant |r| == |products|
      invariant forall j :: 0 <= j < |r| ==>
        r[j] == (if products[j].id in PurchasedIds(lines[..n]) && FirstWithId(products, j)
                 then products[j].(soldOut := true) else products[j])
    {
      assert PurchasedIds(lines[..n + 1]) == PurchasedIds(lines[..n]) + [lines[n].product.id];
      var found := ProductIndex(r, lines[n].product.id);
      if found.Some? {
        var k := found.value;
        assert forall m :: 0 <= m < k ==> products[m].id != products[k].id;
        r := r[k := r[k].(soldOut := true)];
      }
    }
    assert lines[..|lines|] == lines;
  }

  /** The cart page's state: the joined lines it shows, for the signed-in user. */
  class CartPage {
    const store: DataStore
    const user: Option<User>
    var cartItems: seq<CartLine>

    constructor(store: DataStore, user: Option<User>)
      ensures this.store == store && this.user == user && cartItems == []
    {
      this.store := store;
      this.user := user;
      cartItems := [];
    }

    method LoadCart()
      modifies this`cartItems, store`storedProducts
      ensures user.None? ==>
        cartItems == old(cartItems) && store.storedProducts == old(store.storedProducts)
      ensures user.Some? ==>
        && cartItems == JoinCart(store.GetCart(user.value.id), Catalogue(old(store.storedProducts)))
        && store.storedProducts == SeededStorage(old(store.storedProducts))
    {
      if user.None? {
        return;
      }
      var cart := store.GetCart(user.value.id);
      var products := store.GetProducts();
      cartItems := JoinCart(cart, products);
    }

    method UpdateQuantity(productId: Id, change: int)
      modifies this`cartItems, store`carts
      ensures user.None? || ItemIndex(old(store.GetCart(user.value.id)), productId).None? ==>
        cartItems == old(cartItems) && store.carts == old(store.carts)
      ensures user.Some? && ItemIndex(old(store.GetCart(user.value.id)), productId).Some? ==>
        var cart := old(store.GetCart(user.value.id));
        var i := ItemIndex(cart, productId).value;
        && store.carts == old(store.carts)[user.value.id := WithQuantityChanged(cart, productId, change)]
        && cartItems == LinesWithQuantity(old(cartItems), productId, AtLeastOne(cart[i].quantity + change))
    {
      if user.None? {
        return;
      }
      var cart := store.GetCart(user.value.id);
      var found := ItemIndex(cart, productId);
      if found.Some? {
        var i := found.value;
        var quantity := AtLeastOne(cart[i].quantity + change);
        cart := cart[i := cart[i].(quantity := quantity)];
        store.SetCart(user.value.id, cart);
        cartItems := LinesWithQuantity(cartItems, productId, quantity);
      }
    }

    method RemoveItem(productId: Id)
      modifies this`cartItems, store`carts
      ensures user.None? ==> cartItems == old(cartItems) && store.carts == old(store.carts)
      ensures user.Some? ==>
        && store.carts == old(store.carts)[user.value.id := Without(old(store.GetCart(user.value.id)), productId)]
        && cartItems == LinesWithout(old(cartItems), productId)
    {
      if user.None? {
        return;
      }
      var cart := Without(store.GetCart(user.value.id), productId);
      store.SetCart(user.value.id, cart);
      cartItems := LinesWithout(cartItems, productId);
    }

    /** `calculateTotal`: 0 for an empty cart, and what the order lines built from the cart add up to. */
    function CalculateTotal(): (r: int)
      reads this
      ensures cartItems == [] ==> r == 0
      ensures r == LinesTotal(OrderLines(cartItems))
    {
      OrderLinesTotal(cartItems);
      Total(cartItems)
    }

    /** `orderId`, `notificationId` and `now` stand for the values derived from the clock. */
    method Checkout(orderId: Id, notificationId: Id, now: int) returns (placed: bool)
      modifies store`orders, store`storedProducts, store`carts, store`notifications
      ensures placed <==> user.Some? && cartItems != []
      ensures !placed ==>
        && store.orders == old(store.orders) && store.storedProducts == old(store.storedProducts)
        && store.carts == old(store.carts) && store.notifications == old(store.notifications)
      ensures placed ==>
        var userId := user.value.id;
        && store.orders == old(store.orders)[userId :=
             old(store.GetOrders(userId)) + [CheckoutOrder(orderId, userId, cartItems, now)]]
        && CheckoutOrder(orderId, userId, cartItems, now).total == CalculateTotal()
        && store.storedProducts == Some(SoldOutMarked(Catalogue(old(store.storedProducts)), cartItems))
        && store.carts == old(store.carts)[userId := []]
        && store.notifications == old(store.notifications)[userId :=
             old(store.GetNotifications(userId)) + [OrderNotification(notificationId, userId, |cartItems|, now)]]
    {
      if user.None? || cartItems == [] {
        return false;
      }
      var userId := user.value.id;
      var order := CheckoutOrder(orderId, userId, cartItems, now);
      var orders := store.GetOrders(userId);
      store.SetOrders(userId, orders + [order]);

      var products := store.GetProducts();
      products := MarkSoldOut(products, cartItems);
      store.SetProducts(products);

      store.SetCart(userId, []);

      var notifications := store.GetNotifications(userId);
      store.SetNotifications(userId, notifications + [OrderNotification(notificationId, userId, |cartItems|, now)]);
      return true;
    }
  }
}
