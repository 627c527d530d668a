/**
 * The navigation bar: the cart badge (total quantity), the bargain badge
 * (pending requests addressed to the user), the light/dark theme toggle
 * and the paths on which the bar is hidden.
 */
module Navbar {
  import opened Wrappers
  import opened Seqs
  import opened Data
  import Cart
  import Bargains

  /**
   * `cart.reduce((acc, item) => acc + item.quantity, 0)`: 0 for an empty
   * cart, and at least the number of entries when every quantity is at
   * least one.
   */
  function CartCount(cart: seq<CartItem>): (r: int)
    ensures cart == [] ==> r == 0
    ensures Cart.QuantitiesPositive(cart) ==> r >= |cart|
    decreases |cart|
  {
    if cart == [] then 0
    else
      assert Cart.QuantitiesPositive(cart) ==> Cart.QuantitiesPositive(cart[1..]);
      cart[0].quantity + CartCount(cart[1..])
  }

  lemma {:induction false} CartCountAppend(a: seq<CartItem>, b: seq<CartItem>)
    ensures CartCount(a + b) == CartCount(a) + CartCount(b)
    decreases |a|
  {
    if a != [] {
      CartCountAppend(a[1..], b);
      assert (a + b)[1..] == a[1..] + b;
    } else {
      assert a + b == b;
    }
  }

  /** Changing one entry moves the badge by the change in that entry's quantity. */
  lemma CartCountUpdate(cart: seq<CartItem>, i: nat, item: CartItem)
    requires i < |cart|
    ensures CartCount(cart[i := item]) == CartCount(cart) - cart[i].quantity + item.quantity
  {
    assert cart == cart[..i] + [cart[i]] + cart[i + 1..];
    assert cart[i := item] == cart[..i] + [item] + cart[i + 1..];
    CartCountAppend(cart[..i] + [cart[i]], cart[i + 1..]);
    CartCountAppend(cart[..i], [cart[i]]);
    CartCountAppend(cart[..i] + [item], cart[i + 1..]);
    CartCountAppend(cart[..i], [item]);
  }

  /**
   * After a quantity change on the cart page the badge moves by exactly the
   * change of the affected entry (the floor of one included).
   */
  lemma UpdateQuantityBadge(cart: seq<CartItem>, productId: Id, change: int)
    ensures Cart.ItemIndex(cart, productId).None? ==>
      CartCount(Cart.WithQuantityChanged(cart, productId, change)) == CartCount(cart)
    ensures Cart.ItemIndex(cart, productId).Some? ==>
      var q := cart[Cart.ItemIndex(cart, productId).value].quantity;
      CartCount(Cart.WithQuantityChanged(cart, productId, change)) == CartCount(cart) - q + Cart.AtLeastOne(q + change)
  {
    match Cart.ItemIndex(cart, productId)
    case None =>
    case Some(i) =>
      CartCountUpdate(cart, i, cart[i].(quantity := Cart.AtLeastOne(cart[i].quantity + change)));
  }

  predicate PendingFor(b: BargainRequest, userId: Id)
  {
    b.sellerId == userId && b.status == Pending
  }

  function IsPendingFor(userId: Id): BargainRequest -> bool
  {
    (b: BargainRequest) => PendingFor(b, userId)
  }

  /** The bargain badge: requests addressed to the user as seller that are still pending. */
  function PendingBargainCount(bargains: seq<BargainRequest>, userId: Id): (r: nat)
    ensures r <= |bargains|
    ensures r == 0 <==> forall i :: 0 <= i < |bargains| ==> !PendingFor(bargains[i], userId)
  {
    var pending := Filter(bargains, IsPendingFor(userId));
    assert forall i :: 0 <= i < |pending| ==> PendingFor(pending[i], userId);
    |pending|
  }

  /** The number on the bargains page's "received" tab equals the badge. */
  lemma ReceivedTabMatchesBadge(bargains: seq<BargainRequest>, userId: Id)
    ensures Bargains.PendingCount(Bargains.Received(bargains, userId)) == PendingBargainCount(bargains, userId)
  {
    var mine := Bargains.ReceivedBy(bargains, userId);
    var received := Bargains.Received(bargains, userId);
    assert received == Bargains.NewestFirst(mine);
    FilterPermutation(received, mine, Bargains.IsPendingRequest);
    FilterFilter(bargains, Bargains.AddressedTo(userId), Bargains.IsPendingRequest, IsPendingFor(userId));
  }

  /** Answering a pending request addressed to the user lowers the badge by one. */
  lemma RespondingDecrementsBadge(bargains: seq<BargainRequest>, bargainId: Id, accept: bool, userId: Id)
    requires Bargains.AwaitingResponse(bargains, bargainId)
    requires Bargains.BargainIndex(bargains, bargainId).Some?
    requires bargains[Bargains.BargainIndex(bargains, bargainId).value].sellerId == userId
    ensures PendingBargainCount(Bargains.WithResponse(bargains, bargainId, accept), userId)
      == PendingBargainCount(bargains, userId) - 1
  {
    var i := Bargains.BargainIndex(bargains, bargainId).value;
    FilterUpdate(bargains, i, bargains[i].(status := Bargains.ResponseStatus(accept)), IsPendingFor(userId));
  }

  /** `theme === "light" ? "dark" : "light"`. */
  function Toggled(t: Theme): (r: Theme)
    ensures r != t
  {
    if t == Light then Dark else Light
  }

  lemma ToggleTwice(t: Theme)
    ensures Toggled(Toggled(t)) == t
  {
  }

  /** The bar is hidden on the sign-in, sign-up and landing pages. */
  predicate ShowsNavbar(pathname: string)
  {
    pathname != "/signin" && pathname != "/signup" && pathname != "/"
  }

  /** The bar appears on every marketplace page and on none of the three entry pages. */
  lemma HiddenOnlyOnEntryPages(pathname: string)
    ensures ShowsNavbar(pathname) <==> pathname !in EntryPages
    ensures forall p :: p in EntryPages ==> !ShowsNavbar(p)
  {
  }

  const EntryPages: seq<string> := ["/signin", "/signup", "/"]

  /** The navigation bar's state. */
  class NavigationBar {
    const store: DataStore
    const user: Option<User>
    var cartCount: int
    var bargainCount: nat
    var theme: Theme

    constructor(store: DataStore, user: Option<User>)
      ensures this.store == store && this.user == user
      ensures cartCount == 0 && bargainCount == 0 && theme == Light
    {
      this.store := store;
      this.user := user;
      cartCount := 0;
      bargainCount := 0;
      theme := Light;
    }

    /**
     * The effect run on each navigation: with a user both badges are
     * recomputed from storage (without one they keep their values), and a
     * saved theme is adopted.
     */
    method Refresh()
      modifies this`cartCount, this`bargainCount, this`theme
      ensures user.None? ==> cartCount == old(cartCount) && bargainCount == old(bargainCount)
      ensures user.Some? ==>
        && cartCount == CartCount(store.GetCart(user.value.id))
        && bargainCount == PendingBargainCount(store.bargains, user.value.id)
      ensures store.savedTheme.Some? ==> theme == store.savedTheme.value
      ensures store.savedTheme.None? ==> theme == old(theme)
    {
      if user.Some? {
        var cart := store.GetCart(user.value.id);
        var count := 0;
        for k := 0 to |cart|
          invariant count + CartCount(cart[k..]) == CartCount(cart)
        {
          assert cart[k..] == [cart[k]] + cart[k + 1..];
          count := count + cart[k].quantity;
        }
        cartCount := count;
        var pending := Filter(store.bargains, IsPendingFor(user.value.id));
        bargainCount := |pending|;
      }
      if store.savedTheme.Some? {
        theme := store.savedTheme.value;
      }
    }

    /** `toggleTheme`: the other theme, shown and saved. */
    method ToggleTheme()
      modifies this`theme, store`savedTheme
      ensures theme == Toggled(old(theme)) && store.savedTheme == Some(theme)
    {
      var newTheme := Toggled(theme);
      theme := newTheme;
      store.SetSavedTheme(newTheme);
    }
  }
}
