/**
 * The seller dashboard: the user's own listings, their sold/active counts
 * and the number of purchases the user has made.
 */
module Dashboard {
  import opened Wrappers
  import opened Seqs
  import opened Data

  /** The listing counters the dashboard shows. */
  datatype Stats = Stats(totalListings: nat, soldItems: nat, activeListings: nat)

  /** Everything the dashboard shows. */
  datatype DashboardView = DashboardView(myProducts: seq<Product>, stats: Stats, purchases: nat)

  function SoldBy(userId: Id): Product -> bool
  {
    (p: Product) => p.sellerId == userId
  }

  function IsSold(p: Product): bool
  {
    p.soldOut
  }

  function IsActive(p: Product): bool
  {
    !p.soldOut
  }

  /** The user's listings: exactly the products they sell, in catalogue order, each as often as listed. */
  function MyListings(products: seq<Product>, userId: Id): (r: seq<Product>)
    ensures IsSubsequence(r, products)
    ensures forall i :: 0 <= i < |r| ==> r[i].sellerId == userId
    ensures forall i :: 0 <= i < |products| && products[i].sellerId == userId ==> products[i] in r
    ensures forall p :: multiset(r)[p] == (if p.sellerId == userId then multiset(products)[p] else 0)
  {
    FilterMultiplicities(products, SoldBy(userId));
    Filter(products, SoldBy(userId))
  }

  function SoldOutBy(userId: Id): Product -> bool
  {
    (p: Product) => p.sellerId == userId && p.soldOut
  }

  function ActiveBy(userId: Id): Product -> bool
  {
    (p: Product) => p.sellerId == userId && !p.soldOut
  }

  function ListingStats(listings: seq<Product>): Stats
  {
    Stats(|listings|, |Filter(listings, IsSold)|, |Filter(listings, IsActive)|)
  }

  /** Every listing is either sold or active, never both. */
  lemma StatsAddUp(listings: seq<Product>)
    ensures var s := ListingStats(listings);
      s.soldItems + s.activeListings == s.totalListings
  {
    FilterPartition(listings, IsSold, IsActive);
  }

  /** The dashboard for a signed-in user over a catalogue and the user's orders. */
  function DashboardFor(products: seq<Product>, userOrders: seq<Order>, userId: Id): (r: DashboardView)
    ensures r.myProducts == MyListings(products, userId)
    ensures r.stats.totalListings == |r.myProducts|
    ensures r.stats.soldItems == |Filter(r.myProducts, IsSold)|
    ensures r.stats.activeListings == |Filter(r.myProducts, IsActive)|
    ensures r.stats.soldItems + r.stats.activeListings == r.stats.totalListings
    ensures r.purchases == |userOrders|
  {
    var mine := MyListings(products, userId);
    StatsAddUp(mine);
    DashboardView(mine, ListingStats(mine), |userOrders|)
  }

  /**
   * The sold counter is the number of the user's catalogue listings that are
   * sold out, the active counter the number that are not.
   */
  lemma DashboardCounts(products: seq<Product>, userOrders: seq<Order>, userId: Id)
    ensures var r := DashboardFor(products, userOrders, userId);
      && r.stats.soldItems == |Filter(products, SoldOutBy(userId))|
      && r.stats.activeListings == |Filter(products, ActiveBy(userId))|
  {
    FilterFilter(products, SoldBy(userId), IsSold, SoldOutBy(userId));
    FilterFilter(products, SoldBy(userId), IsActive, ActiveBy(userId));
  }

  /** Each counter is zero exactly when none of the user's listings is in its state. */
  lemma DashboardCountZeroIff(products: seq<Product>, userOrders: seq<Order>, userId: Id)
    ensures var r := DashboardFor(products, userOrders, userId);
      && (r.stats.soldItems == 0 <==> forall i :: 0 <= i < |r.myProducts| ==> !r.myProducts[i].soldOut)
      && (r.stats.activeListings == 0 <==> forall i :: 0 <= i < |r.myProducts| ==> r.myProducts[i].soldOut)
  {
    var mine := MyListings(products, userId);
    FilterEmptyIff(mine, IsSold);
    FilterEmptyIff(mine, IsActive);
  }

  /** The load effect: nothing without a user; otherwise the user's dashboard (reading the catalogue may seed it). */
  method LoadDashboard(store: DataStore, user: Option<User>) returns (view: Option<DashboardView>)
    modifies store`storedProducts
    ensures user.None? ==> view.None? && store.storedProducts == old(store.storedProducts)
    ensures user.Some? ==>
      && store.storedProducts == SeededStorage(old(store.storedProducts))
      && view == Some(DashboardFor(Catalogue(old(store.storedProducts)), store.GetOrders(user.value.id), user.value.id))
  {
    if user.None? {
      return None;
    }
    var products := store.GetProducts();
    var orders := store.GetOrders(user.value.id);
    view := Some(DashboardFor(products, orders, user.value.id));
  }
}
