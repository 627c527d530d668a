/**
 * The marketplace's records, its browser storage (the `dataStore` object,
 * with every storage key held as a field), the seed catalogue and the two
 * sign-up validators.
 */
module Data {
  import opened Wrappers
  import opened Seqs
  import opened Text

  type Id = string

  datatype Role = Buyer | Seller | Both

  datatype User = User(
    id: Id, name: string, nim: string, email: string, password: string, role: Role, createdAt: int)

  /** `category` is kept as the string the forms supply; `Categories` lists the six the pages offer. */
  datatype Product = Product(
    id: Id, name: string, price: int, category: string, description: string, condition: string,
    imageUrl: string, sellerId: Id, sellerName: string, soldOut: bool, createdAt: int)

  datatype CartItem = CartItem(productId: Id, quantity: int)

  /** One line of an order; `price` and `productName` are frozen at purchase time. */
  datatype OrderLine = OrderLine(productId: Id, quantity: int, price: int, productName: string)

  datatype OrderStatus = OrderCompleted | OrderPending

  datatype Order = Order(
    id: Id, userId: Id, items: seq<OrderLine>, total: int, status: OrderStatus, createdAt: int)

  datatype NotificationKind = SoldOutNotice | NewProductNotice | DiscountNotice | OrderNotice

  datatype Notification = Notification(
    id: Id, userId: Id, message: string, kind: NotificationKind, read: bool, createdAt: int)

  datatype BargainStatus = Pending | Accepted | Rejected

  /** A price negotiation; product name, original price and both parties are snapshots. */
  datatype BargainRequest = BargainRequest(
    id: Id, productId: Id, productName: string, originalPrice: int, offeredPrice: int,
    buyerId: Id, buyerName: string, sellerId: Id, sellerName: string,
    status: BargainStatus, message: string, createdAt: int)

  datatype Theme = Light | Dark

  const Categories: seq<string> := ["electronics", "fashion", "books", "sports", "home", "other"]

  /** The seed products are stamped with the time the module is loaded; the model fixes it. */
  const SeedCreatedAt: int := 0

  /** The catalogue a fresh browser starts from. */
  const InitialProducts: seq<Product> := [
    Product("1", "MacBook Air M1", 8500000, "electronics", "Like new, barely used. 8GB RAM, 256GB SSD",
            "Excellent", "/macbook-air-laptop.jpg", "seller1", "Ahmad Budi", false, SeedCreatedAt),
    Product("2", "Sony WH-1000XM4", 3200000, "electronics", "Premium noise cancelling headphones",
            "Good", "/wireless-headphones.png", "seller1", "Ahmad Budi", false, SeedCreatedAt),
    Product("3", "Uniqlo Jacket", 250000, "fashion", "Navy blue jacket, size M",
            "Very Good", "/navy-jacket.jpg", "seller2", "Siti Rahayu", false, SeedCreatedAt),
    Product("4", "Introduction to Algorithms", 450000, "books", "Classic CS textbook, 3rd edition",
            "Good", "/algorithms-textbook.jpg", "seller2", "Siti Rahayu", false, SeedCreatedAt),
    Product("5", "Canon EOS M50", 6500000, "electronics", "Mirrorless camera with kit lens",
            "Excellent", "/canon-camera.jpg", "seller1", "Ahmad Budi", false, SeedCreatedAt),
    Product("6", "Nike Air Max", 850000, "sports", "Size 42, white colorway",
            "Good", "/nike-air-max-white.jpg", "seller2", "Siti Rahayu", false, SeedCreatedAt)
  ]

  predicate DistinctIds(products: seq<Product>)
  {
    forall i, j :: 0 <= i < j < |products| ==> products[i].id != products[j].id
  }

  /** Six products with the distinct ids "1" to "6", none sold out, all priced and categorised. */
  lemma InitialProductsShape()
    ensures |InitialProducts| == 6 && DistinctIds(InitialProducts)
    ensures forall i :: 0 <= i < |InitialProducts| ==>
      && InitialProducts[i].id == DecimalString(i + 1)
      && !InitialProducts[i].soldOut
      && InitialProducts[i].price > 0
      && InitialProducts[i].category in Categories
  {
  }

  /**
   * What `getProducts` returns for the stored value of the products key
   * (None: the key is absent): the seed when nothing or an empty list is
   * stored, the stored list otherwise.
   */
  function Catalogue(stored: Option<seq<Product>>): (r: seq<Product>)
    ensures r != []
    ensures stored.Some? && stored.value != [] ==> r == stored.value
    ensures stored.None? || stored == Some([]) ==> r == InitialProducts
  {
    match stored
    case None => InitialProducts
    case Some(products) => if products == [] then InitialProducts else products
  }

  /** The products key after `getProducts`: an empty stored list is replaced by the seed. */
  function SeededStorage(stored: Option<seq<Product>>): Option<seq<Product>>
  {
    if stored == Some([]) then Some(InitialProducts) else stored
  }

  /** Reading the catalogue again after `getProducts` gives the same list, and the seeding happens once. */
  lemma GetProductsStable(stored: Option<seq<Product>>)
    ensures Catalogue(SeededStorage(stored)) == Catalogue(stored)
    ensures SeededStorage(SeededStorage(stored)) == SeededStorage(stored)
  {
  }

  /** `products.findIndex((p) => p.id === id)`. */
  function ProductIndex(products: seq<Product>, id: Id): (r: Option<nat>)
    ensures r.Some? ==> r.value < |products| && products[r.value].id == id
    ensures r.Some? ==> forall k :: 0 <= k < r.value ==> products[k].id != id
    ensures r.None? ==> forall k :: 0 <= k < |products| ==> products[k].id != id
  {
    FirstIndex(products, (p: Product) => p.id == id)
  }

  /** No product before index `j` has the id of the product at `j`. */
  predicate FirstWithId(products: seq<Product>, j: int)
    requires 0 <= j < |products|
  {
    forall k :: 0 <= k < j ==> products[k].id != products[j].id
  }

  /** `products.find((p) => p.id === id)`. */
  function FindProduct(products: seq<Product>, id: Id): (r: Option<Product>)
    ensures r.Some? ==> r.value in products && r.value.id == id
    ensures r.None? <==> forall p :: p in products ==> p.id != id
  {
    match ProductIndex(products, id)
    case None => None
    case Some(i) => Some(products[i])
  }

  /** `validateBinusianEmail`. */
  predicate ValidateBinusianEmail(email: string)
  {
    EndsWith(email, "@binus.ac.id") || EndsWith(email, "@binus.edu")
  }

  /** `validatePassword`: `length` counts UTF-16 code units. */
  predicate ValidatePassword(password: string)
  {
    Utf16Length(password) >= 5
  }

  /** An address is Binusian exactly when it is some local part followed by one of the two domains. */
  lemma ValidateBinusianEmailIff(email: string)
    ensures ValidateBinusianEmail(email) <==>
      exists local: string :: email == local + "@binus.ac.id" || email == local + "@binus.edu"
  {
    EndsWithIffConcat(email, "@binus.ac.id");
    EndsWithIffConcat(email, "@binus.edu");
  }

  /**
   * A password passes exactly when its characters, with every astral
   * character counted twice, number at least five: five characters always
   * suffice, two never do, and adding characters never makes a valid
   * password invalid.
   */
  lemma ValidatePasswordIff(password: string, more: string)
    ensures ValidatePassword(password) <==> |password| + |Filter(password, IsAstral)| >= 5
    ensures |password| >= 5 ==> ValidatePassword(password)
    ensures |password| <= 2 ==> !ValidatePassword(password)
    ensures ValidatePassword(password) ==> ValidatePassword(password + more)
  {
    Utf16LengthCountsAstralTwice(password);
    Utf16LengthAppend(password, more);
  }

  /** Three emoji make a valid password (six code units), four ASCII letters do not. */
  lemma ValidatePasswordExamples()
    ensures ValidatePassword("\U{1F600}\U{1F600}\U{1F600}")
    ensures !ValidatePassword("abcd")
  {
    var emoji := "\U{1F600}\U{1F600}\U{1F600}";
    assert IsAstral(emoji[0]) && IsAstral(emoji[1]) && IsAstral(emoji[2]);
    assert emoji[1..][1..][1..] == [];
  }

  /**
   * The browser's local storage as the `dataStore` object reads and writes
   * it. A key that was never written reads as its default: the empty list,
   * null, or (for products) the seed, which `GetProducts` writes back only
   * when an empty list is stored.
   */
  class DataStore {
    var users: seq<User>
    var storedProducts: Option<seq<Product>>
    var carts: map<Id, seq<CartItem>>
    var orders: map<Id, seq<Order>>
    var notifications: map<Id, seq<Notification>>
    var currentUser: Option<User>
    var bargains: seq<BargainRequest>
    /** The `boroboro_view_history_<userId>` keys. */
    var viewHistory: map<Id, seq<Id>>
    /** The separate `theme` key the navigation bar keeps. */
    var savedTheme: Option<Theme>

    constructor()
      ensures users == [] && storedProducts == None && carts == map[] && orders == map[]
      ensures notifications == map[] && currentUser == None && bargains == []
      ensures viewHistory == map[] && savedTheme == None
    {
      users := [];
      storedProducts := None;
      carts := map[];
      orders := map[];
      notifications := map[];
      currentUser := None;
      bargains := [];
      viewHistory := map[];
      savedTheme := None;
    }

    method SetUsers(newUsers: seq<User>)
      modifies this`users
      ensures users == newUsers
    {
      users := newUsers;
    }

    method GetProducts() returns (products: seq<Product>)
      modifies this`storedProducts
      ensures products == Catalogue(old(storedProducts))
      ensures storedProducts == SeededStorage(old(storedProducts))
    {
      products := Catalogue(storedProducts);
      if storedProducts == Some([]) {
        storedProducts := Some(InitialProducts);
      }
    }

    method SetProducts(products: seq<Product>)
      modifies this`storedProducts
      ensures storedProducts == Some(products)
    {
      storedProducts := Some(products);
    }

    function GetCart(userId: Id): seq<CartItem>
      reads this`carts
    {
      if userId in carts then carts[userId] else []
    }

    method SetCart(userId: Id, cart: seq<CartItem>)
      modifies this`carts
      ensures carts == old(carts)[userId := cart]
    {
      carts := carts[userId := cart];
    }

    function GetOrders(userId: Id): seq<Order>
      reads this`orders
    {
      if userId in orders then orders[userId] else []
    }

    method SetOrders(userId: Id, userOrders: seq<Order>)
      modifies this`orders
      ensures orders == old(orders)[userId := userOrders]
    {
      orders := orders[userId := userOrders];
    }

    function GetNotifications(userId: Id): seq<Notification>
      reads this`notifications
    {
      if userId in notifications then notifications[userId] else []
    }

    method SetNotifications(userId: Id, userNotifications: seq<Notification>)
      modifies this`notifications
      ensures notifications == old(notifications)[userId := userNotifications]
    {
      notifications := notifications[userId := userNotifications];
    }

    method SetCurrentUser(user: Option<User>)
      modifies this`currentUser
      ensures currentUser == user
    {
      currentUser := user;
    }

    method SetBargainRequests(newBargains: seq<BargainRequest>)
      modifies this`bargains
      ensures bargains == newBargains
    {
      bargains := newBargains;
    }

    function GetViewHistory(userId: Id): seq<Id>
      reads this`viewHistory
    {
      if userId in viewHistory then viewHistory[userId] else []
    }

    method SetViewHistory(userId: Id, history: seq<Id>)
      modifies this`viewHistory
      ensures viewHistory == old(viewHistory)[userId := history]
    {
      viewHistory := viewHistory[userId := history];
    }

    method SetSavedTheme(theme: Theme)
      modifies this`savedTheme
      ensures savedTheme == Some(theme)
    {
      savedTheme := Some(theme);
    }
  }
}
