/**
 * The sell page: the listing form's required-field check and the new
 * product it appends to the catalogue.
 */
module Sell {
  import opened Wrappers
  import opened Text
  import opened Data

  /** The form's fields as the user typed them. */
  datatype SellForm = SellForm(
    name: string, price: string, category: string, condition: string, description: string, imageUrl: string)

  /** What a submission did. */
  datatype SubmitOutcome = NotSignedIn | MissingFields | Listed(product: Product)

  /** One of name, price, category, condition or description is empty (the image URL is optional). */
  predicate MissingRequiredField(form: SellForm)
  {
    form.name == "" || form.price == "" || form.category == "" || form.condition == "" || form.description == ""
  }

  const ListingIdPrefix: string := "product_"

  const PlaceholderPrefix: string := "/placeholder.svg?height=400&width=400&query="

  /** `product_<timestamp>`. */
  function ListingId(now: nat): (r: Id)
    ensures StartsWith(r, ListingIdPrefix) && |r| > |ListingIdPrefix|
    ensures ParseIntPrefix(r[|ListingIdPrefix|..]) == Some(now)
  {
    var r := ListingIdPrefix + DecimalString(now);
    assert r[|ListingIdPrefix|..] == DecimalString(now);
    ParseDecimalString(now);
    r
  }

  /** Listings created at different times get different ids. */
  lemma ListingIdInjective(t1: nat, t2: nat)
    requires ListingId(t1) == ListingId(t2)
    ensures t1 == t2
  {
  }

  /** The placeholder image for a listing without one: the name, URI-encoded, as the query. */
  function PlaceholderImageUrl(name: string): (r: string)
    ensures StartsWith(r, PlaceholderPrefix)
    ensures r[|PlaceholderPrefix|..] == EncodeUriComponent(name)
    ensures forall i :: |PlaceholderPrefix| <= i < |r| ==> IsUnreservedUriChar(r[i]) || r[i] == '%'
  {
    var r := PlaceholderPrefix + EncodeUriComponent(name);
    assert r[|PlaceholderPrefix|..] == EncodeUriComponent(name);
    r
  }

  /** A name made only of unreserved characters appears in the placeholder URL as it is. */
  lemma PlaceholderOfPlainName(name: string)
    requires forall i :: 0 <= i < |name| ==> IsUnreservedUriChar(name[i])
    ensures PlaceholderImageUrl(name) == PlaceholderPrefix + name
  {
  }

  /**
   * The listing a valid form creates; `price` is the numeric value of the
   * price field and `now` the submission time.
   */
  function NewListing(user: User, form: SellForm, price: int, now: nat): (r: Product)
    ensures !r.soldOut && r.sellerId == user.id && r.sellerName == user.name
    ensures r.name == form.name && r.price == price && r.category == form.category
    ensures r.condition == form.condition && r.description == form.description
    ensures form.imageUrl != "" ==> r.imageUrl == form.imageUrl
    ensures form.imageUrl == "" ==> r.imageUrl == PlaceholderImageUrl(form.name)
    ensures r.id == ListingId(now) && r.createdAt == now
  {
    Product(
      ListingId(now), form.name, price, form.category, form.description, form.condition,
      if form.imageUrl != "" then form.imageUrl else PlaceholderImageUrl(form.name),
      user.id, user.name, false, now)
  }

  /** A listing's id has no leading digit, so it carries no popularity in the recommendations. */
  lemma ListingIdNotNumeric(now: nat)
    ensures ParseIntPrefix(ListingId(now)) == None
  {
    assert ListingId(now)[0] == 'p';
  }

  /**
   * `handleSubmit`: without a user nothing happens; with a required field
   * empty nothing is stored; otherwise the new listing is appended to the
   * catalogue and the existing products stay as they were.
   */
  method HandleSubmit(store: DataStore, user: Option<User>, form: SellForm, price: int, now: nat)
    returns (outcome: SubmitOutcome)
    modifies store`storedProducts
    ensures user.None? ==> outcome == NotSignedIn && store.storedProducts == old(store.storedProducts)
    ensures user.Some? && MissingRequiredField(form) ==>
      outcome == MissingFields && store.storedProducts == old(store.storedProducts)
    ensures user.Some? && !MissingRequiredField(form) ==>
      && outcome == Listed(NewListing(user.value, form, price, now))
      && store.storedProducts == Some(Catalogue(old(store.storedProducts)) + [outcome.product])
  {
    if user.None? {
      return NotSignedIn;
    }
    if form.name == "" || form.price == "" || form.category == "" || form.condition == "" || form.description == "" {
      return MissingFields;
    }
    var newProduct := NewListing(user.value, form, price, now);
    var products := store.GetProducts();
    products := products + [newProduct];
    store.SetProducts(products);
    outcome := Listed(newProduct);
  }

  /** A listing keeps every earlier product in place and adds one unsold product at the end. */
  lemma ListingAppends(stored: Option<seq<Product>>, product: Product)
    requires !product.soldOut
    ensures var after := Catalogue(Some(Catalogue(stored) + [product]));
      && |after| == |Catalogue(stored)| + 1
      && after[..|Catalogue(stored)|] == Catalogue(stored)
      && after[|after| - 1] == product && !after[|after| - 1].soldOut
  {
  }
}
