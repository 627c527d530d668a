/**
 * The explore page: the catalogue filtered by category and then either by
 * image-search keywords or by a text query, and the small state machine of
 * search modes its three handlers drive.
 */
module Explore {
  import opened Wrappers
  import opened Seqs
  import opened Text
  import opened Data

  /** The category value that selects every product. */
  const AllCategories: string := "all"

  /** `term` occurs, ignoring case, in the product's name, description or category. */
  predicate Mentions(p: Product, term: string)
  {
    var t := ToLower(term);
    Contains(ToLower(p.name), t) || Contains(ToLower(p.description), t) || Contains(ToLower(p.category), t)
  }

  /** Some keyword is mentioned by the product. */
  predicate MentionsAny(p: Product, keywords: seq<string>)
  {
    exists k :: 0 <= k < |keywords| && Mentions(p, keywords[k])
  }

  /** The image keywords take over from the text query only when there are some. */
  predicate KeywordMode(imageSearchActive: bool, imageKeywords: seq<string>)
  {
    imageSearchActive && |imageKeywords| > 0
  }

  /** Whether the page shows `p` in the given search state. */
  predicate Shown(p: Product, category: string, imageSearchActive: bool, imageKeywords: seq<string>, query: string)
  {
    && (category == AllCategories || p.category == category)
    && (if KeywordMode(imageSearchActive, imageKeywords) then MentionsAny(p, imageKeywords)
        else query == "" || Mentions(p, query))
  }

  function InCategory(category: string): Product -> bool
  {
    (p: Product) => p.category == category
  }

  function MentionsAnyOf(keywords: seq<string>): Product -> bool
  {
    (p: Product) => MentionsAny(p, keywords)
  }

  function MentionsTerm(query: string): Product -> bool
  {
    (p: Product) => Mentions(p, query)
  }

  /**
   * The filter effect: the category filter, then the keyword filter in
   * keyword mode, else the text filter for a non-empty query. The result
   * keeps the catalogue order and holds exactly the products `Shown` admits.
   */
  function FilterProducts(products: seq<Product>, category: string, imageSearchActive: bool,
                          imageKeywords: seq<string>, query: string): (r: seq<Product>)
    ensures IsSubsequence(r, products)
    ensures forall i :: 0 <= i < |r| ==> Shown(r[i], category, imageSearchActive, imageKeywords, query)
    ensures forall i :: 0 <= i < |products| && Shown(products[i], category, imageSearchActive, imageKeywords, query) ==>
      products[i] in r
  {
    var filtered := if category != AllCategories then Filter(products, InCategory(category)) else products;
    var r :=
      if KeywordMode(imageSearchActive, imageKeywords) then Filter(filtered, MentionsAnyOf(imageKeywords))
      else if query != "" then Filter(filtered, MentionsTerm(query))
      else filtered;
    SubsequenceReflexive(products);
    SubsequenceReflexive(filtered);
    SubsequenceTransitive(r, filtered, products);
    assert forall i :: 0 <= i < |r| ==> r[i] in filtered;
    forall i | 0 <= i < |products| && Shown(products[i], category, imageSearchActive, imageKeywords, query)
      ensures products[i] in r
    {
      assert products[i] in filtered;
      var k :| 0 <= k < |filtered| && filtered[k] == products[i];
    }
    r
  }

  /** Each shown product appears as often as the catalogue lists it; no other product appears. */
  lemma FilterProductsMultiplicity(products: seq<Product>, category: string, imageSearchActive: bool,
                                   imageKeywords: seq<string>, query: string)
    ensures forall p :: multiset(FilterProducts(products, category, imageSearchActive, imageKeywords, query))[p] ==
                        (if Shown(p, category, imageSearchActive, imageKeywords, query) then multiset(products)[p] else 0)
  {
    var filtered := if category != AllCategories then Filter(products, InCategory(category)) else products;
    FilterMultiplicities(products, InCategory(category));
    assert forall p: Product :: multiset(filtered)[p] ==
                                 (if category == AllCategories || p.category == category then multiset(products)[p] else 0);
    if KeywordMode(imageSearchActive, imageKeywords) {
      FilterMultiplicities(filtered, MentionsAnyOf(imageKeywords));
    } else if query != "" {
      FilterMultiplicities(filtered, MentionsTerm(query));
    }
  }

  /** In keyword mode the text query plays no part. */
  lemma KeywordModeIgnoresQuery(products: seq<Product>, category: string, imageKeywords: seq<string>, q1: string, q2: string)
    requires |imageKeywords| > 0
    ensures FilterProducts(products, category, true, imageKeywords, q1) == FilterProducts(products, category, true, imageKeywords, q2)
  {
  }

  /** With no category, no keyword mode and an empty query, the whole catalogue is shown. */
  lemma NoFilterShowsAll(products: seq<Product>, imageSearchActive: bool, imageKeywords: seq<string>)
    requires !KeywordMode(imageSearchActive, imageKeywords)
    ensures FilterProducts(products, AllCategories, imageSearchActive, imageKeywords, "") == products
  {
  }

  /**
   * `includes` read as an occurrence: a term is mentioned exactly when its
   * lower-cased form occurs at some position of a lower-cased field.
   */
  lemma MentionsIffOccurs(p: Product, term: string)
    ensures Mentions(p, term) <==>
      exists i :: OccursAt(ToLower(p.name), ToLower(term), i)
               || OccursAt(ToLower(p.description), ToLower(term), i)
               || OccursAt(ToLower(p.category), ToLower(term), i)
  {
    var t := ToLower(term);
    ContainsIffOccurrence(ToLower(p.name), t);
    ContainsIffOccurrence(ToLower(p.description), t);
    ContainsIffOccurrence(ToLower(p.category), t);
  }

  /** The search ignores the case of the query. */
  lemma SearchIgnoresCase(p: Product, term: string)
    ensures Mentions(p, term) <==> Mentions(p, ToLower(term))
  {
    ToLowerIdempotent(term);
  }

  /** The explore page's state. */
  class ExplorePage {
    const store: DataStore
    var products: seq<Product>
    var filteredProducts: seq<Product>
    var searchQuery: string
    var selectedCategory: string
    var imageSearchActive: bool
    var imageKeywords: seq<string>

    /** The list on screen is the filter effect's result for the current state. */
    predicate Consistent()
      reads this
    {
      filteredProducts == FilterProducts(products, selectedCategory, imageSearchActive, imageKeywords, searchQuery)
    }

    constructor(store: DataStore)
      ensures this.store == store
      ensures products == [] && filteredProducts == [] && searchQuery == ""
      ensures selectedCategory == AllCategories && !imageSearchActive && imageKeywords == []
      ensures Consistent()
    {
      this.store := store;
      products := [];
      filteredProducts := [];
      searchQuery := "";
      selectedCategory := AllCategories;
      imageSearchActive := false;
      imageKeywords := [];
      new;
      SubsequenceReflexive<Product>([]);
    }

    /** The filter effect, run whenever the catalogue or the search state changes. */
    method ApplyFilters()
      modifies this`filteredProducts
      ensures Consistent()
    {
      var filtered := products;
      if selectedCategory != AllCategories {
        filtered := Filter(filtered, InCategory(selectedCategory));
      }
      if imageSearchActive && |imageKeywords| > 0 {
        filtered := Filter(filtered, MentionsAnyOf(imageKeywords));
      } else if searchQuery != "" {
        filtered := Filter(filtered, MentionsTerm(searchQuery));
      }
      filteredProducts := filtered;
    }

    /** The mount effect: the catalogue is read (seeding the store if need be) and filtered. */
    method LoadProducts()
      modifies this`products, this`filteredProducts, store`storedProducts
      ensures products == Catalogue(old(store.storedProducts))
      ensures store.storedProducts == SeededStorage(old(store.storedProducts))
      ensures Consistent()
    {
      products := store.GetProducts();
      filteredProducts := products;
      ApplyFilters();
    }

    /** `handleImageSearch`: keyword mode with the given keywords, query cleared, every category. */
    method HandleImageSearch(keywords: seq<string>)
      modifies this`imageKeywords, this`imageSearchActive, this`searchQuery, this`selectedCategory, this`filteredProducts
      ensures imageKeywords == keywords && imageSearchActive && searchQuery == "" && selectedCategory == AllCategories
      ensures Consistent()
    {
      imageKeywords := keywords;
      imageSearchActive := true;
      searchQuery := "";
      selectedCategory := AllCategories;
      ApplyFilters();
    }

    /** `handleTextSearch`: a non-empty query leaves keyword mode; an empty one touches nothing else. */
    method HandleTextSearch(value: string)
      modifies this`searchQuery, this`imageSearchActive, this`imageKeywords, this`filteredProducts
      ensures searchQuery == value
      ensures value != "" ==> !imageSearchActive && imageKeywords == []
      ensures value == "" ==> imageSearchActive == old(imageSearchActive) && imageKeywords == old(imageKeywords)
      ensures Consistent()
    {
      searchQuery := value;
      if value != "" {
        imageSearchActive := false;
        imageKeywords := [];
      }
      ApplyFilters();
    }

    /** `handleCategoryChange`: the category is set and keyword mode is left. */
    method HandleCategoryChange(category: string)
      modifies this`selectedCategory, this`imageSearchActive, this`imageKeywords, this`filteredProducts
      ensures selectedCategory == category && !imageSearchActive && imageKeywords == []
      ensures Consistent()
    {
      selectedCategory := category;
      imageSearchActive := false;
      imageKeywords := [];
      ApplyFilters();
    }
  }
}
