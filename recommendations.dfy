/**
 * The "You May Like" panel: available products are scored (category
 * affinity with the viewing history, popularity by id, random jitter),
 * ranked by score and cut to four; and the per-user view history, kept
 * most-recent-first without duplicates and capped at twenty entries.
 */
module Recommendations {
  import opened Wrappers
  import opened Seqs
  import opened Text
  import opened Data

  /** How many products the panel shows. */
  const MaxRecommendations: nat := 4

  /** How many product ids the view history keeps. */
  const MaxHistory: nat := 20

  /** A candidate with its score. */
  datatype Scored = Scored(product: Product, score: real)

  function ScoreOf(s: Scored): real
  {
    s.score
  }

  /** Not sold out and not the product being viewed (an absent current id excludes nothing). */
  predicate IsAvailable(p: Product, currentProductId: Option<Id>)
  {
    !p.soldOut && (currentProductId.None? || p.id != currentProductId.value)
  }

  function Available(products: seq<Product>, currentProductId: Option<Id>): (r: seq<Product>)
    ensures forall i :: 0 <= i < |r| ==> r[i] in products && IsAvailable(r[i], currentProductId)
    ensures forall i :: 0 <= i < |products| && IsAvailable(products[i], currentProductId) ==> products[i] in r
  {
    Filter(products, (p: Product) => IsAvailable(p, currentProductId))
  }

  /** Each available product is a candidate as often as the catalogue lists it; nothing else is. */
  lemma AvailableMultiplicity(products: seq<Product>, currentProductId: Option<Id>)
    ensures forall p :: multiset(Available(products, currentProductId))[p] ==
                        (if IsAvailable(p, currentProductId) then multiset(products)[p] else 0)
  {
    FilterMultiplicities(products, (p: Product) => IsAvailable(p, currentProductId));
  }

  /** The history the panel reads: none without a (non-empty) user id. */
  function HistoryFor(viewHistory: map<Id, seq<Id>>, userId: Option<Id>): (r: seq<Id>)
    ensures userId.None? || userId == Some("") ==> r == []
    ensures userId.Some? && userId.value != "" && userId.value in viewHistory ==> r == viewHistory[userId.value]
  {
    if userId.Some? && userId.value != "" && userId.value in viewHistory then viewHistory[userId.value] else []
  }

  /** The viewed product `id` exists in the catalogue and has category `c`. */
  predicate ViewedWithCategory(products: seq<Product>, id: Id, c: string)
  {
    FindProduct(products, id).Some? && FindProduct(products, id).value.category == c
  }

  /**
   * The categories of the viewed products, in history order: ids with no
   * product in the catalogue and empty categories are dropped.
   */
  function ViewedCategories(products: seq<Product>, history: seq<Id>): (r: seq<string>)
    ensures forall c :: c in r <==> c != "" && exists k :: 0 <= k < |history| && ViewedWithCategory(products, history[k], c)
    decreases |history|
  {
    if history == [] then []
    else
      var rest := ViewedCategories(products, history[1..]);
      assert forall k :: 0 <= k < |history| - 1 ==> history[1..][k] == history[k + 1];
      match FindProduct(products, history[0])
      case None => rest
      case Some(p) => if p.category == "" then rest else [p.category] + rest
  }

  /**
   * `(100 - Number.parseInt(id)) / 10`; an id with no leading digit (NaN)
   * contributes nothing.
   */
  function Popularity(id: Id): (r: real)
    ensures ParseIntPrefix(id).None? ==> r == 0.0
    ensures ParseIntPrefix(id).Some? ==> r <= 10.0
    ensures ParseIntPrefix(id).Some? && ParseIntPrefix(id).value <= 100 ==> r >= 0.0
  {
    match ParseIntPrefix(id)
    case None => 0.0
    case Some(n) => (100 - n) as real / 10.0
  }

  /** The score without category affinity: popularity plus the random draw. */
  function BaseScore(p: Product, jitter: real): real
  {
    Popularity(p.id) + jitter
  }

  /** The score of `p`, `jitter` being its `Math.random() * 2` draw. */
  function Score(p: Product, viewed: seq<string>, jitter: real): (r: real)
    ensures p.category in viewed ==> r == BaseScore(p, jitter) + 3.0
    ensures p.category !in viewed ==> r == BaseScore(p, jitter)
  {
    var score := 0.0;
    var score := if p.category in viewed then score + 3.0 else score;
    var score := score + Popularity(p.id);
    score + jitter
  }

  /** Every available product with its score; the i-th one takes the i-th draw. */
  function ScoredCandidates(available: seq<Product>, viewed: seq<string>, jitter: nat -> real): (r: seq<Scored>)
    ensures |r| == |available|
    ensures forall i :: 0 <= i < |r| ==> r[i] == Scored(available[i], Score(available[i], viewed, jitter(i)))
  {
    seq(|available|, i requires 0 <= i < |available| =>
      Scored(available[i], Score(available[i], viewed, jitter(i))))
  }

  /** The scored candidates, highest score first. */
  function Ranked(products: seq<Product>, currentProductId: Option<Id>, history: seq<Id>, jitter: nat -> real): seq<Scored>
  {
    var candidates := ScoredCandidates(Available(products, currentProductId), ViewedCategories(products, history), jitter);
    SortDesc(candidates, ScoreOf)
  }

  function ProductsOf(scored: seq<Scored>): (r: seq<Product>)
    ensures |r| == |scored|
    ensures forall i :: 0 <= i < |r| ==> r[i] == scored[i].product
  {
    seq(|scored|, i requires 0 <= i < |scored| => scored[i].product)
  }

  /** `getRecommendations`: the four best-scoring available products, best first. */
  function GetRecommendations(products: seq<Product>, currentProductId: Option<Id>, history: seq<Id>, jitter: nat -> real): (r: seq<Product>)
    ensures |r| <= MaxRecommendations
  {
    ProductsOf(Take(Ranked(products, currentProductId, history, jitter), MaxRecommendations))
  }

  /** Ranking neither loses nor invents a candidate. */
  lemma RankedIsPermutation(products: seq<Product>, currentProductId: Option<Id>, history: seq<Id>, jitter: nat -> real)
    ensures var available := Available(products, currentProductId);
      multiset(Ranked(products, currentProductId, history, jitter))
        == multiset(ScoredCandidates(available, ViewedCategories(products, history), jitter))
    ensures SortedDesc(Ranked(products, currentProductId, history, jitter), ScoreOf)
  {
  }

  /**
   * Every recommendation comes from the catalogue, is not sold out and is
   * not the product being viewed.
   */
  lemma RecommendationsAvailable(products: seq<Product>, currentProductId: Option<Id>, history: seq<Id>, jitter: nat -> real)
    ensures forall p :: p in GetRecommendations(products, currentProductId, history, jitter) ==>
      p in products && !p.soldOut && (currentProductId.Some? ==> p.id != currentProductId.value)
  {
    var available := Available(products, currentProductId);
    var candidates := ScoredCandidates(available, ViewedCategories(products, history), jitter);
    var ranked := Ranked(products, currentProductId, history, jitter);
    var top := Take(ranked, MaxRecommendations);
    forall p | p in GetRecommendations(products, currentProductId, history, jitter)
      ensures p in products && !p.soldOut && (currentProductId.Some? ==> p.id != currentProductId.value)
    {
      var i :| 0 <= i < |top| && top[i].product == p;
      assert top[i] == ranked[i];
      assert ranked[i] in multiset(candidates);
      var k :| 0 <= k < |candidates| && candidates[k] == ranked[i];
      assert p == available[k];
    }
  }

  /**
   * The panel as mounted: the ranking over the signed-in user's stored view
   * history, or over no history at all without a (non-empty) user id.
   */
  function PanelRecommendations(store: DataStore, products: seq<Product>, currentProductId: Option<Id>,
                                userId: Option<Id>, jitter: nat -> real): (r: seq<Product>)
    reads store`viewHistory
    ensures |r| <= MaxRecommendations
    ensures forall p :: p in r ==> p in products && IsAvailable(p, currentProductId)
    ensures userId.None? || userId == Some("") ==> r == GetRecommendations(products, currentProductId, [], jitter)
    ensures userId.Some? && userId.value != "" ==>
      r == GetRecommendations(products, currentProductId, store.GetViewHistory(userId.value), jitter)
  {
    var history := HistoryFor(store.viewHistory, userId);
    RecommendationsAvailable(products, currentProductId, history, jitter);
    GetRecommendations(products, currentProductId, history, jitter)
  }

  /** The panel shows four products, or every available one when there are fewer. */
  lemma RecommendationCount(products: seq<Product>, currentProductId: Option<Id>, history: seq<Id>, jitter: nat -> real)
    ensures var n := |Available(products, currentProductId)|;
      |GetRecommendations(products, currentProductId, history, jitter)| == if n < MaxRecommendations then n else MaxRecommendations
  {
    var ranked := Ranked(products, currentProductId, history, jitter);
    assert |multiset(ranked)| == |ranked|;
  }

  /**
   * The recommendations are in non-increasing score order, and no candidate
   * left out scores higher than any one shown.
   */
  lemma RecommendationsBestFirst(products: seq<Product>, currentProductId: Option<Id>, history: seq<Id>, jitter: nat -> real)
    ensures var top := Take(Ranked(products, currentProductId, history, jitter), MaxRecommendations);
      && GetRecommendations(products, currentProductId, history, jitter) == ProductsOf(top)
      && (forall i, j :: 0 <= i < j < |top| ==> top[i].score >= top[j].score)
      && (forall x, i ::
            (x in ScoredCandidates(Available(products, currentProductId), ViewedCategories(products, history), jitter)
             && x !in top && 0 <= i < |top|) ==> x.score <= top[i].score)
  {
    var available := Available(products, currentProductId);
    var candidates := ScoredCandidates(available, ViewedCategories(products, history), jitter);
    var ranked := Ranked(products, currentProductId, history, jitter);
    var top := Take(ranked, MaxRecommendations);
    forall i, j | 0 <= i < j < |top| ensures top[i].score >= top[j].score {
      assert ScoreOf(ranked[i]) >= ScoreOf(ranked[j]);
    }
    forall x, i | x in candidates && x !in top && 0 <= i < |top| ensures x.score <= top[i].score {
      assert x in multiset(ranked);
      var k :| 0 <= k < |ranked| && ranked[k] == x;
      assert ScoreOf(ranked[i]) >= ScoreOf(ranked[k]);
    }
  }

  /**
   * A product whose category some viewed product shares scores exactly 3
   * more than its base score; any other product scores its base score.
   */
  lemma CategoryAffinityBonus(products: seq<Product>, history: seq<Id>, p: Product, jitter: real)
    ensures (p.category != "" && exists k :: 0 <= k < |history| && ViewedWithCategory(products, history[k], p.category)) ==>
      Score(p, ViewedCategories(products, history), jitter) == BaseScore(p, jitter) + 3.0
    ensures !(p.category != "" && exists k :: 0 <= k < |history| && ViewedWithCategory(products, history[k], p.category)) ==>
      Score(p, ViewedCategories(products, history), jitter) == BaseScore(p, jitter)
  {
  }

  /** Among numeric ids, the lower one is the more popular. */
  lemma LowerIdMorePopular(a: nat, b: nat)
    requires a < b
    ensures Popularity(DecimalString(a)) > Popularity(DecimalString(b))
  {
    ParseDecimalString(a);
    ParseDecimalString(b);
  }

  function NotId(productId: Id): Id -> bool
  {
    (id: Id) => id != productId
  }

  /**
   * The history after viewing `productId`: moved (or added) to the front,
   * then cut to twenty, so the other ids that survive are the most recent
   * ones, in their old order.
   */
  function AddToHistory(history: seq<Id>, productId: Id): (r: seq<Id>)
    ensures 1 <= |r| <= MaxHistory && r[0] == productId
    ensures forall i :: 1 <= i < |r| ==> r[i] != productId
    ensures var others := Filter(history, NotId(productId));
      && |r| == (if 1 + |others| < MaxHistory then 1 + |others| else MaxHistory)
      && r[1..] <= others
  {
    Take([productId] + Filter(history, NotId(productId)), MaxHistory)
  }

  /** The other ids keep their relative order. */
  lemma AddToHistoryKeepsOrder(history: seq<Id>, productId: Id)
    ensures IsSubsequence(AddToHistory(history, productId)[1..], history)
  {
    var r := AddToHistory(history, productId);
    var others := Filter(history, NotId(productId));
    assert r[1..] == others[..|r| - 1];
    PrefixIsSubsequence(others, |r| - 1);
    SubsequenceTransitive(r[1..], others, history);
  }

  /** While the history is under the cap, no id is lost. */
  lemma AddToHistoryUnderCap(history: seq<Id>, productId: Id)
    requires |history| < MaxHistory
    ensures forall id :: id in history ==> id in AddToHistory(history, productId)
  {
    var others := Filter(history, NotId(productId));
    assert AddToHistory(history, productId) == [productId] + others;
    forall id | id in history ensures id in [productId] + others {
      if id != productId {
        var k :| 0 <= k < |history| && history[k] == id;
        assert NotId(productId)(history[k]);
      }
    }
  }

  lemma {:induction false} PrefixIsSubsequence<T>(s: seq<T>, n: nat)
    requires n <= |s|
    ensures IsSubsequence(s[..n], s)
    decreases |s|
  {
    if s != [] {
      if n == 0 {
        PrefixIsSubsequence(s[1..], 0);
        assert s[..0] == s[1..][..0];
      } else {
        PrefixIsSubsequence(s[1..], n - 1);
        assert s[..n][1..] == s[1..][..n - 1];
      }
    } else {
    }
  }

  /** Viewing a new product with a full history drops the oldest entry and keeps the nineteen most recent. */
  lemma AddToHistoryAtCap(history: seq<Id>, productId: Id)
    requires productId !in history && |history| >= MaxHistory - 1
    ensures AddToHistory(history, productId) == [productId] + history[..MaxHistory - 1]
  {
    FilterAllKept(history, NotId(productId));
  }

  /** Viewing a product already in the history never makes the history longer. */
  lemma ReAddDoesNotGrow(history: seq<Id>, productId: Id)
    requires productId in history
    ensures |AddToHistory(history, productId)| <= |history|
  {
    var i :| 0 <= i < |history| && history[i] == productId;
    FilterShorter(history, NotId(productId), i);
  }

  /** Viewing the same product twice in a row leaves the history as after the first view. */
  lemma AddToHistoryIdempotent(history: seq<Id>, productId: Id)
    ensures AddToHistory(AddToHistory(history, productId), productId) == AddToHistory(history, productId)
  {
    var r := AddToHistory(history, productId);
    assert r == [r[0]] + r[1..];
    FilterAppend([r[0]], r[1..], NotId(productId));
    FilterAllKept(r[1..], NotId(productId));
  }

  /** A history without duplicates stays without duplicates. */
  lemma AddToHistoryDistinct(history: seq<Id>, productId: Id)
    requires NoDuplicates(history)
    ensures NoDuplicates(AddToHistory(history, productId))
  {
    var others := Filter(history, NotId(productId));
    FilterDistinct(history, NotId(productId));
    var full := [productId] + others;
    assert NoDuplicates(full);
  }

  /** `addToViewHistory`: the user's stored history is replaced by the updated one; no other key changes. */
  method AddToViewHistory(store: DataStore, userId: Id, productId: Id)
    modifies store`viewHistory
    ensures store.viewHistory == old(store.viewHistory)[userId := AddToHistory(old(store.GetViewHistory(userId)), productId)]
  {
    var history := store.GetViewHistory(userId);
    store.SetViewHistory(userId, AddToHistory(history, productId));
  }
}
