/**
 * The bargains page: the received and sent lists (newest first) and the
 * seller's response, which moves a request from pending to accepted or
 * rejected and, on acceptance, writes the offered price into the catalogue.
 */
module Bargains {
  import opened Wrappers
  import opened Seqs
  import opened Data

  /** `bargains.find((b) => b.id === bargainId)`, as an index. */
  function BargainIndex(bargains: seq<BargainRequest>, bargainId: Id): (r: Option<nat>)
    ensures r.Some? ==> r.value < |bargains| && bargains[r.value].id == bargainId
    ensures r.Some? ==> forall k :: 0 <= k < r.value ==> bargains[k].id != bargainId
    ensures r.None? ==> forall k :: 0 <= k < |bargains| ==> bargains[k].id != bargainId
  {
    FirstIndex(bargains, (b: BargainRequest) => b.id == bargainId)
  }

  /** No request before index `j` has the id of the request at `j`. */
  predicate FirstRequest(bargains: seq<BargainRequest>, j: int)
    requires 0 <= j < |bargains|
  {
    forall k :: 0 <= k < j ==> bargains[k].id != bargains[j].id
  }

  function ResponseStatus(accept: bool): BargainStatus
  {
    if accept then Accepted else Rejected
  }

  /** The negotiation state machine: pending may become accepted or rejected; both are final. */
  predicate IsTransition(from: BargainStatus, to: BargainStatus)
  {
    from == Pending && to != Pending
  }

  /** The request the seller is answering is pending (or absent), as the page only offers the buttons then. */
  predicate AwaitingResponse(bargains: seq<BargainRequest>, bargainId: Id)
  {
    match BargainIndex(bargains, bargainId)
    case None => true
    case Some(i) => bargains[i].status == Pending
  }

  /**
   * The stored requests after a response: the first request with the id
   * takes the new status and keeps every other field; nothing else changes.
   */
  function WithResponse(bargains: seq<BargainRequest>, bargainId: Id, accept: bool): (r: seq<BargainRequest>)
    ensures |r| == |bargains|
    ensures (forall j :: 0 <= j < |bargains| ==> bargains[j].id != bargainId) ==> r == bargains
    ensures forall j :: 0 <= j < |bargains| && bargains[j].id == bargainId && FirstRequest(bargains, j) ==>
      r[j] == bargains[j].(status := ResponseStatus(accept))
    ensures forall j :: 0 <= j < |bargains| && r[j] != bargains[j] ==>
      bargains[j].id == bargainId && FirstRequest(bargains, j)
  {
    match BargainIndex(bargains, bargainId)
    case None => bargains
    case Some(i) => bargains[i := bargains[i].(status := ResponseStatus(accept))]
  }

  /** Answering a pending request is a legal move of the state machine. */
  lemma ResponseIsTransition(bargains: seq<BargainRequest>, bargainId: Id, accept: bool)
    requires AwaitingResponse(bargains, bargainId)
    ensures forall j :: 0 <= j < |bargains| && bargains[j] != WithResponse(bargains, bargainId, accept)[j] ==>
      IsTransition(bargains[j].status, WithResponse(bargains, bargainId, accept)[j].status)
  {
    var r := WithResponse(bargains, bargainId, accept);
    forall j | 0 <= j < |bargains| && bargains[j] != r[j]
      ensures IsTransition(bargains[j].status, r[j].status)
    {
      assert BargainIndex(bargains, bargainId) == Some(j);
    }
  }

  /**
   * The catalogue after an accepted offer: the first product with the
   * request's product id carries the offered price; nothing else changes.
   */
  function Repriced(products: seq<Product>, productId: Id, price: int): (r: seq<Product>)
    ensures |r| == |products|
    ensures (forall j :: 0 <= j < |products| ==> products[j].id != productId) ==> r == products
    ensures forall j :: 0 <= j < |products| && products[j].id == productId && FirstWithId(products, j) ==>
      r[j] == products[j].(price := price)
    ensures forall j :: 0 <= j < |products| && r[j] != products[j] ==>
      products[j].id == productId && FirstWithId(products, j)
  {
    match ProductIndex(products, productId)
    case None => products
    case Some(i) => products[i := products[i].(price := price)]
  }

  /**
   * The products key after an accepted offer: the repriced catalogue when
   * the product exists; otherwise only the seeding `getProducts` may do.
   */
  function AcceptedStorage(stored: Option<seq<Product>>, bargain: BargainRequest): Option<seq<Product>>
  {
    var catalogue := Catalogue(stored);
    if ProductIndex(catalogue, bargain.productId).Some?
    then Some(Repriced(catalogue, bargain.productId, bargain.offeredPrice))
    else SeededStorage(stored)
  }

  /** An accepted offer whose product is gone leaves the catalogue as `getProducts` sees it. */
  lemma AcceptWithoutProduct(stored: Option<seq<Product>>, bargain: BargainRequest)
    requires forall p :: p in Catalogue(stored) ==> p.id != bargain.productId
    ensures Catalogue(AcceptedStorage(stored, bargain)) == Catalogue(stored)
  {
  }

  function AddressedTo(userId: Id): BargainRequest -> bool
  {
    (b: BargainRequest) => b.sellerId == userId
  }

  function SentFrom(userId: Id): BargainRequest -> bool
  {
    (b: BargainRequest) => b.buyerId == userId
  }

  function IsPendingRequest(b: BargainRequest): bool
  {
    b.status == Pending
  }

  /** `bargains.filter((b) => b.sellerId === userId)`. */
  function ReceivedBy(bargains: seq<BargainRequest>, userId: Id): seq<BargainRequest>
  {
    Filter(bargains, AddressedTo(userId))
  }

  /** `bargains.filter((b) => b.buyerId === userId)`. */
  function SentBy(bargains: seq<BargainRequest>, userId: Id): seq<BargainRequest>
  {
    Filter(bargains, SentFrom(userId))
  }

  /** The newest-first comparator on creation time. */
  function NewestFirst(bargains: seq<BargainRequest>): (r: seq<BargainRequest>)
    ensures multiset(r) == multiset(bargains)
    ensures forall i, j :: 0 <= i < j < |r| ==> r[i].createdAt >= r[j].createdAt
  {
    var r := SortDesc(bargains, (b: BargainRequest) => b.createdAt as real);
    assert forall i, j :: 0 <= i < j < |r| ==> r[i].createdAt as real >= r[j].createdAt as real;
    r
  }

  /** The "received" tab: every request addressed to the seller, newest first. */
  function Received(bargains: seq<BargainRequest>, userId: Id): (r: seq<BargainRequest>)
    ensures forall i :: 0 <= i < |r| ==> r[i].sellerId == userId && r[i] in bargains
    ensures forall i :: 0 <= i < |bargains| && bargains[i].sellerId == userId ==> bargains[i] in r
    ensures forall i, j :: 0 <= i < j < |r| ==> r[i].createdAt >= r[j].createdAt
    ensures multiset(r) == multiset(ReceivedBy(bargains, userId))
  {
    var mine := ReceivedBy(bargains, userId);
    var r := NewestFirst(mine);
    forall i | 0 <= i < |r| ensures r[i].sellerId == userId && r[i] in bargains {
      assert r[i] in multiset(mine);
    }
    forall i | 0 <= i < |bargains| && bargains[i].sellerId == userId ensures bargains[i] in r {
      assert bargains[i] in multiset(mine);
    }
    r
  }

  /** The "sent" tab: every request the user made as buyer, newest first. */
  function Sent(bargains: seq<BargainRequest>, userId: Id): (r: seq<BargainRequest>)
    ensures forall i :: 0 <= i < |r| ==> r[i].buyerId == userId && r[i] in bargains
    ensures forall i :: 0 <= i < |bargains| && bargains[i].buyerId == userId ==> bargains[i] in r
    ensures forall i, j :: 0 <= i < j < |r| ==> r[i].createdAt >= r[j].createdAt
    ensures multiset(r) == multiset(SentBy(bargains, userId))
  {
    var mine := SentBy(bargains, userId);
    var r := NewestFirst(mine);
    forall i | 0 <= i < |r| ensures r[i].buyerId == userId && r[i] in bargains {
      assert r[i] in multiset(mine);
    }
    forall i | 0 <= i < |bargains| && bargains[i].buyerId == userId ensures bargains[i] in r {
      assert bargains[i] in multiset(mine);
    }
    r
  }

  /** The number on the "received" tab: the pending requests among those shown. */
  function PendingCount(bargains: seq<BargainRequest>): (r: nat)
    ensures r <= |bargains|
    ensures r == 0 <==> forall i :: 0 <= i < |bargains| ==> bargains[i].status != Pending
  {
    var pending := Filter(bargains, IsPendingRequest);
    assert forall i :: 0 <= i < |pending| ==> IsPendingRequest(pending[i]);
    |pending|
  }

  /** The page's list after a response: every entry with the id shows the new status. */
  function ViewWithStatus(bargains: seq<BargainRequest>, bargainId: Id, status: BargainStatus): seq<BargainRequest>
  {
    seq(|bargains|, i requires 0 <= i < |bargains| =>
      if bargains[i].id == bargainId then bargains[i].(status := status) else bargains[i])
  }

  /** The bargains page's state for the signed-in user. */
  class BargainsPage {
    const store: DataStore
    const user: Option<User>
    var receivedBargains: seq<BargainRequest>
    var sentBargains: seq<BargainRequest>

    constructor(store: DataStore, user: Option<User>)
      ensures this.store == store && this.user == user
      ensures receivedBargains == [] && sentBargains == []
    {
      this.store := store;
      this.user := user;
      receivedBargains := [];
      sentBargains := [];
    }

    method Load()
      modifies this`receivedBargains, this`sentBargains
      ensures user.None? ==> receivedBargains == old(receivedBargains) && sentBargains == old(sentBargains)
      ensures user.Some? ==>
        && receivedBargains == Received(store.bargains, user.value.id)
        && sentBargains == Sent(store.bargains, user.value.id)
    {
      if user.None? {
        return;
      }
      var bargains := store.bargains;
      receivedBargains := Received(bargains, user.value.id);
      sentBargains := Sent(bargains, user.value.id);
    }

    /** `handleResponse`; the seller only sees the buttons while the request is pending. */
    method HandleResponse(bargainId: Id, accept: bool)
      requires AwaitingResponse(store.bargains, bargainId)
      modifies store`bargains, store`storedProducts, this`receivedBargains
      ensures user.None? || BargainIndex(old(store.bargains), bargainId).None? ==>
        && store.bargains == old(store.bargains)
        && store.storedProducts == old(store.storedProducts)
        && receivedBargains == old(receivedBargains)
      ensures user.Some? && BargainIndex(old(store.bargains), bargainId).Some? ==>
        var bargain := old(store.bargains)[BargainIndex(old(store.bargains), bargainId).value];
        && store.bargains == WithResponse(old(store.bargains), bargainId, accept)
        && receivedBargains == ViewWithStatus(old(receivedBargains), bargainId, ResponseStatus(accept))
        && (accept ==> store.storedProducts == AcceptedStorage(old(store.storedProducts), bargain))
        && (!accept ==> store.storedProducts == old(store.storedProducts))
    {
      if user.None? {
        return;
      }
      var bargains := store.bargains;
      var found := BargainIndex(bargains, bargainId);
      if found.Some? {
        var bargain := bargains[found.value];
        var status := ResponseStatus(accept);
        bargains := bargains[found.value := bargain.(status := status)];
        store.SetBargainRequests(bargains);
        if accept {
          var products := store.GetProducts();
          var productIndex := ProductIndex(products, bargain.productId);
          if productIndex.Some? {
            var k := productIndex.value;
            products := products[k := products[k].(price := bargain.offeredPrice)];
            store.SetProducts(products);
          }
        }
        receivedBargains := ViewWithStatus(receivedBargains, bargainId, status);
      }
    }
  }
}
