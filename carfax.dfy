/**
 * The listing transform of `getCarfax` in convex/carfax.ts: the raw search
 * listings are filtered to those with a non-zero current price and each kept
 * listing is reshaped into the record the search page displays. The search
 * request itself is an input.
 */
module Carfax {
  import opened Wrappers

  datatype Images = Images(large: Option<seq<string>>)

  datatype Dealer = Dealer(name: Option<string>, phone: Option<string>, address: Option<string>,
                           latitude: Option<string>, longitude: Option<string>)

  /** A raw listing from the search service; prices are whole dollars. */
  datatype Listing = Listing(
    year: int, msrp: int, currentPrice: int,
    images: Option<Images>, dealer: Option<Dealer>,
    vdpUrl: string, exteriorColor: string, trim: string,
    vin: string, stockNumber: string, model: string)

  /** The reshaped listing; each dealer field is `None` (undefined) when the listing has no dealer. */
  datatype FilteredListing = FilteredListing(
    year: int, msrp: int, price: int,
    images: seq<string>, dealer: Dealer,
    listingUrl: string, color: string, trim: string,
    vin: string, stockNumber: string, model: string)

  const NoDealer: Dealer := Dealer(None, None, None, None, None)

  predicate Priced(l: Listing) { l.currentPrice != 0 }

  /**
   * The `map` step for one listing: the price, URL and colour are renamed, the
   * other scalar fields copied, the large images taken when present (else none),
   * and the dealer's fields copied when there is a dealer (else all undefined).
   */
  function Reshape(l: Listing): (f: FilteredListing)
    ensures f.price == l.currentPrice && f.listingUrl == l.vdpUrl && f.color == l.exteriorColor
    ensures f.year == l.year && f.msrp == l.msrp && f.trim == l.trim
    ensures f.vin == l.vin && f.stockNumber == l.stockNumber && f.model == l.model
    ensures l.images.Some? && l.images.value.large.Some? ==> f.images == l.images.value.large.value
    ensures l.images.None? || l.images.value.large.None? ==> f.images == []
    ensures l.dealer.Some? ==> f.dealer == l.dealer.value
    ensures l.dealer.None? ==> f.dealer == NoDealer
  {
    var images := if l.images.Some? && l.images.value.large.Some? then l.images.value.large.value else [];
    var dealer := if l.dealer.Some? then l.dealer.value else NoDealer;
    FilteredListing(l.year, l.msrp, l.currentPrice, images, dealer,
                    l.vdpUrl, l.exteriorColor, l.trim, l.vin, l.stockNumber, l.model)
  }

  /** How many listings have a non-zero price. */
  function PricedCount(listings: seq<Listing>): nat
    decreases |listings|
  {
    if listings == [] then 0
    else PricedCount(listings[..|listings| - 1]) + (if Priced(listings[|listings| - 1]) then 1 else 0)
  }

  /** `listings.filter(l => l.currentPrice !== 0).map(Reshape)`. */
  function FilterListings(listings: seq<Listing>): (out: seq<FilteredListing>)
    ensures |out| == PricedCount(listings) <= |listings|
    ensures forall k :: 0 <= k < |out| ==> out[k].price != 0
    decreases |listings|
  {
    if listings == [] then []
    else
      var last := listings[|listings| - 1];
      FilterListings(listings[..|listings| - 1]) + (if Priced(last) then [Reshape(last)] else [])
  }

  /** The positions of the priced listings, in increasing order. */
  function PricedPositions(listings: seq<Listing>): seq<int>
    decreases |listings|
  {
    if listings == [] then []
    else
      var n := |listings| - 1;
      PricedPositions(listings[..n]) + (if Priced(listings[n]) then [n] else [])
  }

  /**
   * The transform keeps exactly the priced listings, in their original order:
   * its k-th output is the reshaped listing at the k-th priced position, the
   * positions increase strictly, and every priced position is among them.
   */
  lemma FilterListingsKeepsOrder(listings: seq<Listing>)
    ensures var pos := PricedPositions(listings);
            var out := FilterListings(listings);
            && |pos| == |out|
            && (forall k :: 0 <= k < |pos| ==> 0 <= pos[k] < |listings| && out[k] == Reshape(listings[pos[k]]))
            && (forall j, k :: 0 <= j < k < |pos| ==> pos[j] < pos[k])
            && (forall i :: 0 <= i < |listings| ==> (Priced(listings[i]) <==> i in pos))
  {
    PricedPositionsAreOrdered(listings);
    FilterListingsAtPositions(listings);
  }

  /** The priced positions are in range, strictly increasing, and exactly those of the priced listings. */
  lemma {:induction false} PricedPositionsAreOrdered(listings: seq<Listing>)
    ensures var pos := PricedPositions(listings);
            && (forall k :: 0 <= k < |pos| ==> 0 <= pos[k] < |listings|)
            && (forall j, k :: 0 <= j < k < |pos| ==> pos[j] < pos[k])
            && (forall i :: 0 <= i < |listings| ==> (Priced(listings[i]) <==> i in pos))
    decreases |listings|
  {
    if listings != [] {
      var n := |listings| - 1;
      var init := listings[..n];
      PricedPositionsAreOrdered(init);
      var pos, pos0 := PricedPositions(listings), PricedPositions(init);
      assert pos == pos0 + (if Priced(listings[n]) then [n] else []);
      forall i | 0 <= i < n
        ensures Priced(listings[i]) <==> i in pos
      {
        assert listings[i] == init[i];
      }
    }
  }

  /** The k-th output is the reshaped listing at the k-th priced position. */
  lemma {:induction false} FilterListingsAtPositions(listings: seq<Listing>)
    ensures var pos := PricedPositions(listings);
            var out := FilterListings(listings);
            && |pos| == |out|
            && forall k :: 0 <= k < |pos| ==> 0 <= pos[k] < |listings| && out[k] == Reshape(listings[pos[k]])
    decreases |listings|
  {
    if listings != [] {
      var n := |listings| - 1;
      var init := listings[..n];
      FilterListingsAtPositions(init);
      var pos, out := PricedPositions(listings), FilterListings(listings);
      var pos0, out0 := PricedPositions(init), FilterListings(init);
      assert pos == pos0 + (if Priced(listings[n]) then [n] else []);
      assert out == out0 + (if Priced(listings[n]) then [Reshape(listings[n])] else []);
      forall k | 0 <= k < |pos0|
        ensures 0 <= pos[k] < |listings| && out[k] == Reshape(listings[pos[k]])
      {
        assert pos[k] == pos0[k] && out[k] == out0[k];
        assert listings[pos0[k]] == init[pos0[k]];
      }
    }
  }

  /** Filtering a concatenation filters each part: the transform commutes with splitting the input. */
  lemma {:induction false} FilterListingsAppend(a: seq<Listing>, b: seq<Listing>)
    ensures FilterListings(a + b) == FilterListings(a) + FilterListings(b)
    decreases |b|
  {
    if b == [] {
      assert a + b == a;
    } else {
      var n := |b| - 1;
      assert (a + b)[..|a + b| - 1] == a + b[..n];
      FilterListingsAppend(a, b[..n]);
    }
  }

  /** No output comes from a zero-priced listing: such a listing contributes nothing wherever it sits. */
  lemma ZeroPricedDropped(a: seq<Listing>, l: Listing, b: seq<Listing>)
    requires l.currentPrice == 0
    ensures FilterListings(a + [l] + b) == FilterListings(a + b)
  {
    FilterListingsAppend(a + [l], b);
    FilterListingsAppend(a, [l]);
    FilterListingsAppend(a, b);
    assert [l][..0] == [];
  }
}
