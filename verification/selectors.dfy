/** `selectToursWithHotels` (src/store/slices/tourSearchSelectors.ts): the
    offers on display, each joined with its hotel, cheapest first. */
module Selectors {
  import opened Wrappers
  import opened ApiTypes
  import opened SearchState

  datatype TourWithHotel = TourWithHotel(offer: PriceOffer, hotel: Option<Hotel>)

  /** The hotel of an offer in `hotels`: none when the offer names no hotel
      (an empty id counts as none) or the table lacks it. */
  function HotelFor(offer: PriceOffer, hotels: HotelsMap): (h: Option<Hotel>)
    ensures !Truthy(offer.hotelID) ==> h.None?
    ensures Truthy(offer.hotelID) ==> (h.Some? <==> offer.hotelID.value in hotels)
    ensures h.Some? ==> h.value == hotels[offer.hotelID.value]
  {
    if Truthy(offer.hotelID) && offer.hotelID.value in hotels then Some(hotels[offer.hotelID.value]) else None
  }

  /** The hotel table of the last requested country, or an empty one. */
  function HotelsOfLastCountry(s: State): HotelsMap
    requires s.lastCountryId.Some?
  {
    if s.lastCountryId.value in s.hotelsByCountryId then s.hotelsByCountryId[s.lastCountryId.value] else map[]
  }

  /** Each offer paired with its hotel, in the given order. */
  function Join(offers: seq<PriceOffer>, hotels: HotelsMap): (r: seq<TourWithHotel>)
    ensures |r| == |offers|
    ensures forall i :: 0 <= i < |r| ==> r[i].offer == offers[i] && r[i].hotel == HotelFor(offers[i], hotels)
  {
    seq(|offers|, i requires 0 <= i < |offers| => TourWithHotel(offers[i], HotelFor(offers[i], hotels)))
  }

  function Offers(xs: seq<TourWithHotel>): (os: seq<PriceOffer>)
    ensures |os| == |xs|
    ensures forall i :: 0 <= i < |xs| ==> os[i] == xs[i].offer
  {
    seq(|xs|, i requires 0 <= i < |xs| => xs[i].offer)
  }

  predicate SortedByAmount(xs: seq<TourWithHotel>) {
    forall i, j :: 0 <= i < j < |xs| ==> xs[i].offer.amount <= xs[j].offer.amount
  }

  lemma OffersCons(x: TourWithHotel, xs: seq<TourWithHotel>)
    ensures Offers([x] + xs) == [x.offer] + Offers(xs)
  {
  }

  /** An entry no dearer than any of a sorted sequence can head it. */
  lemma SortedCons(y: TourWithHotel, ys: seq<TourWithHotel>)
    requires SortedByAmount(ys)
    requires forall k :: 0 <= k < |ys| ==> y.offer.amount <= ys[k].offer.amount
    ensures SortedByAmount([y] + ys)
  {
    forall i, j | 0 <= i < j < |[y] + ys|
      ensures ([y] + ys)[i].offer.amount <= ([y] + ys)[j].offer.amount
    {
      if i > 0 {
        assert ([y] + ys)[i] == ys[i - 1] && ([y] + ys)[j] == ys[j - 1];
      } else {
        assert ([y] + ys)[j] == ys[j - 1];
      }
    }
  }

  /** Inserts `x` into a sorted sequence before the first entry that is not
      cheaper than it. */
  function Insert(x: TourWithHotel, xs: seq<TourWithHotel>): (r: seq<TourWithHotel>)
    requires SortedByAmount(xs)
    ensures SortedByAmount(r)
    ensures multiset(r) == multiset(xs) + multiset{x}
    decreases |xs|
  {
    if |xs| == 0 || x.offer.amount <= xs[0].offer.amount then
      SortedCons(x, xs);
      [x] + xs
    else
      var rest := Insert(x, xs[1..]);
      assert xs == [xs[0]] + xs[1..];
      assert multiset(xs) == multiset{xs[0]} + multiset(xs[1..]);
      assert forall k :: 0 <= k < |rest| ==> xs[0].offer.amount <= rest[k].offer.amount by {
        forall k | 0 <= k < |rest|
          ensures xs[0].offer.amount <= rest[k].offer.amount
        {
          assert rest[k] in multiset(rest);
          assert rest[k] == x || rest[k] in xs[1..];
        }
      }
      assert multiset([xs[0]] + rest) == multiset{xs[0]} + multiset(rest);
      SortedCons(xs[0], rest);
      [xs[0]] + rest
  }

  /** Insertion moves the offer in with the entry. */
  lemma {:induction false} InsertOffers(x: TourWithHotel, xs: seq<TourWithHotel>)
    requires SortedByAmount(xs)
    ensures multiset(Offers(Insert(x, xs))) == multiset(Offers(xs)) + multiset{x.offer}
    decreases |xs|
  {
    if |xs| == 0 || x.offer.amount <= xs[0].offer.amount {
      OffersCons(x, xs);
    } else {
      InsertOffers(x, xs[1..]);
      OffersCons(xs[0], xs[1..]);
      assert xs == [xs[0]] + xs[1..];
      OffersCons(xs[0], Insert(x, xs[1..]));
    }
  }

  /** Orders entries by ascending amount. Like JavaScript's `Array.prototype.sort`
      it is stable: an entry moves ahead of an earlier one only when strictly
      cheaper. */
  function SortByAmount(xs: seq<TourWithHotel>): (r: seq<TourWithHotel>)
    ensures SortedByAmount(r)
    ensures multiset(r) == multiset(xs)
    decreases |xs|
  {
    if |xs| == 0 then []
    else
      assert xs == [xs[0]] + xs[1..];
      Insert(xs[0], SortByAmount(xs[1..]))
  }

  /** Sorting keeps every offer, each exactly as often as before. */
  lemma {:induction false} SortKeepsOffers(xs: seq<TourWithHotel>)
    ensures multiset(Offers(SortByAmount(xs))) == multiset(Offers(xs))
    decreases |xs|
  {
    if |xs| > 0 {
      var sorted := SortByAmount(xs[1..]);
      assert xs == [xs[0]] + xs[1..];
      OffersCons(xs[0], xs[1..]);
      calc {
        multiset(Offers(SortByAmount(xs)));
        multiset(Offers(Insert(xs[0], sorted)));
        { InsertOffers(xs[0], sorted); }
        multiset(Offers(sorted)) + multiset{xs[0].offer};
        { SortKeepsOffers(xs[1..]); }
        multiset(Offers(xs[1..])) + multiset{xs[0].offer};
        multiset([xs[0].offer] + Offers(xs[1..]));
        multiset(Offers(xs));
      }
    }
  }

  /** The entries of `xs` whose amount is `amount`, in order. */
  function WithAmount(xs: seq<TourWithHotel>, amount: int): seq<TourWithHotel>
    decreases |xs|
  {
    if |xs| == 0 then []
    else (if xs[0].offer.amount == amount then [xs[0]] else []) + WithAmount(xs[1..], amount)
  }

  lemma WithAmountCons(x: TourWithHotel, xs: seq<TourWithHotel>, amount: int)
    ensures WithAmount([x] + xs, amount) == (if x.offer.amount == amount then [x] else []) + WithAmount(xs, amount)
  {
    assert ([x] + xs)[1..] == xs;
  }

  /** Insertion puts `x` ahead of every entry of its own amount and moves no
      two entries of equal amount past each other. */
  lemma {:induction false} InsertIsStable(x: TourWithHotel, xs: seq<TourWithHotel>, amount: int)
    requires SortedByAmount(xs)
    ensures WithAmount(Insert(x, xs), amount)
              == (if x.offer.amount == amount then [x] else []) + WithAmount(xs, amount)
    decreases |xs|
  {
    if |xs| == 0 || x.offer.amount <= xs[0].offer.amount {
      WithAmountCons(x, xs, amount);
    } else {
      var rest := Insert(x, xs[1..]);
      InsertIsStable(x, xs[1..], amount);
      WithAmountCons(xs[0], rest, amount);
      assert xs == [xs[0]] + xs[1..];
      WithAmountCons(xs[0], xs[1..], amount);
      if xs[0].offer.amount == amount {
        assert x.offer.amount != amount;
      }
    }
  }

  /** The sort is stable: for every amount, the entries of that amount keep
      their relative order. */
  lemma {:induction false} SortIsStable(xs: seq<TourWithHotel>, amount: int)
    ensures WithAmount(SortByAmount(xs), amount) == WithAmount(xs, amount)
    decreases |xs|
  {
    if |xs| > 0 {
      SortIsStable(xs[1..], amount);
      InsertIsStable(xs[0], SortByAmount(xs[1..]), amount);
      assert xs == [xs[0]] + xs[1..];
      WithAmountCons(xs[0], xs[1..], amount);
    }
  }

  /** The tours to display. Nothing unless the status is `success` and a
      (non-empty) country was requested; otherwise every offer of `prices`
      exactly once, each with the hotel the country's table holds for it,
      ordered by ascending amount, offers of equal amount in the order
      `prices` enumerates them. */
  function SelectToursWithHotels(s: State): (r: seq<TourWithHotel>)
    ensures !(s.status == Success && Truthy(s.lastCountryId)) ==> r == []
    ensures s.status == Success && Truthy(s.lastCountryId) ==>
      && |r| == |s.prices|
      && multiset(Offers(r)) == multiset(Values(s.prices))
      && SortedByAmount(r)
      && (forall i :: 0 <= i < |r| ==> r[i].hotel == HotelFor(r[i].offer, HotelsOfLastCountry(s)))
      && forall amount :: WithAmount(r, amount) == WithAmount(Join(Values(s.prices), HotelsOfLastCountry(s)), amount)
  {
    if s.status != Success || !Truthy(s.lastCountryId) then []
    else
      var joined := Join(Values(s.prices), HotelsOfLastCountry(s));
      var r := SortByAmount(joined);
      SortKeepsOffers(joined);
      assert forall amount :: WithAmount(r, amount) == WithAmount(joined, amount) by {
        forall amount
          ensures WithAmount(r, amount) == WithAmount(joined, amount)
        {
          SortIsStable(joined, amount);
        }
      }
      assert Offers(joined) == Values(s.prices);
      assert |r| == |s.prices| by {
        assert |multiset(r)| == |multiset(joined)|;
      }
      assert forall i :: 0 <= i < |r| ==> r[i].hotel == HotelFor(r[i].offer, HotelsOfLastCountry(s)) by {
        forall i | 0 <= i < |r|
          ensures r[i].hotel == HotelFor(r[i].offer, HotelsOfLastCountry(s))
        {
          assert r[i] in multiset(joined);
        }
      }
      r
  }
}
