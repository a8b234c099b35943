/** The user's gallery ratings (src/features/ratings/store/ratingsStore.ts): a set of rated
    product ids with listeners, plus demo aggregates over fixed stock numbers. */
module RatingsStore {
  import opened ActivityStore
  import opened Listeners

  /** `STOCK_RATINGS_COUNT` */
  const StockRatingsCount: nat := 18
  /** The demo average `getAverageRating` reports once anything is rated. */
  const UserAverage: real := 4.5

  class Ratings {
    var ratedIds: set<string>
    const bus: Bus<set<string>>
    /** Every `addRating` argument since the last reset, in call order. */
    ghost var history: seq<string>

    ghost predicate Valid()
      reads this
    {
      ratedIds == set i | 0 <= i < |history| :: history[i]
    }

    constructor()
      ensures Valid() && ratedIds == {} && history == []
      ensures fresh(bus) && bus.listeners == {} && bus.deliveries == []
    {
      ratedIds := {};
      history := [];
      bus := new Bus();
    }

    /** `addRating(productId)`: a first rating of an id is stored, logs one RATING activity
        (`now` is the clock reading) and notifies; a repeated id changes nothing. */
    method AddRating(productId: string, feed: Feed, now: int)
      requires Valid() && feed.Valid()
      modifies this, bus, feed, feed.bus
      ensures Valid() && feed.Valid()
      ensures history == old(history) + [productId]
      ensures bus.listeners == old(bus.listeners) && feed.bus.listeners == old(feed.bus.listeners)
      ensures productId !in old(ratedIds) ==>
        && ratedIds == old(ratedIds) + {productId}
        && feed.activities == Prepended(old(feed.activities), Activity(Rating, now))
        && feed.bus.deliveries == old(feed.bus.deliveries) + [Delivery(feed.bus.listeners, feed.activities)]
        && bus.deliveries == old(bus.deliveries) + [Delivery(bus.listeners, ratedIds)]
      ensures productId in old(ratedIds) ==>
        && ratedIds == old(ratedIds)
        && feed.activities == old(feed.activities)
        && feed.bus.deliveries == old(feed.bus.deliveries)
        && bus.deliveries == old(bus.deliveries)
    {
      HistoryIdsSnoc(history, productId);
      if productId !in ratedIds {
        ratedIds := ratedIds + {productId};
        feed.AddActivity(Rating, now);
        bus.Emit(ratedIds);
      }
      history := history + [productId];
    }

    /** `getRatedCount()`: the number of distinct ids rated since the last reset. */
    function RatedCount(): (n: nat)
      reads this
      requires Valid()
      ensures n == |set i | 0 <= i < |history| :: history[i]|
      ensures n <= |history|
    {
      HistoryIdsBound(history);
      |ratedIds|
    }

    /** `getAverageRating()` */
    function AverageRating(): (r: real)
      reads this
      ensures ratedIds == {} ==> r == 0.0
      ensures ratedIds != {} ==> r == UserAverage
    {
      if |ratedIds| == 0 then 0.0 else UserAverage
    }

    /** `getRatedCountTotal()`: the user's ratings plus the stock ones. */
    function RatedCountTotal(): (n: nat)
      reads this
      requires Valid()
      ensures n == RatedCount() + StockRatingsCount
      ensures n >= StockRatingsCount
    {
      |ratedIds| + StockRatingsCount
    }

    /** `resetRatings()`: `ratedIds.clear()`, then notify. */
    method Reset()
      modifies this, bus
      ensures Valid() && ratedIds == {} && history == []
      ensures RatedCountTotal() == StockRatingsCount
      ensures bus.listeners == old(bus.listeners)
      ensures bus.deliveries == old(bus.deliveries) + [Delivery(bus.listeners, ratedIds)]
    {
      ratedIds := {};
      history := [];
      bus.Emit(ratedIds);
    }
  }

  lemma HistoryIdsSnoc(h: seq<string>, x: string)
    ensures (set i | 0 <= i < |h + [x]| :: (h + [x])[i]) == (set i | 0 <= i < |h| :: h[i]) + {x}
  {
    var all := set i | 0 <= i < |h + [x]| :: (h + [x])[i];
    var prev := set i | 0 <= i < |h| :: h[i];
    forall y | y in all ensures y in prev + {x} {
      var i :| 0 <= i < |h + [x]| && (h + [x])[i] == y;
      if i < |h| {
        assert h[i] == y;
      }
    }
    forall y | y in prev ensures y in all {
      var i :| 0 <= i < |h| && h[i] == y;
      assert (h + [x])[i] == y;
    }
    assert (h + [x])[|h|] == x;
  }

  /** A run of ratings names at most as many distinct ids as it has entries. */
  lemma {:induction false} HistoryIdsBound(h: seq<string>)
    ensures |set i | 0 <= i < |h| :: h[i]| <= |h|
  {
    if h != [] {
      var init := h[..|h| - 1];
      HistoryIdsBound(init);
      HistoryIdsSnoc(init, h[|h| - 1]);
      assert init + [h[|h| - 1]] == h;
    }
  }
}
