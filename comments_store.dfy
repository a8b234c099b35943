/** Local comments (src/features/comments/commentsStore.ts): user comments appended to a
    list, plus one or two randomly drawn stock comments per product, drawn once and then
    served from a cache until reset. */
module CommentsStore {
  import opened Text
  import opened Seqs
  import opened Listeners

  datatype Comment = Comment(id: string, productId: string, text: string, createdAt: int, author: string)

  /** `STOCK_AUTHORS` */
  const StockAuthors: seq<string> := ["Rudolf H.", "Ewa B.", "Jan K.", "Anna M.", "Gość"]

  /** `STOCK_COMMENTS` */
  const StockTexts: seq<string> := [
    "Świetna akwarela, kolory naprawdę robią klimat \U{1F3A8}",
    "Bardzo przyjemna kompozycja",
    "Delikatne, ale z charakterem",
    "Idealne do jasnego wnętrza",
    "Czuć rękę artysty",
    "Na żywo musi wyglądać jeszcze lepiej"
  ]

  /** The author every comment added through the store carries. */
  const UserAuthor := "Ty"

  /** What the `Math.random()` calls of one stock draw produced: how many texts to keep, the
      order the random comparator left the texts in, and the author index drawn for each
      kept text. */
  datatype StockDraw = StockDraw(count: int, shuffled: seq<string>, authorPicks: seq<int>)

  /** The draws `Math.random()` can produce: `floor(random * 2) + 1` is 1 or 2, sorting
      with any comparator permutes the texts, and `floor(random * 5)` indexes an author. */
  ghost predicate Possible(d: StockDraw) {
    && 1 <= d.count <= 2
    && multiset(d.shuffled) == multiset(StockTexts)
    && |d.authorPicks| >= d.count
    && (forall i :: 0 <= i < d.count ==> 0 <= d.authorPicks[i] < |StockAuthors|)
  }

  /** The id of the stock comment at `index`: `stock-${productId}-${index}`. */
  function StockId(productId: string, index: nat): string {
    "stock-" + productId + "-" + NatToString(index)
  }

  /** The list `getStockComments` builds for an uncached product from one draw. */
  function StockList(productId: string, d: StockDraw): seq<Comment>
    requires Possible(d)
  {
    seq(d.count, i requires 0 <= i < d.count =>
      Comment(StockId(productId, i), productId, d.shuffled[i], 0, StockAuthors[d.authorPicks[i]]))
  }

  /** What any stock list for `productId` looks like. */
  ghost predicate IsStockList(productId: string, l: seq<Comment>) {
    && 1 <= |l| <= 2
    && (forall i :: 0 <= i < |l| ==>
          && l[i].id == StockId(productId, i)
          && l[i].productId == productId
          && l[i].createdAt == 0
          && l[i].text in StockTexts
          && l[i].author in StockAuthors)
  }

  /** Every draw the random source can make yields a well-shaped stock list. */
  lemma StockListShape(productId: string, d: StockDraw)
    requires Possible(d)
    ensures IsStockList(productId, StockList(productId, d))
  {
    var l := StockList(productId, d);
    forall i | 0 <= i < |l| ensures l[i].text in StockTexts {
      assert d.shuffled[i] in multiset(d.shuffled);
    }
  }

  function ForProduct(productId: string): Comment -> bool {
    (c: Comment) => c.productId == productId
  }

  class Comments {
    var comments: seq<Comment>
    var stockCache: map<string, seq<Comment>>
    const bus: Bus<seq<Comment>>

    ghost predicate Valid()
      reads this
    {
      && (forall p :: p in stockCache ==> IsStockList(p, stockCache[p]))
      && (forall i :: 0 <= i < |comments| ==> comments[i].author == UserAuthor)
    }

    constructor()
      ensures Valid() && comments == [] && stockCache == map[]
      ensures fresh(bus) && bus.listeners == {} && bus.deliveries == []
    {
      comments := [];
      stockCache := map[];
      bus := new Bus();
    }

    /** `getStockComments(productId)`: the cached list if there is one, else a fresh draw
        that is cached. */
    method StockComments(productId: string, draw: StockDraw) returns (list: seq<Comment>)
      requires Valid() && Possible(draw)
      modifies this`stockCache
      ensures Valid()
      ensures IsStockList(productId, list)
      ensures productId in stockCache && stockCache[productId] == list
      ensures productId in old(stockCache) ==> list == old(stockCache)[productId] && stockCache == old(stockCache)
      ensures productId !in old(stockCache) ==>
                list == StockList(productId, draw) && stockCache == old(stockCache)[productId := list]
    {
      if productId in stockCache {
        return stockCache[productId];
      }
      StockListShape(productId, draw);
      list := StockList(productId, draw);
      stockCache := stockCache[productId := list];
    }

    /** `addCommentToStore(productId, text)`; both `Date.now()` readings are `now`. */
    method AddComment(productId: string, text: string, now: int)
      requires Valid()
      modifies this, bus
      ensures Valid()
      ensures comments == old(comments) + [Comment(IntToString(now), productId, text, now, UserAuthor)]
      ensures stockCache == old(stockCache)
      ensures CommentsCount() == old(CommentsCount()) + 1
      ensures bus.listeners == old(bus.listeners)
      ensures bus.deliveries == old(bus.deliveries) + [Delivery(bus.listeners, comments)]
    {
      comments := comments + [Comment(IntToString(now), productId, text, now, UserAuthor)];
      bus.Emit(comments);
    }

    /** `getCommentsSnapshot(productId)`: the product's stock comments, then the user's
        comments on it in the order they were added. */
    method CommentsSnapshot(productId: string, draw: StockDraw) returns (r: seq<Comment>)
      requires Valid() && Possible(draw)
      modifies this`stockCache
      ensures Valid()
      ensures comments == old(comments)
      ensures productId in stockCache
      ensures productId in old(stockCache) ==> stockCache == old(stockCache)
      ensures productId !in old(stockCache) ==>
                stockCache == old(stockCache)[productId := StockList(productId, draw)]
      ensures r == stockCache[productId] + Filter(comments, ForProduct(productId))
      ensures IsStockList(productId, r[..|stockCache[productId]|])
      ensures forall i :: 0 <= i < |r| ==> r[i].productId == productId
    {
      var own := Filter(comments, ForProduct(productId));
      var stock := StockComments(productId, draw);
      r := stock + own;
      assert r[..|stock|] == stock;
    }

    /** `getCommentsCount()`: user comments only; stock comments never count. */
    function CommentsCount(): (n: nat)
      reads this
      ensures n == |comments|
    {
      |comments|
    }

    /** `resetComments()`: drop the user comments and every cached stock list. */
    method Reset()
      modifies this, bus
      ensures Valid() && comments == [] && stockCache == map[] && CommentsCount() == 0
      ensures bus.listeners == old(bus.listeners)
      ensures bus.deliveries == old(bus.deliveries) + [Delivery(bus.listeners, comments)]
    {
      comments := [];
      stockCache := map[];
      bus.Emit(comments);
    }
  }

  /** A new comment shows at the end of its own product's user comments and leaves every
      other product's list as it was. */
  lemma AddedCommentShows(comments: seq<Comment>, c: Comment, productId: string)
    ensures Filter(comments + [c], ForProduct(productId)) ==
            Filter(comments, ForProduct(productId)) + (if c.productId == productId then [c] else [])
  {
    FilterAppend(comments, [c], ForProduct(productId));
    assert [c][1..] == [];
  }
}
