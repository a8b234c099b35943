/** The gallery list screen (src/screens/GalleryScreen.tsx): the sort option with its
    menu, and the sorted copy of the gallery items it renders. `localeCompare` is modelled
    as the code-point lexicographic order, a total order on strings. */
module GalleryScreen {
  import opened GalleryStore
  import opened Seqs

  /** `SortOption` */
  datatype SortOption = TitleAsc | TitleDesc | ArtistAsc | ArtistDesc | PriceAsc | PriceDesc

  /** Lexicographic order on code points: `a` comes no later than `b`. */
  predicate LexLe(a: string, b: string)
  {
    a == [] || (b != [] && (a[0] < b[0] || (a[0] == b[0] && LexLe(a[1..], b[1..]))))
  }

  lemma {:induction false} LexLeTotal(a: string, b: string)
    ensures LexLe(a, b) || LexLe(b, a)
  {
    if a != [] && b != [] && a[0] == b[0] {
      LexLeTotal(a[1..], b[1..]);
    }
  }

  lemma {:induction false} LexLeTransitive(a: string, b: string, c: string)
    requires LexLe(a, b) && LexLe(b, c)
    ensures LexLe(a, c)
  {
    if a != [] && b != [] && c != [] && a[0] == b[0] && b[0] == c[0] {
      LexLeTransitive(a[1..], b[1..], c[1..]);
    }
  }

  /** The order an option asks for: `a` may be shown before `b`. The `*_DESC` options
      compare with the operands swapped. */
  predicate Before(option: SortOption, a: GalleryItemDto, b: GalleryItemDto) {
    match option
    case PriceAsc => a.price <= b.price
    case PriceDesc => b.price <= a.price
    case TitleAsc => LexLe(a.title, b.title)
    case TitleDesc => LexLe(b.title, a.title)
    case ArtistAsc => LexLe(a.artist, b.artist)
    case ArtistDesc => LexLe(b.artist, a.artist)
  }

  lemma BeforeTotal(option: SortOption, a: GalleryItemDto, b: GalleryItemDto)
    ensures Before(option, a, b) || Before(option, b, a)
  {
    match option
    case TitleAsc => LexLeTotal(a.title, b.title);
    case TitleDesc => LexLeTotal(a.title, b.title);
    case ArtistAsc => LexLeTotal(a.artist, b.artist);
    case ArtistDesc => LexLeTotal(a.artist, b.artist);
    case _ =>
  }

  lemma BeforeTransitive(option: SortOption, a: GalleryItemDto, b: GalleryItemDto, c: GalleryItemDto)
    requires Before(option, a, b) && Before(option, b, c)
    ensures Before(option, a, c)
  {
    match option
    case TitleAsc => LexLeTransitive(a.title, b.title, c.title);
    case TitleDesc => LexLeTransitive(c.title, b.title, a.title);
    case ArtistAsc => LexLeTransitive(a.artist, b.artist, c.artist);
    case ArtistDesc => LexLeTransitive(c.artist, b.artist, a.artist);
    case _ =>
  }

  /** Every item comes no later, in the option's order, than every item after it. */
  predicate SortedBy(option: SortOption, s: seq<GalleryItemDto>) {
    forall i, j :: 0 <= i < j < |s| ==> Before(option, s[i], s[j])
  }

  /** `a` and `b` compare equal under the option: the comparator returns 0 for them. */
  predicate Tied(option: SortOption, a: GalleryItemDto, b: GalleryItemDto) {
    Before(option, a, b) && Before(option, b, a)
  }

  /** Places `x` in front of the first item it strictly precedes, so behind every item it
      ties with. */
  function Insert(option: SortOption, x: GalleryItemDto, s: seq<GalleryItemDto>): (r: seq<GalleryItemDto>)
    requires SortedBy(option, s)
    ensures multiset(r) == multiset(s) + multiset{x} && |r| == |s| + 1
    ensures SortedBy(option, r)
  {
    if s == [] then [x]
    else if Before(option, x, s[0]) && !Before(option, s[0], x) then
      assert forall j :: 0 <= j < |s| ==> Before(option, x, s[j]) by {
        forall j | 0 <= j < |s| ensures Before(option, x, s[j]) {
          if j > 0 {
            BeforeTransitive(option, x, s[0], s[j]);
          }
        }
      }
      ConsSorted(option, x, s);
      [x] + s
    else
      var rest := Insert(option, x, s[1..]);
      BeforeTotal(option, x, s[0]);
      BoundedAfterInsert(option, s[0], x, s[1..], rest);
      ConsSorted(option, s[0], rest);
      assert multiset(s) == multiset{s[0]} + multiset(s[1..]) by {
        assert s == [s[0]] + s[1..];
      }
      [s[0]] + rest
  }

  /** A sorted sequence stays sorted behind an item that may precede all of it. */
  lemma ConsSorted(option: SortOption, y: GalleryItemDto, t: seq<GalleryItemDto>)
    requires SortedBy(option, t)
    requires forall j :: 0 <= j < |t| ==> Before(option, y, t[j])
    ensures SortedBy(option, [y] + t)
  {
    var u := [y] + t;
    forall i, j | 0 <= i < j < |u| ensures Before(option, u[i], u[j]) {
      assert u[j] == t[j - 1];
      if i > 0 {
        assert u[i] == t[i - 1];
      }
    }
  }

  /** An item that may precede `x` and every item of `s` may precede every item of a
      rearrangement of `s` with `x` added. */
  lemma BoundedAfterInsert(option: SortOption, y: GalleryItemDto, x: GalleryItemDto,
                           s: seq<GalleryItemDto>, rest: seq<GalleryItemDto>)
    requires Before(option, y, x)
    requires forall j :: 0 <= j < |s| ==> Before(option, y, s[j])
    requires multiset(rest) == multiset(s) + multiset{x}
    ensures forall j :: 0 <= j < |rest| ==> Before(option, y, rest[j])
  {
    forall j | 0 <= j < |rest| ensures Before(option, y, rest[j]) {
      assert rest[j] in multiset(rest);
      if rest[j] != x {
        assert rest[j] in multiset(s);
        var k :| 0 <= k < |s| && s[k] == rest[j];
      }
    }
  }

  /** `sortedItems`: a sorted copy of the items; the store's own array is not touched. It is
      a permutation of the items, in the option's order. */
  function SortedItems(option: SortOption, items: seq<GalleryItemDto>): (r: seq<GalleryItemDto>)
    ensures multiset(r) == multiset(items) && |r| == |items|
    ensures SortedBy(option, r)
  {
    if items == [] then []
    else
      assert items == items[..|items| - 1] + [items[|items| - 1]];
      Insert(option, items[|items| - 1], SortedItems(option, items[..|items| - 1]))
  }

  function TiedWith(option: SortOption, e: GalleryItemDto): GalleryItemDto -> bool {
    (a: GalleryItemDto) => Tied(option, a, e)
  }

  /** Inserting `x` keeps, among the items tied with any `e`, the order they had, with `x`
      (if it ties with `e`) behind them. */
  lemma {:induction false} InsertStable(option: SortOption, x: GalleryItemDto, s: seq<GalleryItemDto>,
                                        e: GalleryItemDto)
    requires SortedBy(option, s)
    ensures Filter(Insert(option, x, s), TiedWith(option, e))
            == Filter(s, TiedWith(option, e)) + Filter([x], TiedWith(option, e))
  {
    if s == [] {
      assert Filter(s, TiedWith(option, e)) == [];
    } else if Before(option, x, s[0]) && !Before(option, s[0], x) {
      assert Insert(option, x, s) == [x] + s;
      InsertFrontStable(option, x, s, e);
    } else {
      var rest := Insert(option, x, s[1..]);
      assert Insert(option, x, s) == [s[0]] + rest;
      InsertStable(option, x, s[1..], e);
      InsertBehindStable(option, x, s, rest, e);
    }
  }

  lemma InsertFrontStable(option: SortOption, x: GalleryItemDto, s: seq<GalleryItemDto>, e: GalleryItemDto)
    requires SortedBy(option, s) && s != []
    requires Before(option, x, s[0]) && !Before(option, s[0], x)
    ensures Filter([x] + s, TiedWith(option, e)) == Filter(s, TiedWith(option, e)) + Filter([x], TiedWith(option, e))
  {
    var tied := TiedWith(option, e);
    FilterAppend([x], s, tied);
    if tied(x) {
      NoneTiedBehind(option, x, s, e);
      FilterKeepsNone(s, tied);
    } else {
      assert Filter([x], tied) == [];
    }
  }

  lemma InsertBehindStable(option: SortOption, x: GalleryItemDto, s: seq<GalleryItemDto>,
                           rest: seq<GalleryItemDto>, e: GalleryItemDto)
    requires s != []
    requires Filter(rest, TiedWith(option, e)) == Filter(s[1..], TiedWith(option, e)) + Filter([x], TiedWith(option, e))
    ensures Filter([s[0]] + rest, TiedWith(option, e)) == Filter(s, TiedWith(option, e)) + Filter([x], TiedWith(option, e))
  {
    var tied := TiedWith(option, e);
    FilterAppend([s[0]], rest, tied);
    FilterAppend([s[0]], s[1..], tied);
    assert [s[0]] + s[1..] == s;
  }

  /** Nothing in a sorted sequence ties with an item that strictly precedes its head. */
  lemma NoneTiedBehind(option: SortOption, x: GalleryItemDto, s: seq<GalleryItemDto>, e: GalleryItemDto)
    requires SortedBy(option, s) && s != []
    requires Before(option, x, s[0]) && !Before(option, s[0], x)
    requires Tied(option, x, e)
    ensures forall j :: 0 <= j < |s| ==> !TiedWith(option, e)(s[j])
  {
    forall j | 0 <= j < |s| ensures !Tied(option, s[j], e) {
      if Tied(option, s[j], e) {
        BeforeTransitive(option, s[j], e, x);
        if j > 0 {
          BeforeTransitive(option, s[0], s[j], x);
        }
      }
    }
  }

  /** The sort is stable, as JavaScript's `Array.prototype.sort` is: items the comparator
      ties keep their input order. */
  lemma {:induction false} SortedItemsStable(option: SortOption, items: seq<GalleryItemDto>, e: GalleryItemDto)
    ensures Filter(SortedItems(option, items), TiedWith(option, e)) == Filter(items, TiedWith(option, e))
  {
    if items != [] {
      var init, last := items[..|items| - 1], items[|items| - 1];
      SortedItemsStable(option, init, e);
      InsertStable(option, last, SortedItems(option, init), e);
      assert items == init + [last];
      FilterAppend(init, [last], TiedWith(option, e));
    }
  }

  /** Two items with equal prices stay in input order under either price option. */
  lemma EqualPricesKeepOrder(option: SortOption, a: GalleryItemDto, b: GalleryItemDto)
    requires option == PriceAsc || option == PriceDesc
    requires a.price == b.price
    ensures SortedItems(option, [a, b]) == [a, b]
  {
    assert [a, b][..1] == [a];
    assert SortedItems(option, [a]) == [a] by {
      assert [a][..0] == [];
    }
  }

  /** Sorting by price: ascending gives non-decreasing prices, descending non-increasing. */
  lemma PriceOrders(items: seq<GalleryItemDto>)
    ensures var r := SortedItems(PriceAsc, items);
            forall i, j :: 0 <= i < j < |r| ==> r[i].price <= r[j].price
    ensures var r := SortedItems(PriceDesc, items);
            forall i, j :: 0 <= i < j < |r| ==> r[i].price >= r[j].price
  {
    var up, down := SortedItems(PriceAsc, items), SortedItems(PriceDesc, items);
    assert SortedBy(PriceAsc, up) && SortedBy(PriceDesc, down);
  }

  class GalleryScreenState {
    var sort: SortOption
    var menuOpen: bool

    /** The screen opens sorted by title, ascending, with the menu closed. */
    constructor()
      ensures sort == TitleAsc && !menuOpen
    {
      sort := TitleAsc;
      menuOpen := false;
    }

    /** The header's hamburger passes `openSortMenu`; a truthy value opens the menu. */
    method OnRouteParams(openSortMenu: bool)
      modifies this
      ensures sort == old(sort)
      ensures menuOpen == (old(menuOpen) || openSortMenu)
    {
      if openSortMenu {
        menuOpen := true;
      }
    }

    /** `selectSort(value)`: picks the option and closes the menu. */
    method SelectSort(value: SortOption)
      modifies this
      ensures sort == value && !menuOpen
    {
      sort := value;
      menuOpen := false;
    }

    /** A tap on the overlay closes the menu and keeps the option. */
    method CloseMenu()
      modifies this
      ensures !menuOpen && sort == old(sort)
    {
      menuOpen := false;
    }

    /** What the list shows for the current option. */
    function Shown(items: seq<GalleryItemDto>): (r: seq<GalleryItemDto>)
      reads this
      ensures multiset(r) == multiset(items)
      ensures SortedBy(sort, r)
    {
      SortedItems(sort, items)
    }
  }
}
