/** The local cart the app renders and badges (src/features/cart/store/cartStore.ts): a
    module-level array of lines keyed by product id, reassigned by every mutator, and a set
    of listeners notified after each reassignment. */
module CartStore {
  import opened Wrappers
  import opened Seqs
  import opened Listeners

  /** `Product` (mockProducts.ts) as the callers fill it: the product detail screen passes its
      image as `imageUrl`, so the `image` field a cart line reads stays empty for it. */
  datatype Product = Product(
    id: string,
    name: string,
    price: real,
    description: Option<string>,
    image: Option<string>)

  /** `CartItem = Product & { quantity }`: a copy of the product with a quantity. */
  datatype CartItem = CartItem(product: Product, quantity: int)

  /** The cart's invariant: at most one line per product id, no line below quantity 1. */
  ghost predicate WellFormed(lines: seq<CartItem>) {
    && (forall i, j :: 0 <= i < j < |lines| ==> lines[i].product.id != lines[j].product.id)
    && (forall i :: 0 <= i < |lines| ==> lines[i].quantity >= 1)
  }

  /** `cart.find(item => item.id === id)`, as the position of the line found. */
  function Find(lines: seq<CartItem>, id: string): (r: Option<nat>)
    ensures r.Some? ==> r.value < |lines| && lines[r.value].product.id == id
    ensures r.Some? ==> forall k :: 0 <= k < r.value ==> lines[k].product.id != id
    ensures r.None? ==> forall k :: 0 <= k < |lines| ==> lines[k].product.id != id
  {
    if lines == [] then None
    else if lines[0].product.id == id then Some(0)
    else match Find(lines[1..], id)
      case None => None
      case Some(k) => Some(k + 1)
  }

  /** `cart.map(item => item.id === id ? { ...item, quantity: item.quantity + delta } : item)` */
  function Bumped(lines: seq<CartItem>, id: string, delta: int): seq<CartItem> {
    seq(|lines|, i requires 0 <= i < |lines| =>
      if lines[i].product.id == id then lines[i].(quantity := lines[i].quantity + delta) else lines[i])
  }

  function Other(id: string): CartItem -> bool {
    (l: CartItem) => l.product.id != id
  }

  /** `cart.filter(item => item.id !== id)` */
  function Without(lines: seq<CartItem>, id: string): seq<CartItem> {
    Filter(lines, Other(id))
  }

  /** `addItemToCart(product)` on the lines: increment the line with that id, or append a
      new line of quantity 1. */
  function Added(lines: seq<CartItem>, product: Product): seq<CartItem> {
    if Find(lines, product.id).Some? then Bumped(lines, product.id, 1)
    else lines + [CartItem(product, 1)]
  }

  /** `decreaseItemInCart(id)` on the lines: nothing when absent, drop the line at quantity
      1 or less, decrement it otherwise. */
  function Decreased(lines: seq<CartItem>, id: string): seq<CartItem> {
    match Find(lines, id)
    case None => lines
    case Some(k) => if lines[k].quantity <= 1 then Without(lines, id) else Bumped(lines, id, -1)
  }

  /** The lines after a call whose argument may be `undefined` at run time (a caller that
      passes a field the line does not have): `undefined` equals no id, so `find` finds
      nothing and `filter` keeps every line. */
  function DecreasedBy(lines: seq<CartItem>, arg: Option<string>): seq<CartItem> {
    if arg.Some? then Decreased(lines, arg.value) else lines
  }

  function RemovedBy(lines: seq<CartItem>, arg: Option<string>): seq<CartItem> {
    if arg.Some? then Without(lines, arg.value) else lines
  }

  /** `cart.reduce((sum, item) => sum + item.quantity, 0)` */
  function Count(lines: seq<CartItem>): int {
    if lines == [] then 0 else lines[0].quantity + Count(lines[1..])
  }

  lemma {:induction false} CountAppend(a: seq<CartItem>, b: seq<CartItem>)
    ensures Count(a + b) == Count(a) + Count(b)
  {
    if a == [] {
      assert a + b == b;
    } else {
      assert (a + b)[1..] == a[1..] + b;
      CountAppend(a[1..], b);
    }
  }

  /** Every line holds at least one unit, so the badge count is at least the line count and
      is zero only for an empty cart. */
  lemma {:induction false} CountAtLeastLines(lines: seq<CartItem>)
    requires WellFormed(lines)
    ensures Count(lines) >= |lines|
    ensures Count(lines) == 0 <==> lines == []
  {
    if lines != [] {
      CountAtLeastLines(lines[1..]);
    }
  }

  lemma BumpedAt(lines: seq<CartItem>, k: nat, delta: int)
    requires WellFormed(lines) && k < |lines|
    ensures Bumped(lines, lines[k].product.id, delta) ==
            lines[..k] + [lines[k].(quantity := lines[k].quantity + delta)] + lines[k + 1..]
  {
  }

  lemma WithoutAt(lines: seq<CartItem>, k: nat)
    requires WellFormed(lines) && k < |lines|
    ensures Without(lines, lines[k].product.id) == lines[..k] + lines[k + 1..]
  {
    FilterDropsOne(lines, k, Other(lines[k].product.id));
  }

  lemma DropWellFormed(lines: seq<CartItem>, k: nat)
    requires WellFormed(lines) && k < |lines|
    ensures WellFormed(lines[..k] + lines[k + 1..])
  {
    var r := lines[..k] + lines[k + 1..];
    forall i | 0 <= i < |r| ensures r[i] == lines[if i < k then i else i + 1] {
    }
  }

  lemma ReplaceWellFormed(lines: seq<CartItem>, k: nat, q: int)
    requires WellFormed(lines) && k < |lines| && q >= 1
    ensures WellFormed(lines[..k] + [lines[k].(quantity := q)] + lines[k + 1..])
  {
    var r := lines[..k] + [lines[k].(quantity := q)] + lines[k + 1..];
    forall i | 0 <= i < |r| ensures r[i].product == lines[i].product {
    }
  }

  /** The badge count splits around any line. */
  lemma CountAround(lines: seq<CartItem>, k: nat)
    requires k < |lines|
    ensures Count(lines) == Count(lines[..k]) + lines[k].quantity + Count(lines[k + 1..])
  {
    assert lines == lines[..k] + [lines[k]] + lines[k + 1..];
    CountAppend(lines[..k] + [lines[k]], lines[k + 1..]);
    CountAppend(lines[..k], [lines[k]]);
  }

  lemma CountDrop(lines: seq<CartItem>, k: nat)
    requires k < |lines|
    ensures Count(lines[..k] + lines[k + 1..]) == Count(lines) - lines[k].quantity
  {
    CountAround(lines, k);
    CountAppend(lines[..k], lines[k + 1..]);
  }

  lemma CountReplace(lines: seq<CartItem>, k: nat, q: int)
    requires k < |lines|
    ensures Count(lines[..k] + [lines[k].(quantity := q)] + lines[k + 1..]) == Count(lines) - lines[k].quantity + q
  {
    CountAround(lines, k);
    CountAppend(lines[..k] + [lines[k].(quantity := q)], lines[k + 1..]);
    CountAppend(lines[..k], [lines[k].(quantity := q)]);
  }

  /** Adding a product already in the cart: its line gains one unit, keeps its place and its
      fields, and every other line is unchanged. */
  lemma AddExisting(lines: seq<CartItem>, product: Product, k: nat)
    requires WellFormed(lines) && Find(lines, product.id) == Some(k)
    ensures Added(lines, product) ==
            lines[..k] + [lines[k].(quantity := lines[k].quantity + 1)] + lines[k + 1..]
    ensures |Added(lines, product)| == |lines|
  {
    BumpedAt(lines, k, 1);
  }

  /** Adding a product not in the cart appends `{ ...product, quantity: 1 }` at the end. */
  lemma AddNew(lines: seq<CartItem>, product: Product)
    requires Find(lines, product.id).None?
    ensures Added(lines, product) == lines + [CartItem(product, 1)]
    ensures forall k :: 0 <= k < |lines| ==> lines[k].product.id != product.id
  {
  }

  /** `addItemToCart` keeps the invariant, leaves exactly one line for the product and
      raises the badge count by exactly one. */
  lemma AddPreserves(lines: seq<CartItem>, product: Product)
    requires WellFormed(lines)
    ensures WellFormed(Added(lines, product))
    ensures Find(Added(lines, product), product.id).Some?
    ensures Count(Added(lines, product)) == Count(lines) + 1
  {
    match Find(lines, product.id)
    case Some(k) =>
      AddExisting(lines, product, k);
      ReplaceWellFormed(lines, k, lines[k].quantity + 1);
      CountReplace(lines, k, lines[k].quantity + 1);
      var r := Added(lines, product);
      assert r[k].product.id == product.id;
    case None =>
      CountAppend(lines, [CartItem(product, 1)]);
      var r := Added(lines, product);
      assert r[|lines|].product.id == product.id;
  }

  /** Decreasing an id that is not in the cart changes nothing. */
  lemma DecreaseAbsent(lines: seq<CartItem>, id: string)
    requires Find(lines, id).None?
    ensures Decreased(lines, id) == lines
  {
  }

  /** Decreasing a present line: at quantity 1 or less the line is dropped, otherwise it
      loses one unit; the other lines keep their values and their order. */
  lemma DecreasePresent(lines: seq<CartItem>, id: string, k: nat)
    requires WellFormed(lines) && Find(lines, id) == Some(k)
    ensures lines[k].quantity <= 1 ==> Decreased(lines, id) == lines[..k] + lines[k + 1..]
    ensures lines[k].quantity > 1 ==>
      Decreased(lines, id) == lines[..k] + [lines[k].(quantity := lines[k].quantity - 1)] + lines[k + 1..]
  {
    if lines[k].quantity <= 1 {
      WithoutAt(lines, k);
    } else {
      BumpedAt(lines, k, -1);
    }
  }

  /** `decreaseItemInCart` keeps the invariant and, on a present id, lowers the badge count by
      exactly one. */
  lemma DecreasePreserves(lines: seq<CartItem>, id: string)
    requires WellFormed(lines)
    ensures WellFormed(Decreased(lines, id))
    ensures Find(lines, id).Some? ==> Count(Decreased(lines, id)) == Count(lines) - 1
    ensures Find(lines, id).None? ==> Count(Decreased(lines, id)) == Count(lines)
  {
    match Find(lines, id)
    case None =>
    case Some(k) =>
      if lines[k].quantity <= 1 {
        DecreaseDrops(lines, id, k);
      } else {
        DecreaseDecrements(lines, id, k);
      }
  }

  lemma DecreaseDrops(lines: seq<CartItem>, id: string, k: nat)
    requires WellFormed(lines) && Find(lines, id) == Some(k) && lines[k].quantity <= 1
    ensures WellFormed(Decreased(lines, id))
    ensures Count(Decreased(lines, id)) == Count(lines) - 1
  {
    DecreasePresent(lines, id, k);
    DropWellFormed(lines, k);
    CountDrop(lines, k);
  }

  lemma DecreaseDecrements(lines: seq<CartItem>, id: string, k: nat)
    requires WellFormed(lines) && Find(lines, id) == Some(k) && lines[k].quantity > 1
    ensures WellFormed(Decreased(lines, id))
    ensures Count(Decreased(lines, id)) == Count(lines) - 1
  {
    DecreasePresent(lines, id, k);
    ReplaceWellFormed(lines, k, lines[k].quantity - 1);
    CountReplace(lines, k, lines[k].quantity - 1);
  }

  /** `removeItemFromCart(id)`: the line with that id is gone, the rest keep their order, an
      absent id changes nothing, and the invariant holds. */
  lemma RemovePreserves(lines: seq<CartItem>, id: string)
    requires WellFormed(lines)
    ensures WellFormed(Without(lines, id))
    ensures Find(Without(lines, id), id).None?
    ensures Find(lines, id).None? ==> Without(lines, id) == lines
    ensures Find(lines, id).Some? ==>
      Without(lines, id) == lines[..Find(lines, id).value] + lines[Find(lines, id).value + 1..]
  {
    match Find(lines, id)
    case None =>
      RemoveAbsent(lines, id);
    case Some(k) =>
      RemovePresent(lines, id, k);
  }

  lemma RemoveAbsent(lines: seq<CartItem>, id: string)
    requires WellFormed(lines) && Find(lines, id).None?
    ensures Without(lines, id) == lines
  {
    FilterKeepsAll(lines, Other(id));
  }

  lemma RemovePresent(lines: seq<CartItem>, id: string, k: nat)
    requires WellFormed(lines) && Find(lines, id) == Some(k)
    ensures Without(lines, id) == lines[..k] + lines[k + 1..]
    ensures WellFormed(Without(lines, id))
    ensures Find(Without(lines, id), id).None?
  {
    WithoutAt(lines, k);
    DropWellFormed(lines, k);
    var r := lines[..k] + lines[k + 1..];
    forall i | 0 <= i < |r| ensures r[i].product.id != id {
      assert r[i] == lines[if i < k then i else i + 1];
    }
  }

  /** The module-level cart with its listeners. */
  class Cart {
    var lines: seq<CartItem>
    const bus: Bus<seq<CartItem>>

    ghost predicate Valid()
      reads this
    {
      WellFormed(lines)
    }

    /** `let cart: CartItem[] = []` and an empty listener set. */
    constructor()
      ensures Valid() && lines == []
      ensures fresh(bus) && bus.listeners == {} && bus.deliveries == []
    {
      lines := [];
      bus := new Bus();
    }

    /** `getCartSnapshot()` */
    function Snapshot(): (s: seq<CartItem>)
      reads this
      ensures s == lines
      ensures Valid() ==> WellFormed(s)
    {
      lines
    }

    /** `getCartItemsCount()`: the sum of the quantities. */
    function ItemsCount(): (n: int)
      reads this
      requires Valid()
      ensures n == Count(lines)
      ensures n >= |lines|
      ensures n == 0 <==> lines == []
    {
      CountAtLeastLines(lines);
      Count(lines)
    }

    /** `addItemToCart(product, source)`; `source` is accepted and ignored. */
    method AddItem(product: Product, source: Option<string>)
      requires Valid()
      modifies this, bus
      ensures Valid()
      ensures lines == Added(old(lines), product)
      ensures Count(lines) == Count(old(lines)) + 1
      ensures bus.listeners == old(bus.listeners)
      ensures bus.deliveries == old(bus.deliveries) + [Delivery(bus.listeners, lines)]
    {
      AddPreserves(lines, product);
      var existing := Find(lines, product.id);
      if existing.Some? {
        lines := Bumped(lines, product.id, 1);
        bus.Emit(lines);
        return;
      }
      lines := lines + [CartItem(product, 1)];
      bus.Emit(lines);
    }

    /** `decreaseItemInCart(productId)`; an absent id (or `undefined`) returns before
        notifying. */
    method DecreaseItem(productId: Option<string>)
      requires Valid()
      modifies this, bus
      ensures Valid()
      ensures lines == DecreasedBy(old(lines), productId)
      ensures bus.listeners == old(bus.listeners)
      ensures (productId.Some? && Find(old(lines), productId.value).Some?) ==>
                Count(lines) == Count(old(lines)) - 1 &&
                bus.deliveries == old(bus.deliveries) + [Delivery(bus.listeners, lines)]
      ensures (productId.None? || Find(old(lines), productId.value).None?) ==>
                bus.deliveries == old(bus.deliveries)
    {
      var existing := if productId.Some? then Find(lines, productId.value) else None;
      if existing.None? {
        return;
      }
      var id := productId.value;
      DecreasePreserves(lines, id);
      if lines[existing.value].quantity <= 1 {
        lines := Without(lines, id);
        bus.Emit(lines);
        return;
      }
      lines := Bumped(lines, id, -1);
      bus.Emit(lines);
    }

    /** `removeItemFromCart(productId)`: reassigns and notifies even when nothing matched. */
    method RemoveItem(productId: Option<string>)
      requires Valid()
      modifies this, bus
      ensures Valid()
      ensures lines == RemovedBy(old(lines), productId)
      ensures productId.Some? ==> Find(lines, productId.value).None?
      ensures bus.listeners == old(bus.listeners)
      ensures bus.deliveries == old(bus.deliveries) + [Delivery(bus.listeners, lines)]
    {
      if productId.Some? {
        RemovePreserves(lines, productId.value);
        lines := Without(lines, productId.value);
      }
      bus.Emit(lines);
    }

    /** `clearCart()` */
    method Clear()
      modifies this, bus
      ensures Valid() && lines == []
      ensures bus.listeners == old(bus.listeners)
      ensures bus.deliveries == old(bus.deliveries) + [Delivery(bus.listeners, lines)]
    {
      lines := [];
      bus.Emit(lines);
    }
  }
}
