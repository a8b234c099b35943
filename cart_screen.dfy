/** The cart screen (src/screens/CartScreen.tsx): the rendered copy of the local cart, the
    per-line check marks, the selected total, ordering, and the row buttons. React state
    updates are applied in the order the handlers queue them. */
module CartScreen {
  import opened Wrappers
  import opened Seqs
  import opened Listeners
  import opened CartStore
  import opened PurchasesStore

  /** `getKey(item)` = `${item.id}::${item.source}`. Local cart lines have no `source`, so
      the second half always renders as "undefined". */
  function Key(item: CartItem): string {
    item.product.id + "::undefined"
  }

  /** Keys tell product ids apart: lines of different products never share a mark. */
  lemma KeyDistinct(a: CartItem, b: CartItem)
    requires a.product.id != b.product.id
    ensures Key(a) != Key(b)
  {
    var ka, kb := Key(a), Key(b);
    if |a.product.id| == |b.product.id| {
      assert ka[..|a.product.id|] == a.product.id;
      assert kb[..|b.product.id|] == b.product.id;
    } else {
      assert |ka| != |kb|;
    }
  }

  ghost function KeysOf(items: seq<CartItem>): set<string> {
    set i | 0 <= i < |items| :: Key(items[i])
  }

  /** A well-formed cart has one key per line. */
  lemma {:induction false} KeysOfWellFormed(items: seq<CartItem>)
    requires WellFormed(items)
    ensures |KeysOf(items)| == |items|
  {
    if items != [] {
      var init := items[..|items| - 1];
      assert WellFormed(init);
      KeysOfWellFormed(init);
      KeysOfSnoc(items);
      LastKeyFresh(items);
    }
  }

  lemma KeysOfSnoc(items: seq<CartItem>)
    requires items != []
    ensures KeysOf(items) == KeysOf(items[..|items| - 1]) + {Key(items[|items| - 1])}
  {
    var init := items[..|items| - 1];
    forall k | k in KeysOf(items) ensures k in KeysOf(init) + {Key(items[|items| - 1])} {
      var i :| 0 <= i < |items| && Key(items[i]) == k;
      if i < |items| - 1 {
        assert init[i] == items[i];
      }
    }
    forall k | k in KeysOf(init) ensures k in KeysOf(items) {
      var i :| 0 <= i < |init| && Key(init[i]) == k;
      assert items[i] == init[i];
    }
  }

  lemma LastKeyFresh(items: seq<CartItem>)
    requires WellFormed(items) && items != []
    ensures Key(items[|items| - 1]) !in KeysOf(items[..|items| - 1])
  {
    var init := items[..|items| - 1];
    forall i | 0 <= i < |init| ensures Key(init[i]) != Key(items[|items| - 1]) {
      assert init[i] == items[i];
      KeyDistinct(init[i], items[|items| - 1]);
    }
  }

  /** `checked[getKey(item)]` is truthy: a missing key reads as `undefined`. */
  predicate IsChecked(checked: map<string, bool>, item: CartItem) {
    Key(item) in checked && checked[Key(item)]
  }

  /** The check-state update of `refresh`: one entry per line of the snapshot, keeping a
      line's old mark and checking lines that had none. */
  method Reconcile(prev: map<string, bool>, snapshot: seq<CartItem>) returns (next: map<string, bool>)
    ensures next.Keys == KeysOf(snapshot)
    ensures forall k :: k in next ==> next[k] == (if k in prev then prev[k] else true)
    ensures forall i :: 0 <= i < |snapshot| ==>
              (IsChecked(next, snapshot[i]) <==> !(Key(snapshot[i]) in prev && !prev[Key(snapshot[i])]))
  {
    next := map[];
    var i := 0;
    while i < |snapshot|
      invariant 0 <= i <= |snapshot|
      invariant next.Keys == KeysOf(snapshot[..i])
      invariant forall k :: k in next ==> next[k] == (if k in prev then prev[k] else true)
    {
      var key := Key(snapshot[i]);
      next := next[key := if key in prev then prev[key] else true];
      assert KeysOf(snapshot[..i + 1]) == KeysOf(snapshot[..i]) + {key} by {
        var s, t := snapshot[..i], snapshot[..i + 1];
        forall k | k in KeysOf(t) ensures k in KeysOf(s) + {key} {
          var j :| 0 <= j < |t| && Key(t[j]) == k;
          if j < i {
            assert t[j] == s[j];
          }
        }
        forall k | k in KeysOf(s) ensures k in KeysOf(t) {
          var j :| 0 <= j < |s| && Key(s[j]) == k;
          assert t[j] == s[j];
        }
      }
      i := i + 1;
    }
    assert snapshot[..i] == snapshot;
    forall i | 0 <= i < |snapshot|
      ensures IsChecked(next, snapshot[i]) <==> !(Key(snapshot[i]) in prev && !prev[Key(snapshot[i])])
    {
      assert Key(snapshot[i]) in KeysOf(snapshot);
    }
  }

  /** `allChecked`: there are lines and every one is checked. */
  predicate AllChecked(items: seq<CartItem>, checked: map<string, bool>) {
    |items| > 0 && forall i :: 0 <= i < |items| ==> IsChecked(checked, items[i])
  }

  /** `toggleAll()`: every line gets the same mark, the opposite of `allChecked`; so with
      lines present, pressing it flips `allChecked`. */
  method ToggleAll(items: seq<CartItem>, checked: map<string, bool>) returns (next: map<string, bool>)
    ensures next.Keys == KeysOf(items)
    ensures forall k :: k in next ==> next[k] == !AllChecked(items, checked)
    ensures |items| > 0 ==> AllChecked(items, next) == !AllChecked(items, checked)
  {
    var all := AllChecked(items, checked);
    next := map[];
    var i := 0;
    while i < |items|
      invariant 0 <= i <= |items|
      invariant forall j :: 0 <= j < i ==> Key(items[j]) in next
      invariant forall k :: k in next ==> next[k] == !all
      invariant forall k :: k in next ==> k in KeysOf(items)
    {
      next := next[Key(items[i]) := !all];
      i := i + 1;
    }
    forall k | k in KeysOf(items) ensures k in next {
      var j :| 0 <= j < |items| && Key(items[j]) == k;
    }
    if |items| > 0 {
      if all {
        assert !IsChecked(next, items[0]);
      }
    }
  }

  /** `toggleOne(key)`: flips one mark; a missing mark counts as unchecked. */
  function ToggleOne(checked: map<string, bool>, key: string): (next: map<string, bool>)
    ensures key in next && next[key] == !(key in checked && checked[key])
    ensures forall k :: k != key ==> (k in next <==> k in checked)
    ensures forall k :: k != key && k in checked ==> next[k] == checked[k]
  {
    checked[key := !(key in checked && checked[key])]
  }

  /** Toggling the same line twice restores whether it is checked, and leaves every other
      line's mark alone. */
  lemma ToggleOneTwice(checked: map<string, bool>, item: CartItem)
    ensures var twice := ToggleOne(ToggleOne(checked, Key(item)), Key(item));
            IsChecked(twice, item) == IsChecked(checked, item)
  {
  }

  function Selector(checked: map<string, bool>): CartItem -> bool {
    (item: CartItem) => IsChecked(checked, item)
  }

  /** The checked lines, in cart order. */
  function Selected(items: seq<CartItem>, checked: map<string, bool>): seq<CartItem> {
    Filter(items, Selector(checked))
  }

  /** The value of some lines: price times quantity, summed. */
  function Value(lines: seq<CartItem>): real {
    if lines == [] then 0.0 else lines[0].product.price * lines[0].quantity as real + Value(lines[1..])
  }

  /** `productsTotal`: the `reduce` over the lines that adds only checked ones. */
  function ProductsTotal(items: seq<CartItem>, checked: map<string, bool>): real {
    if items == [] then 0.0
    else
      (if IsChecked(checked, items[0]) then items[0].product.price * items[0].quantity as real else 0.0)
      + ProductsTotal(items[1..], checked)
  }

  /** The total is exactly the value of what an order would buy. */
  lemma {:induction false} TotalIsSelectedValue(items: seq<CartItem>, checked: map<string, bool>)
    ensures ProductsTotal(items, checked) == Value(Selected(items, checked))
  {
    if items != [] {
      TotalIsSelectedValue(items[1..], checked);
      if IsChecked(checked, items[0]) {
        assert Selected(items, checked) == [items[0]] + Selected(items[1..], checked);
        assert ([items[0]] + Selected(items[1..], checked))[1..] == Selected(items[1..], checked);
      } else {
        assert Selected(items, checked) == Selected(items[1..], checked);
      }
    }
  }

  /** When the ZAMÓW button is enabled some line is checked, so the "Brak produktów"
      branch of `order()` is never reached from the screen. */
  lemma EnabledOrderHasSelection(items: seq<CartItem>, checked: map<string, bool>)
    requires ProductsTotal(items, checked) != 0.0
    ensures Selected(items, checked) != []
  {
    TotalIsSelectedValue(items, checked);
  }

  /** How an order press ends. */
  datatype OrderOutcome =
    | Disabled                 // the button is disabled: the selected total is 0
    | NothingSelected          // "Brak produktów"
    | Ordered(total: real)     // "Zamówienie złożone", with the selected total

  /** A remove or decrease called with `undefined` (what `item.cartItemId` is on a local
      line) leaves the cart exactly as it was, whatever line the press was meant for. */
  lemma UndefinedIdChangesNothing(lines: seq<CartItem>, k: nat)
    requires k < |lines|
    ensures RemovedBy(lines, None) == lines && DecreasedBy(lines, None) == lines
    ensures Find(RemovedBy(lines, None), lines[k].product.id).Some?
  {
    assert Find(lines, lines[k].product.id).Some?;
  }

  /** A mark map over exactly the lines' keys, all true, checks every line. */
  lemma AllKeysChecked(items: seq<CartItem>, checked: map<string, bool>)
    requires checked.Keys == KeysOf(items)
    requires forall k :: k in checked ==> checked[k]
    ensures forall i :: 0 <= i < |items| ==> IsChecked(checked, items[i])
  {
    forall i | 0 <= i < |items| ensures IsChecked(checked, items[i]) {
      assert Key(items[i]) in KeysOf(items);
    }
  }

  class CartScreenState {
    var items: seq<CartItem>
    var checked: map<string, bool>

    constructor()
      ensures items == [] && checked == map[]
    {
      items := [];
      checked := map[];
    }

    /** `refresh()`: re-reads the cart and reconciles the marks with the previous ones. */
    method Refresh(cart: Cart)
      modifies this
      ensures items == cart.lines
      ensures checked.Keys == KeysOf(items)
      ensures forall k :: k in checked ==> checked[k] == (if k in old(checked) then old(checked)[k] else true)
    {
      items := cart.Snapshot();
      checked := Reconcile(checked, items);
    }

    /** Pressing a line's check box. */
    method PressCheck(item: CartItem)
      modifies this
      ensures items == old(items) && checked == ToggleOne(old(checked), Key(item))
    {
      checked := ToggleOne(checked, Key(item));
    }

    /** The "select all" row. */
    method PressSelectAll()
      modifies this
      ensures items == old(items)
      ensures checked.Keys == KeysOf(items)
      ensures forall k :: k in checked ==> checked[k] == !AllChecked(old(items), old(checked))
      ensures |items| > 0 ==> AllChecked(items, checked) == !AllChecked(items, old(checked))
    {
      checked := ToggleAll(items, checked);
    }

    /** `order()`: with nothing checked only an alert shows. Otherwise the checked lines are
        logged as a purchase, the alert shows their total, and the whole cart is cleared:
        unchecked lines are dropped too, without being purchased. */
    method Order(cart: Cart, purchases: Purchases) returns (outcome: OrderOutcome)
      requires cart.Valid()
      modifies this, cart, cart.bus, purchases, purchases.bus
      ensures cart.Valid()
      ensures Selected(old(items), old(checked)) == [] ==>
                outcome == NothingSelected && cart.lines == old(cart.lines) &&
                purchases.log == old(purchases.log) && items == old(items) && checked == old(checked)
      ensures Selected(old(items), old(checked)) != [] ==>
                && outcome == Ordered(Value(Selected(old(items), old(checked))))
                && purchases.log == old(purchases.log) + Selected(old(items), old(checked))
                && cart.lines == [] && items == [] && checked == map[]
    {
      var purchased := Selected(items, checked);
      if purchased == [] {
        return NothingSelected;
      }
      purchases.AddPurchase(purchased);
      var total := ProductsTotal(items, checked);
      TotalIsSelectedValue(items, checked);
      cart.Clear();
      checked := map[];
      Refresh(cart);
      assert KeysOf([]) == {};
      outcome := Ordered(total);
    }

    /** The ZAMÓW button: disabled while the selected total is 0, so nothing happens then;
        otherwise it runs `order()`, which then always places the order. */
    method PressOrder(cart: Cart, purchases: Purchases) returns (outcome: OrderOutcome)
      requires cart.Valid()
      modifies this, cart, cart.bus, purchases, purchases.bus
      ensures cart.Valid()
      ensures ProductsTotal(old(items), old(checked)) == 0.0 ==>
                outcome == Disabled && cart.lines == old(cart.lines) &&
                purchases.log == old(purchases.log) && items == old(items) && checked == old(checked)
      ensures ProductsTotal(old(items), old(checked)) != 0.0 ==>
                && Selected(old(items), old(checked)) != []
                && outcome == Ordered(ProductsTotal(old(items), old(checked)))
                && purchases.log == old(purchases.log) + Selected(old(items), old(checked))
                && cart.lines == [] && items == [] && checked == map[]
    {
      if ProductsTotal(items, checked) == 0.0 {
        return Disabled;
      }
      EnabledOrderHasSelection(items, checked);
      TotalIsSelectedValue(items, checked);
      outcome := Order(cart, purchases);
    }

    /** The "+" button: one more unit of the line, then a refresh. */
    method PressPlus(cart: Cart, item: CartItem)
      requires cart.Valid()
      modifies this, cart, cart.bus
      ensures cart.Valid()
      ensures cart.lines == Added(old(cart.lines), item.product) && items == cart.lines
      ensures cart.ItemsCount() == old(cart.ItemsCount()) + 1
      ensures checked.Keys == KeysOf(items)
      ensures forall k :: k in checked ==> checked[k] == (if k in old(checked) then old(checked)[k] else true)
    {
      cart.AddItem(item.product, None);
      Refresh(cart);
    }

    /** The trash button and the swipe action as written: they pass `item.cartItemId`, which
        local lines do not have, so nothing is removed (listeners are still notified). */
    method PressTrashAsWritten(cart: Cart, item: CartItem)
      requires cart.Valid()
      modifies this, cart, cart.bus
      ensures cart.Valid()
      ensures cart.lines == old(cart.lines) && items == cart.lines
      ensures checked.Keys == KeysOf(items)
      ensures forall k :: k in checked ==> checked[k] == (if k in old(checked) then old(checked)[k] else true)
    {
      cart.RemoveItem(None);
      Refresh(cart);
    }

    /** The trash button and the swipe action as intended: the line's product leaves the
        cart and every other line stays. */
    method PressTrash(cart: Cart, item: CartItem)
      requires cart.Valid()
      modifies this, cart, cart.bus
      ensures cart.Valid()
      ensures cart.lines == Without(old(cart.lines), item.product.id) && items == cart.lines
      ensures Find(cart.lines, item.product.id).None?
      ensures checked.Keys == KeysOf(items)
      ensures forall k :: k in checked ==> checked[k] == (if k in old(checked) then old(checked)[k] else true)
    {
      cart.RemoveItem(Some(item.product.id));
      Refresh(cart);
    }

    /** The "−" button as written: disabled at quantity 1, where nothing runs; above it, it
        passes `item.cartItemId`, so nothing is decreased and nobody is notified, and then
        the screen refreshes. */
    method PressMinusAsWritten(cart: Cart, item: CartItem)
      requires cart.Valid()
      modifies this, cart, cart.bus
      ensures cart.Valid()
      ensures cart.lines == old(cart.lines)
      ensures cart.bus.deliveries == old(cart.bus.deliveries)
      ensures item.quantity != 1 ==> items == cart.lines && checked.Keys == KeysOf(items)
      ensures item.quantity != 1 ==>
                forall k :: k in checked ==> checked[k] == (if k in old(checked) then old(checked)[k] else true)
      ensures item.quantity == 1 ==>
                cart.lines == old(cart.lines) && items == old(items) && checked == old(checked) &&
                cart.bus.deliveries == old(cart.bus.deliveries)
    {
      if item.quantity != 1 {
        cart.DecreaseItem(None);
        Refresh(cart);
      }
    }

    /** The "−" button as intended: one unit fewer of the line's product, then a refresh;
        disabled at quantity 1, where nothing runs. */
    method PressMinus(cart: Cart, item: CartItem)
      requires cart.Valid()
      modifies this, cart, cart.bus
      ensures cart.Valid()
      ensures item.quantity != 1 ==> cart.lines == Decreased(old(cart.lines), item.product.id)
      ensures item.quantity != 1 && Find(old(cart.lines), item.product.id).Some? ==>
                cart.ItemsCount() == old(cart.ItemsCount()) - 1
      ensures item.quantity != 1 ==> items == cart.lines && checked.Keys == KeysOf(items)
      ensures item.quantity != 1 ==>
                forall k :: k in checked ==> checked[k] == (if k in old(checked) then old(checked)[k] else true)
      ensures item.quantity == 1 ==>
                cart.lines == old(cart.lines) && items == old(items) && checked == old(checked) &&
                cart.bus.deliveries == old(cart.bus.deliveries)
    {
      if item.quantity != 1 {
        cart.DecreaseItem(Some(item.product.id));
        Refresh(cart);
      }
    }

    /** `removeSelected()` as written: one remove per checked line, each with `undefined`,
        so the cart keeps every line; then the marks are reset, which re-checks all. */
    method RemoveSelectedAsWritten(cart: Cart)
      requires cart.Valid()
      modifies this, cart, cart.bus
      ensures cart.Valid()
      ensures cart.lines == old(cart.lines) && items == cart.lines
      ensures checked.Keys == KeysOf(items)
      ensures forall k :: k in checked ==> checked[k]
      ensures forall i :: 0 <= i < |items| ==> IsChecked(checked, items[i])
    {
      var toRemove := Selected(items, checked);
      var i := 0;
      while i < |toRemove|
        invariant 0 <= i <= |toRemove|
        invariant cart.Valid() && cart.lines == old(cart.lines)
      {
        cart.RemoveItem(None);
        i := i + 1;
      }
      checked := map[];
      Refresh(cart);
      AllKeysChecked(items, checked);
    }

    /** `removeSelected()` as intended: every checked product leaves the cart, every line
        of another product stays, and the remaining lines are all checked afresh. */
    method RemoveSelected(cart: Cart)
      requires cart.Valid()
      modifies this, cart, cart.bus
      ensures cart.Valid() && items == cart.lines
      ensures Gone(cart.lines, Ids(Selected(old(items), old(checked))))
      ensures Kept(old(cart.lines), cart.lines, Ids(Selected(old(items), old(checked))))
      ensures checked.Keys == KeysOf(items)
      ensures forall k :: k in checked ==> checked[k]
      ensures forall i :: 0 <= i < |items| ==> IsChecked(checked, items[i])
    {
      RemoveAll(cart, Selected(items, checked));
      checked := map[];
      Refresh(cart);
      AllKeysChecked(items, checked);
    }
  }

  /** The `forEach` of `removeSelected` with each line's id passed: one store remove per
      line, in order. */
  method RemoveAll(cart: Cart, toRemove: seq<CartItem>)
    requires cart.Valid()
    modifies cart, cart.bus
    ensures cart.Valid()
    ensures Gone(cart.lines, Ids(toRemove))
    ensures Kept(old(cart.lines), cart.lines, Ids(toRemove))
  {
    var i := 0;
    while i < |toRemove|
      invariant 0 <= i <= |toRemove|
      invariant cart.Valid()
      invariant Gone(cart.lines, Ids(toRemove[..i]))
      invariant Kept(old(cart.lines), cart.lines, Ids(toRemove[..i]))
    {
      var id := toRemove[i].product.id;
      RemoveStep(old(cart.lines), cart.lines, id, Ids(toRemove[..i]));
      IdsSnoc(toRemove, i);
      cart.RemoveItem(Some(id));
      i := i + 1;
    }
    assert toRemove[..i] == toRemove;
  }

  /** No line of the cart has one of the ids. */
  ghost predicate Gone(lines: seq<CartItem>, ids: set<string>) {
    forall x :: x in ids ==> Find(lines, x).None?
  }

  /** Every original line whose product is not among the ids is still in the cart. */
  ghost predicate Kept(original: seq<CartItem>, lines: seq<CartItem>, ids: set<string>) {
    forall line :: line in original && line.product.id !in ids ==> line in lines
  }

  /** The product ids of some lines. */
  ghost function Ids(lines: seq<CartItem>): set<string> {
    set j | 0 <= j < |lines| :: lines[j].product.id
  }

  lemma IdsSnoc(lines: seq<CartItem>, i: nat)
    requires i < |lines|
    ensures Ids(lines[..i + 1]) == Ids(lines[..i]) + {lines[i].product.id}
  {
    var s, t := lines[..i], lines[..i + 1];
    forall x | x in Ids(t) ensures x in Ids(s) + {lines[i].product.id} {
      var j :| 0 <= j < |t| && t[j].product.id == x;
      if j < i {
        assert t[j] == s[j];
      }
    }
    forall x | x in Ids(s) ensures x in Ids(t) {
      var j :| 0 <= j < |s| && s[j].product.id == x;
      assert t[j] == s[j];
    }
    assert t[i] == lines[i];
  }

  /** One more removal: the removed products stay gone, the new one goes, and every line of
      a product not removed so far survives. */
  lemma RemoveStep(original: seq<CartItem>, before: seq<CartItem>, id: string, done: set<string>)
    requires Gone(before, done)
    requires Kept(original, before, done)
    ensures Gone(Without(before, id), done + {id})
    ensures Kept(original, Without(before, id), done + {id})
  {
    var after := Without(before, id);
    FilterMembers(before, Other(id));
    forall x | x in done + {id} ensures Find(after, x).None? {
      forall k | 0 <= k < |after| ensures after[k].product.id != x {
        assert after[k] in after;
        assert Other(id)(after[k]);
      }
    }
    forall line | line in original && line.product.id !in done + {id} ensures line in after {
      assert Other(id)(line);
    }
  }
}
