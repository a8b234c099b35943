/** The purchase log (src/features/purchases/store/purchasesStore.ts): ordered cart lines
    appended in place by `addPurchase` and emptied by `resetPurchases`. */
module PurchasesStore {
  import opened CartStore
  import opened Listeners

  class Purchases {
    var log: seq<CartItem>
    const bus: Bus<seq<CartItem>>

    constructor()
      ensures log == [] && fresh(bus) && bus.listeners == {} && bus.deliveries == []
    {
      log := [];
      bus := new Bus();
    }

    /** `addPurchase(items)`: `purchased.push(...items)`, then notify. */
    method AddPurchase(items: seq<CartItem>)
      modifies this, bus
      ensures log == old(log) + items
      ensures PurchasedCount() == old(PurchasedCount()) + Count(items)
      ensures bus.listeners == old(bus.listeners)
      ensures bus.deliveries == old(bus.deliveries) + [Delivery(bus.listeners, log)]
    {
      CountAppend(log, items);
      log := log + items;
      bus.Emit(log);
    }

    /** `getPurchasedCount()`: the sum of the logged quantities. */
    function PurchasedCount(): (n: int)
      reads this
      ensures n == Count(log)
    {
      Count(log)
    }

    /** `resetPurchases()` */
    method Reset()
      modifies this, bus
      ensures log == [] && PurchasedCount() == 0
      ensures bus.listeners == old(bus.listeners)
      ensures bus.deliveries == old(bus.deliveries) + [Delivery(bus.listeners, log)]
    {
      log := [];
      bus.Emit(log);
    }
  }
}
