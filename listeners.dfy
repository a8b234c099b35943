/** The subscription pattern every store repeats: a set of zero-argument listeners,
    `subscribe` that adds one and returns a function removing it, and `emit`/`notify`
    that calls each registered listener once. */
module Listeners {

  /** A registered callback, identified by the function value the caller passed. */
  type ListenerId = nat

  /** One `emit`: each listener in `recipients` was called once, and a listener that read
      the store during its call saw `state`. */
  datatype Delivery<S> = Delivery(recipients: set<ListenerId>, state: S)

  class Bus<S> {
    var listeners: set<ListenerId>
    /** Every notification so far, oldest first. */
    ghost var deliveries: seq<Delivery<S>>

    constructor()
      ensures listeners == {} && deliveries == []
    {
      listeners := {};
      deliveries := [];
    }

    /** `subscribe(listener)`: `listeners.add(listener)`; adding a listener twice keeps one. */
    method Subscribe(l: ListenerId)
      modifies this
      ensures listeners == old(listeners) + {l}
      ensures deliveries == old(deliveries)
    {
      listeners := listeners + {l};
    }

    /** The function `subscribe` returns: `listeners.delete(listener)`. */
    method Unsubscribe(l: ListenerId)
      modifies this
      ensures listeners == old(listeners) - {l}
      ensures l !in listeners
      ensures deliveries == old(deliveries)
    {
      listeners := listeners - {l};
    }

    /** `listeners.forEach(l => l())`, called after the store has assigned `state`. */
    method Emit(ghost state: S)
      modifies this
      ensures listeners == old(listeners)
      ensures deliveries == old(deliveries) + [Delivery(listeners, state)]
    {
      deliveries := deliveries + [Delivery(listeners, state)];
    }
  }
}
