/** The in-memory order store (infrastructure/in_memory_order_repository.py).
    Stored orders are values, so the deep copies the code makes on save and on
    load come from value semantics: nothing the caller does to a loaded order
    reaches the store before the next save. */
module Repository {
  import opened Domain

  class InMemoryOrderRepository {
    var orders: map<string, OrderValue>

    /** Every stored order is filed under its own id. */
    ghost predicate Valid()
      reads this
    {
      forall key :: key in orders ==> orders[key].id == key
    }

    /** A new repository stores nothing. */
    constructor ()
      ensures orders == map[] && Valid()
    {
      orders := map[];
    }

    /** `get_by_id`: a fresh copy of the stored order, or null for an id never
        saved. The store itself is not touched. */
    method GetById(orderId: string) returns (order: Order?)
      ensures orderId !in orders ==> order == null
      ensures orderId in orders ==> order != null && fresh(order) && order.Snapshot() == orders[orderId]
    {
      if orderId in orders {
        order := new Order.Copy(orders[orderId]);
      } else {
        order := null;
      }
    }

    /** `save`: stores a copy of the order under its id and leaves every other
        entry as it was. */
    method Save(order: Order)
      modifies this
      ensures orders == old(orders)[order.id := order.Snapshot()]
      ensures order.id in orders && orders[order.id] == order.Snapshot()
      ensures forall key :: key in old(orders) && key != order.id ==> key in orders && orders[key] == old(orders)[key]
      ensures old(Valid()) ==> Valid()
    {
      orders := orders[order.id := order.Snapshot()];
    }

    /** `clear`: empties the store. */
    method Clear()
      modifies this
      ensures orders == map[] && Valid()
    {
      orders := map[];
    }
  }
}
