/** The orders, order_items and order_status_history tables. */
module OrderRepository {
  import opened Common
  import opened Ledger
  import opened OrderState
  import Checkout

  class Repository {
    var orders: seq<Checkout.Order>

    constructor ()
      ensures orders == []
    {
      orders := [];
    }

    /** A new order is pending, without lines, and its history has the creation row. */
    method Create(customer: int, warehouse: int, currency: int, total: int, now: int) returns (id: nat)
      modifies this
      ensures id == |old(orders)|
      ensures orders == old(orders) +
                [Checkout.Order(customer, warehouse, currency, total, Pending, [], [Move(None, Pending)], now)]
    {
      id := |orders|;
      orders := orders +
            [Checkout.Order(customer, warehouse, currency, total, Pending, [], [Move(None, Pending)], now)];
    }

    /** One line per item, in the basket's order, as the product is now; one line per product. */
    method AddItems(id: nat, products: map<int, Checkout.Product>, items: seq<RequestedItem>)
      returns (raised: Option<Checkout.CheckoutError>)
      requires id < |orders|
      requires forall i :: 0 <= i < |items| ==> items[i].product in products
      modifies this
      ensures var was := old(orders)[id];
              var lines := was.lines + Checkout.Lines(products, items);
              if Checkout.DistinctLines(lines) then raised.None? && orders == old(orders)[id := was.(lines := lines)]
              else raised == Some(Checkout.DuplicateLine) && orders == old(orders)
    {
      var pending: seq<Checkout.Line> := [];
      var n := 0;
      while n < |items|
        invariant n <= |items|
        invariant pending == Checkout.Lines(products, items[..n])
      {
        var product := products[items[n].product];
        pending := pending +
          [Checkout.Line(items[n].product, product.sku, product.name, items[n].quantity, product.unitPrice,
                product.currency)];
        n := n + 1;
      }
      assert items[..n] == items;
      if !Checkout.DistinctLines(orders[id].lines + pending) {
        return Some(Checkout.DuplicateLine);
      }
      orders := orders[id := orders[id].(lines := orders[id].lines + pending)];
      raised := None;
    }

    /** The compare-and-swap on the status, then the history row. */
    method Transition(id: nat, from: OrderStatus, to: OrderStatus, now: int)
      returns (raised: Option<Checkout.CheckoutError>)
      modifies this
      ensures var spec := Checkout.Transition(old(orders), id, from, to, now);
              if spec.Ok? then raised.None? && orders == spec.value
              else raised == Some(spec.error) && orders == old(orders)
    {
      if !IsAllowed(from, to) {
        return Some(Checkout.InvalidStateTransition(Some(from), to));
      }
      var moved := id < |orders| && orders[id].status == from;
      if !moved {
        return Some(Checkout.InvalidStateTransition(if id < |orders| then Some(orders[id].status) else None, to));
      }
      orders := orders[id := orders[id].(status := to, updatedAt := now)];
      orders := orders[id := orders[id].(history := orders[id].history + [Move(Some(from), to)])];
      raised := None;
    }
  }

  /** Of two moves out of the same status one wins; the other, sent after it, is told the status the
      winner left the order in and changes nothing. */
  lemma {:induction false} LoserIsTold(orders: seq<Checkout.Order>, id: nat, from: OrderStatus, to: OrderStatus,
          other: OrderStatus, now: int, later: int)
    requires Checkout.Transition(orders, id, from, to, now).Ok? && IsAllowed(from, other)
    ensures var moved := Checkout.Transition(orders, id, from, to, now).value;
            && id < |moved| && moved[id].status == to != from
            && Checkout.Transition(moved, id, from, other, later) ==
                 Err(Checkout.InvalidStateTransition(Some(to), other))
  {
    WaysIn(from, to);
  }
}
