/** `create_in_transaction`: select, insert the order and its lines, reserve, mark reserved. */
module OrderCreation {
  import opened Common
  import opened Ledger
  import opened OrderState
  import opened Selection
  import Checkout
  import OrderRepository
  import ReservationRepository

  class Service {
    const orders: OrderRepository.Repository
    const reservations: ReservationRepository.Repository

    predicate Valid()
      reads this, reservations
    {
      reservations.Valid() && reservations.ttlSeconds == Checkout.RESERVATION_TTL_SECONDS
    }

    constructor (orders: OrderRepository.Repository, reservations: ReservationRepository.Repository)
      requires reservations.Valid() && reservations.ttlSeconds == Checkout.RESERVATION_TTL_SECONDS
      ensures Valid() && this.orders == orders && this.reservations == reservations
    {
      this.orders, this.reservations := orders, reservations;
    }

    method InsertOrder(req: Checkout.Request, products: map<int, Checkout.Product>, warehouse: int, now: int)
      returns (r: Result<nat, Checkout.CheckoutError>)
      requires req.items != [] && forall i :: 0 <= i < |req.items| ==> req.items[i].product in products
      modifies orders
      ensures if Checkout.DistinctLines(Checkout.Lines(products, req.items))
              then r == Ok(|old(orders.orders)|) &&
                   orders.orders == old(orders.orders) + [Checkout.NewOrder(req, products, warehouse, now)]
              else r == Err(Checkout.DuplicateLine)
    {
      var lines := Checkout.Lines(products, req.items);
      var currency := products[req.items[0].product].currency;
      var id := orders.Create(req.customer, warehouse, currency, Checkout.LinesTotal(lines), now);
      assert [] + lines == lines;
      var raised := orders.AddItems(id, products, req.items);
      r := match raised case Some(e) => Err(e) case None => Ok(id);
    }

    /** Insert the order and its lines, reserve its stock, mark it reserved. */
    method CreateAt(req: Checkout.Request, shop: Checkout.Shop, warehouse: int, now: int)
      returns (r: Result<nat, Checkout.CheckoutError>)
      requires Valid() && req.items != [] && forall i :: 0 <= i < |req.items| ==> req.items[i].product in shop.products
      modifies orders, reservations
      ensures Valid()
      ensures var spec := Checkout.CreateAt(old(reservations.Tables()), old(orders.orders), req, shop, warehouse, now);
              if spec.Ok? then r == Ok(|old(orders.orders)|) && reservations.Tables() == spec.value.books
                    && orders.orders == spec.value.orders
              else r == Err(spec.error)
    {
      var inserted := InsertOrder(req, shop.products, warehouse, now);
      if inserted.Err? {
        return Err(inserted.error);
      }
      var id := inserted.value;
      var taken := reservations.ReserveStock(id, warehouse, req.items, now);
      if taken.Err? {
        return Err(Checkout.NotReserved(taken.error));
      }
      var raised := orders.Transition(id, Pending, Reserved, now);
      r := match raised case Some(e) => Err(e) case None => Ok(id);
    }

    method CreateInTransaction(req: Checkout.Request, shop: Checkout.Shop, now: int)
      returns (r: Result<nat, Checkout.CheckoutError>)
      requires Valid()
      modifies orders, reservations
      ensures Valid()
      ensures var spec := Checkout.Create(old(reservations.Tables()), old(orders.orders), req, shop, now);
              if spec.Ok? then r == Ok(|old(orders.orders)|) && reservations.Tables() == spec.value.books
                    && orders.orders == spec.value.orders
              else r == Err(spec.error)
    {
      var candidate := Select(shop.products.Keys, shop.seen, shop.warehouses, shop.distance, req.items);
      if candidate.Err? {
        return Err(Checkout.NotSelected(candidate.error));
      }
      Checkout.SelectedAreKnown(shop, req.items);
      var currencies := Checkout.Currencies(shop.products, req.items);
      if |currencies| > 1 {
        return Err(Checkout.MixedCurrencyBasket(currencies));
      }
      r := CreateAt(req, shop, candidate.value.id, now);
    }
  }
}
