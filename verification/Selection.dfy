/**
 Warehouse selection: a join, a GROUP BY with a HAVING count and an ORDER BY ... LIMIT 1, against
 what they stand for, and against what the reservation will accept afterwards.
 */
module Selection {
  import opened Common
  import opened Ledger

  /** `code` is the code's rank in collation order; it is unique. */
  datatype Warehouse = Warehouse(id: int, code: int, active: bool)

  predicate UniqueCodes(ws: seq<Warehouse>) {
    forall i, j :: 0 <= i < j < |ws| ==> ws[i].code != ws[j].code
  }

  function Free(s: Stock): int { s.onHand - s.reserved }

  // ---------------------------------------------------------------- the query, clause by clause

  function Requested(items: seq<RequestedItem>): set<int> {
    set item | item in items :: item.product
  }

  /** inventory JOIN requested ON product_id WHERE on_hand - reserved >= qty. */
  function Joined(inv: Inventory, items: seq<RequestedItem>): set<(Sku, RequestedItem)> {
    set k, item | k in inv && item in items && k.product == item.product && Free(inv[k]) >= item.quantity :: (k, item)
  }

  /** The distinct products of one GROUP BY warehouse_id group. */
  function GroupProducts(inv: Inventory, items: seq<RequestedItem>, warehouse: int): set<int> {
    set row | row in Joined(inv, items) && row.0.warehouse == warehouse :: row.0.product
  }

  /** The group exists and its HAVING count equals the number of distinct requested products. */
  predicate Eligible(inv: Inventory, items: seq<RequestedItem>, warehouse: int) {
    GroupProducts(inv, items, warehouse) != {} && |GroupProducts(inv, items, warehouse)| == |Requested(items)|
  }

  /** ORDER BY distance, code. */
  predicate Nearer(distance: int -> real, a: Warehouse, b: Warehouse) {
    distance(a.id) < distance(b.id) || (distance(a.id) == distance(b.id) && a.code < b.code)
  }

  function First(inv: Inventory, ws: seq<Warehouse>, distance: int -> real, items: seq<RequestedItem>)
    : Option<Warehouse>
  {
    if ws == [] then None
    else
      var n := |ws| - 1;
      var best := First(inv, ws[..n], distance, items);
      if ws[n].active && Eligible(inv, items, ws[n].id) && (best.None? || Nearer(distance, ws[n], best.value))
      then Some(ws[n]) else best
  }

  function SelectBest(inv: Inventory, ws: seq<Warehouse>, distance: int -> real, items: seq<RequestedItem>)
    : Option<Warehouse>
  {
    if items == [] then None else First(inv, ws, distance, items)
  }

  // ---------------------------------------------------------------- what the query means

  lemma {:induction false} SubsetOfSameSize(a: set<int>, b: set<int>)
    requires a <= b && |a| == |b|
    ensures a == b
  {
    assert b == a + (b - a);
    assert |b - a| == 0;
  }

  lemma {:induction false} SubsetSize(a: set<int>, b: set<int>)
    requires a <= b
    ensures |a| <= |b|
  {
    assert b == a + (b - a);
  }

  /** For any basket the count admits a warehouse exactly when, for every requested product, some
      line asking for that product fits there. */
  lemma {:induction false} EligibleIffSomeLineFits(inv: Inventory, items: seq<RequestedItem>, warehouse: int)
    requires items != []
    ensures Eligible(inv, items, warehouse) <==>
            forall p :: p in Requested(items) ==>
                  exists item :: item in items && item.product == p && Available(inv, warehouse, item)
  {
    var group, asked := GroupProducts(inv, items, warehouse), Requested(items);
    assert items[0].product in asked;
    forall p
      ensures p in group <==> exists item :: item in items && item.product == p && Available(inv, warehouse, item)
    {
      if item :| item in items && item.product == p && Available(inv, warehouse, item) {
        assert (Sku(warehouse, p), item) in Joined(inv, items);
      }
    }
    assert group <= asked;
    if Eligible(inv, items, warehouse) {
      SubsetOfSameSize(group, asked);
    }
    if forall p :: p in asked ==> exists item :: item in items && item.product == p && Available(inv, warehouse, item) {
      assert asked <= group;
      assert group == asked;
    }
  }

  /** For distinct products the count is "every item fits here". */
  lemma {:induction false} EligibleIffAllAvailable(inv: Inventory, items: seq<RequestedItem>, warehouse: int)
    requires items != [] && DistinctProducts(items)
    ensures Eligible(inv, items, warehouse) <==> AllAvailable(inv, warehouse, items)
  {
    EligibleIffSomeLineFits(inv, items, warehouse);
    if Eligible(inv, items, warehouse) {
      forall i | 0 <= i < |items| ensures Available(inv, warehouse, items[i]) {
        assert items[i].product in Requested(items);
        var item :| item in items && item.product == items[i].product && Available(inv, warehouse, item);
        var j :| 0 <= j < |items| && items[j] == item;
      }
    }
    if AllAvailable(inv, warehouse, items) {
      forall p | p in Requested(items)
        ensures exists item :: item in items && item.product == p && Available(inv, warehouse, item)
      {
        var item :| item in items && item.product == p;
        var j :| 0 <= j < |items| && items[j] == item;
      }
    }
  }

  /** Distinctness is needed: two lines for one product, of which only the smaller fits, are
      admitted by the count and refused by the reservation. */
  lemma {:induction false} DuplicateLinesPassTheCount()
    ensures var inv: Inventory := map[Sku(1, 7) := Stock(3, 0)];
            var items: seq<RequestedItem> := [Item(7, 1), Item(7, 5)];
            Eligible(inv, items, 1) && !AllAvailable(inv, 1, items)
  {
    var inv: Inventory := map[Sku(1, 7) := Stock(3, 0)];
    var items: seq<RequestedItem> := [Item(7, 1), Item(7, 5)];
    assert Available(inv, 1, items[0]) && !Available(inv, 1, items[1]);
    EligibleIffSomeLineFits(inv, items, 1);
    assert forall p :: p in Requested(items) ==> p == items[0].product;
  }

  predicate Supplies(inv: Inventory, w: Warehouse, items: seq<RequestedItem>) {
    w.active && AllAvailable(inv, w.id, items)
  }

  /** `a` comes before `b` in the answer, or is as good: nearer, or as near with no greater code. */
  predicate NoFarther(distance: int -> real, a: Warehouse, b: Warehouse) {
    distance(a.id) <= distance(b.id) && (distance(a.id) == distance(b.id) ==> a.code <= b.code)
  }

  /** The selected warehouse is active and has every item, and is the least by distance, then code, of
      those that are and do; there is none selected exactly when there is none. */
  lemma {:induction false} SelectBestIsNearestSupplier(inv: Inventory, ws: seq<Warehouse>, distance: int -> real,
          items: seq<RequestedItem>)
    requires items != [] && DistinctProducts(items) && UniqueCodes(ws)
    ensures var best := SelectBest(inv, ws, distance, items);
            && (best.None? <==> forall i :: 0 <= i < |ws| ==> !Supplies(inv, ws[i], items))
            && (best.Some? ==> best.value in ws && Supplies(inv, best.value, items))
            && (best.Some? ==> forall i :: 0 <= i < |ws| && Supplies(inv, ws[i], items) ==>
                  NoFarther(distance, best.value, ws[i]))
  {
    if ws != [] {
      var n := |ws| - 1;
      SelectBestIsNearestSupplier(inv, ws[..n], distance, items);
      EligibleIffAllAvailable(inv, items, ws[n].id);
      var before := First(inv, ws[..n], distance, items);
      if before.Some? {
        var j :| 0 <= j < n && ws[j] == before.value;
        assert ws[n].code != before.value.code;
      }
      forall i | 0 <= i < n ensures ws[i] == ws[..n][i] {}
    }
  }

  // ---------------------------------------------------------------- agreement with the reservation

  /** On the inventory it looked at, selection promises what the reservation then accepts; it finds
      nothing exactly when every active warehouse would answer InsufficientStock. */
  lemma {:induction false} SelectionAgreesWithReservation(books: Books, ws: seq<Warehouse>, distance: int -> real,
          items: seq<RequestedItem>, order: nat, expiresAt: int)
    requires items != [] && DistinctProducts(items) && UniqueCodes(ws)
    requires FreshOrder(books.holds, order) && UniqueHolds(books.holds)
    ensures var best := SelectBest(books.inventory, ws, distance, items);
            && (best.Some? ==> Reserve(books, order, best.value.id, items, expiresAt).Ok?)
            && (best.None? <==> forall i :: 0 <= i < |ws| && ws[i].active ==>
                 RefusedForStock(books, order, ws[i].id, items, expiresAt))
  {
    SelectBestIsNearestSupplier(books.inventory, ws, distance, items);
    var best := SelectBest(books.inventory, ws, distance, items);
    if best.Some? {
      ReserveSucceedsIff(books, order, best.value.id, items, expiresAt);
    }
    forall i | 0 <= i < |ws|
      ensures AllAvailable(books.inventory, ws[i].id, items) <==>
            !RefusedForStock(books, order, ws[i].id, items, expiresAt)
    {
      ReserveSucceedsIff(books, order, ws[i].id, items, expiresAt);
      if Reserve(books, order, ws[i].id, items, expiresAt).Err? {
        var short := ReserveFailure(books, order, ws[i].id, items, expiresAt);
      }
    }
  }

  predicate RefusedForStock(books: Books, order: nat, warehouse: int, items: seq<RequestedItem>, expiresAt: int) {
    var r := Reserve(books, order, warehouse, items, expiresAt);
    r.Err? && r.error.InsufficientStock?
  }

  // ---------------------------------------------------------------- the service

  datatype SelectError = UnknownProduct(missing: set<int>) | NoEligibleWarehouse(requested: nat, stockedAnywhere: nat)

  /** The requested products some inventory row, anywhere, still has a unit of. */
  function StockedAnywhere(inv: Inventory, products: set<int>): set<int> {
    set k | k in inv && k.product in products && Free(inv[k]) > 0 :: k.product
  }

  function Select(known: set<int>, inv: Inventory, ws: seq<Warehouse>, distance: int -> real,
          items: seq<RequestedItem>): Result<Warehouse, SelectError>
  {
    if items == [] then Err(NoEligibleWarehouse(0, 0))
    else
      var asked := Requested(items);
      if asked - known != {} then Err(UnknownProduct(asked - known))
      else
        match SelectBest(inv, ws, distance, items)
        case None => Err(NoEligibleWarehouse(|asked|, |StockedAnywhere(inv, asked)|))
        case Some(w) => Ok(w)
  }

  /** Which products are missing from the shelves decides how the two counts of a refusal compare. */
  lemma {:induction false} CountsTellWhy(inv: Inventory, items: seq<RequestedItem>)
    ensures var asked, stocked := Requested(items), StockedAnywhere(inv, Requested(items));
            && |stocked| <= |asked|
            && (|stocked| < |asked| <==>
                  exists p :: p in asked && forall k :: k in inv && k.product == p ==> Free(inv[k]) <= 0)
  {
    var asked, stocked := Requested(items), StockedAnywhere(inv, Requested(items));
    assert stocked <= asked;
    SubsetSize(stocked, asked);
    forall p | p in asked ensures p !in stocked <==> forall k :: k in inv && k.product == p ==> Free(inv[k]) <= 0 {
      if k :| k in inv && k.product == p && Free(inv[k]) > 0 {
        assert k.product in stocked;
      }
    }
    if |stocked| == |asked| {
      SubsetOfSameSize(stocked, asked);
    } else {
      assert stocked != asked;
      var p :| p in asked && p !in stocked;
    }
  }

  /** How to read the answer. An empty basket finds no warehouse. Otherwise unknown products are
      reported first, all of them and nothing else. For known and distinct products a refusal means
      that no active warehouse supplies the basket, and its second number falls short of the first
      exactly when some product is out of stock everywhere. */
  lemma {:induction false} RefusalTellsWhy(known: set<int>, inv: Inventory, ws: seq<Warehouse>, distance: int -> real,
          items: seq<RequestedItem>)
    requires DistinctProducts(items) && UniqueCodes(ws)
    ensures var r := Select(known, inv, ws, distance, items);
            && (items == [] ==> r == Err(NoEligibleWarehouse(0, 0)))
            && (items != [] ==> (r.Err? && r.error.UnknownProduct? <==> !(Requested(items) <= known)))
            && (r.Err? && r.error.UnknownProduct? ==>
                  forall p :: p in r.error.missing <==> p in Requested(items) && p !in known)
            && (items != [] && Requested(items) <= known ==>
                  (r.Err? <==> forall i :: 0 <= i < |ws| ==> !Supplies(inv, ws[i], items)))
            && (items != [] && r.Err? && r.error.NoEligibleWarehouse? ==>
                  && r.error.requested == |items| && r.error.stockedAnywhere <= r.error.requested
                  && (r.error.stockedAnywhere < r.error.requested <==>
                        exists p :: p in Requested(items) && forall k :: k in inv && k.product == p ==>
                              Free(inv[k]) <= 0))
  {
    if items != [] {
      SelectBestIsNearestSupplier(inv, ws, distance, items);
      MissingIff(Requested(items), known);
      CountsTellWhy(inv, items);
      RequestedSize(items);
    }
  }

  lemma {:induction false} MissingIff(asked: set<int>, known: set<int>)
    ensures asked - known == {} <==> asked <= known
  {
    if asked - known == {} {
      forall p | p in asked ensures p in known {
        assert p !in asked - known;
      }
    }
  }

  lemma {:induction false} RequestedSize(items: seq<RequestedItem>)
    requires DistinctProducts(items)
    ensures |Requested(items)| == |items|
  {
    if items == [] {
      assert Requested(items) == {};
    } else {
      var n := |items| - 1;
      RequestedSize(items[..n]);
      assert items[n].product !in Requested(items[..n]);
      assert Requested(items) == Requested(items[..n]) + {items[n].product};
    }
  }
}
