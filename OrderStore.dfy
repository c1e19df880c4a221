/**
 The order service over its document store. The store is an object holding the
 Order documents in the order they were first saved, an order's identifier being
 its position (no operation ever deletes an order), and a clock that advances on
 every write and stamps `createdAt` and `updatedAt`. The three request
 handlers are methods on it: checkout (the only one that writes), listing, and
 lookup by identifier. The payment decision and store failures are parameters.
 */
module OrderService {
  import opened Orders

  /** Which write of a checkout, if any, the store fails. */
  datatype StoreFault = NoFault | InsertFails | UpdateFails

  class OrderStore {
    var orders: seq<Order>
    var clock: nat

    /** A stored document: filed under its own identifier and stamped in the past. */
    ghost predicate Stored(id: OrderId, o: Order)
      reads this
    {
      && o.id == id
      && o.createdAt <= o.updatedAt < clock
    }

    /** The store's own invariant: identifiers are positions, creation times are distinct. */
    ghost predicate Valid()
      reads this
    {
      && (forall i :: 0 <= i < |orders| ==> Stored(i, orders[i]))
      && DistinctTimes(orders)
    }

    /**
     The service's invariant: every stored amount is the amount of the stored items,
     and every stored order passed the schema.
     */
    ghost predicate AmountsDerived()
      reads this
    {
      forall i :: 0 <= i < |orders| ==> orders[i].amount == Amount(orders[i].items) && SchemaAccepts(orders[i].email, orders[i].items)
    }

    constructor ()
      ensures Valid() && AmountsDerived()
      ensures orders == [] && clock == 0
    {
      orders := [];
      clock := 0;
    }

    /**
     The first save of a new document. A document the schema rejects is not written
     (`ok` is false); otherwise the store gives it the next identifier and stamps it.
     */
    method Insert(o: Order) returns (ok: bool, saved: Order)
      requires Valid()
      modifies this
      ensures Valid()
      ensures ok == SchemaAccepts(o.email, o.items)
      ensures !ok ==> orders == old(orders) && clock == old(clock)
      ensures ok ==> saved == o.(id := |old(orders)|, createdAt := old(clock), updatedAt := old(clock))
      ensures ok ==> orders == old(orders) + [saved] && clock == old(clock) + 1
    {
      saved := o;
      ok := SchemaAccepts(o.email, o.items);
      if !ok {
        return;
      }
      saved := o.(id := |orders|, createdAt := clock, updatedAt := clock);
      orders := orders + [saved];
      clock := clock + 1;
    }

    /**
     A later save of a stored document whose only changed field is `status`: the
     store writes that field and stamps `updatedAt`; the rest stays as stored.
     */
    method SaveStatus(o: Order) returns (saved: Order)
      requires Valid()
      requires o.id < |orders|
      modifies this
      ensures Valid()
      ensures saved == old(orders)[o.id].(status := o.status, updatedAt := old(clock))
      ensures orders == old(orders)[o.id := saved]
      ensures clock == old(clock) + 1
    {
      saved := orders[o.id].(status := o.status, updatedAt := clock);
      orders := orders[o.id := saved];
      clock := clock + 1;
    }

    /**
     The checkout handler. A request without an email or without cart items is
     refused and nothing is written. Otherwise the order is stored Pending with the
     submitted items and their amount, moved to Success or Failed by the payment
     outcome, and stored again. A failed write answers 500, and so does a cart with
     an unnamed line, which the schema rejects at the first save; when the second
     write fails the Pending order stays in the store.
     */
    method Checkout(email: Option<string>, cartItems: Option<seq<Item>>, paymentSuccess: bool, fault: StoreFault)
      returns (resp: Response)
      requires Valid()
      modifies this
      ensures Valid()
      ensures old(AmountsDerived()) ==> AmountsDerived()
      ensures Validate(email, cartItems).None? ==>
        && resp == Response(400, ErrorBody(MissingFields))
        && orders == old(orders) && clock == old(clock)
      ensures Validate(email, cartItems).Some?
              && (fault == InsertFails || !SchemaAccepts(email.value, cartItems.value)) ==>
        && resp == Response(500, ErrorBody(InternalError))
        && orders == old(orders) && clock == old(clock)
      ensures Validate(email, cartItems).Some? && fault == UpdateFails
              && SchemaAccepts(email.value, cartItems.value) ==>
        && resp == Response(500, ErrorBody(InternalError))
        && orders == old(orders) +
             [Order(|old(orders)|, email.value, cartItems.value, Amount(cartItems.value), Pending, old(clock), old(clock))]
        && clock == old(clock) + 1
      ensures Validate(email, cartItems).Some? && fault == NoFault
              && SchemaAccepts(email.value, cartItems.value) ==>
        var placed := Order(|old(orders)|, email.value, cartItems.value, Amount(cartItems.value),
                            if paymentSuccess then Success else Failed, old(clock), old(clock) + 1);
        && resp == (if paymentSuccess then Response(200, PaymentBody(PaymentSuccessful, placed))
                    else Response(400, PaymentBody(PaymentFailed, placed)))
        && orders == old(orders) + [placed]
        && clock == old(clock) + 2
    {
      var checked := Validate(email, cartItems);
      if checked.None? {
        return Response(400, ErrorBody(MissingFields));
      }
      var items := checked.value.1;
      var amount := Amount(items);
      var order := Order(0, checked.value.0, items, amount, Pending, 0, 0);
      if fault == InsertFails {
        return Response(500, ErrorBody(InternalError));
      }
      var ok;
      ok, order := Insert(order);
      if !ok {
        return Response(500, ErrorBody(InternalError));
      }
      if paymentSuccess {
        order := order.(status := Success);
      } else {
        order := order.(status := Failed);
      }
      if fault == UpdateFails {
        return Response(500, ErrorBody(InternalError));
      }
      order := SaveStatus(order);
      if paymentSuccess {
        resp := Response(200, PaymentBody(PaymentSuccessful, order));
      } else {
        resp := Response(400, PaymentBody(PaymentFailed, order));
      }
    }

    /**
     The listing handler: the stored orders, each exactly once, newest first by
     `createdAt`; a store failure answers 500.
     */
    method ListOrders(storeFails: bool) returns (resp: Response)
      requires Valid()
      ensures storeFails ==> resp == Response(500, ErrorBody(InternalError))
      ensures !storeFails ==>
        && resp.code == 200 && resp.body.OrderListBody?
        && multiset(resp.body.orders) == multiset(orders)
        && StrictlyNewestFirst(resp.body.orders)
    {
      if storeFails {
        return Response(500, ErrorBody(InternalError));
      }
      var sorted := SortNewestFirst(orders);
      resp := Response(200, OrderListBody(sorted));
    }

    /**
     The lookup handler: 200 with the stored order when the identifier is known,
     404 when it is not; a store failure (a malformed identifier included) answers 500.
     */
    method GetOrder(id: OrderId, storeFails: bool) returns (resp: Response)
      requires Valid()
      ensures storeFails ==> resp == Response(500, ErrorBody(InternalError))
      ensures !storeFails && resp.code == 200 ==> resp.body.OrderBody? && resp.body.order.id == id
      ensures !storeFails ==> (resp.code == 200 <==> id < |orders|) && (resp.code == 404 <==> id >= |orders|)
      ensures !storeFails && id < |orders| ==> resp.body == OrderBody(orders[id])
      ensures !storeFails && id >= |orders| ==> resp.body == ErrorBody(OrderNotFound)
    {
      if storeFails {
        return Response(500, ErrorBody(InternalError));
      }
      if id >= |orders| {
        return Response(404, ErrorBody(OrderNotFound));
      }
      resp := Response(200, OrderBody(orders[id]));
    }
  }

  /**
   The checkout of one Widget at 10 for 2 pieces on an empty store: whatever the
   payment outcome, the order is stored with amount 20 and a terminal status, and
   looking it up returns exactly that order. Afterwards a request with an empty email
   and an empty cart is refused, a cart whose line has no name fails at the first
   save, and the listing holds that one order alone.
   */
  method WidgetCheckout(paymentSuccess: bool)
    returns (placed: Response, fetched: Response, refused: Response, unnamed: Response, listed: Response)
    ensures placed.code == (if paymentSuccess then 200 else 400)
    ensures placed.body.PaymentBody? && placed.body.order.amount == 20
    ensures placed.body.order.status == (if paymentSuccess then Success else Failed)
    ensures fetched == Response(200, OrderBody(placed.body.order))
    ensures refused == Response(400, ErrorBody(MissingFields))
    ensures unnamed == Response(500, ErrorBody(InternalError))
    ensures listed == Response(200, OrderListBody([placed.body.order]))
  {
    var store := new OrderStore();
    var cart := [Item("Widget", 10, 2)];
    AmountOfOneLine(cart[0]);
    placed := store.Checkout(Some("a@b.com"), Some(cart), paymentSuccess, NoFault);
    fetched := store.GetOrder(placed.body.order.id, false);
    refused := store.Checkout(Some(""), Some([]), paymentSuccess, NoFault);
    unnamed := store.Checkout(Some("a@b.com"), Some([Item("", 10, 2)]), paymentSuccess, NoFault);
    listed := store.ListOrders(false);
    NewestFirstUnique(store.orders, listed.body.orders);
  }
}
