/**
 The values of the order service: the Order record as the document store keeps it,
 the HTTP responses of the three handlers, the checkout amount, the input check of
 the checkout handler, and the newest-first ordering of the order listing.
 */
module Orders {

  datatype Option<+T> = None | Some(value: T)

  /** The payment state of an order; every order is created Pending. */
  datatype Status = Pending | Success | Failed

  /**
   One cart line as the client submits it. The handler checks no field; the
   schema requires a non-empty name when the order is saved.
   */
  datatype Item = Item(name: string, price: int, quantity: int)

  /** The store assigns identifiers; they are opaque to the handlers. */
  type OrderId = nat

  /**
   The Order document. `createdAt` and `updatedAt` are the store's timestamps,
   here ticks of a clock that advances on every write.
   */
  datatype Order = Order(
    id: OrderId,
    email: string,
    items: seq<Item>,
    amount: int,
    status: Status,
    createdAt: nat,
    updatedAt: nat)

  /** The JSON bodies the handlers send. */
  datatype Body =
    | ErrorBody(error: string)
    | PaymentBody(message: string, order: Order)
    | OrderBody(order: Order)
    | OrderListBody(orders: seq<Order>)

  datatype Response = Response(code: int, body: Body)

  const MissingFields := "Email and cart items are required"
  const PaymentSuccessful := "Payment successful"
  const PaymentFailed := "Payment failed"
  const OrderNotFound := "Order not found"
  const InternalError := "Internal server error"

  /**
   The schema's `required` checks, applied when a document is saved: a required
   String field is rejected when empty. Price and quantity are required Numbers,
   which every typed line has, whatever its sign.
   */
  predicate SchemaAccepts(email: string, items: seq<Item>) {
    && email != []
    && forall i :: 0 <= i < |items| ==> items[i].name != []
  }

  // ---------------------------------------------------------------------------
  // The amount of an order

  function LineTotal(item: Item): int {
    item.price * item.quantity
  }

  /** The reducer of the checkout handler: a left fold that adds each line to `total`. */
  function Reduce(total: int, items: seq<Item>): int
    decreases |items|
  {
    if items == [] then total else Reduce(total + LineTotal(items[0]), items[1..])
  }

  /** The amount the checkout handler computes: the fold started at 0. */
  function Amount(items: seq<Item>): int {
    Reduce(0, items)
  }

  /** Reference definition: the sum of the line totals. */
  function Sum(items: seq<Item>): int {
    if items == [] then 0 else LineTotal(items[0]) + Sum(items[1..])
  }

  /** The fold from any starting total adds exactly the sum of the lines to it. */
  lemma {:induction false} ReduceIsSum(total: int, items: seq<Item>)
    ensures Reduce(total, items) == total + Sum(items)
    decreases |items|
  {
    if items != [] {
      ReduceIsSum(total + LineTotal(items[0]), items[1..]);
    }
  }

  lemma {:induction false} SumAppend(xs: seq<Item>, ys: seq<Item>)
    ensures Sum(xs + ys) == Sum(xs) + Sum(ys)
  {
    if xs == [] {
      assert xs + ys == ys;
    } else {
      assert (xs + ys)[1..] == xs[1..] + ys;
      SumAppend(xs[1..], ys);
    }
  }

  /** The amount is additive over a split of the cart. */
  lemma AmountAppend(xs: seq<Item>, ys: seq<Item>)
    ensures Amount(xs + ys) == Amount(xs) + Amount(ys)
  {
    ReduceIsSum(0, xs + ys);
    ReduceIsSum(0, xs);
    ReduceIsSum(0, ys);
    SumAppend(xs, ys);
  }

  /** A cart of one line costs that line's price times its quantity. */
  lemma AmountOfOneLine(item: Item)
    ensures Amount([item]) == item.price * item.quantity
  {
    ReduceIsSum(0, [item]);
  }

  lemma {:induction false} SumNonNegative(items: seq<Item>)
    requires forall i :: 0 <= i < |items| ==> items[i].price >= 0 && items[i].quantity >= 0
    ensures Sum(items) >= 0
  {
    if items != [] {
      SumNonNegative(items[1..]);
    }
  }

  /**
   The amount is non-negative when every price and quantity is; the handler
   itself does not reject negative ones, so nothing else bounds it.
   */
  lemma AmountNonNegative(items: seq<Item>)
    requires forall i :: 0 <= i < |items| ==> items[i].price >= 0 && items[i].quantity >= 0
    ensures Amount(items) >= 0
  {
    ReduceIsSum(0, items);
    SumNonNegative(items);
  }

  // ---------------------------------------------------------------------------
  // The input check of the checkout handler

  /**
   The checkout request passes when an email is present and non-empty and a cart is
   present and non-empty; it then yields that email and cart, unchanged.
   */
  function Validate(email: Option<string>, cartItems: Option<seq<Item>>): (r: Option<(string, seq<Item>)>)
    ensures r.Some? <==> email.Some? && email.value != [] && cartItems.Some? && cartItems.value != []
    ensures r.Some? ==> r.value.0 == email.value && r.value.1 == cartItems.value
  {
    if email.None? || |email.value| == 0 || cartItems.None? || |cartItems.value| == 0 then None
    else Some((email.value, cartItems.value))
  }

  // ---------------------------------------------------------------------------
  // Newest first: the order of the listing

  ghost predicate NewestFirst(s: seq<Order>) {
    forall i, j :: 0 <= i < j < |s| ==> s[i].createdAt >= s[j].createdAt
  }

  ghost predicate StrictlyNewestFirst(s: seq<Order>) {
    forall i, j :: 0 <= i < j < |s| ==> s[i].createdAt > s[j].createdAt
  }

  /** No two orders of `s` were created at the same tick. */
  ghost predicate DistinctTimes(s: seq<Order>) {
    forall i, j :: 0 <= i < |s| && 0 <= j < |s| && i != j ==> s[i].createdAt != s[j].createdAt
  }

  /**
   Puts `o` into a newest-first sequence after every strictly newer order.
   If `o` was created at a tick no order of `sorted` has, the result stays strict.
   */
  method InsertNewestFirst(sorted: seq<Order>, o: Order) returns (r: seq<Order>)
    requires NewestFirst(sorted)
    ensures NewestFirst(r)
    ensures multiset(r) == multiset(sorted) + multiset{o}
    ensures StrictlyNewestFirst(sorted) && (forall k :: 0 <= k < |sorted| ==> sorted[k].createdAt != o.createdAt)
            ==> StrictlyNewestFirst(r)
  {
    var i := 0;
    while i < |sorted| && sorted[i].createdAt > o.createdAt
      invariant 0 <= i <= |sorted|
      invariant forall k :: 0 <= k < i ==> sorted[k].createdAt > o.createdAt
    {
      i := i + 1;
    }
    r := sorted[..i] + [o] + sorted[i..];
    SpliceNewestFirst(sorted, i, o);
    assert sorted == sorted[..i] + sorted[i..];
  }

  /** Splicing `o` in at the boundary between newer and older orders keeps the order. */
  lemma SpliceNewestFirst(sorted: seq<Order>, i: nat, o: Order)
    requires i <= |sorted| && NewestFirst(sorted)
    requires forall k :: 0 <= k < i ==> sorted[k].createdAt > o.createdAt
    requires i < |sorted| ==> sorted[i].createdAt <= o.createdAt
    ensures NewestFirst(sorted[..i] + [o] + sorted[i..])
    ensures StrictlyNewestFirst(sorted) && (forall k :: 0 <= k < |sorted| ==> sorted[k].createdAt != o.createdAt)
            ==> StrictlyNewestFirst(sorted[..i] + [o] + sorted[i..])
  {
  }

  /**
   Sorts orders by `createdAt`, newest first, as the listing query asks the store to.
   Orders created at distinct ticks come out strictly newest first.
   */
  method SortNewestFirst(orders: seq<Order>) returns (r: seq<Order>)
    ensures NewestFirst(r)
    ensures multiset(r) == multiset(orders)
    ensures DistinctTimes(orders) ==> StrictlyNewestFirst(r)
  {
    r := [];
    var n := 0;
    while n < |orders|
      invariant 0 <= n <= |orders|
      invariant NewestFirst(r)
      invariant multiset(r) == multiset(orders[..n])
      invariant DistinctTimes(orders) ==> StrictlyNewestFirst(r)
    {
      if DistinctTimes(orders) {
        forall k | 0 <= k < |r|
          ensures r[k].createdAt != orders[n].createdAt
        {
          assert r[k] in multiset(orders[..n]);
          var m :| 0 <= m < n && orders[m] == r[k];
        }
      }
      r := InsertNewestFirst(r, orders[n]);
      assert orders[..n + 1] == orders[..n] + [orders[n]];
      n := n + 1;
    }
    assert orders[..n] == orders;
  }

  /**
   A strictly newest-first sequence is the only newest-first arrangement of its
   orders: the listing is determined by what the store holds.
   */
  lemma {:induction false} NewestFirstUnique(a: seq<Order>, b: seq<Order>)
    requires StrictlyNewestFirst(a) && NewestFirst(b)
    requires multiset(a) == multiset(b)
    ensures a == b
    decreases |a|
  {
    assert |a| == |multiset(a)| == |multiset(b)| == |b|;
    if a != [] {
      HeadsAgree(a, b);
      TailMultiset(a);
      TailMultiset(b);
      TailNewestFirst(a);
      TailNewestFirst(b);
      NewestFirstUnique(a[1..], b[1..]);
      assert a == [a[0]] + a[1..] && b == [b[0]] + b[1..];
    }
  }

  /** Both sequences start with the newest order, and in `a` only one order is newest. */
  lemma HeadsAgree(a: seq<Order>, b: seq<Order>)
    requires a != [] && b != []
    requires StrictlyNewestFirst(a) && NewestFirst(b)
    requires multiset(a) == multiset(b)
    ensures a[0] == b[0]
  {
    assert a[0] in multiset(b);
    var k :| 0 <= k < |b| && b[k] == a[0];
    assert b[0] in multiset(a);
    var m :| 0 <= m < |a| && a[m] == b[0];
    assert b[0].createdAt >= b[k].createdAt;
  }

  lemma TailNewestFirst(s: seq<Order>)
    requires s != []
    ensures NewestFirst(s) ==> NewestFirst(s[1..])
    ensures StrictlyNewestFirst(s) ==> StrictlyNewestFirst(s[1..])
  {
  }

  lemma TailMultiset(s: seq<Order>)
    requires s != []
    ensures multiset(s[1..]) == multiset(s) - multiset{s[0]}
  {
    assert s == [s[0]] + s[1..];
  }
}
