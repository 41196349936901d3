/** Orders: snapshots of a cart with a status, the queries the handlers run
    over the order table, and the `total +=` accumulation of an order's price. */
module Orders {
  import opened Wrappers
  import opened Catalog
  import opened Cart

  type UserId = nat

  /** `pending` on creation; `canceled` and `paid` are set by the handlers. */
  datatype Status = Pending | Canceled | Paid

  /** One line of an order: a full copy of the product at ordering time and a quantity. */
  datatype OrderLine = OrderLine(product: Product, quantity: nat)

  /** An order document: the owner's id and e-mail, the product lines, the status. */
  datatype Order = Order(userId: UserId, email: string, lines: seq<OrderLine>, status: Status)

  predicate IsPendingOf(order: Order, user: UserId) {
    order.userId == user && order.status == Pending
  }

  /** The mapping of `postOrder` over the populated cart: each line's product
      is looked up in the catalogue and copied; a line whose product is gone
      populates to `null`, and reading its document fails the whole request. */
  function Snapshot(cart: seq<CartItem>, products: seq<Product>): (r: Option<seq<OrderLine>>)
    ensures r.Some? <==> forall k :: 0 <= k < |cart| ==> FindById(products, cart[k].productId).Some?
    ensures r.Some? ==> |r.value| == |cart|
    ensures r.Some? ==> forall k :: 0 <= k < |cart| ==>
      && r.value[k].product in products
      && r.value[k].product.id == cart[k].productId
      && r.value[k].quantity == cart[k].quantity
  {
    if cart == [] then Some([])
    else
      assert forall k :: 0 < k < |cart| ==> cart[k] == cart[1..][k - 1];
      match FindById(products, cart[0].productId)
      case None => None
      case Some(p) =>
        match Snapshot(cart[1..], products)
        case None => None
        case Some(rest) => Some([OrderLine(p, cart[0].quantity)] + rest)
  }

  /** Sum of `quantity * price` over the lines, in cents. */
  function LinesTotal(lines: seq<OrderLine>): int {
    if lines == [] then 0
    else LinesTotal(lines[..|lines| - 1]) + lines[|lines| - 1].quantity * lines[|lines| - 1].product.price
  }

  /** The total of two parts of an order is the sum of their totals. */
  lemma {:induction false} LinesTotalAppend(a: seq<OrderLine>, b: seq<OrderLine>)
    ensures LinesTotal(a + b) == LinesTotal(a) + LinesTotal(b)
  {
    if b == [] {
      assert a + b == a;
    } else {
      assert (a + b)[..|a + b| - 1] == a + b[..|b| - 1];
      LinesTotalAppend(a, b[..|b| - 1]);
    }
  }

  /** With non-negative prices the total is non-negative. */
  lemma {:induction false} LinesTotalNonNegative(lines: seq<OrderLine>)
    requires forall k :: 0 <= k < |lines| ==> lines[k].product.price >= 0
    ensures LinesTotal(lines) >= 0
  {
    if lines != [] {
      LinesTotalNonNegative(lines[..|lines| - 1]);
    }
  }

  /** The accumulator loop `total += p.quantity * p.product.price`. */
  method Total(lines: seq<OrderLine>) returns (total: int)
    ensures total == LinesTotal(lines)
  {
    total := 0;
    for i := 0 to |lines|
      invariant total == LinesTotal(lines[..i])
    {
      assert lines[..i + 1][..i] == lines[..i];
      total := total + lines[i].quantity * lines[i].product.price;
    }
    assert lines[..|lines|] == lines;
  }

  /** `Order.findOne({'user.userId': user})`: the user's first order in table
      order, whatever its status. */
  function FirstOrderOf(orders: seq<Order>, user: UserId, from: nat := 0): (r: Option<nat>)
    requires from <= |orders|
    ensures r.None? <==> forall k :: from <= k < |orders| ==> orders[k].userId != user
    ensures r.Some? ==> from <= r.value < |orders| && orders[r.value].userId == user
    ensures r.Some? ==> forall k :: from <= k < r.value ==> orders[k].userId != user
    decreases |orders| - from
  {
    if from == |orders| then None
    else if orders[from].userId == user then Some(from)
    else FirstOrderOf(orders, user, from + 1)
  }

  /** `Order.findOne({'user.userId': user, status: 'pending'})`: the user's first pending order. */
  function FirstPendingOf(orders: seq<Order>, user: UserId, from: nat := 0): (r: Option<nat>)
    requires from <= |orders|
    ensures r.None? <==> forall k :: from <= k < |orders| ==> !IsPendingOf(orders[k], user)
    ensures r.Some? ==> from <= r.value < |orders| && IsPendingOf(orders[r.value], user)
    ensures r.Some? ==> forall k :: from <= k < r.value ==> !IsPendingOf(orders[k], user)
    decreases |orders| - from
  {
    if from == |orders| then None
    else if IsPendingOf(orders[from], user) then Some(from)
    else FirstPendingOf(orders, user, from + 1)
  }

  /** The checkout payment picks the user's first order with no status filter:
      with an older paid order in the table it is that one, not the pending order. */
  lemma FirstOrderIgnoresStatus(paid: Order, pending: Order)
    requires paid.userId == pending.userId && paid.status == Paid && pending.status == Pending
    ensures FirstOrderOf([paid, pending], paid.userId) == Some(0)
    ensures FirstPendingOf([paid, pending], paid.userId) == Some(1)
  {
    assert FirstPendingOf([paid, pending], paid.userId, 1) == Some(1);
  }

  /** `Order.find({'user.userId': user, status: 'paid'})`: the ids of every
      paid order of the user, in table order. */
  function PaidOrdersOf(orders: seq<Order>, user: UserId, from: nat := 0): (r: seq<nat>)
    requires from <= |orders|
    ensures forall k :: k in r <==> from <= k < |orders| && orders[k].userId == user && orders[k].status == Paid
    ensures forall j :: 0 <= j < |r| ==> from <= r[j] < |orders|
    ensures forall i, j :: 0 <= i < j < |r| ==> r[i] < r[j]
    decreases |orders| - from
  {
    if from == |orders| then []
    else
      var rest := PaidOrdersOf(orders, user, from + 1);
      if orders[from].userId == user && orders[from].status == Paid then [from] + rest else rest
  }
}
