/** The reconciliation `getCart` runs before showing the cart: every pending
    order of the user goes back into the cart one unit at a time and is canceled.
    These functions state the outcome of that loop; the lemmas say what it means. */
module Reconcile {
  import opened Wrappers
  import opened Catalog
  import opened Cart
  import opened Orders

  /** `n` calls of `addToCart` for one product. */
  function AddUnits(cart: seq<CartItem>, pid: ProductId, n: nat): (r: seq<CartItem>)
    ensures WellFormed(cart) ==> WellFormed(r)
    decreases n
  {
    if n == 0 then cart else AddToCart(AddUnits(cart, pid, n - 1), pid)
  }

  /** Every unit of every line, in line order. */
  function AddLines(cart: seq<CartItem>, lines: seq<OrderLine>): (r: seq<CartItem>)
    ensures WellFormed(cart) ==> WellFormed(r)
  {
    if lines == [] then cart
    else
      var last := lines[|lines| - 1];
      AddUnits(AddLines(cart, lines[..|lines| - 1]), last.product.id, last.quantity)
  }

  /** The cart after restoring, in table order, every pending order of the user. */
  function RestorePending(cart: seq<CartItem>, orders: seq<Order>, user: UserId): (r: seq<CartItem>)
    ensures WellFormed(cart) ==> WellFormed(r)
  {
    if orders == [] then cart
    else
      var before := RestorePending(cart, orders[..|orders| - 1], user);
      var last := orders[|orders| - 1];
      if IsPendingOf(last, user) then AddLines(before, last.lines) else before
  }

  /** `order.status = 'canceled'` when the order is a pending order of the user. */
  function CancelOne(order: Order, user: UserId): Order {
    if IsPendingOf(order, user) then order.(status := Canceled) else order
  }

  /** The order table after canceling every pending order of the user. */
  function CancelPending(orders: seq<Order>, user: UserId): (r: seq<Order>)
    ensures |r| == |orders|
    ensures forall k :: 0 <= k < |orders| && IsPendingOf(orders[k], user) ==>
      r[k] == orders[k].(status := Canceled)
    ensures forall k :: 0 <= k < |orders| && !IsPendingOf(orders[k], user) ==> r[k] == orders[k]
  {
    if orders == [] then []
    else CancelPending(orders[..|orders| - 1], user) + [CancelOne(orders[|orders| - 1], user)]
  }

  /** Units of a product over some order lines. */
  function LinesQuantity(lines: seq<OrderLine>, pid: ProductId): nat {
    if lines == [] then 0
    else
      var last := lines[|lines| - 1];
      LinesQuantity(lines[..|lines| - 1], pid) + (if last.product.id == pid then last.quantity else 0)
  }

  /** Units of a product over the user's pending orders. */
  function PendingQuantity(orders: seq<Order>, user: UserId, pid: ProductId): nat {
    if orders == [] then 0
    else
      var last := orders[|orders| - 1];
      PendingQuantity(orders[..|orders| - 1], user, pid)
        + (if IsPendingOf(last, user) then LinesQuantity(last.lines, pid) else 0)
  }

  lemma {:induction false} AddUnitsQuantity(cart: seq<CartItem>, pid: ProductId, n: nat, q: ProductId)
    ensures QuantityOf(AddUnits(cart, pid, n), q) == QuantityOf(cart, q) + (if q == pid then n else 0)
  {
    if n > 0 {
      AddUnitsQuantity(cart, pid, n - 1, q);
      AddToCartQuantity(AddUnits(cart, pid, n - 1), pid, q);
    }
  }

  lemma {:induction false} AddLinesQuantity(cart: seq<CartItem>, lines: seq<OrderLine>, q: ProductId)
    ensures QuantityOf(AddLines(cart, lines), q) == QuantityOf(cart, q) + LinesQuantity(lines, q)
  {
    if lines != [] {
      var last := lines[|lines| - 1];
      AddLinesQuantity(cart, lines[..|lines| - 1], q);
      AddUnitsQuantity(AddLines(cart, lines[..|lines| - 1]), last.product.id, last.quantity, q);
    }
  }

  /** After reconciliation each product's quantity has grown by exactly its
      units in the user's pending orders. */
  lemma {:induction false} RestoreQuantity(cart: seq<CartItem>, orders: seq<Order>, user: UserId, q: ProductId)
    ensures QuantityOf(RestorePending(cart, orders, user), q) == QuantityOf(cart, q) + PendingQuantity(orders, user, q)
  {
    if orders != [] {
      var last := orders[|orders| - 1];
      RestoreQuantity(cart, orders[..|orders| - 1], user, q);
      if IsPendingOf(last, user) {
        AddLinesQuantity(RestorePending(cart, orders[..|orders| - 1], user), last.lines, q);
      }
    }
  }

  /** After reconciliation the user has no pending order left. */
  lemma NoPendingAfterCancel(orders: seq<Order>, user: UserId)
    ensures forall k :: 0 <= k < |orders| ==> !IsPendingOf(CancelPending(orders, user)[k], user)
  {
  }

  /** Without pending orders of the user, reconciliation leaves the cart as it is. */
  lemma {:induction false} RestoreWithoutPending(cart: seq<CartItem>, orders: seq<Order>, user: UserId)
    requires forall k :: 0 <= k < |orders| ==> !IsPendingOf(orders[k], user)
    ensures RestorePending(cart, orders, user) == cart
  {
    if orders != [] {
      RestoreWithoutPending(cart, orders[..|orders| - 1], user);
    }
  }

  /** Viewing the cart a second time, with no new pending order, changes
      neither the cart nor any order. */
  lemma SecondViewChangesNothing(cart: seq<CartItem>, orders: seq<Order>, user: UserId)
    ensures var cart1, orders1 := RestorePending(cart, orders, user), CancelPending(orders, user);
      && RestorePending(cart1, orders1, user) == cart1
      && CancelPending(orders1, user) == orders1
  {
    var orders1 := CancelPending(orders, user);
    NoPendingAfterCancel(orders, user);
    RestoreWithoutPending(RestorePending(cart, orders, user), orders1, user);
  }

  /** Units added for a product not yet in the cart form one new line at the end. */
  lemma {:induction false} AddUnitsToNewLine(cart: seq<CartItem>, pid: ProductId, n: nat)
    requires !InCart(cart, pid) && n > 0
    ensures AddUnits(cart, pid, n) == cart + [CartItem(pid, n)]
  {
    if n > 1 {
      AddUnitsToNewLine(cart, pid, n - 1);
      var c := cart + [CartItem(pid, n - 1)];
      assert c[|cart|].productId == pid;
      var i := FindIndex(c, pid);
      assert forall k :: 0 <= k < |cart| ==> c[k] == cart[k];
      assert i == |cart|;
      assert c[i := CartItem(pid, n)] == cart + [CartItem(pid, n)];
    }
  }

  /** Restoring a snapshot of a cart into an empty cart rebuilds that cart exactly:
      the same lines, in the same order, with the same quantities. */
  lemma {:induction false} RestoreSnapshot(cart: seq<CartItem>, lines: seq<OrderLine>)
    requires WellFormed(cart)
    requires |lines| == |cart|
    requires forall k :: 0 <= k < |cart| ==>
      lines[k].product.id == cart[k].productId && lines[k].quantity == cart[k].quantity
    ensures AddLines([], lines) == cart
  {
    if cart != [] {
      var n := |cart| - 1;
      var prefix := cart[..n];
      assert WellFormed(prefix);
      RestoreSnapshot(prefix, lines[..n]);
      assert !InCart(prefix, cart[n].productId) by {
        forall k | 0 <= k < |prefix| ensures prefix[k].productId != cart[n].productId {
          assert prefix[k] == cart[k];
        }
      }
      AddUnitsToNewLine(prefix, cart[n].productId, cart[n].quantity);
      assert prefix + [CartItem(cart[n].productId, cart[n].quantity)] == cart;
    }
  }

  /** Ordering a cart and then viewing the cart, with no other pending order of
      the user, gives the user back the cart they ordered. */
  lemma OrderThenViewRestoresCart(cart: seq<CartItem>, products: seq<Product>, lines: seq<OrderLine>,
                                  orders: seq<Order>, user: UserId, email: string)
    requires WellFormed(cart)
    requires Snapshot(cart, products) == Some(lines)
    requires forall k :: 0 <= k < |orders| ==> !IsPendingOf(orders[k], user)
    ensures RestorePending([], orders + [Order(user, email, lines, Pending)], user) == cart
  {
    var all := orders + [Order(user, email, lines, Pending)];
    assert all[..|all| - 1] == orders;
    RestoreWithoutPending([], orders, user);
    RestoreSnapshot(cart, lines);
  }
}
