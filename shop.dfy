/** The shop controller's request handlers for one signed-in user, over an
    in-memory copy of what they read and write: the catalogue, the user's cart
    and the order table. The order table is a sequence indexed by order id, in
    the order the database returns documents (creation order). */
module ShopController {
  import opened Wrappers
  import opened Catalog
  import opened Cart
  import opened Orders
  import opened Reconcile

  /** The signed-in user (`req.user`). */
  datatype User = User(id: UserId, email: string)

  /** Where a handler redirects to. */
  datatype Page = CartPage | CheckoutPage | OrdersPage

  /** A redirect, or an error forwarded to the error pipeline (status 500). */
  datatype Response = Redirect(to: Page) | InternalError

  /** What the checkout page shows. */
  datatype CheckoutView = CheckoutView(products: seq<OrderLine>, totalSum: int)

  /** What the checkout handler hands to the payment provider: the order the
      return address names and the amount to charge, in cents. */
  datatype PaymentRequest = PaymentRequest(orderId: nat, total: int)

  /** The payment provider's answer to executing a payment. */
  datatype Execution = ExecutionFailed | Executed(state: string)

  const APPROVED: string := "approved"

  datatype InvoiceError = NoOrderFound | Unauthorized

  /** One `title - qty x $price` line of the invoice. */
  datatype InvoiceLine = InvoiceLine(title: string, quantity: nat, price: int)

  datatype Invoice = Invoice(orderId: nat, lines: seq<InvoiceLine>, totalPrice: int)

  class Shop {
    const user: User
    const products: seq<Product>
    var cart: seq<CartItem>
    var orders: seq<Order>

    ghost predicate Valid()
      reads this
    {
      WellFormed(cart)
    }

    constructor (user: User, products: seq<Product>, cart: seq<CartItem>, orders: seq<Order>)
      requires WellFormed(cart)
      ensures Valid()
      ensures this.user == user && this.products == products
      ensures this.cart == cart && this.orders == orders
    {
      this.user := user;
      this.products := products;
      this.cart := cart;
      this.orders := orders;
    }

    /** `postCart`: look the product up and add one unit of it to the cart.
        An unknown product reaches `addToCart` as `null`, which fails. */
    method PostCart(productId: ProductId) returns (r: Response)
      requires Valid()
      modifies this
      ensures Valid() && orders == old(orders)
      ensures FindById(products, productId).Some? ==>
        r == Redirect(CartPage) && cart == AddToCart(old(cart), productId)
      ensures FindById(products, productId).None? ==> r == InternalError && cart == old(cart)
    {
      var product := FindById(products, productId);
      if product.None? {
        return InternalError;
      }
      cart := AddToCart(cart, product.value.id);
      r := Redirect(CartPage);
    }

    /** `postCartDeleteProduct`: drop the product's line; an absent product is no error. */
    method PostCartDeleteProduct(productId: ProductId) returns (r: Response)
      requires Valid()
      modifies this
      ensures Valid() && orders == old(orders)
      ensures r == Redirect(CartPage) && cart == RemoveFromCart(old(cart), productId)
    {
      RemoveFromCartWellFormed(cart, productId);
      cart := RemoveFromCart(cart, productId);
      r := Redirect(CartPage);
    }

    /** `getCart`: put every unit of every pending order of the user back into
        the cart, one `addToCart` per unit, cancel those orders, show the cart. */
    method GetCart() returns (items: seq<CartItem>)
      requires Valid()
      modifies this
      ensures Valid()
      ensures cart == RestorePending(old(cart), old(orders), user.id)
      ensures orders == CancelPending(old(orders), user.id)
      ensures items == cart
    {
      ghost var cart0, orders0 := cart, orders;
      var i := 0;
      while i < |orders|
        invariant 0 <= i <= |orders| == |orders0|
        invariant forall k :: 0 <= k < i ==> orders[k] == CancelOne(orders0[k], user.id)
        invariant forall k :: i <= k < |orders| ==> orders[k] == orders0[k]
        invariant cart == RestorePending(cart0, orders0[..i], user.id)
      {
        var order := orders[i];
        assert orders0[..i + 1][..i] == orders0[..i];
        if IsPendingOf(order, user.id) {
          AddLinesToCart(order.lines);
          orders := orders[i := order.(status := Canceled)];
        }
        i := i + 1;
      }
      assert orders0[..|orders0|] == orders0;
      items := cart;
    }

    /** The two inner loops of `getCart`: every unit of every line, one `addToCart` each. */
    method AddLinesToCart(lines: seq<OrderLine>)
      modifies this
      ensures cart == AddLines(old(cart), lines) && orders == old(orders)
    {
      for j := 0 to |lines|
        invariant cart == AddLines(old(cart), lines[..j]) && orders == old(orders)
      {
        var line := lines[j];
        ghost var lineBase := cart;
        for k := 0 to line.quantity
          invariant cart == AddUnits(lineBase, line.product.id, k) && orders == old(orders)
        {
          cart := AddToCart(cart, line.product.id);
        }
        assert lines[..j + 1][..j] == lines[..j];
      }
      assert lines[..|lines|] == lines;
    }

    /** `getCheckout`: the user's pending order and its total, or an empty
        checkout when there is none. */
    method GetCheckout() returns (view: CheckoutView)
      ensures FirstPendingOf(orders, user.id).None? ==> view == CheckoutView([], 0)
      ensures FirstPendingOf(orders, user.id).Some? ==>
        && IsPendingOf(orders[FirstPendingOf(orders, user.id).value], user.id)
        && view.products == orders[FirstPendingOf(orders, user.id).value].lines
      ensures view.totalSum == LinesTotal(view.products)
    {
      var found := FirstPendingOf(orders, user.id);
      if found.None? {
        return CheckoutView([], 0);
      }
      var lines := orders[found.value].lines;
      var total := Total(lines);
      view := CheckoutView(lines, total);
    }

    /** `postCheckout`: take the user's first order (no status filter), total
        it, mark it canceled unless it already is, and ask the provider for a
        payment of that total. Without any order of the user the request fails. */
    method PostCheckout() returns (r: Option<PaymentRequest>)
      requires Valid()
      modifies this
      ensures Valid() && cart == old(cart)
      ensures FirstOrderOf(old(orders), user.id).None? ==> r.None? && orders == old(orders)
      ensures FirstOrderOf(old(orders), user.id).Some? ==>
        var i := FirstOrderOf(old(orders), user.id).value;
        && r == Some(PaymentRequest(i, LinesTotal(old(orders)[i].lines)))
        && orders == old(orders)[i := old(orders)[i].(status := Canceled)]
        && orders[i].status == Canceled
    {
      var found := FirstOrderOf(orders, user.id);
      if found.None? {
        return None;
      }
      var i := found.value;
      var total := Total(orders[i].lines);
      if orders[i].status != Canceled {
        orders := orders[i := orders[i].(status := Canceled)];
      } else {
        assert orders[i := orders[i].(status := Canceled)] == orders;
      }
      r := Some(PaymentRequest(i, total));
    }

    /** `postOrder`: snapshot the populated cart into a new pending order and
        clear the cart. A cart line whose product no longer exists fails the request. */
    method PostOrder() returns (r: Response)
      requires Valid()
      modifies this
      ensures Valid()
      ensures Snapshot(old(cart), products).None? ==>
        r == InternalError && cart == old(cart) && orders == old(orders)
      ensures Snapshot(old(cart), products).Some? ==>
        && r == Redirect(CheckoutPage)
        && orders == old(orders) + [Order(user.id, user.email, Snapshot(old(cart), products).value, Pending)]
        && cart == []
    {
      var lines := Snapshot(cart, products);
      if lines.None? {
        return InternalError;
      }
      orders := orders + [Order(user.id, user.email, lines.value, Pending)];
      cart := [];
      r := Redirect(CheckoutPage);
    }

    /** `getPaymentStatus`: after the provider executed the payment, mark the
        order named by the callback paid, but only on state "approved" and only
        if the order exists. Every other outcome changes nothing. */
    method GetPaymentStatus(execution: Execution, orderId: int) returns (to: Page)
      requires Valid()
      modifies this
      ensures Valid() && cart == old(cart)
      ensures execution == Executed(APPROVED) && 0 <= orderId < |old(orders)| ==>
        && to == OrdersPage
        && orders == old(orders)[orderId := old(orders)[orderId].(status := Paid)]
      ensures !(execution == Executed(APPROVED) && 0 <= orderId < |old(orders)|) ==>
        to == CheckoutPage && orders == old(orders)
    {
      if execution.ExecutionFailed? {
        return CheckoutPage;
      }
      if execution.state == APPROVED {
        if 0 <= orderId < |orders| {
          orders := orders[orderId := orders[orderId].(status := Paid)];
          to := OrdersPage;
        } else {
          to := CheckoutPage;
        }
      } else {
        to := CheckoutPage;
      }
    }

    /** `getOrders`: the user's paid orders. */
    method GetOrders() returns (paid: seq<Order>)
      ensures var ids := PaidOrdersOf(orders, user.id);
        && |paid| == |ids|
        && forall j :: 0 <= j < |ids| ==> paid[j] == orders[ids[j]]
      ensures forall j :: 0 <= j < |paid| ==> paid[j].userId == user.id && paid[j].status == Paid
    {
      var ids := PaidOrdersOf(orders, user.id);
      var table := orders;
      paid := seq(|ids|, j requires 0 <= j < |ids| => table[ids[j]]);
    }

    /** `getInvoice`: refuse a missing order and another user's order; otherwise
        list the order's lines and accumulate their total. */
    method GetInvoice(orderId: int) returns (r: Result<Invoice, InvoiceError>)
      ensures !(0 <= orderId < |orders|) ==> r == Failure(NoOrderFound)
      ensures 0 <= orderId < |orders| && orders[orderId].userId != user.id ==> r == Failure(Unauthorized)
      ensures r.Success? <==> 0 <= orderId < |orders| && orders[orderId].userId == user.id
      ensures r.Success? ==>
        var lines := orders[orderId].lines;
        && r.value.orderId == orderId
        && r.value.totalPrice == LinesTotal(lines)
        && |r.value.lines| == |lines|
        && forall k :: 0 <= k < |lines| ==>
          r.value.lines[k] == InvoiceLine(lines[k].product.title, lines[k].quantity, lines[k].product.price)
    {
      if !(0 <= orderId < |orders|) {
        return Failure(NoOrderFound);
      }
      var order := orders[orderId];
      if order.userId != user.id {
        return Failure(Unauthorized);
      }
      var text: seq<InvoiceLine> := [];
      var totalPrice := 0;
      for i := 0 to |order.lines|
        invariant |text| == i
        invariant forall k :: 0 <= k < i ==>
          text[k] == InvoiceLine(order.lines[k].product.title, order.lines[k].quantity, order.lines[k].product.price)
        invariant totalPrice == LinesTotal(order.lines[..i])
      {
        var line := order.lines[i];
        assert order.lines[..i + 1][..i] == order.lines[..i];
        totalPrice := totalPrice + line.product.price * line.quantity;
        text := text + [InvoiceLine(line.product.title, line.quantity, line.product.price)];
      }
      assert order.lines[..|order.lines|] == order.lines;
      r := Success(Invoice(orderId, text, totalPrice));
    }
  }
}
