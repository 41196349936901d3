/** The user's cart: an ordered list of product/quantity lines, and the user
    record's cart operations `addToCart`, `removeFromCart` and `clearCart`. */
module Cart {
  import opened Catalog

  datatype CartItem = CartItem(productId: ProductId, quantity: nat)

  /** The shape the cart operations keep: one line per product, every quantity positive. */
  predicate WellFormed(cart: seq<CartItem>) {
    && (forall i, j :: 0 <= i < j < |cart| ==> cart[i].productId != cart[j].productId)
    && (forall i :: 0 <= i < |cart| ==> cart[i].quantity > 0)
  }

  predicate InCart(cart: seq<CartItem>, pid: ProductId) {
    exists k :: 0 <= k < |cart| && cart[k].productId == pid
  }

  /** Units of a product in the cart, summed over its lines. */
  function QuantityOf(cart: seq<CartItem>, pid: ProductId): nat {
    if cart == [] then 0
    else (if cart[0].productId == pid then cart[0].quantity else 0) + QuantityOf(cart[1..], pid)
  }

  lemma {:induction false} QuantityOfAppend(cart: seq<CartItem>, item: CartItem, pid: ProductId)
    ensures QuantityOf(cart + [item], pid)
         == QuantityOf(cart, pid) + (if item.productId == pid then item.quantity else 0)
  {
    if cart == [] {
      assert [item][1..] == [];
    } else {
      assert (cart + [item])[1..] == cart[1..] + [item];
      QuantityOfAppend(cart[1..], item, pid);
    }
  }

  lemma {:induction false} QuantityOfUpdate(cart: seq<CartItem>, i: nat, item: CartItem, pid: ProductId)
    requires i < |cart|
    ensures QuantityOf(cart[i := item], pid) + (if cart[i].productId == pid then cart[i].quantity else 0)
         == QuantityOf(cart, pid) + (if item.productId == pid then item.quantity else 0)
  {
    if i == 0 {
      assert cart[0 := item][1..] == cart[1..];
    } else {
      assert cart[i := item][1..] == cart[1..][i - 1 := item];
      QuantityOfUpdate(cart[1..], i - 1, item, pid);
    }
  }

  /** `cart.items.findIndex(...)`: the first line of the product, or -1. */
  function FindIndex(cart: seq<CartItem>, pid: ProductId): (i: int)
    ensures -1 <= i < |cart|
    ensures i == -1 <==> !InCart(cart, pid)
    ensures i >= 0 ==> cart[i].productId == pid && forall k :: 0 <= k < i ==> cart[k].productId != pid
  {
    if cart == [] then -1
    else if cart[0].productId == pid then 0
    else
      var j := FindIndex(cart[1..], pid);
      assert forall k :: 0 < k < |cart| ==> cart[k] == cart[1..][k - 1];
      if j == -1 then -1 else j + 1
  }

  /** `addToCart`: one more unit of the product. An existing line is
      incremented in place; otherwise a line of quantity 1 is appended. */
  function AddToCart(cart: seq<CartItem>, pid: ProductId): (r: seq<CartItem>)
    ensures InCart(cart, pid) ==> |r| == |cart|
    ensures !InCart(cart, pid) ==> |r| == |cart| + 1 && r[|cart|] == CartItem(pid, 1)
    ensures forall k :: 0 <= k < |cart| ==> r[k].productId == cart[k].productId
    ensures forall k :: 0 <= k < |cart| && cart[k].productId != pid ==> r[k] == cart[k]
    ensures InCart(r, pid)
    ensures WellFormed(cart) ==> WellFormed(r)
  {
    var i := FindIndex(cart, pid);
    if i >= 0 then cart[i := CartItem(pid, cart[i].quantity + 1)]
    else
      var r := cart + [CartItem(pid, 1)];
      assert r[|cart|].productId == pid;
      r
  }

  /** Adding a unit raises that product's quantity by one and leaves every other product's alone. */
  lemma AddToCartQuantity(cart: seq<CartItem>, pid: ProductId, q: ProductId)
    ensures QuantityOf(AddToCart(cart, pid), q) == QuantityOf(cart, q) + (if q == pid then 1 else 0)
  {
    var i := FindIndex(cart, pid);
    if i >= 0 {
      QuantityOfUpdate(cart, i, CartItem(pid, cart[i].quantity + 1), q);
    } else {
      QuantityOfAppend(cart, CartItem(pid, 1), q);
    }
  }

  /** Adding the same product twice to an empty cart gives one line of quantity 2. */
  lemma AddTwiceToEmptyCart(pid: ProductId)
    ensures AddToCart(AddToCart([], pid), pid) == [CartItem(pid, 2)]
  {
    assert FindIndex([CartItem(pid, 1)], pid) == 0;
  }

  /** `removeFromCart`: drop the product's lines, keeping the others in order. */
  function RemoveFromCart(cart: seq<CartItem>, pid: ProductId): (r: seq<CartItem>)
    ensures forall item :: item in r <==> item in cart && item.productId != pid
    ensures !InCart(cart, pid) ==> r == cart
    ensures |r| <= |cart|
  {
    if cart == [] then []
    else
      var rest := RemoveFromCart(cart[1..], pid);
      assert !InCart(cart, pid) ==> !InCart(cart[1..], pid) by {
        assert forall k :: 0 <= k < |cart[1..]| ==> cart[1..][k] == cart[k + 1];
      }
      assert cart == [cart[0]] + cart[1..];
      if cart[0].productId == pid then rest else [cart[0]] + rest
  }

  /** After removal the product has quantity 0; every other product keeps its quantity. */
  lemma {:induction false} RemoveFromCartQuantity(cart: seq<CartItem>, pid: ProductId, q: ProductId)
    ensures QuantityOf(RemoveFromCart(cart, pid), q) == if q == pid then 0 else QuantityOf(cart, q)
  {
    if cart != [] {
      RemoveFromCartQuantity(cart[1..], pid, q);
      var rest := RemoveFromCart(cart[1..], pid);
      if cart[0].productId != pid {
        assert ([cart[0]] + rest)[1..] == rest;
      }
    }
  }

  /** A line of a new product in front of a well-formed cart keeps it well-formed. */
  lemma WellFormedCons(item: CartItem, cart: seq<CartItem>)
    requires WellFormed(cart) && item.quantity > 0
    requires forall j :: 0 <= j < |cart| ==> cart[j].productId != item.productId
    ensures WellFormed([item] + cart)
  {
    var r := [item] + cart;
    forall i, j | 0 <= i < j < |r| ensures r[i].productId != r[j].productId {
      assert r[j] == cart[j - 1];
      if i > 0 {
        assert r[i] == cart[i - 1];
      }
    }
    forall i | 0 <= i < |r| ensures r[i].quantity > 0 {
      if i > 0 {
        assert r[i] == cart[i - 1];
      }
    }
  }

  /** Removal keeps one line per product with positive quantities. */
  lemma {:induction false} RemoveFromCartWellFormed(cart: seq<CartItem>, pid: ProductId)
    requires WellFormed(cart)
    ensures WellFormed(RemoveFromCart(cart, pid))
  {
    if cart != [] {
      var tail := cart[1..];
      assert WellFormed(tail) by {
        assert forall k :: 0 <= k < |tail| ==> tail[k] == cart[k + 1];
      }
      RemoveFromCartWellFormed(tail, pid);
      var rest := RemoveFromCart(tail, pid);
      if cart[0].productId != pid {
        forall j | 0 <= j < |rest| ensures rest[j].productId != cart[0].productId {
          assert rest[j] in tail;
          var m :| 0 <= m < |tail| && tail[m] == rest[j];
          assert tail[m] == cart[m + 1];
        }
        WellFormedCons(cart[0], rest);
      }
    }
  }

  /** Removal distributes over concatenation, so the remaining lines keep their relative order. */
  lemma {:induction false} RemoveFromCartAppend(a: seq<CartItem>, b: seq<CartItem>, pid: ProductId)
    ensures RemoveFromCart(a + b, pid) == RemoveFromCart(a, pid) + RemoveFromCart(b, pid)
  {
    if a == [] {
      assert a + b == b;
    } else {
      assert (a + b)[0] == a[0];
      assert (a + b)[1..] == a[1..] + b;
      RemoveFromCartAppend(a[1..], b, pid);
    }
  }

  /** Removing the product from lines around its one line leaves exactly the lines around it. */
  lemma RemoveFromCartSplice(before: seq<CartItem>, line: CartItem, after: seq<CartItem>, pid: ProductId)
    requires !InCart(before, pid) && !InCart(after, pid) && line.productId == pid
    ensures RemoveFromCart(before + [line] + after, pid) == before + after
  {
    assert RemoveFromCart([line], pid) == [] by {
      assert [line][1..] == [];
    }
    assert before + [line] + after == before + ([line] + after);
    RemoveFromCartAppend(before, [line] + after, pid);
    RemoveFromCartAppend([line], after, pid);
  }

  /** In a well-formed cart no line after a product's line is of that product. */
  lemma NoLaterLine(cart: seq<CartItem>, i: nat)
    requires WellFormed(cart) && i < |cart|
    ensures !InCart(cart[i + 1..], cart[i].productId)
  {
    var after := cart[i + 1..];
    forall k | 0 <= k < |after| ensures after[k].productId != cart[i].productId {
      assert after[k] == cart[i + 1 + k];
    }
  }

  /** No line before the product's first line is of that product. */
  lemma NoEarlierLine(cart: seq<CartItem>, pid: ProductId)
    requires InCart(cart, pid)
    ensures !InCart(cart[..FindIndex(cart, pid)], pid)
  {
    var before := cart[..FindIndex(cart, pid)];
    forall k | 0 <= k < |before| ensures before[k].productId != pid {
      assert before[k] == cart[k];
    }
  }

  /** A cart is the lines before position i, the line at i and the lines after it. */
  lemma SplitAt(cart: seq<CartItem>, i: nat)
    requires i < |cart|
    ensures cart == cart[..i] + [cart[i]] + cart[i + 1..]
  {
  }

  /** In a well-formed cart removal cuts out exactly the product's one line. */
  lemma RemoveFromCartCutsLine(cart: seq<CartItem>, pid: ProductId)
    requires WellFormed(cart) && InCart(cart, pid)
    ensures var i := FindIndex(cart, pid);
      RemoveFromCart(cart, pid) == cart[..i] + cart[i + 1..]
  {
    var i := FindIndex(cart, pid);
    NoEarlierLine(cart, pid);
    NoLaterLine(cart, i);
    SplitAt(cart, i);
    RemoveFromCartSplice(cart[..i], cart[i], cart[i + 1..], pid);
  }
}
