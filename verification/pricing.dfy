/** Subtotal, shipping and total (scripts/inicio.js:6-7, 137-147). */
module Pricing {
  import opened Cart

  /** Orders below this subtotal pay for delivery (`SHIPPING_THRESHOLD`, in pesos). */
  const ShippingThreshold: nat := 170000
  /** The flat delivery fee (`SHIPPING_FEE`, in pesos). */
  const ShippingFee: nat := 8000

  /** The checked `shippingMethod` radio button. Every test in the script is
      `method === 'delivery'`, so any other value behaves as pickup. */
  datatype ShippingMethod = Delivery | Pickup

  /** `calculateSubtotal()`: Σ price × qty over the cart. */
  function Subtotal(cart: Cart): (s: int)
    ensures PositiveQuantities(cart) ==> s >= 0
    ensures |cart| == 0 ==> s == 0
  {
    if |cart| == 0 then 0 else cart[0].price * cart[0].qty + Subtotal(cart[1..])
  }

  /** `calculateShipping(subtotal)`: the fee is charged exactly for delivery
      orders with a subtotal strictly between 0 and the threshold. */
  function Shipping(subtotal: int, choice: ShippingMethod): (fee: nat)
    ensures fee == 0 || fee == ShippingFee
    ensures fee == ShippingFee <==> choice == Delivery && 0 < subtotal < ShippingThreshold
  {
    if choice == Delivery && subtotal > 0 && subtotal < ShippingThreshold then ShippingFee else 0
  }

  /** The three amounts `updateTotalsUI` and the order message show. */
  datatype Totals = Totals(subtotal: int, shipping: nat, total: int)

  function ComputeTotals(cart: Cart, choice: ShippingMethod): (t: Totals)
    ensures t.subtotal == Subtotal(cart)
    ensures t.total == t.subtotal + t.shipping && t.total >= t.subtotal
    ensures choice == Pickup || |cart| == 0 ==> t.shipping == 0 && t.total == t.subtotal
    ensures t.subtotal >= ShippingThreshold ==> t.total == t.subtotal
  {
    var subtotal := Subtotal(cart);
    var shipping := Shipping(subtotal, choice);
    Totals(subtotal, shipping, subtotal + shipping)
  }

  lemma {:induction false} SubtotalAppend(a: Cart, b: Cart)
    ensures Subtotal(a + b) == Subtotal(a) + Subtotal(b)
    decreases |a|
  {
    if |a| > 0 {
      assert (a + b)[1..] == a[1..] + b;
      SubtotalAppend(a[1..], b);
    } else {
      assert a + b == b;
    }
  }

  /** The subtotal does not depend on the order of the entries: any
      rearrangement of the same entries costs the same. */
  lemma {:induction false} SubtotalPermutation(a: Cart, b: Cart)
    requires multiset(a) == multiset(b)
    ensures Subtotal(a) == Subtotal(b)
    decreases |a|
  {
    if |a| > 0 {
      var x := a[0];
      assert x in multiset(b);
      var k :| 0 <= k < |b| && b[k] == x;
      var rest := b[..k] + b[k + 1..];
      assert b == b[..k] + [x] + b[k + 1..];
      assert a == [x] + a[1..];
      assert multiset(a[1..]) == multiset(rest) by {
        calc {
          multiset(a[1..]);
          multiset(a) - multiset{x};
          multiset(b) - multiset{x};
          multiset(b[..k]) + multiset(b[k + 1..]);
          multiset(rest);
        }
      }
      SubtotalPermutation(a[1..], rest);
      SubtotalAppend(b[..k] + [x], b[k + 1..]);
      SubtotalAppend(b[..k], [x]);
      SubtotalAppend(b[..k], b[k + 1..]);
    } else {
      assert |b| == |multiset(b)| == 0;
    }
  }

  /** Adding `qty` units of a product already in the cart raises the subtotal
      by `qty` times the price the cart stored for it; the price passed with
      the later call is ignored. */
  lemma AddSubtotalKnown(cart: Cart, name: string, price: nat, qty: int)
    requires FindIndex(cart, name) >= 0
    ensures Subtotal(Add(cart, name, price, qty)) == Subtotal(cart) + qty * cart[FindIndex(cart, name)].price
  {
    var idx := FindIndex(cart, name);
    var it := cart[idx];
    var grown := it.(qty := it.qty + qty);
    AddKnownUpdates(cart, name, price, qty);
    assert Add(cart, name, price, qty) == cart[idx := grown];
    SubtotalUpdate(cart, idx, grown);
    assert Subtotal(cart[idx := grown]) == Subtotal(cart) - it.price * it.qty + it.price * (it.qty + qty);
    MulDistributes(it.price, it.qty, qty);
  }

  /** Adding a new product raises the subtotal by its price times `qty`. */
  lemma AddSubtotalNew(cart: Cart, name: string, price: nat, qty: int)
    requires !Contains(cart, name)
    ensures Subtotal(Add(cart, name, price, qty)) == Subtotal(cart) + qty * price
  {
    SubtotalAppend(cart, [LineItem(name, price, qty)]);
    assert Subtotal([LineItem(name, price, qty)]) == price * qty;
  }

  lemma MulDistributes(p: int, a: int, b: int)
    ensures p * (a + b) == p * a + b * p
  {
  }

  /** Replacing one entry changes the subtotal by the difference of the two entries' costs. */
  lemma SubtotalUpdate(cart: Cart, i: nat, it: LineItem)
    requires i < |cart|
    ensures Subtotal(cart[i := it]) == Subtotal(cart) - cart[i].price * cart[i].qty + it.price * it.qty
  {
    var r := cart[i := it];
    assert r == cart[..i] + [it] + cart[i + 1..];
    assert cart == cart[..i] + [cart[i]] + cart[i + 1..];
    SubtotalAppend(cart[..i] + [it], cart[i + 1..]);
    SubtotalAppend(cart[..i], [it]);
    SubtotalAppend(cart[..i] + [cart[i]], cart[i + 1..]);
    SubtotalAppend(cart[..i], [cart[i]]);
  }

  /** Pickup orders never pay shipping, whatever the subtotal. */
  lemma PickupIsFree(cart: Cart)
    ensures ComputeTotals(cart, Pickup).shipping == 0
  {
  }

  /** The fee stops at the threshold, so a subtotal just below it costs more in
      total than a subtotal at it. */
  lemma ShippingCliff()
    ensures Shipping(ShippingThreshold - 1, Delivery) + ShippingThreshold - 1
      > Shipping(ShippingThreshold, Delivery) + ShippingThreshold
  {
  }

  /** Two units of a 50000 dress added, then one more: one entry with three
      units, subtotal 150000, delivery fee 8000, total 158000. */
  lemma DressScenario()
    ensures var cart := Add(Add([], "Dress", 50000, 2), "Dress", 50000, 1);
      && cart == [LineItem("Dress", 50000, 3)]
      && ComputeTotals(cart, Delivery) == Totals(150000, 8000, 158000)
  {
    var one := Add([], "Dress", 50000, 2);
    assert one == [LineItem("Dress", 50000, 2)];
    AddToLast([], "Dress", 50000, 2, 50000, 1);
    assert [] + [LineItem("Dress", 50000, 2)] == one;
  }
}
