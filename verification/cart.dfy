/** The cart store of scripts/inicio.js: the array `cartItems` (line 35)
    and the operations that change it. Each operation takes the cart as it
    was and returns the cart as the script leaves it. */
module Cart {
  import opened Wrappers

  /** One cart entry `{ name, price, qty }`. The price is what `parsePrice`
      read off the product card, so it is never negative. */
  datatype LineItem = LineItem(name: string, price: nat, qty: int)

  type Cart = seq<LineItem>

  predicate Contains(cart: Cart, name: string) {
    exists i | 0 <= i < |cart| :: cart[i].name == name
  }

  /** At most one entry per product name. */
  predicate UniqueNames(cart: Cart) {
    forall i, j | 0 <= i < j < |cart| :: cart[i].name != cart[j].name
  }

  /** Every entry holds at least one unit. */
  predicate PositiveQuantities(cart: Cart) {
    forall i | 0 <= i < |cart| :: cart[i].qty >= 1
  }

  /** The invariant the cart operations keep. */
  predicate Valid(cart: Cart) {
    UniqueNames(cart) && PositiveQuantities(cart)
  }

  /** `findItemIndex(name)`: the index of the first entry with this name, or -1. */
  function FindIndex(cart: Cart, name: string): (r: int)
    ensures -1 <= r < |cart|
    ensures r == -1 <==> !Contains(cart, name)
    ensures 0 <= r ==> cart[r].name == name && !Contains(cart[..r], name)
  {
    if |cart| == 0 then -1
    else if cart[0].name == name then 0
    else
      var k := FindIndex(cart[1..], name);
      assert Contains(cart[1..], name) ==> Contains(cart, name);
      if k < 0 then -1
      else
        assert cart[1..][..k] == cart[1..k + 1];
        k + 1
  }

  /** `i` is the first entry named `name`: the one the script's `findIndex` picks. */
  predicate IsFirst(cart: Cart, name: string, i: int)
    requires 0 <= i < |cart|
  {
    cart[i].name == name && !Contains(cart[..i], name)
  }

  /** The entry `findIndex` returns is the only first entry. */
  lemma FirstIsFindIndex(cart: Cart, name: string)
    requires Contains(cart, name)
    ensures forall i | 0 <= i < |cart| :: IsFirst(cart, name, i) <==> i == FindIndex(cart, name)
  {
    var idx := FindIndex(cart, name);
    forall i | 0 <= i < |cart| && i != idx
      ensures !IsFirst(cart, name, i)
    {
      if i < idx {
        assert cart[..idx][i] == cart[i];
      } else {
        assert cart[..i][idx] == cart[idx];
      }
    }
  }

  /** `addItemToCart({ name, price, qty })`. A name already in the cart gets
      `qty` more units on its first entry, keeping the stored price; a new
      name is appended at the end. */
  function Add(cart: Cart, name: string, price: nat, qty: int): (r: Cart)
    ensures !Contains(cart, name) ==> r == cart + [LineItem(name, price, qty)]
    ensures Contains(cart, name) ==> |r| == |cart|
    ensures Contains(cart, name) ==>
      forall i {:trigger r[i]} | 0 <= i < |cart| ::
        && r[i].name == cart[i].name
        && r[i].price == cart[i].price
        && r[i].qty == cart[i].qty + (if IsFirst(cart, name, i) then qty else 0)
  {
    var idx := FindIndex(cart, name);
    if idx >= 0 then
      FirstIsFindIndex(cart, name);
      cart[idx := cart[idx].(qty := cart[idx].qty + qty)]
    else
      cart + [LineItem(name, price, qty)]
  }

  /** `removeItemFromCart(name)`: keeps the entries with another name, in order. */
  function Remove(cart: Cart, name: string): (r: Cart)
    ensures forall it :: it in r <==> it in cart && it.name != name
    ensures !Contains(r, name)
    ensures !Contains(cart, name) ==> r == cart
    ensures |r| <= |cart|
  {
    if |cart| == 0 then []
    else
      var rest := Remove(cart[1..], name);
      assert cart == [cart[0]] + cart[1..];
      assert Contains(cart[1..], name) ==> Contains(cart, name);
      if cart[0].name == name then rest else [cart[0]] + rest
  }

  /** The quantity `changeItemQty` stores for the input `newQty`: `None` is an
      input that is not a number (NaN). `Math.floor(q) || 1` replaces 0 and NaN
      by 1, and `Math.max(1, _)` lifts every other value below 1 to 1. */
  function ClampQty(newQty: Option<real>): (q: int)
    ensures q >= 1
    ensures newQty.Some? && newQty.value.Floor >= 1 ==> q == newQty.value.Floor
    ensures (newQty.None? || newQty.value < 1.0) ==> q == 1
  {
    match newQty
    case None => 1
    case Some(v) =>
      var f := v.Floor;
      var orOne := if f == 0 then 1 else f;
      if orOne < 1 then 1 else orOne
  }

  /** `changeItemQty(name, newQty)`: the first entry with this name gets the
      clamped quantity; an absent name leaves the cart as it was. */
  function ChangeQty(cart: Cart, name: string, newQty: Option<real>): (r: Cart)
    ensures |r| == |cart|
    ensures !Contains(cart, name) ==> r == cart
    ensures forall i {:trigger r[i]} | 0 <= i < |cart| ::
      && r[i].name == cart[i].name
      && r[i].price == cart[i].price
      && r[i].qty == (if IsFirst(cart, name, i) then ClampQty(newQty) else cart[i].qty)
  {
    var idx := FindIndex(cart, name);
    if idx >= 0 then
      FirstIsFindIndex(cart, name);
      cart[idx := cart[idx].(qty := ClampQty(newQty))]
    else
      cart
  }

  /** `clearCart()`: the cart afterwards, and whether the "Carrito vaciado"
      notice is shown; an empty cart returns early, without a notice. */
  function Clear(cart: Cart): (r: (Cart, bool))
    ensures r.0 == []
    ensures r.1 <==> |cart| > 0
  {
    if |cart| == 0 then (cart, false) else ([], true)
  }

  /** The unit count `updateCartCounter` sums: Σ qty. */
  function Units(cart: Cart): (n: int)
    ensures PositiveQuantities(cart) ==> n >= |cart|
  {
    if |cart| == 0 then 0 else cart[0].qty + Units(cart[1..])
  }

  /** The number on the cart badge, or None when `updateCartCounter` hides it. */
  function Badge(cart: Cart): (b: Option<int>)
    ensures b.Some? ==> b.value == Units(cart) && b.value > 0
    ensures b.None? ==> Units(cart) <= 0
  {
    if Units(cart) > 0 then Some(Units(cart)) else None
  }

  // Properties of the cart operations

  /** Adding units of a product keeps names unique and quantities positive. */
  lemma AddKeepsValid(cart: Cart, name: string, price: nat, qty: int)
    requires Valid(cart) && qty >= 1
    ensures Valid(Add(cart, name, price, qty))
  {
    var r := Add(cart, name, price, qty);
    if !Contains(cart, name) {
      forall i, j | 0 <= i < j < |r|
        ensures r[i].name != r[j].name
      {
        if j == |cart| {
          assert r[i] == cart[i];
        }
      }
    }
  }

  /** In a cart with unique names, adding hits exactly the entry with that name. */
  lemma AddToUniqueCart(cart: Cart, name: string, price: nat, qty: int)
    requires UniqueNames(cart) && Contains(cart, name)
    ensures var r := Add(cart, name, price, qty);
      forall i | 0 <= i < |cart| ::
        r[i] == cart[i].(qty := cart[i].qty + (if cart[i].name == name then qty else 0))
  {
    var r := Add(cart, name, price, qty);
    forall i | 0 <= i < |cart|
      ensures IsFirst(cart, name, i) <==> cart[i].name == name
    {
      if cart[i].name == name {
        forall j | 0 <= j < i
          ensures cart[..i][j].name != name
        {
          assert cart[..i][j] == cart[j];
        }
      }
    }
  }

  lemma RemoveKeepsValid(cart: Cart, name: string)
    requires Valid(cart)
    ensures Valid(Remove(cart, name))
  {
    if |cart| > 0 {
      RemoveKeepsValid(cart[1..], name);
      var rest := Remove(cart[1..], name);
      if cart[0].name != name {
        forall j | 0 <= j < |rest|
          ensures rest[j].name != cart[0].name
        {
          assert rest[j] in cart[1..];
        }
      }
    }
  }

  lemma ChangeQtyKeepsValid(cart: Cart, name: string, newQty: Option<real>)
    requires Valid(cart)
    ensures Valid(ChangeQty(cart, name, newQty))
  {
  }

  /** Removing distributes over concatenation: the surviving entries keep their relative order. */
  lemma {:induction false} RemoveAppend(a: Cart, b: Cart, name: string)
    ensures Remove(a + b, name) == Remove(a, name) + Remove(b, name)
    decreases |a|
  {
    if |a| > 0 {
      assert (a + b)[1..] == a[1..] + b;
      RemoveAppend(a[1..], b, name);
    } else {
      assert a + b == b;
    }
  }

  lemma {:induction false} UnitsAppend(a: Cart, b: Cart)
    ensures Units(a + b) == Units(a) + Units(b)
    decreases |a|
  {
    if |a| > 0 {
      assert (a + b)[1..] == a[1..] + b;
      UnitsAppend(a[1..], b);
    } else {
      assert a + b == b;
    }
  }

  lemma {:induction false} UnitsUpdate(cart: Cart, i: nat, delta: int)
    requires i < |cart|
    ensures Units(cart[i := cart[i].(qty := cart[i].qty + delta)]) == Units(cart) + delta
    decreases i
  {
    var r := cart[i := cart[i].(qty := cart[i].qty + delta)];
    if i > 0 {
      UnitsUpdate(cart[1..], i - 1, delta);
      assert r[1..] == cart[1..][i - 1 := cart[1..][i - 1].(qty := cart[1..][i - 1].qty + delta)];
    } else {
      assert r[1..] == cart[1..];
    }
  }

  /** For a name in the cart, adding updates the entry `findItemIndex` finds. */
  lemma AddKnownUpdates(cart: Cart, name: string, price: nat, qty: int)
    requires FindIndex(cart, name) >= 0
    ensures var idx := FindIndex(cart, name);
      Add(cart, name, price, qty) == cart[idx := cart[idx].(qty := cart[idx].qty + qty)]
  {
  }

  /** Adding `qty` units raises the badge count by exactly `qty`. */
  lemma AddUnits(cart: Cart, name: string, price: nat, qty: int)
    ensures Units(Add(cart, name, price, qty)) == Units(cart) + qty
  {
    var idx := FindIndex(cart, name);
    if idx >= 0 {
      assert Add(cart, name, price, qty) == cart[idx := cart[idx].(qty := cart[idx].qty + qty)];
      UnitsUpdate(cart, idx, qty);
    } else {
      assert Add(cart, name, price, qty) == cart + [LineItem(name, price, qty)];
      UnitsAppend(cart, [LineItem(name, price, qty)]);
      assert Units([LineItem(name, price, qty)]) == qty;
    }
  }

  /** For a valid cart the badge is shown exactly when the cart has entries. */
  lemma BadgeShownIffNonEmpty(cart: Cart)
    requires PositiveQuantities(cart)
    ensures Badge(cart).Some? <==> |cart| > 0
  {
  }

  function Sum(qs: seq<int>): int {
    if |qs| == 0 then 0 else Sum(qs[..|qs| - 1]) + qs[|qs| - 1]
  }

  /** The cart after `addItemToCart` is called once per quantity in `qs`, in order. */
  function AddAll(cart: Cart, name: string, price: nat, qs: seq<int>): (r: Cart)
    ensures Units(r) == Units(cart) + Sum(qs)
    decreases |qs|
  {
    if |qs| == 0 then cart
    else
      var before := AddAll(cart, name, price, qs[..|qs| - 1]);
      AddUnits(before, name, price, qs[|qs| - 1]);
      Add(before, name, price, qs[|qs| - 1])
  }

  /** Adding to a product that is the last entry only grows that entry. */
  lemma AddToLast(pre: Cart, name: string, stored: nat, q0: int, price: nat, qty: int)
    requires !Contains(pre, name)
    ensures Add(pre + [LineItem(name, stored, q0)], name, price, qty) == pre + [LineItem(name, stored, q0 + qty)]
  {
    var cart := pre + [LineItem(name, stored, q0)];
    assert Contains(cart, name) by {
      assert cart[|pre|].name == name;
    }
    assert cart[..|pre|] == pre;
    assert IsFirst(cart, name, |pre|);
    FirstIsFindIndex(cart, name);
  }

  /** Adding a new product several times leaves one entry for it, at the end,
      with the first call's price and the sum of the added quantities. */
  lemma {:induction false} RepeatedAdds(cart: Cart, name: string, price: nat, qs: seq<int>)
    requires !Contains(cart, name) && |qs| > 0
    ensures AddAll(cart, name, price, qs) == cart + [LineItem(name, price, Sum(qs))]
    decreases |qs|
  {
    var init := qs[..|qs| - 1];
    if |init| == 0 {
      assert Sum(qs) == qs[0];
    } else {
      RepeatedAdds(cart, name, price, init);
      AddToLast(cart, name, price, Sum(init), price, qs[|qs| - 1]);
    }
  }
}
