/** The cart store of the storefront (`App.tsx`): a sequence of lines, each a
    product plus a quantity, changed by add, set-quantity and remove, and two
    values derived from it, the item count and the subtotal. */
module Cart {
  import opened Types
  import opened Sequences

  /** Some line of `cart` belongs to product `id`. */
  predicate HasId(cart: seq<CartItem>, id: int) {
    exists i :: 0 <= i < |cart| && cart[i].product.id == id
  }

  /** At most one line per product id. */
  predicate DistinctIds(cart: seq<CartItem>) {
    forall i, j :: 0 <= i < j < |cart| ==> cart[i].product.id != cart[j].product.id
  }

  /** No line with a quantity below 1. */
  predicate PositiveQuantities(cart: seq<CartItem>) {
    forall i :: 0 <= i < |cart| ==> cart[i].quantity >= 1
  }

  /** The cart invariant: one line per product, every quantity at least 1. */
  predicate Valid(cart: seq<CartItem>) {
    DistinctIds(cart) && PositiveQuantities(cart)
  }

  /** The first line for product `id`, if there is one (`Array.prototype.find`). */
  function Find(cart: seq<CartItem>, id: int): (r: Option<CartItem>)
    ensures r.Some? <==> HasId(cart, id)
    ensures r.Some? ==> r.value in cart && r.value.product.id == id
    ensures |cart| > 0 && cart[0].product.id == id ==> r == Some(cart[0])
  {
    if |cart| == 0 then None
    else if cart[0].product.id == id then Some(cart[0])
    else Find(cart[1..], id)
  }

  /** Every line for `id` gains one unit; every other line is left alone. */
  function Bump(cart: seq<CartItem>, id: int): (r: seq<CartItem>)
    ensures |r| == |cart|
    ensures forall i :: 0 <= i < |cart| ==> r[i].product == cart[i].product
    ensures forall i :: 0 <= i < |cart| && cart[i].product.id == id ==> r[i].quantity == cart[i].quantity + 1
    ensures forall i :: 0 <= i < |cart| && cart[i].product.id != id ==> r[i] == cart[i]
  {
    if |cart| == 0 then []
    else
      (if cart[0].product.id == id then [cart[0].(quantity := cart[0].quantity + 1)] else [cart[0]])
      + Bump(cart[1..], id)
  }

  /** Every line for `id` gets quantity `q`; every other line is left alone. */
  function Assign(cart: seq<CartItem>, id: int, q: int): (r: seq<CartItem>)
    ensures |r| == |cart|
    ensures forall i :: 0 <= i < |cart| ==> r[i].product == cart[i].product
    ensures forall i :: 0 <= i < |cart| && cart[i].product.id == id ==> r[i].quantity == q
    ensures forall i :: 0 <= i < |cart| && cart[i].product.id != id ==> r[i] == cart[i]
  {
    if |cart| == 0 then []
    else
      (if cart[0].product.id == id then [cart[0].(quantity := q)] else [cart[0]])
      + Assign(cart[1..], id, q)
  }

  /** The filter condition of removal: the line is not for `id`. */
  function OtherThan(id: int): CartItem -> bool {
    (l: CartItem) => l.product.id != id
  }

  /** handleAddToCart: an existing line for the product grows by one (and
      keeps the product record it was created with); otherwise the product is
      appended with quantity 1. */
  function Add(cart: seq<CartItem>, p: Product): (r: seq<CartItem>)
    ensures HasId(cart, p.id) ==> |r| == |cart|
    ensures HasId(cart, p.id) ==> forall i :: 0 <= i < |cart| ==> r[i].product == cart[i].product
    ensures HasId(cart, p.id) ==>
      forall i :: 0 <= i < |cart| && cart[i].product.id == p.id ==> r[i].quantity == cart[i].quantity + 1
    ensures HasId(cart, p.id) ==>
      forall i :: 0 <= i < |cart| && cart[i].product.id != p.id ==> r[i] == cart[i]
    ensures !HasId(cart, p.id) ==> r == cart + [CartItem(p, 1)]
    ensures Valid(cart) ==> Valid(r)
  {
    match Find(cart, p.id)
    case Some(_) => Bump(cart, p.id)
    case None => cart + [CartItem(p, 1)]
  }

  /** handleRemoveItem: drop every line for `id`, keep the others in order. */
  function Remove(cart: seq<CartItem>, id: int): (r: seq<CartItem>)
    ensures !HasId(r, id)
    ensures IsSubsequence(r, cart)
    ensures forall i :: 0 <= i < |cart| && cart[i].product.id != id ==> cart[i] in r
    ensures !HasId(cart, id) ==> r == cart
    ensures Valid(cart) ==> Valid(r)
  {
    FilterIsSubsequence(cart, OtherThan(id));
    FilterPreservesValid(cart, OtherThan(id));
    Filter(cart, OtherThan(id))
  }

  /** handleUpdateQuantity: a non-positive quantity removes the product;
      a positive one overwrites the quantity of the product's line. */
  function SetQuantity(cart: seq<CartItem>, id: int, q: int): (r: seq<CartItem>)
    ensures q <= 0 ==> r == Remove(cart, id)
    ensures q > 0 ==> |r| == |cart|
    ensures q > 0 ==> forall i :: 0 <= i < |cart| ==> r[i].product == cart[i].product
    ensures q > 0 ==> forall i :: 0 <= i < |cart| && cart[i].product.id == id ==> r[i].quantity == q
    ensures q > 0 ==> forall i :: 0 <= i < |cart| && cart[i].product.id != id ==> r[i] == cart[i]
    ensures !HasId(cart, id) ==> r == cart
    ensures Valid(cart) ==> Valid(r)
  {
    if q <= 0 then Remove(cart, id) else Assign(cart, id, q)
  }

  /** Sum of the quantities: the badge count (`cartCount`). */
  function TotalQuantity(cart: seq<CartItem>): int {
    if |cart| == 0 then 0 else cart[0].quantity + TotalQuantity(cart[1..])
  }

  /** Sum of price times quantity, in cents: the subtotal. */
  function TotalPrice(cart: seq<CartItem>): int {
    if |cart| == 0 then 0
    else cart[0].product.price * cart[0].quantity + TotalPrice(cart[1..])
  }

  /** The `reduce` that computes `cartCount`, as a left-to-right loop. */
  method CartCount(cart: seq<CartItem>) returns (count: int)
    ensures count == TotalQuantity(cart)
    ensures PositiveQuantities(cart) ==> (count > 0 <==> |cart| > 0)
  {
    count := 0;
    var i := 0;
    while i < |cart|
      invariant 0 <= i <= |cart|
      invariant count == TotalQuantity(cart[..i])
    {
      assert cart[..i + 1] == cart[..i] + [cart[i]];
      TotalsAppend(cart[..i], [cart[i]]);
      count := count + cart[i].quantity;
      i := i + 1;
    }
    assert cart[..i] == cart;
    if PositiveQuantities(cart) {
      CountBounds(cart);
    }
  }

  /** The `reduce` that computes the subtotal, as a left-to-right loop. */
  method CartSubtotal(cart: seq<CartItem>) returns (subtotal: int)
    ensures subtotal == TotalPrice(cart)
    ensures PositiveQuantities(cart) ==> subtotal >= 0
  {
    subtotal := 0;
    var i := 0;
    while i < |cart|
      invariant 0 <= i <= |cart|
      invariant subtotal == TotalPrice(cart[..i])
    {
      assert cart[..i + 1] == cart[..i] + [cart[i]];
      TotalsAppend(cart[..i], [cart[i]]);
      subtotal := subtotal + cart[i].product.price * cart[i].quantity;
      i := i + 1;
    }
    assert cart[..i] == cart;
    if PositiveQuantities(cart) {
      CountBounds(cart);
    }
  }

  // ---------------------------------------------------------------------
  // Lemmas

  lemma {:induction false} TotalsAppend(a: seq<CartItem>, b: seq<CartItem>)
    ensures TotalQuantity(a + b) == TotalQuantity(a) + TotalQuantity(b)
    ensures TotalPrice(a + b) == TotalPrice(a) + TotalPrice(b)
    decreases |a|
  {
    if |a| == 0 {
      assert a + b == b;
    } else {
      assert (a + b)[1..] == a[1..] + b;
      TotalsAppend(a[1..], b);
    }
  }

  /** With every quantity at least 1 the count is at least the number of
      lines, so the badge shows exactly when the cart has lines. */
  lemma {:induction false} CountBounds(cart: seq<CartItem>)
    requires PositiveQuantities(cart)
    ensures TotalQuantity(cart) >= |cart|
    ensures TotalQuantity(cart) > 0 <==> |cart| > 0
    ensures TotalPrice(cart) >= 0
    decreases |cart|
  {
    if |cart| > 0 {
      assert PositiveQuantities(cart[1..]) by {
        forall i | 0 <= i < |cart[1..]| ensures cart[1..][i].quantity >= 1 {
          assert cart[1..][i] == cart[i + 1];
        }
      }
      CountBounds(cart[1..]);
    }
  }

  /** The tail of a valid cart is valid and has no line for the head's id. */
  lemma ValidTail(cart: seq<CartItem>)
    requires Valid(cart) && |cart| > 0
    ensures Valid(cart[1..])
    ensures !HasId(cart[1..], cart[0].product.id)
  {
  }

  /** Filtering keeps a cart valid: the kept lines are lines of the cart,
      and they keep their relative order. */
  lemma {:induction false} FilterPreservesValid(cart: seq<CartItem>, keep: CartItem -> bool)
    ensures Valid(cart) ==> Valid(Filter(cart, keep))
    decreases |cart|
  {
    if |cart| > 0 && Valid(cart) {
      ValidTail(cart);
      FilterPreservesValid(cart[1..], keep);
      var rest := Filter(cart[1..], keep);
      if keep(cart[0]) {
        var r := [cart[0]] + rest;
        forall i, j | 0 <= i < j < |r| ensures r[i].product.id != r[j].product.id {
          if i == 0 {
            assert r[j] == rest[j - 1] && r[j] in cart[1..];
          } else {
            assert r[i] == rest[i - 1] && r[j] == rest[j - 1];
          }
        }
      }
    }
  }

  /** In a valid cart, adding a product raises the count by exactly one and
      the subtotal by the unit price of the line that grew: the price stored
      in the existing line, or the product's price for a new line. */
  lemma AddTotals(cart: seq<CartItem>, p: Product)
    requires Valid(cart)
    ensures TotalQuantity(Add(cart, p)) == TotalQuantity(cart) + 1
    ensures Find(cart, p.id).Some? ==>
      TotalPrice(Add(cart, p)) == TotalPrice(cart) + Find(cart, p.id).value.product.price
    ensures Find(cart, p.id).None? ==> TotalPrice(Add(cart, p)) == TotalPrice(cart) + p.price
  {
    if Find(cart, p.id).Some? {
      BumpTotals(cart, p.id);
    } else {
      TotalsAppend(cart, [CartItem(p, 1)]);
    }
  }

  lemma {:induction false} BumpTotals(cart: seq<CartItem>, id: int)
    requires Valid(cart) && HasId(cart, id)
    ensures TotalQuantity(Bump(cart, id)) == TotalQuantity(cart) + 1
    ensures TotalPrice(Bump(cart, id)) == TotalPrice(cart) + Find(cart, id).value.product.price
    decreases |cart|
  {
    ValidTail(cart);
    var t := cart[1..];
    if cart[0].product.id == id {
      assert Bump(t, id) == t;
    } else {
      assert HasId(t, id) by {
        var k :| 0 <= k < |cart| && cart[k].product.id == id;
        assert t[k - 1] == cart[k];
      }
      BumpTotals(t, id);
    }
  }

  /** In a valid cart, removing a product lowers the count by that line's
      quantity and the subtotal by that line's price times quantity; the cart
      loses one line exactly when the product was in it. */
  lemma {:induction false} RemoveTotals(cart: seq<CartItem>, id: int)
    requires Valid(cart)
    ensures Find(cart, id).Some? ==> |Remove(cart, id)| == |cart| - 1
    ensures Find(cart, id).Some? ==>
      TotalQuantity(Remove(cart, id)) == TotalQuantity(cart) - Find(cart, id).value.quantity
    ensures Find(cart, id).Some? ==>
      TotalPrice(Remove(cart, id)) ==
        TotalPrice(cart) - Find(cart, id).value.product.price * Find(cart, id).value.quantity
    ensures Find(cart, id).None? ==> Remove(cart, id) == cart
    decreases |cart|
  {
    if |cart| > 0 {
      ValidTail(cart);
      var t := cart[1..];
      if cart[0].product.id == id {
        assert Remove(t, id) == t;
        assert Remove(cart, id) == Remove(t, id);
      } else {
        assert Remove(cart, id) == [cart[0]] + Remove(t, id);
        if HasId(cart, id) {
          assert HasId(t, id) by {
            var k :| 0 <= k < |cart| && cart[k].product.id == id;
            assert t[k - 1] == cart[k];
          }
        }
        RemoveTotals(t, id);
      }
    }
  }

  /** In a valid cart, setting a positive quantity `q` for a product in the
      cart replaces that line's contribution to the count and the subtotal. */
  lemma {:induction false} SetQuantityTotals(cart: seq<CartItem>, id: int, q: int)
    requires Valid(cart) && q > 0 && HasId(cart, id)
    ensures TotalQuantity(SetQuantity(cart, id, q)) ==
      TotalQuantity(cart) - Find(cart, id).value.quantity + q
    ensures TotalPrice(SetQuantity(cart, id, q)) ==
      TotalPrice(cart) - Find(cart, id).value.product.price * Find(cart, id).value.quantity
        + Find(cart, id).value.product.price * q
    decreases |cart|
  {
    ValidTail(cart);
    var t := cart[1..];
    if cart[0].product.id == id {
      assert Assign(t, id, q) == t;
    } else {
      assert HasId(t, id) by {
        var k :| 0 <= k < |cart| && cart[k].product.id == id;
        assert t[k - 1] == cart[k];
      }
      SetQuantityTotals(t, id, q);
    }
  }

  /** Adding the same product `n` times. */
  function AddTimes(cart: seq<CartItem>, p: Product, n: nat): seq<CartItem> {
    if n == 0 then cart else Add(AddTimes(cart, p, n - 1), p)
  }

  /** Adding a product that is not yet in the cart `n >= 1` times leaves
      exactly one line for it, at the end, with quantity `n`. */
  lemma {:induction false} AddRepeatedly(cart: seq<CartItem>, p: Product, n: nat)
    requires Valid(cart) && !HasId(cart, p.id) && n >= 1
    ensures AddTimes(cart, p, n) == cart + [CartItem(p, n)]
  {
    if n > 1 {
      AddRepeatedly(cart, p, n - 1);
      var before := cart + [CartItem(p, n - 1)];
      assert before[|cart|].product.id == p.id;
      var after := Add(before, p);
      assert |after| == |before|;
      forall i | 0 <= i < |after| ensures after[i] == (cart + [CartItem(p, n)])[i] {
        if i < |cart| {
          assert before[i] == cart[i];
        }
      }
    }
  }

  /** Two lines, 2 x 15.00 and 1 x 8.50, come to 38.50; setting the first
      product's quantity to 0 removes its line and leaves the other. */
  lemma TwoLineExample(bread: Product, cake: Product)
    requires bread.id == 1 && bread.price == 1500
    requires cake.id == 2 && cake.price == 850
    ensures TotalPrice([CartItem(bread, 2), CartItem(cake, 1)]) == 3850
    ensures TotalQuantity([CartItem(bread, 2), CartItem(cake, 1)]) == 3
    ensures SetQuantity([CartItem(bread, 2), CartItem(cake, 1)], 1, 0) == [CartItem(cake, 1)]
  {
    var cart := [CartItem(bread, 2), CartItem(cake, 1)];
    assert cart[1..] == [CartItem(cake, 1)];
    assert cart[1..][1..] == [];
    assert TotalPrice(cart[1..]) == 850 && TotalQuantity(cart[1..]) == 1;
    assert Remove(cart, 1) == [CartItem(cake, 1)] by {
      RemoveTotals(cart, 1);
    }
  }
}
