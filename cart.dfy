/** The point-of-sale cart as a value: a list of line items keyed by product and batch,
    the operations the screen applies to it, and the derived subtotal, tax and total. */
module Cart {
  import opened Inventory
  import opened Decimal

  /** One line of the current sale: a snapshot of the product and batch taken when the line was
      created, and the quantity the cashier can still change. */
  datatype CartLine = CartLine(
    key: string,
    productId: string,
    name: string,
    price: real,
    unit: Unit,
    batch: Batch,
    quantity: real)

  /** The line key `${product.id}-${batch.id}`. */
  function LineKey(productId: string, batchId: string): string
  {
    productId + "-" + batchId
  }

  /** The line a first addition of `batch` of `product` creates: the price is the batch's. */
  function NewLine(product: Product, batch: Batch, q: real): CartLine
  {
    CartLine(LineKey(product.id, batch.id), product.id, product.name, batch.price, product.unit, batch, q)
  }

  predicate HasKey(cart: seq<CartLine>, key: string)
  {
    exists i :: 0 <= i < |cart| && cart[i].key == key
  }

  /** `i` is the first line whose key is `key`. */
  predicate FirstWithKey(cart: seq<CartLine>, key: string, i: int)
  {
    0 <= i < |cart| && cart[i].key == key && forall j :: 0 <= j < i ==> cart[j].key != key
  }

  /** No product+batch pair is split across two lines. */
  predicate UniqueKeys(cart: seq<CartLine>)
  {
    forall i, j :: 0 <= i < j < |cart| ==> cart[i].key != cart[j].key
  }

  predicate PositiveQuantities(cart: seq<CartLine>)
  {
    forall i :: 0 <= i < |cart| ==> cart[i].quantity > 0.0
  }

  /** `r` is `cart` with at most the quantities of the lines keyed `key` changed. */
  predicate OnlyQuantityOf(cart: seq<CartLine>, r: seq<CartLine>, key: string)
  {
    && |r| == |cart|
    && forall i :: 0 <= i < |cart| ==>
         r[i] == (if cart[i].key == key then cart[i].(quantity := r[i].quantity) else cart[i])
  }

  /** A parsed quantity survives the guard `isNaN(v) || v <= 0`. */
  predicate Accepted(v: Option<real>)
  {
    v.Some? && v.value > 0.0
  }

  /** The quantity step of the +/- buttons: 1 for pieces, 0.1 for every other unit. */
  function Step(u: Unit): (r: real)
    ensures r > 0.0 && OnCents(r)
  {
    if u == Piece then 1.0 else 0.1
  }

  /** A step on the hundredths grid taken from a quantity on the grid needs no rounding. */
  lemma StepOnGrid(q: real, step: real)
    requires OnCents(step)
    ensures OnCents(q) ==> RoundCents(q + step) == q + step && RoundCents(q - step) == q - step
  {
    if OnCents(q) {
      OnCentsAddSub(q, step);
      RoundCentsKeepsGrid(q + step);
      RoundCentsKeepsGrid(q - step);
    }
  }

  /** `cart.findIndex(item => item.cartItemId === key)`. */
  function FindLine(cart: seq<CartLine>, key: string): (r: Option<nat>)
    ensures r.None? <==> !HasKey(cart, key)
    ensures r.Some? ==> FirstWithKey(cart, key, r.value)
  {
    if |cart| == 0 then None
    else if cart[0].key == key then Some(0)
    else
      match FindLine(cart[1..], key)
      case None =>
        assert forall i :: 1 <= i < |cart| ==> cart[i] == cart[1..][i - 1];
        None
      case Some(i) => Some(i + 1)
  }

  /** `addToCart`: an unparsable or non-positive quantity changes nothing; otherwise the quantity
      is added to the line with the same key, or a new line is appended at the end. */
  function Add(cart: seq<CartLine>, product: Product, batch: Batch, qty: Option<real>): (r: seq<CartLine>)
    ensures !Accepted(qty) ==> r == cart
    ensures Accepted(qty) && !HasKey(cart, LineKey(product.id, batch.id)) ==>
      r == cart + [NewLine(product, batch, qty.value)]
    ensures Accepted(qty) && HasKey(cart, LineKey(product.id, batch.id)) ==>
      exists i :: FirstWithKey(cart, LineKey(product.id, batch.id), i) &&
        r == cart[i := cart[i].(quantity := cart[i].quantity + qty.value)]
    ensures UniqueKeys(cart) ==> UniqueKeys(r)
    ensures PositiveQuantities(cart) ==> PositiveQuantities(r)
  {
    if !Accepted(qty) then cart
    else
      var key := LineKey(product.id, batch.id);
      match FindLine(cart, key)
      case Some(i) => cart[i := cart[i].(quantity := cart[i].quantity + qty.value)]
      case None => cart + [NewLine(product, batch, qty.value)]
  }

  /** `removeFromCart`: keeps, in order, the lines whose key differs. */
  function Remove(cart: seq<CartLine>, key: string): (r: seq<CartLine>)
    ensures |r| <= |cart|
    ensures !HasKey(cart, key) ==> r == cart
  {
    if cart == [] then []
    else
      var rest := Remove(cart[1..], key);
      assert HasKey(cart[1..], key) ==> HasKey(cart, key) by {
        if HasKey(cart[1..], key) {
          var j :| 0 <= j < |cart[1..]| && cart[1..][j].key == key;
          assert cart[j + 1].key == key;
        }
      }
      if cart[0].key == key then rest else [cart[0]] + rest
  }

  /** Exactly the lines with another key survive a removal. */
  lemma {:induction false} RemoveMembers(cart: seq<CartLine>, key: string)
    ensures forall l :: l in Remove(cart, key) <==> l in cart && l.key != key
  {
    if cart != [] {
      RemoveMembers(cart[1..], key);
      assert forall l :: l in cart <==> l == cart[0] || l in cart[1..];
    }
  }

  /** A removal leaves no line with the key, and keeps unique keys and positive quantities. */
  lemma RemoveContents(cart: seq<CartLine>, key: string)
    ensures !HasKey(Remove(cart, key), key)
    ensures UniqueKeys(cart) ==> UniqueKeys(Remove(cart, key))
    ensures PositiveQuantities(cart) ==> PositiveQuantities(Remove(cart, key))
  {
    var r := Remove(cart, key);
    RemoveMembers(cart, key);
    assert forall i :: 0 <= i < |r| ==> r[i] in r;
    if UniqueKeys(cart) {
      RemoveKeepsUnique(cart, key);
    }
  }

  lemma {:induction false} RemoveKeepsUnique(cart: seq<CartLine>, key: string)
    requires UniqueKeys(cart)
    ensures UniqueKeys(Remove(cart, key))
  {
    if cart != [] {
      var tail := cart[1..];
      var rest := Remove(tail, key);
      assert UniqueKeys(tail);
      RemoveKeepsUnique(tail, key);
      if cart[0].key != key {
        RemoveMembers(tail, key);
        assert forall j :: 0 <= j < |tail| ==> tail[j] == cart[j + 1];
        assert forall l :: l in rest ==> l.key != cart[0].key;
        assert forall i :: 0 <= i < |rest| ==> rest[i] in rest;
      }
    }
  }

  /** Changing only quantities keeps every key where it was, so unique keys stay unique. */
  lemma OnlyQuantityKeepsKeys(cart: seq<CartLine>, r: seq<CartLine>, key: string)
    requires OnlyQuantityOf(cart, r, key)
    ensures forall i :: 0 <= i < |r| ==> r[i].key == cart[i].key
    ensures UniqueKeys(cart) ==> UniqueKeys(r)
  {
    assert forall i :: 0 <= i < |r| ==> r[i].key == cart[i].key;
  }

  /** `updateQuantity`: an accepted value overwrites the quantity of the matching lines, with no
      upper bound; anything else changes nothing. */
  function SetQuantity(cart: seq<CartLine>, key: string, v: Option<real>): (r: seq<CartLine>)
    ensures OnlyQuantityOf(cart, r, key)
    ensures !Accepted(v) ==> r == cart
    ensures Accepted(v) ==> forall i :: 0 <= i < |cart| && cart[i].key == key ==> r[i].quantity == v.value
    ensures PositiveQuantities(cart) ==> PositiveQuantities(r)
  {
    if !Accepted(v) then cart
    else seq(|cart|, i requires 0 <= i < |cart| =>
           if cart[i].key == key then cart[i].(quantity := v.value) else cart[i])
  }

  /** `incrementQuantity`: the matching lines grow by their unit's step, rounded to hundredths.
      On the hundredths grid the step is added exactly. */
  function Increment(cart: seq<CartLine>, key: string): (r: seq<CartLine>)
    ensures OnlyQuantityOf(cart, r, key)
    ensures forall i :: 0 <= i < |cart| && cart[i].key == key ==>
      && OnCents(r[i].quantity)
      && cart[i].quantity + Step(cart[i].unit) - 0.005 < r[i].quantity <= cart[i].quantity + Step(cart[i].unit) + 0.005
      && (OnCents(cart[i].quantity) ==> r[i].quantity == cart[i].quantity + Step(cart[i].unit))
    ensures PositiveQuantities(cart) ==> PositiveQuantities(r)
  {
    var r := seq(|cart|, i requires 0 <= i < |cart| =>
      if cart[i].key == key then cart[i].(quantity := RoundCents(cart[i].quantity + Step(cart[i].unit)))
      else cart[i]);
    forall i | 0 <= i < |cart| && cart[i].key == key
      ensures OnCents(cart[i].quantity) ==> r[i].quantity == cart[i].quantity + Step(cart[i].unit)
    {
      StepOnGrid(cart[i].quantity, Step(cart[i].unit));
    }
    r
  }

  /** The quantity `decrementQuantity` gives a line: one step less, rounded to hundredths,
      but never below the step itself (1 for pieces, 0.1 otherwise). Off the hundredths grid
      the result is the step or within half a hundredth of one step less. */
  function Lowered(q: real, step: real): (r: real)
    requires step > 0.0 && OnCents(step)
    ensures OnCents(r) && r >= step
    ensures r == step || q - step - 0.005 < r <= q - step + 0.005
    ensures q - step - 0.005 >= step ==> q - step - 0.005 < r <= q - step + 0.005
    ensures q - step + 0.005 < step ==> r == step
    ensures OnCents(q) ==> r == if q - step >= step then q - step else step
  {
    var lowered := RoundCents(q - step);
    StepOnGrid(q, step);
    if lowered >= step then lowered else step
  }

  /** `decrementQuantity`: the matching lines shrink by their unit's step as `Lowered` says;
      every other line is untouched. */
  function Decrement(cart: seq<CartLine>, key: string): (r: seq<CartLine>)
    ensures OnlyQuantityOf(cart, r, key)
    ensures forall i :: 0 <= i < |cart| && cart[i].key == key ==>
      r[i].quantity == Lowered(cart[i].quantity, Step(cart[i].unit))
    ensures PositiveQuantities(cart) ==> PositiveQuantities(r)
  {
    seq(|cart|, i requires 0 <= i < |cart| =>
      if cart[i].key == key then cart[i].(quantity := Lowered(cart[i].quantity, Step(cart[i].unit)))
      else cart[i])
  }

  /** What one line contributes to the subtotal (the amount shown on the line). */
  function LineAmount(l: CartLine): real
  {
    l.price * l.quantity
  }

  /** `calculateTotal`: the sum of price times quantity, folded from the first line. */
  function Total(cart: seq<CartLine>): real
  {
    if cart == [] then 0.0
    else Total(cart[..|cart| - 1]) + LineAmount(cart[|cart| - 1])
  }

  /** The tax line: a flat 10% of the subtotal. */
  function Tax(cart: seq<CartLine>): real
  {
    Total(cart) * 0.1
  }

  /** The grand total shown under the tax line, `subtotal * 1.1`: subtotal plus tax. */
  function GrandTotal(cart: seq<CartLine>): (r: real)
    ensures r == Total(cart) + Tax(cart)
    ensures cart == [] ==> r == 0.0
  {
    Total(cart) * 1.1
  }

  /** The subtotal of two carts laid end to end is the sum of their subtotals. */
  lemma {:induction false} TotalConcat(a: seq<CartLine>, b: seq<CartLine>)
    ensures Total(a + b) == Total(a) + Total(b)
    decreases |b|
  {
    if b == [] {
      assert a + b == a;
    } else {
      var n := |b| - 1;
      assert (a + b)[..|a + b| - 1] == a + b[..n];
      TotalConcat(a, b[..n]);
    }
  }

  /** Replacing one line changes the subtotal by exactly that line's change in price times quantity. */
  lemma {:induction false} TotalReplace(cart: seq<CartLine>, i: nat, l: CartLine)
    requires i < |cart|
    ensures Total(cart[i := l]) == Total(cart) - LineAmount(cart[i]) + LineAmount(l)
  {
    var n := |cart| - 1;
    if i == n {
      assert cart[i := l][..n] == cart[..n];
    } else {
      assert cart[i := l][..n] == cart[..n][i := l];
      TotalReplace(cart[..n], i, l);
    }
  }

  /** With non-negative prices and positive quantities the subtotal is never negative. */
  lemma {:induction false} TotalNonNegative(cart: seq<CartLine>)
    requires PositiveQuantities(cart)
    requires forall i :: 0 <= i < |cart| ==> cart[i].price >= 0.0
    ensures Total(cart) >= 0.0
  {
    if cart != [] {
      var n := |cart| - 1;
      TotalNonNegative(cart[..n]);
      assert LineAmount(cart[n]) >= 0.0;
    }
  }

  /** Adding an accepted quantity `q` of a batch not yet in the cart raises the subtotal by `q`
      times the batch price. */
  lemma AddNewLineTotal(cart: seq<CartLine>, product: Product, batch: Batch, q: real)
    requires q > 0.0 && !HasKey(cart, LineKey(product.id, batch.id))
    ensures Total(Add(cart, product, batch, Some(q))) == Total(cart) + batch.price * q
  {
    TotalSnoc(cart, NewLine(product, batch, q));
  }

  /** Adding an accepted quantity `q` of a batch already on line `i` raises the subtotal by `q`
      times the price recorded on that line when it was first added. */
  lemma AddExistingTotal(cart: seq<CartLine>, product: Product, batch: Batch, q: real, i: nat)
    requires q > 0.0 && FirstWithKey(cart, LineKey(product.id, batch.id), i)
    ensures Total(Add(cart, product, batch, Some(q))) == Total(cart) + cart[i].price * q
  {
    assert Add(cart, product, batch, Some(q)) == cart[i := cart[i].(quantity := cart[i].quantity + q)];
    RaiseLineTotal(cart, i, q);
  }

  /** Raising line `i` by `q` raises the subtotal by `q` times that line's price. */
  lemma RaiseLineTotal(cart: seq<CartLine>, i: nat, q: real)
    requires i < |cart|
    ensures Total(cart[i := cart[i].(quantity := cart[i].quantity + q)]) == Total(cart) + cart[i].price * q
  {
    var l := cart[i];
    var raised := l.(quantity := l.quantity + q);
    TotalReplace(cart, i, raised);
    assert LineAmount(raised) == LineAmount(l) + l.price * q by {
      assert l.price * (l.quantity + q) == l.price * l.quantity + l.price * q;
    }
  }

  /** Adding the same batch twice, with `q1` then `q2`, yields one line of `q1 + q2`, never two. */
  lemma AddTwiceMerges(cart: seq<CartLine>, product: Product, batch: Batch, q1: real, q2: real)
    requires q1 > 0.0 && q2 > 0.0
    requires !HasKey(cart, LineKey(product.id, batch.id))
    ensures Add(Add(cart, product, batch, Some(q1)), product, batch, Some(q2))
            == cart + [NewLine(product, batch, q1 + q2)]
  {
    var key := LineKey(product.id, batch.id);
    var once := cart + [NewLine(product, batch, q1)];
    assert once[|cart|].key == key;
    assert FindLine(once, key) == Some(|cart|);
    assert once[|cart| := once[|cart|].(quantity := q1 + q2)] == cart + [NewLine(product, batch, q1 + q2)];
  }

  /** With unique keys, removing the first line's key drops exactly the first line. */
  lemma RemoveHead(cart: seq<CartLine>)
    requires UniqueKeys(cart) && |cart| > 0
    ensures Remove(cart, cart[0].key) == cart[1..]
  {
    var tail := cart[1..];
    assert forall j :: 0 <= j < |tail| ==> tail[j] == cart[j + 1];
    assert !HasKey(tail, cart[0].key);
  }

  /** With unique keys, removing a line's key drops that one line and keeps the rest in order. */
  lemma {:induction false} RemoveOneLine(cart: seq<CartLine>, i: nat)
    requires UniqueKeys(cart) && i < |cart|
    ensures Remove(cart, cart[i].key) == cart[..i] + cart[i + 1..]
  {
    if i == 0 {
      RemoveHead(cart);
      assert cart[..0] + cart[1..] == cart[1..];
    } else {
      var tail := cart[1..];
      assert cart[0].key != cart[i].key;
      assert tail[i - 1] == cart[i];
      assert UniqueKeys(tail);
      RemoveOneLine(tail, i - 1);
      assert tail[..i - 1] + tail[i..] == cart[1..i] + cart[i + 1..];
      assert [cart[0]] + (cart[1..i] + cart[i + 1..]) == cart[..i] + cart[i + 1..];
    }
  }

  /** Dropping line `i` lowers the subtotal by exactly that line's price times quantity. */
  lemma {:induction false} TotalDropOne(cart: seq<CartLine>, i: nat)
    requires i < |cart|
    ensures Total(cart[..i] + cart[i + 1..]) == Total(cart) - LineAmount(cart[i])
  {
    var n := |cart| - 1;
    if i == n {
      assert cart[..i] + cart[i + 1..] == cart[..n];
    } else {
      var shorter := cart[..n];
      var dropped := shorter[..i] + shorter[i + 1..];
      assert cart[..i] + cart[i + 1..] == dropped + [cart[n]];
      TotalDropOne(shorter, i);
      TotalSnoc(dropped, cart[n]);
    }
  }

  /** Removing a line's key lowers the subtotal by exactly that line's price times quantity. */
  lemma RemoveLowersTotal(cart: seq<CartLine>, i: nat)
    requires UniqueKeys(cart) && i < |cart|
    ensures Total(Remove(cart, cart[i].key)) == Total(cart) - LineAmount(cart[i])
  {
    RemoveOneLine(cart, i);
    TotalDropOne(cart, i);
  }

  /** Appending one line adds its price times quantity to the subtotal. */
  lemma TotalSnoc(cart: seq<CartLine>, line: CartLine)
    ensures Total(cart + [line]) == Total(cart) + LineAmount(line)
  {
    assert (cart + [line])[..|cart|] == cart;
  }
}
