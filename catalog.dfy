/** The product catalog screen's pure logic: stock and price aggregates of a product's batches,
    the generated barcode, the search filter, the expanded-rows list, the inventory summary,
    and the list transformations behind the add/edit/delete handlers. */
module Catalog {
  import opened Inventory
  import opened Text

  // ---------------------------------------------------------------------------------------
  // Aggregates over one product's batches

  /** `calculateTotalStock`: the sum of the batch quantities. */
  function Stock(bs: seq<Batch>): int
  {
    if bs == [] then 0 else bs[0].quantity + Stock(bs[1..])
  }

  /** What one batch is worth: its price times its quantity. */
  function BatchValue(b: Batch): real
  {
    b.price * b.quantity as real
  }

  /** The sum of the batch values, the numerator of the weighted average. */
  function Value(bs: seq<Batch>): real
  {
    if bs == [] then 0.0 else BatchValue(bs[0]) + Value(bs[1..])
  }

  lemma {:induction false} StockConcat(a: seq<Batch>, b: seq<Batch>)
    ensures Stock(a + b) == Stock(a) + Stock(b)
  {
    if a == [] {
      assert a + b == b;
    } else {
      assert (a + b)[1..] == a[1..] + b;
      StockConcat(a[1..], b);
    }
  }

  /** `calculateAveragePrice`: no batches, or a total quantity that is not positive, give 0;
      otherwise the result times the total quantity is the total value. */
  function AveragePrice(bs: seq<Batch>): (r: real)
    ensures |bs| == 0 || Stock(bs) <= 0 ==> r == 0.0
    ensures Stock(bs) > 0 ==> r * Stock(bs) as real == Value(bs)
  {
    if |bs| == 0 then 0.0
    else
      var totalValue := Value(bs);
      var totalQuantity := Stock(bs);
      if totalQuantity > 0 then totalValue / totalQuantity as real else 0.0
  }

  /** With non-negative quantities and every price between `lo` and `hi`, the total value lies
      between `lo` and `hi` times the total quantity. */
  lemma {:induction false} ValueBounds(bs: seq<Batch>, lo: real, hi: real)
    requires forall i :: 0 <= i < |bs| ==> bs[i].quantity >= 0 && lo <= bs[i].price <= hi
    ensures lo * Stock(bs) as real <= Value(bs) <= hi * Stock(bs) as real
  {
    if bs != [] {
      ValueBounds(bs[1..], lo, hi);
      var q := bs[0].quantity as real;
      assert (bs[0].price - lo) * q >= 0.0;
      assert (hi - bs[0].price) * q >= 0.0;
      assert Stock(bs) as real == q + Stock(bs[1..]) as real;
    }
  }

  /** The weighted average lies between the cheapest and the dearest batch price. */
  lemma AverageBetween(bs: seq<Batch>, lo: real, hi: real)
    requires forall i :: 0 <= i < |bs| ==> bs[i].quantity >= 0 && lo <= bs[i].price <= hi
    requires Stock(bs) > 0
    ensures lo <= AveragePrice(bs) <= hi
  {
    var v, s := Value(bs), Stock(bs) as real;
    assert lo * s <= v <= hi * s by { ValueBounds(bs, lo, hi); }
    assert AveragePrice(bs) == v / s by { AverageIsQuotient(bs); }
    QuotientBetween(v, s, lo, hi);
  }

  /** With stock on hand, the average price is the total value over the total quantity. */
  lemma AverageIsQuotient(bs: seq<Batch>)
    requires Stock(bs) > 0
    ensures AveragePrice(bs) == Value(bs) / Stock(bs) as real
  {
    assert bs != [];
  }

  /** A value between `lo * s` and `hi * s`, divided by a positive `s`, lies between `lo` and
      `hi`. */
  lemma QuotientBetween(v: real, s: real, lo: real, hi: real)
    requires s > 0.0 && lo * s <= v <= hi * s
    ensures lo <= v / s <= hi
  {
    var r := v / s;
    assert r * s == v;
    assert (r - lo) * s >= 0.0;
    assert (hi - r) * s >= 0.0;
  }

  /** `k` is the batch a stable sort by expiry, latest first, puts in front: no batch expires
      later, and every batch before it expires strictly earlier. */
  predicate IsLatest(bs: seq<Batch>, k: int)
  {
    && 0 <= k < |bs|
    && (forall j :: 0 <= j < |bs| ==> bs[j].expiry <= bs[k].expiry)
    && (forall j :: 0 <= j < k ==> bs[j].expiry < bs[k].expiry)
  }

  /** The front of the sorted copy, found in one pass from the first batch. */
  function LatestIndex(bs: seq<Batch>): (k: nat)
    requires |bs| > 0
    ensures IsLatest(bs, k)
  {
    if |bs| == 1 then 0
    else
      var n := |bs| - 1;
      var k := LatestIndex(bs[..n]);
      assert forall j :: 0 <= j < n ==> bs[..n][j] == bs[j];
      if bs[n].expiry > bs[k].expiry then n else k
  }

  /** There is only one front batch. */
  lemma LatestUnique(bs: seq<Batch>, k1: int, k2: int)
    requires IsLatest(bs, k1) && IsLatest(bs, k2)
    ensures k1 == k2
  {
    assert bs[k1].expiry <= bs[k2].expiry && bs[k2].expiry <= bs[k1].expiry;
  }

  /** `getLatestBatchPrice`: 0 without batches, otherwise the price of the batch a stable sort
      by expiry, latest first, puts in front. */
  function LatestBatchPrice(bs: seq<Batch>): (r: real)
    ensures |bs| == 0 ==> r == 0.0
    ensures |bs| > 0 ==> exists k :: IsLatest(bs, k) && r == bs[k].price
  {
    if |bs| == 0 then 0.0 else bs[LatestIndex(bs)].price
  }

  // ---------------------------------------------------------------------------------------
  // Generated barcodes

  function Zeros(n: nat): (r: string)
    ensures |r| == n && forall i :: 0 <= i < n ==> r[i] == '0'
  {
    seq(n, _ => '0')
  }

  /** `s.slice(-n)`: the last `n` characters, or all of a shorter string. */
  function TakeLast(s: string, n: nat): (r: string)
    ensures |r| == if |s| <= n then |s| else n
    ensures r == s[|s| - |r|..]
  {
    if |s| <= n then s else s[|s| - n..]
  }

  /** `s.padStart(n, "0")`. */
  function PadZeros(s: string, n: nat): (r: string)
    ensures |r| == if |s| >= n then |s| else n
    ensures r == Zeros(|r| - |s|) + s
  {
    if |s| >= n then s else Zeros(n - |s|) + s
  }

  predicate AllDigits(s: string)
  {
    forall i :: 0 <= i < |s| ==> '0' <= s[i] <= '9'
  }

  /** `generateBarcode`: "2000000" followed by the id's last three characters, zero-padded on
      the left to three, so always ten characters; digits only when the id is digits only. */
  function GenerateBarcode(id: string): (r: string)
    ensures |r| == 10
    ensures r[..7] == "2000000"
    ensures |id| >= 3 ==> r[7..] == id[|id| - 3..]
    ensures |id| < 3 ==> r[7..] == Zeros(3 - |id|) + id
    ensures AllDigits(id) ==> AllDigits(r)
  {
    var tail := PadZeros(TakeLast(id, 3), 3);
    var r := "2000000" + tail;
    assert r[7..] == tail;
    r
  }

  // ---------------------------------------------------------------------------------------
  // Search filter and expanded rows

  /** A product matches a term when its lower-cased name or category includes the lower-cased
      term, or its barcode includes the term as typed. */
  predicate Matches(p: Product, term: string)
  {
    || Contains(Lower(p.name), Lower(term))
    || Contains(Lower(p.category), Lower(term))
    || Contains(p.barcode, term)
  }

  /** `filteredProducts`: the matching products, in catalog order. */
  function FilterProducts(ps: seq<Product>, term: string): (r: seq<Product>)
    ensures forall p :: p in r <==> p in ps && Matches(p, term)
    ensures |r| <= |ps|
    ensures term == "" ==> r == ps
  {
    if ps == [] then []
    else
      assert forall p :: p in ps <==> p == ps[0] || p in ps[1..];
      ContainsLowerEmpty(ps[0].name, term);
      assert ps == [ps[0]] + ps[1..];
      (if Matches(ps[0], term) then [ps[0]] else []) + FilterProducts(ps[1..], term)
  }

  /** Filtering a catalog made of two parts filters each part and keeps them in order. */
  lemma {:induction false} FilterConcat(a: seq<Product>, b: seq<Product>, term: string)
    ensures FilterProducts(a + b, term) == FilterProducts(a, term) + FilterProducts(b, term)
  {
    if a == [] {
      assert a + b == b;
    } else {
      assert (a + b)[1..] == a[1..] + b;
      FilterConcat(a[1..], b, term);
    }
  }

  /** Filtering the filtered list again changes nothing. */
  lemma {:induction false} FilterIdempotent(ps: seq<Product>, term: string)
    ensures FilterProducts(FilterProducts(ps, term), term) == FilterProducts(ps, term)
  {
    if ps != [] {
      FilterIdempotent(ps[1..], term);
      var rest := FilterProducts(ps[1..], term);
      if Matches(ps[0], term) {
        var r := [ps[0]] + rest;
        assert r[1..] == rest;
      } else {
        assert FilterProducts(ps, term) == rest;
      }
    }
  }

  predicate NoDuplicates(l: seq<string>)
  {
    forall i, j :: 0 <= i < j < |l| ==> l[i] != l[j]
  }

  /** `l.filter(y => y !== x)`. */
  function Without(l: seq<string>, x: string): (r: seq<string>)
    ensures forall y :: y in r <==> y in l && y != x
    ensures x !in l ==> r == l
    ensures NoDuplicates(l) ==> NoDuplicates(r)
  {
    if l == [] then []
    else
      var rest := Without(l[1..], x);
      assert forall y :: y in l <==> y == l[0] || y in l[1..];
      assert l == [l[0]] + l[1..];
      if l[0] == x then rest
      else
        assert NoDuplicates(l) ==> l[0] !in rest;
        [l[0]] + rest
  }

  /** `toggleProductExpand`: a listed id is taken out, an unlisted one is appended; every other
      id keeps its membership. */
  function Toggled(l: seq<string>, x: string): (r: seq<string>)
    ensures x in r <==> x !in l
    ensures forall y :: y != x ==> (y in r <==> y in l)
    ensures x !in l ==> r == l + [x]
    ensures NoDuplicates(l) ==> NoDuplicates(r)
  {
    if x in l then Without(l, x) else l + [x]
  }

  /** Toggling twice restores which rows are expanded; a row that was collapsed comes back to
      exactly the list it started from. */
  lemma ToggleTwice(l: seq<string>, x: string)
    ensures forall y :: y in Toggled(Toggled(l, x), x) <==> y in l
    ensures x !in l && NoDuplicates(l) ==> Toggled(Toggled(l, x), x) == l
  {
    if x !in l && NoDuplicates(l) {
      var once := l + [x];
      WithoutLast(l, x);
    }
  }

  /** Taking a fresh last element back out leaves the list it was appended to. */
  lemma {:induction false} WithoutLast(l: seq<string>, x: string)
    requires x !in l
    ensures Without(l + [x], x) == l
  {
    if l == [] {
      assert Without([x][1..], x) == [];
    } else {
      assert (l + [x])[1..] == l[1..] + [x];
      WithoutLast(l[1..], x);
      assert l == [l[0]] + l[1..];
    }
  }

  // ---------------------------------------------------------------------------------------
  // Inventory summary

  /** "Total Batches": the number of batches over all products. */
  function TotalBatches(ps: seq<Product>): nat
  {
    if ps == [] then 0 else |ps[0].batches| + TotalBatches(ps[1..])
  }

  /** "Products with No Stock": products whose total stock is exactly 0. */
  function NoStockCount(ps: seq<Product>): nat
  {
    if ps == [] then 0 else (if Stock(ps[0].batches) == 0 then 1 else 0) + NoStockCount(ps[1..])
  }

  /** "Low Stock Items": products whose total stock is above 0 and at most 20. */
  function LowStockCount(ps: seq<Product>): nat
  {
    if ps == [] then 0
    else (if 0 < Stock(ps[0].batches) <= 20 then 1 else 0) + LowStockCount(ps[1..])
  }

  /** The two stock warnings never overlap, so together they count at most every product once;
      each is zero exactly when no product is in its band. */
  lemma {:induction false} StockWarnings(ps: seq<Product>)
    ensures NoStockCount(ps) + LowStockCount(ps) <= |ps|
    ensures NoStockCount(ps) == 0 <==> forall p :: p in ps ==> Stock(p.batches) != 0
    ensures LowStockCount(ps) == 0 <==> forall p :: p in ps ==> !(0 < Stock(p.batches) <= 20)
  {
    if ps != [] {
      StockWarnings(ps[1..]);
      assert forall p :: p in ps <==> p == ps[0] || p in ps[1..];
    }
  }

  /** The count shown beside a category: the products filed under it. */
  function CategoryCount(ps: seq<Product>, c: string): (r: nat)
    ensures r <= |ps|
    ensures r == 0 <==> forall p :: p in ps ==> p.category != c
  {
    if ps == [] then 0
    else
      assert forall p :: p in ps <==> p == ps[0] || p in ps[1..];
      (if ps[0].category == c then 1 else 0) + CategoryCount(ps[1..], c)
  }

  /** `Array.from(new Set(products.map(p => p.category)))`: each category once, in order of
      first appearance. */
  function Categories(ps: seq<Product>): (r: seq<string>)
    ensures NoDuplicates(r)
    ensures forall c :: c in r <==> exists p :: p in ps && p.category == c
  {
    if ps == [] then []
    else
      var n := |ps| - 1;
      var prev := Categories(ps[..n]);
      assert forall p :: p in ps <==> p == ps[n] || p in ps[..n];
      if ps[n].category in prev then prev else prev + [ps[n].category]
  }

  /** The category rows' counts added up, over the categories `cs`. */
  function SumCounts(ps: seq<Product>, cs: seq<string>): nat
  {
    if cs == [] then 0 else SumCounts(ps, cs[..|cs| - 1]) + CategoryCount(ps, cs[|cs| - 1])
  }

  lemma {:induction false} CategoryCountSnoc(ps: seq<Product>, p: Product, c: string)
    ensures CategoryCount(ps + [p], c) == CategoryCount(ps, c) + (if p.category == c then 1 else 0)
  {
    if ps == [] {
      assert ps + [p] == [p];
    } else {
      assert (ps + [p])[1..] == ps[1..] + [p];
      CategoryCountSnoc(ps[1..], p, c);
    }
  }

  lemma {:induction false} SumCountsSnoc(ps: seq<Product>, p: Product, cs: seq<string>)
    requires NoDuplicates(cs)
    ensures SumCounts(ps + [p], cs) == SumCounts(ps, cs) + (if p.category in cs then 1 else 0)
  {
    if cs != [] {
      var n := |cs| - 1;
      assert NoDuplicates(cs[..n]);
      SumCountsSnoc(ps, p, cs[..n]);
      CategoryCountSnoc(ps, p, cs[n]);
      assert p.category in cs <==> p.category in cs[..n] || p.category == cs[n];
      assert cs[n] !in cs[..n];
    }
  }

  /** Every product is counted under exactly one category row, so the rows add up to the number
      of products. */
  lemma {:induction false} CategoriesPartition(ps: seq<Product>)
    ensures SumCounts(ps, Categories(ps)) == |ps|
  {
    if ps != [] {
      var n := |ps| - 1;
      var prev := Categories(ps[..n]);
      CategoriesPartition(ps[..n]);
      assert ps[..n] + [ps[n]] == ps;
      SumCountsSnoc(ps[..n], ps[n], prev);
      if ps[n].category !in prev {
        var cs := prev + [ps[n].category];
        assert cs[..|cs| - 1] == prev;
        CategoryCountSnoc(ps[..n], ps[n], ps[n].category);
        assert CategoryCount(ps[..n], ps[n].category) == 0;
      }
    }
  }

  // ---------------------------------------------------------------------------------------
  // The list transformations of the add/edit/delete handlers

  /** The product dialog's fields. */
  datatype ProductForm = ProductForm(name: string, unit: Unit, category: string, barcode: string, imageUrl: string)

  /** The batch dialog's fields, as the handlers parse them. */
  datatype BatchForm = BatchForm(batchNumber: string, expiry: int, quantity: int, price: real)

  /** How many products carry the id. */
  function CountId(ps: seq<Product>, id: string): nat
  {
    if ps == [] then 0 else (if ps[0].id == id then 1 else 0) + CountId(ps[1..], id)
  }

  /** `handleEditProduct` on one product: the form's fields replace the product's, except that
      an empty image URL keeps the old one; the id and the batches stay. */
  function Edited(p: Product, f: ProductForm): (r: Product)
    ensures r.id == p.id && r.batches == p.batches
    ensures r.name == f.name && r.unit == f.unit && r.category == f.category && r.barcode == f.barcode
    ensures r.imageUrl == if f.imageUrl == "" then p.imageUrl else f.imageUrl
  {
    p.(name := f.name, unit := f.unit, category := f.category, barcode := f.barcode,
       imageUrl := if f.imageUrl != "" then f.imageUrl else p.imageUrl)
  }

  /** The products after `handleEditProduct`: every product with the id is edited, every other
      one is untouched, and no id and no batch list changes. */
  function EditProducts(ps: seq<Product>, id: string, f: ProductForm): (r: seq<Product>)
    ensures |r| == |ps|
    ensures forall i :: 0 <= i < |ps| ==> r[i].id == ps[i].id && r[i].batches == ps[i].batches
    ensures forall i :: 0 <= i < |ps| ==> r[i] == if ps[i].id == id then Edited(ps[i], f) else ps[i]
  {
    seq(|ps|, i requires 0 <= i < |ps| => if ps[i].id == id then Edited(ps[i], f) else ps[i])
  }

  /** `handleDeleteProduct`: keeps, in order, the products with another id. */
  function RemoveProduct(ps: seq<Product>, id: string): (r: seq<Product>)
    ensures forall p {:trigger p in r} :: p in r <==> p in ps && p.id != id
    ensures CountId(r, id) == 0
    ensures CountId(ps, id) == 0 ==> r == ps
    ensures |r| == |ps| - CountId(ps, id)
  {
    if ps == [] then []
    else
      var rest := RemoveProduct(ps[1..], id);
      assert forall p :: p in ps <==> p == ps[0] || p in ps[1..];
      assert ps == [ps[0]] + ps[1..];
      if ps[0].id == id then rest
      else
        assert ([ps[0]] + rest)[1..] == rest;
        [ps[0]] + rest
  }

  /** Deleting from a product list made of two parts deletes from each part and keeps them in order. */
  lemma {:induction false} RemoveProductConcat(a: seq<Product>, b: seq<Product>, id: string)
    ensures RemoveProduct(a + b, id) == RemoveProduct(a, id) + RemoveProduct(b, id)
  {
    if a == [] {
      assert a + b == b;
    } else {
      assert (a + b)[1..] == a[1..] + b;
      RemoveProductConcat(a[1..], b, id);
    }
  }

  /** With one product carrying the id, deleting it drops exactly that product and keeps the
      others in order. */
  lemma RemoveProductOne(ps: seq<Product>, i: nat)
    requires i < |ps| && CountId(ps, ps[i].id) == 1
    ensures RemoveProduct(ps, ps[i].id) == ps[..i] + ps[i + 1..]
  {
    var id := ps[i].id;
    assert ps == ps[..i] + ([ps[i]] + ps[i + 1..]);
    CountIdConcat(ps[..i], [ps[i]] + ps[i + 1..], id);
    CountIdConcat([ps[i]], ps[i + 1..], id);
    RemoveProductConcat(ps[..i], [ps[i]] + ps[i + 1..], id);
    RemoveProductConcat([ps[i]], ps[i + 1..], id);
    assert RemoveProduct([ps[i]], id) == [];
  }

  lemma {:induction false} CountIdConcat(a: seq<Product>, b: seq<Product>, id: string)
    ensures CountId(a + b, id) == CountId(a, id) + CountId(b, id)
  {
    if a == [] {
      assert a + b == b;
    } else {
      assert (a + b)[1..] == a[1..] + b;
      CountIdConcat(a[1..], b, id);
    }
  }

  /** The products after `handleAddBatch`: the batch is appended to every product with the id,
      every other product is untouched. */
  function AppendBatch(ps: seq<Product>, id: string, b: Batch): (r: seq<Product>)
    ensures |r| == |ps|
    ensures forall i :: 0 <= i < |ps| ==>
      r[i] == if ps[i].id == id then ps[i].(batches := ps[i].batches + [b]) else ps[i]
  {
    seq(|ps|, i requires 0 <= i < |ps| =>
      if ps[i].id == id then ps[i].(batches := ps[i].batches + [b]) else ps[i])
  }

  /** Adding a batch raises the batch count by the number of products carrying the id (one,
      when ids are unique) and the stock of such a product by the batch's quantity. */
  lemma {:induction false} AppendBatchCounts(ps: seq<Product>, id: string, b: Batch)
    ensures TotalBatches(AppendBatch(ps, id, b)) == TotalBatches(ps) + CountId(ps, id)
    ensures forall i :: 0 <= i < |ps| && ps[i].id == id ==>
      Stock(AppendBatch(ps, id, b)[i].batches) == Stock(ps[i].batches) + b.quantity
  {
    if ps != [] {
      assert AppendBatch(ps, id, b)[1..] == AppendBatch(ps[1..], id, b);
      AppendBatchCounts(ps[1..], id, b);
    }
    forall i | 0 <= i < |ps| && ps[i].id == id
      ensures Stock(AppendBatch(ps, id, b)[i].batches) == Stock(ps[i].batches) + b.quantity
    {
      StockConcat(ps[i].batches, [b]);
      assert Stock([b]) == b.quantity + Stock([]);
    }
  }

  /** `handleEditBatch` on one batch: the form's fields replace the batch's; the id stays. */
  function Rewritten(b: Batch, f: BatchForm): (r: Batch)
    ensures r.id == b.id
    ensures r.batchNumber == f.batchNumber && r.expiry == f.expiry && r.quantity == f.quantity && r.price == f.price
  {
    b.(batchNumber := f.batchNumber, expiry := f.expiry, quantity := f.quantity, price := f.price)
  }

  /** The batches of the edited product: the ones with the batch id are rewritten. */
  function EditBatchIn(bs: seq<Batch>, batchId: string, f: BatchForm): (r: seq<Batch>)
    ensures |r| == |bs|
    ensures forall i :: 0 <= i < |bs| ==> r[i].id == bs[i].id
    ensures forall i :: 0 <= i < |bs| ==> r[i] == if bs[i].id == batchId then Rewritten(bs[i], f) else bs[i]
  {
    seq(|bs|, i requires 0 <= i < |bs| => if bs[i].id == batchId then Rewritten(bs[i], f) else bs[i])
  }

  /** The products after `handleEditBatch`: only the product with the id has its batches
      rewritten; the number of batches never changes. */
  function EditBatches(ps: seq<Product>, id: string, batchId: string, f: BatchForm): (r: seq<Product>)
    ensures |r| == |ps|
    ensures forall i :: 0 <= i < |ps| ==>
      r[i] == if ps[i].id == id then ps[i].(batches := EditBatchIn(ps[i].batches, batchId, f)) else ps[i]
    ensures TotalBatches(r) == TotalBatches(ps)
  {
    if ps == [] then []
    else
      var first := if ps[0].id == id then ps[0].(batches := EditBatchIn(ps[0].batches, batchId, f)) else ps[0];
      var r := [first] + EditBatches(ps[1..], id, batchId, f);
      assert r[1..] == EditBatches(ps[1..], id, batchId, f);
      r
  }

  /** `product.batches.filter(b => b.id !== batchId)`. */
  function RemoveBatchIn(bs: seq<Batch>, batchId: string): (r: seq<Batch>)
    ensures forall b {:trigger b in r} :: b in r <==> b in bs && b.id != batchId
    ensures |r| <= |bs|
    ensures (forall b :: b in bs ==> b.id != batchId) ==> r == bs
  {
    if bs == [] then []
    else
      var rest := RemoveBatchIn(bs[1..], batchId);
      assert forall b :: b in bs <==> b == bs[0] || b in bs[1..];
      assert bs == [bs[0]] + bs[1..];
      if bs[0].id == batchId then rest else [bs[0]] + rest
  }

  /** Deleting from a batch list made of two parts deletes from each part and keeps them in order. */
  lemma {:induction false} RemoveBatchInConcat(a: seq<Batch>, b: seq<Batch>, batchId: string)
    ensures RemoveBatchIn(a + b, batchId) == RemoveBatchIn(a, batchId) + RemoveBatchIn(b, batchId)
  {
    if a == [] {
      assert a + b == b;
    } else {
      assert (a + b)[1..] == a[1..] + b;
      RemoveBatchInConcat(a[1..], b, batchId);
    }
  }

  /** With unique batch ids, deleting the first batch's id drops exactly the first batch. */
  lemma RemoveFirstBatch(bs: seq<Batch>)
    requires UniqueBatchIds(bs) && |bs| > 0
    ensures RemoveBatchIn(bs, bs[0].id) == bs[1..]
  {
    var tail := bs[1..];
    assert forall j :: 0 <= j < |tail| ==> tail[j] == bs[j + 1];
    RemoveAbsentBatch(tail, bs[0].id);
  }

  /** With unique batch ids, deleting a batch drops exactly that batch and keeps the others in
      order, so the latest-batch tie-break still sees them in list order. */
  lemma {:induction false} RemoveBatchOne(bs: seq<Batch>, i: nat)
    requires UniqueBatchIds(bs) && i < |bs|
    ensures RemoveBatchIn(bs, bs[i].id) == bs[..i] + bs[i + 1..]
  {
    if i == 0 {
      RemoveFirstBatch(bs);
      assert bs[..0] + bs[1..] == bs[1..];
    } else {
      var tail, id := bs[1..], bs[i].id;
      assert bs[0].id != id;
      assert tail[i - 1] == bs[i];
      UniqueBatchIdsTail(bs);
      RemoveBatchOne(tail, i - 1);
      calc {
        RemoveBatchIn(bs, id);
        [bs[0]] + RemoveBatchIn(tail, id);
        [bs[0]] + (tail[..i - 1] + tail[i..]);
        { assert [bs[0]] + tail[..i - 1] == bs[..i]; assert tail[i..] == bs[i + 1..]; }
        bs[..i] + bs[i + 1..];
      }
    }
  }

  lemma UniqueBatchIdsTail(bs: seq<Batch>)
    requires UniqueBatchIds(bs) && bs != []
    ensures UniqueBatchIds(bs[1..])
  {
    assert forall j :: 0 <= j < |bs| - 1 ==> bs[1..][j] == bs[j + 1];
  }

  lemma {:induction false} RemoveAbsentBatch(bs: seq<Batch>, batchId: string)
    requires forall k :: 0 <= k < |bs| ==> bs[k].id != batchId
    ensures RemoveBatchIn(bs, batchId) == bs
  {
    if bs != [] {
      RemoveAbsentBatch(bs[1..], batchId);
    }
  }

  predicate UniqueBatchIds(bs: seq<Batch>)
  {
    forall i, j :: 0 <= i < j < |bs| ==> bs[i].id != bs[j].id
  }

  /** With unique batch ids, deleting a batch lowers the product's stock by that batch's quantity. */
  lemma {:induction false} RemoveBatchStock(bs: seq<Batch>, i: nat)
    requires UniqueBatchIds(bs) && i < |bs|
    ensures Stock(RemoveBatchIn(bs, bs[i].id)) == Stock(bs) - bs[i].quantity
  {
    if i == 0 {
      assert forall b :: b in bs[1..] ==> b.id != bs[0].id;
    } else {
      assert bs[1..][i - 1] == bs[i];
      RemoveBatchStock(bs[1..], i - 1);
    }
  }

  /** The products after `handleDeleteBatch`: only the product with the id loses the batches
      with the batch id. */
  function RemoveBatch(ps: seq<Product>, id: string, batchId: string): (r: seq<Product>)
    ensures |r| == |ps|
    ensures forall i :: 0 <= i < |ps| ==>
      r[i] == if ps[i].id == id then ps[i].(batches := RemoveBatchIn(ps[i].batches, batchId)) else ps[i]
  {
    seq(|ps|, i requires 0 <= i < |ps| =>
      if ps[i].id == id then ps[i].(batches := RemoveBatchIn(ps[i].batches, batchId)) else ps[i])
  }

  /** The URL a new product without an image gets. */
  function PlaceholderUrl(name: string): string
  {
    "/placeholder.svg?height=200&width=200&query=" + name
  }

  /** The product `handleAddProduct` creates: the given id, the form's fields, a generated
      barcode when the form's is empty, a placeholder image when the form's URL is empty, and
      no batches. */
  function NewProduct(f: ProductForm, id: string, barcodeStamp: string): (r: Product)
    ensures r.id == id && r.batches == []
    ensures r.name == f.name && r.unit == f.unit && r.category == f.category
    ensures f.barcode != "" ==> r.barcode == f.barcode
    ensures f.barcode == "" ==> |r.barcode| == 10 && r.barcode == GenerateBarcode(barcodeStamp)
    ensures r.imageUrl == if f.imageUrl != "" then f.imageUrl else PlaceholderUrl(f.name)
  {
    Product(id, f.name, f.unit, f.category,
            if f.barcode != "" then f.barcode else GenerateBarcode(barcodeStamp),
            if f.imageUrl != "" then f.imageUrl else PlaceholderUrl(f.name),
            [])
  }
}
