/** The point-of-sale screen: the search box and its suggestion list, the product -> batch ->
    quantity selection dialogs, the cart buttons, checkout, and the global barcode listener.

    The screen's state is the class `PosPage`; `PosView` is the same state as a value, and each
    handler is specified by a function from the state before to the state after. The effects
    that React runs after a render (resetting the suggestion index when the number of matches
    changes, resetting the batch index when the batch dialog opens) are folded into the handler
    whose state change triggers them. */
module PointOfSale {
  import opened Inventory
  import opened Decimal
  import opened Text
  import opened Cart
  import opened Scanner

  datatype PaymentMethod = Cash | Card | Credit

  /** Every piece of state the screen's handlers read or write. */
  datatype PosView = PosView(
    cart: seq<CartLine>,
    searchTerm: string,
    showSuggestions: bool,
    suggestionIndex: nat,
    paymentMethod: PaymentMethod,
    customer: Option<Customer>,
    batchDialogOpen: bool,
    batchIndex: nat,
    selectedProduct: Option<Product>,
    quantityDialogOpen: bool,
    selectedBatch: Option<Batch>,
    quantity: Option<real>,
    scan: ScanState,
    barcodeInput: string,
    errorMessage: string)

  /** The search filter of the point-of-sale screen: the products whose lower-cased name includes
      the lower-cased term, in catalog order. */
  function NameMatches(ps: seq<Product>, term: string): (r: seq<Product>)
    ensures forall p :: p in r <==> p in ps && Contains(Lower(p.name), Lower(term))
    ensures |r| <= |ps|
    ensures term == "" ==> r == ps
  {
    if ps == [] then []
    else
      var rest := NameMatches(ps[1..], term);
      assert forall p :: p in ps <==> p == ps[0] || p in ps[1..];
      ContainsLowerEmpty(ps[0].name, term);
      assert ps == [ps[0]] + ps[1..];
      (if Contains(Lower(ps[0].name), Lower(term)) then [ps[0]] else []) + rest
  }

  /** The suggestions of a catalog made of two parts are those of each part, in order, so the
      highlighted index picks the same product the screen lists at that position. */
  lemma {:induction false} NameMatchesConcat(a: seq<Product>, b: seq<Product>, term: string)
    ensures NameMatches(a + b, term) == NameMatches(a, term) + NameMatches(b, term)
  {
    if a == [] {
      assert a + b == b;
    } else {
      assert (a + b)[1..] == a[1..] + b;
      NameMatchesConcat(a[1..], b, term);
    }
  }

  /** The highlighted row after ArrowDown in a list of `count` rows: one further down, but never
      past the last row and never wrapping round to the first. */
  function MoveDown(i: nat, count: nat): (r: nat)
    ensures i < count ==> r < count
    ensures i <= r
  {
    if i + 1 < count then i + 1 else i
  }

  /** The highlighted row after ArrowUp: one further up, stopping at the first row. */
  function MoveUp(i: nat): (r: nat)
    ensures r <= i
    ensures r == 0 <==> i <= 1
  {
    if i > 0 then i - 1 else 0
  }

  /** The highlighted row after `k` presses of ArrowDown. */
  function Downs(i: nat, count: nat, k: nat): nat
  {
    if k == 0 then i else MoveDown(Downs(i, count, k - 1), count)
  }

  /** The highlighted row after `k` presses of ArrowUp. */
  function Ups(i: nat, k: nat): nat
  {
    if k == 0 then i else MoveUp(Ups(i, k - 1))
  }

  /** Holding ArrowDown walks to the last row and stays there. */
  lemma {:induction false} DownsClamp(i: nat, count: nat, k: nat)
    requires i < count
    ensures Downs(i, count, k) == if i + k < count then i + k else count - 1
  {
    if k > 0 {
      DownsClamp(i, count, k - 1);
    }
  }

  /** Holding ArrowUp walks to the first row and stays there. */
  lemma {:induction false} UpsClamp(i: nat, k: nat)
    ensures Ups(i, k) == if k <= i then i - k else 0
  {
    if k > 0 {
      UpsClamp(i, k - 1);
    }
  }

  /** `r` differs from `v` at most in the selection dialogs' state. */
  predicate SelectionOnly(v: PosView, r: PosView)
  {
    r == v.(batchDialogOpen := r.batchDialogOpen, batchIndex := r.batchIndex,
             selectedProduct := r.selectedProduct, quantityDialogOpen := r.quantityDialogOpen,
             selectedBatch := r.selectedBatch, quantity := r.quantity)
  }

  /** `handleProductSelection`: a product with exactly one batch goes straight to quantity entry
      with that batch and a quantity of 1; any other product (none or several batches) opens the
      batch dialog, whose highlighted row starts at the first when the dialog was closed. */
  function SelectProduct(v: PosView, p: Product): (r: PosView)
    ensures SelectionOnly(v, r)
    ensures r.selectedProduct == Some(p)
    ensures |p.batches| == 1 ==>
      r.selectedBatch == Some(p.batches[0]) && r.quantity == Some(1.0) && r.quantityDialogOpen &&
      r.batchDialogOpen == v.batchDialogOpen && r.batchIndex == v.batchIndex
    ensures |p.batches| != 1 ==>
      r.batchDialogOpen && r.batchIndex == (if v.batchDialogOpen then v.batchIndex else 0) &&
      r.selectedBatch == v.selectedBatch && r.quantity == v.quantity &&
      r.quantityDialogOpen == v.quantityDialogOpen
  {
    var chosen := v.(selectedProduct := Some(p));
    if |p.batches| == 1 then
      chosen.(selectedBatch := Some(p.batches[0]), quantity := Some(1.0), quantityDialogOpen := true)
    else
      chosen.(batchDialogOpen := true, batchIndex := if v.batchDialogOpen then v.batchIndex else 0)
  }

  /** `handleBatchSelect`: binds the batch, resets the quantity to 1, and moves from the batch
      dialog to the quantity dialog. The handler reads the selected product's unit, so it needs
      a selected product. */
  function SelectBatch(v: PosView, b: Batch): (r: PosView)
    requires v.selectedProduct.Some?
    ensures SelectionOnly(v, r)
    ensures r.selectedBatch == Some(b) && r.quantity == Some(1.0)
    ensures !r.batchDialogOpen && r.quantityDialogOpen
    ensures r.selectedProduct == v.selectedProduct && r.batchIndex == v.batchIndex
  {
    v.(selectedBatch := Some(b), quantity := Some(1.0), batchDialogOpen := false, quantityDialogOpen := true)
  }

  /** `handleBatchDialogKeyDown`: arrows move the highlight within the batches, Enter selects the
      highlighted batch if there is one. Without a selected product or an open dialog nothing
      happens. */
  function BatchKey(v: PosView, key: Key): (r: PosView)
    ensures SelectionOnly(v, r)
    ensures v.selectedProduct.None? || !v.batchDialogOpen ==> r == v
    ensures v.selectedProduct.Some? && v.batchDialogOpen ==>
      var batches := v.selectedProduct.value.batches;
      && (key.ArrowDown? ==> r == v.(batchIndex := MoveDown(v.batchIndex, |batches|)))
      && (key.ArrowUp? ==> r == v.(batchIndex := MoveUp(v.batchIndex)))
      && (key.Enter? && v.batchIndex < |batches| ==> r == SelectBatch(v, batches[v.batchIndex]))
      && (key.Enter? && v.batchIndex >= |batches| ==> r == v)
    ensures !(key.ArrowDown? || key.ArrowUp? || key.Enter?) ==> r == v
  {
    if v.selectedProduct.None? || !v.batchDialogOpen then v
    else
      var batches := v.selectedProduct.value.batches;
      match key
      case ArrowDown => v.(batchIndex := MoveDown(v.batchIndex, |batches|))
      case ArrowUp => v.(batchIndex := MoveUp(v.batchIndex))
      case Enter => if v.batchIndex < |batches| then SelectBatch(v, batches[v.batchIndex]) else v
      case _ => v
  }

  /** `handleAddQuantity`: hands the product, batch and quantity to `addToCart`, then closes the
      quantity dialog and forgets the batch. An accepted quantity without a product or a batch
      makes `addToCart` fail before anything is set, so nothing changes then. */
  function CommitQuantity(v: PosView): (r: PosView)
    ensures r == v.(cart := r.cart, quantityDialogOpen := r.quantityDialogOpen, selectedBatch := r.selectedBatch)
    ensures Accepted(v.quantity) && (v.selectedProduct.None? || v.selectedBatch.None?) ==> r == v
    ensures !Accepted(v.quantity) ==> r.cart == v.cart && !r.quantityDialogOpen && r.selectedBatch.None?
    ensures Accepted(v.quantity) && v.selectedProduct.Some? && v.selectedBatch.Some? ==>
      && r.cart == Add(v.cart, v.selectedProduct.value, v.selectedBatch.value, v.quantity)
      && !r.quantityDialogOpen && r.selectedBatch.None?
  {
    if !Accepted(v.quantity) then v.(quantityDialogOpen := false, selectedBatch := None)
    else if v.selectedProduct.None? || v.selectedBatch.None? then v
    else
      v.(cart := Add(v.cart, v.selectedProduct.value, v.selectedBatch.value, v.quantity),
         quantityDialogOpen := false, selectedBatch := None)
  }

  /** On the tenths grid `toFixed(1)` adds exactly 0.1. */
  lemma TenthUpOnGrid(c: real)
    ensures OnTenths(c) ==> ToFixed1(c + 0.1) == c + 0.1
  {
    if OnTenths(c) {
      assert OnTenths(0.1) by { assert 0.1 * 10.0 == 1.0; }
      OnTenthsAddSub(c, 0.1);
      ToFixed1KeepsGrid(c + 0.1);
    }
  }

  /** On the tenths grid, a value above 0.1 goes down by exactly 0.1 and stays at least 0.1. */
  lemma TenthDownOnGrid(c: real)
    ensures OnTenths(c) && c > 0.1 ==> ToFixed1(c - 0.1) == c - 0.1 >= 0.1
  {
    if OnTenths(c) && c > 0.1 {
      assert OnTenths(0.1) by { assert 0.1 * 10.0 == 1.0; }
      OnTenthsAddSub(c, 0.1);
      ToFixed1KeepsGrid(c - 0.1);
      var k := (c * 10.0).Floor;
      assert c * 10.0 == k as real;
      assert k >= 2;
    }
  }

  /** ArrowUp in the quantity field: the parsed value plus 0.1 written with one decimal, or 0.1
      when the field does not parse. A value on the tenths grid grows by exactly 0.1. */
  function QuantityUp(q: Option<real>): (r: Option<real>)
    ensures r.Some? && OnTenths(r.value)
    ensures q.None? ==> r == Some(0.1)
    ensures q.Some? ==> q.value + 0.05 <= r.value <= q.value + 0.15
    ensures q.Some? && OnTenths(q.value) ==> r.value == q.value + 0.1
  {
    match q
    case None => assert 0.1 * 10.0 == 1.0; Some(0.1)
    case Some(c) =>
      TenthUpOnGrid(c);
      Some(ToFixed1(c + 0.1))
  }

  /** ArrowDown in the quantity field and the minus button: only a parsed value above 0.1 goes
      down by 0.1 (written with one decimal); anything else is left as it is. The result is
      never negative, and on the tenths grid it never drops below 0.1. */
  function QuantityDown(q: Option<real>): (r: Option<real>)
    ensures !(q.Some? && q.value > 0.1) ==> r == q
    ensures q.Some? && q.value > 0.1 ==>
      r.Some? && OnTenths(r.value) && r.value >= 0.0 && q.value - 0.15 <= r.value <= q.value - 0.05
    ensures q.Some? && q.value > 0.1 && OnTenths(q.value) ==> r == Some(q.value - 0.1) && r.value >= 0.1
  {
    match q
    case None => q
    case Some(c) =>
      if c > 0.1 then
        TenthDownOnGrid(c);
        Some(ToFixed1(c - 0.1))
      else q
  }

  /** `selectedBatch?.quantity || 0`: the available quantity the dialog caps at. */
  function Available(b: Option<Batch>): int
  {
    if b.Some? then b.value.quantity else 0
  }

  /** The plus button: the parsed value plus 0.1, but never more than the batch's available
      quantity, written with one decimal; 0.1 when the field does not parse. */
  function QuantityPlus(q: Option<real>, b: Option<Batch>): (r: Option<real>)
    ensures r.Some? && OnTenths(r.value)
    ensures q.None? ==> r == Some(0.1)
    ensures q.Some? ==> r.value <= Available(b) as real
    ensures q.Some? && q.value + 0.1 > Available(b) as real ==> r.value == Available(b) as real
    ensures q.Some? && q.value + 0.1 <= Available(b) as real ==> q.value + 0.05 <= r.value <= q.value + 0.15
    ensures q.Some? && OnTenths(q.value) && q.value + 0.1 <= Available(b) as real ==> r.value == q.value + 0.1
  {
    match q
    case None => assert 0.1 * 10.0 == 1.0; Some(0.1)
    case Some(c) =>
      var cap := Available(b) as real;
      var next := if c + 0.1 <= cap then c + 0.1 else cap;
      IntegersOnGrids(Available(b));
      ToFixed1AtMost(next, cap);
      ToFixed1KeepsGrid(cap);
      TenthUpOnGrid(c);
      Some(ToFixed1(next))
  }

  /** The disabled state of the dialog's Add button. A field that does not parse compares false
      both ways, so it leaves the button enabled. */
  predicate AddDisabled(q: Option<real>, b: Option<Batch>)
  {
    q.Some? && (q.value <= 0.0 || q.value > Available(b) as real)
  }

  /** The Add button, when enabled on a parsed value, commits a positive quantity no larger than
      what the batch holds. */
  lemma AddButtonWithinStock(v: PosView)
    requires v.selectedProduct.Some? && v.selectedBatch.Some? && v.quantity.Some?
    requires !AddDisabled(v.quantity, v.selectedBatch)
    ensures 0.0 < v.quantity.value <= v.selectedBatch.value.quantity as real
    ensures CommitQuantity(v).cart ==
      Add(v.cart, v.selectedProduct.value, v.selectedBatch.value, v.quantity)
  {
  }

  /** Enter in the quantity field commits without the button's stock check: a quantity above the
      batch's available quantity, for which the button is disabled, still lands in the cart. */
  lemma EnterIgnoresStock(v: PosView)
    requires v.selectedProduct.Some? && v.selectedBatch.Some? && v.quantity.Some?
    requires v.quantity.value > v.selectedBatch.value.quantity as real && v.quantity.value > 0.0
    ensures AddDisabled(v.quantity, v.selectedBatch)
    ensures QuantityKey(v, Enter).cart ==
      Add(v.cart, v.selectedProduct.value, v.selectedBatch.value, v.quantity)
  {
  }

  /** `handleQuantityKeyDown`. Escape is left to the dialog itself. */
  function QuantityKey(v: PosView, key: Key): (r: PosView)
    ensures key.ArrowUp? ==> r == v.(quantity := QuantityUp(v.quantity))
    ensures key.ArrowDown? ==> r == v.(quantity := QuantityDown(v.quantity))
    ensures key.Enter? ==> r == CommitQuantity(v)
    ensures !(key.ArrowUp? || key.ArrowDown? || key.Enter?) ==> r == v
  {
    match key
    case ArrowUp => v.(quantity := QuantityUp(v.quantity))
    case ArrowDown => v.(quantity := QuantityDown(v.quantity))
    case Enter => CommitQuantity(v)
    case _ => v
  }

  /** The highlighted suggestion is the first one or lies within the list of matches. */
  predicate SuggestionInRange(v: PosView, ps: seq<Product>)
  {
    v.suggestionIndex == 0 || v.suggestionIndex < |NameMatches(ps, v.searchTerm)|
  }

  /** A new search term, with the effect it triggers: the highlight goes back to the first
      suggestion whenever the number of matches changes. */
  function TermChanged(v: PosView, ps: seq<Product>, t: string): (r: PosView)
    ensures r == v.(searchTerm := t, suggestionIndex := r.suggestionIndex)
    ensures |NameMatches(ps, t)| != |NameMatches(ps, v.searchTerm)| ==> r.suggestionIndex == 0
    ensures |NameMatches(ps, t)| == |NameMatches(ps, v.searchTerm)| ==> r.suggestionIndex == v.suggestionIndex
    ensures SuggestionInRange(v, ps) ==> SuggestionInRange(r, ps)
  {
    var reset := |NameMatches(ps, t)| != |NameMatches(ps, v.searchTerm)|;
    v.(searchTerm := t, suggestionIndex := if reset then 0 else v.suggestionIndex)
  }

  /** The search box's change handler: the suggestions show exactly when the term is non-empty. */
  function TypeSearch(v: PosView, ps: seq<Product>, t: string): (r: PosView)
    ensures r == TermChanged(v, ps, t).(showSuggestions := |t| > 0)
    ensures SuggestionInRange(v, ps) ==> SuggestionInRange(r, ps)
  {
    TermChanged(v, ps, t).(showSuggestions := |t| > 0)
  }

  /** Choosing a suggestion (Enter in the search box, or a click): the product goes through
      product selection, and the search box is emptied and its suggestions hidden. */
  function PickSuggestion(v: PosView, ps: seq<Product>, p: Product): (r: PosView)
    ensures r.searchTerm == "" && !r.showSuggestions
    ensures r.selectedProduct == Some(p) && r.cart == v.cart
    ensures r == TermChanged(SelectProduct(v, p), ps, "").(showSuggestions := false)
    ensures SuggestionInRange(v, ps) ==> SuggestionInRange(r, ps)
  {
    TermChanged(SelectProduct(v, p), ps, "").(showSuggestions := false)
  }

  /** Selecting a product touches no search state, so it commutes with a change of term and with
      showing or hiding the suggestions. */
  lemma SelectionCommutes(v: PosView, ps: seq<Product>, p: Product, t: string, shown: bool)
    ensures SelectProduct(TermChanged(v, ps, t).(showSuggestions := shown), p)
            == TermChanged(SelectProduct(v, p), ps, t).(showSuggestions := shown)
  {
  }

  /** `handleKeyDown` of the search box: nothing happens unless suggestions are showing and there
      is at least one; then the arrows move the highlight within the matches, Enter picks the
      highlighted match and Escape hides the list. */
  function SearchKey(v: PosView, ps: seq<Product>, key: Key): (r: PosView)
    requires SuggestionInRange(v, ps)
    ensures SuggestionInRange(r, ps)
    ensures !v.showSuggestions || |NameMatches(ps, v.searchTerm)| == 0 ==> r == v
    ensures v.showSuggestions && |NameMatches(ps, v.searchTerm)| > 0 ==>
      var matches := NameMatches(ps, v.searchTerm);
      && v.suggestionIndex < |matches|
      && (key.ArrowDown? ==> r == v.(suggestionIndex := MoveDown(v.suggestionIndex, |matches|)))
      && (key.ArrowUp? ==> r == v.(suggestionIndex := MoveUp(v.suggestionIndex)))
      && (key.Enter? ==> r == PickSuggestion(v, ps, matches[v.suggestionIndex]))
      && (key.Escape? ==> r == v.(showSuggestions := false))
    ensures !(key.ArrowDown? || key.ArrowUp? || key.Enter? || key.Escape?) ==> r == v
  {
    var matches := NameMatches(ps, v.searchTerm);
    if !v.showSuggestions || |matches| == 0 then v
    else
      match key
      case ArrowDown => v.(suggestionIndex := MoveDown(v.suggestionIndex, |matches|))
      case ArrowUp => v.(suggestionIndex := MoveUp(v.suggestionIndex))
      case Enter => PickSuggestion(v, ps, matches[v.suggestionIndex])
      case Escape => v.(showSuggestions := false)
      case _ => v
  }

  /** `handleProductSearch`, the search form's submit: hides the suggestions and, when there are
      matches, selects the highlighted one. The search term stays. */
  function ProductSearch(v: PosView, ps: seq<Product>): (r: PosView)
    requires SuggestionInRange(v, ps)
    ensures !r.showSuggestions && r.searchTerm == v.searchTerm && r.cart == v.cart
    ensures |NameMatches(ps, v.searchTerm)| == 0 ==> r == v.(showSuggestions := false)
    ensures |NameMatches(ps, v.searchTerm)| > 0 ==>
      r == SelectProduct(v.(showSuggestions := false), NameMatches(ps, v.searchTerm)[v.suggestionIndex])
  {
    var matches := NameMatches(ps, v.searchTerm);
    var hidden := v.(showSuggestions := false);
    if |matches| > 0 then SelectProduct(hidden, matches[v.suggestionIndex]) else hidden
  }

  /** Checkout is enabled when the cart has lines and a credit sale has a customer. */
  predicate CheckoutEnabled(v: PosView)
  {
    |v.cart| > 0 && !(v.paymentMethod == Credit && v.customer.None?)
  }

  /** `handleCheckout`: a credit sale without a customer is refused and changes nothing; any
      other sale is completed and the cart emptied. */
  function Checkout(v: PosView): (r: PosView)
    ensures v.paymentMethod == Credit && v.customer.None? ==> r == v
    ensures !(v.paymentMethod == Credit && v.customer.None?) ==> r == v.(cart := [])
  {
    if v.paymentMethod == Credit && v.customer.None? then v else v.(cart := [])
  }

  /** Whenever the checkout button is enabled, pressing it empties a non-empty cart; after
      checkout the cart is empty exactly when the sale was allowed or there was nothing in it. */
  lemma CheckoutEmptiesCart(v: PosView)
    ensures CheckoutEnabled(v) ==> v.cart != [] && Checkout(v).cart == []
    ensures Checkout(v).cart == [] <==> !(v.paymentMethod == Credit && v.customer.None?) || v.cart == []
  {
  }

  /** The error shown when a scanned code matches no product. */
  function NotFound(code: string): string
  {
    "Product with barcode " + code + " not found"
  }

  /** A completed code, looked up in the catalog: it is copied into the barcode field and either
      selects the first product carrying it or shows the not-found error. */
  function Resolve(v: PosView, ps: seq<Product>, code: string): (r: PosView)
    ensures r.barcodeInput == code && r.cart == v.cart && r.scan == v.scan
    ensures FindByBarcode(ps, code).Some? ==>
      r == SelectProduct(v, FindByBarcode(ps, code).value).(barcodeInput := code)
    ensures FindByBarcode(ps, code).None? ==>
      r == v.(barcodeInput := code, errorMessage := NotFound(code))
  {
    match FindByBarcode(ps, code)
    case Some(p) => SelectProduct(v, p).(barcodeInput := code)
    case None => v.(barcodeInput := code, errorMessage := NotFound(code))
  }

  /** `handleGlobalKeyDown`: the barcode buffer steps as `OnKey` says, and a completed code is
      resolved against the catalog. Keys the listener does not take change nothing, and no key
      changes the cart. */
  function GlobalKey(v: PosView, ps: seq<Product>, key: Key, now: int): (r: PosView)
    ensures r.scan == OnKey(v.scan, key, now).0
    ensures r.cart == v.cart
    ensures !Takes(v.scan, key, now) ==> r == v
    ensures OnKey(v.scan, key, now).1.None? ==> r == v.(scan := r.scan)
    ensures OnKey(v.scan, key, now).1.Some? ==> r == Resolve(v, ps, v.scan.buffer).(scan := r.scan)
  {
    var (s, code) := OnKey(v.scan, key, now);
    if code.Some? then Resolve(v, ps, code.value).(scan := s) else v.(scan := s)
  }

  /** A scanner typing a product's barcode fast enough, then Enter, selects that product. */
  lemma ScanSelectsProduct(v: PosView, ps: seq<Product>, start: ScanState, code: string,
                           times: seq<int>, enterAt: int, i: nat)
    requires start.buffer == "" && |code| == |times| > 0 && Fast(times)
    requires enterAt - times[|times| - 1] <= ScanTimeout
    requires v.scan == Run(start, Burst(code, times))
    requires i < |ps| && ps[i].barcode == code && forall j :: 0 <= j < i ==> ps[j].barcode != code
    ensures GlobalKey(v, ps, Enter, enterAt).selectedProduct == Some(ps[i])
    ensures GlobalKey(v, ps, Enter, enterAt).scan.buffer == ""
    ensures GlobalKey(v, ps, Enter, enterAt).barcodeInput == code
  {
    ScanResolves(start, code, times, enterAt);
    BurstFillsBuffer(start, code, times);
    var found := FindByBarcode(ps, code);
    assert found.Some? by { assert ps[i] in ps; }
    var k :| 0 <= k < |ps| && ps[k] == found.value && found.value.barcode == code &&
             forall j :: 0 <= j < k ==> ps[j].barcode != code;
    assert ps[i].barcode == code && ps[k].barcode == code;
    assert k == i;
  }

  /** Scanning a single-batch product, then committing the proposed quantity, adds one unit of
      its only batch to the cart and leaves no dialog open. */
  lemma ScanAndCommitSingleBatch(v: PosView, p: Product)
    requires |p.batches| == 1 && !v.batchDialogOpen
    ensures var r := CommitQuantity(SelectProduct(v, p));
      && r.cart == Add(v.cart, p, p.batches[0], Some(1.0))
      && !r.quantityDialogOpen && !r.batchDialogOpen && r.selectedBatch.None?
  {
  }

  /** In the batch dialog of a product with `n` batches, `k` presses of ArrowDown then Enter
      select batch number min(k, n - 1) and open quantity entry. */
  lemma ArrowsThenEnterPicksBatch(v: PosView, p: Product, k: nat)
    requires |p.batches| > 1 && !v.batchDialogOpen
    ensures var shown := SelectProduct(v, p);
      var moved := shown.(batchIndex := Downs(0, |p.batches|, k));
      var pick := if k < |p.batches| then k else |p.batches| - 1;
      && BatchKey(moved, Enter) == SelectBatch(moved, p.batches[pick])
      && BatchKey(moved, Enter).quantityDialogOpen
  {
    DownsClamp(0, |p.batches|, k);
  }

  /** The screen. `products` is the catalog it sells from; every other field is component state. */
  class PosPage {
    const products: seq<Product>
    var cart: seq<CartLine>
    var searchTerm: string
    var showSuggestions: bool
    var suggestionIndex: nat
    var paymentMethod: PaymentMethod
    var customer: Option<Customer>
    var batchDialogOpen: bool
    var batchIndex: nat
    var selectedProduct: Option<Product>
    var quantityDialogOpen: bool
    var selectedBatch: Option<Batch>
    var quantity: Option<real>
    var barcodeBuffer: string
    var lastKeyTime: int
    var clearAt: Option<int>
    var barcodeInput: string
    var errorMessage: string

    function View(): PosView
      reads this
    {
      PosView(cart, searchTerm, showSuggestions, suggestionIndex, paymentMethod, customer,
              batchDialogOpen, batchIndex, selectedProduct, quantityDialogOpen, selectedBatch,
              quantity, ScanState(barcodeBuffer, lastKeyTime, clearAt), barcodeInput, errorMessage)
    }

    /** What every handler keeps: the cart has one line per product and batch, all with positive
        quantities; the highlighted suggestion is within the matches; a dialog is only open with
        the selection it works on. */
    predicate Valid()
      reads this
    {
      && UniqueKeys(cart)
      && PositiveQuantities(cart)
      && SuggestionInRange(View(), products)
      && (batchDialogOpen ==> selectedProduct.Some?)
      && (quantityDialogOpen ==> selectedProduct.Some? && selectedBatch.Some?)
    }

    /** The screen as first rendered: an empty cart, cash payment, no dialog, quantity "1". */
    constructor(catalog: seq<Product>)
      ensures Valid()
      ensures products == catalog
      ensures View() == PosView([], "", false, 0, Cash, None, false, 0, None, false, None,
                                Some(1.0), ScanState("", 0, None), "", "")
    {
      products := catalog;
      cart := [];
      searchTerm := "";
      showSuggestions := false;
      suggestionIndex := 0;
      paymentMethod := Cash;
      customer := None;
      batchDialogOpen := false;
      batchIndex := 0;
      selectedProduct := None;
      quantityDialogOpen := false;
      selectedBatch := None;
      quantity := Some(1.0);
      barcodeBuffer := "";
      lastKeyTime := 0;
      clearAt := None;
      barcodeInput := "";
      errorMessage := "";
    }

    method HandleProductSelection(p: Product)
      requires Valid()
      modifies this
      ensures Valid()
      ensures View() == SelectProduct(old(View()), p)
    {
      selectedProduct := Some(p);
      if |p.batches| == 1 {
        selectedBatch := Some(p.batches[0]);
        quantity := Some(1.0);
        quantityDialogOpen := true;
        assert View() == old(View()).(selectedProduct := Some(p), selectedBatch := Some(p.batches[0]),
                                      quantity := Some(1.0), quantityDialogOpen := true);
      } else {
        if !batchDialogOpen {
          batchIndex := 0;
        }
        batchDialogOpen := true;
        assert View() == old(View()).(selectedProduct := Some(p), batchDialogOpen := true,
                                      batchIndex := if old(batchDialogOpen) then old(batchIndex) else 0);
      }
    }

    method HandleBatchSelect(b: Batch)
      requires Valid() && selectedProduct.Some?
      modifies this
      ensures Valid()
      ensures View() == SelectBatch(old(View()), b)
    {
      selectedBatch := Some(b);
      quantity := Some(1.0);
      batchDialogOpen := false;
      quantityDialogOpen := true;
    }

    method HandleBatchDialogKeyDown(key: Key)
      requires Valid()
      modifies this
      ensures Valid()
      ensures View() == BatchKey(old(View()), key)
    {
      if selectedProduct.None? || !batchDialogOpen {
        return;
      }
      var batchCount := |selectedProduct.value.batches|;
      if key.ArrowDown? {
        batchIndex := if batchIndex < batchCount - 1 then batchIndex + 1 else batchIndex;
      } else if key.ArrowUp? {
        batchIndex := if batchIndex > 0 then batchIndex - 1 else 0;
      } else if key.Enter? {
        if batchIndex < batchCount {
          HandleBatchSelect(selectedProduct.value.batches[batchIndex]);
        }
      }
    }

    /** A click on a batch row highlights it without selecting it. */
    method HighlightBatch(i: nat)
      requires Valid() && selectedProduct.Some? && i < |selectedProduct.value.batches|
      modifies this
      ensures Valid()
      ensures View() == old(View()).(batchIndex := i)
    {
      batchIndex := i;
    }

    /** The batch dialog's Cancel button, and closing it from outside. */
    method CloseBatchDialog()
      requires Valid()
      modifies this
      ensures Valid()
      ensures View() == old(View()).(batchDialogOpen := false)
    {
      batchDialogOpen := false;
    }

    method HandleAddQuantity()
      requires Valid()
      modifies this
      ensures Valid()
      ensures View() == CommitQuantity(old(View()))
    {
      if Accepted(quantity) && (selectedProduct.None? || selectedBatch.None?) {
        return;
      }
      AddToCart();
      quantityDialogOpen := false;
      selectedBatch := None;
    }

    /** `addToCart` applied to the selection and the quantity field. */
    method AddToCart()
      requires Valid()
      requires Accepted(quantity) ==> selectedProduct.Some? && selectedBatch.Some?
      modifies this
      ensures Valid()
      ensures Accepted(old(quantity)) ==>
        View() == old(View()).(cart := Add(old(cart), old(selectedProduct).value, old(selectedBatch).value, old(quantity)))
      ensures !Accepted(old(quantity)) ==> View() == old(View())
    {
      if !Accepted(quantity) {
        return;
      }
      cart := Add(cart, selectedProduct.value, selectedBatch.value, quantity);
    }

    method HandleQuantityKeyDown(key: Key)
      requires Valid()
      modifies this
      ensures Valid()
      ensures View() == QuantityKey(old(View()), key)
    {
      if key.ArrowUp? {
        quantity := QuantityUp(quantity);
      } else if key.ArrowDown? {
        quantity := QuantityDown(quantity);
      } else if key.Enter? {
        HandleAddQuantity();
      }
    }

    /** The minus button next to the quantity field. */
    method QuantityMinus()
      requires Valid()
      modifies this
      ensures Valid()
      ensures View() == old(View()).(quantity := QuantityDown(old(quantity)))
    {
      quantity := QuantityDown(quantity);
    }

    /** The plus button next to the quantity field. */
    method QuantityPlusButton()
      requires Valid()
      modifies this
      ensures Valid()
      ensures View() == old(View()).(quantity := QuantityPlus(old(quantity), old(selectedBatch)))
    {
      quantity := QuantityPlus(quantity, selectedBatch);
    }

    /** Typing in the quantity field: the field holds whatever parses from the text. */
    method TypeQuantity(q: Option<real>)
      requires Valid()
      modifies this
      ensures Valid()
      ensures View() == old(View()).(quantity := q)
    {
      quantity := q;
    }

    /** The quantity dialog's Cancel button, and closing it from outside. */
    method CloseQuantityDialog()
      requires Valid()
      modifies this
      ensures Valid()
      ensures View() == old(View()).(quantityDialogOpen := false)
    {
      quantityDialogOpen := false;
    }

    method SetSearchTerm(t: string)
      requires Valid()
      modifies this
      ensures Valid()
      ensures View() == TypeSearch(old(View()), products, t)
    {
      var before := |NameMatches(products, searchTerm)|;
      searchTerm := t;
      showSuggestions := |t| > 0;
      if |NameMatches(products, t)| != before {
        suggestionIndex := 0;
      }
    }

    /** Focusing the search box shows the suggestions again when there is a term. */
    method FocusSearch()
      requires Valid()
      modifies this
      ensures Valid()
      ensures View() == old(View()).(showSuggestions := old(showSuggestions) || |old(searchTerm)| > 0)
    {
      if |searchTerm| > 0 {
        showSuggestions := true;
      }
    }

    /** A mouse press outside the search box and its suggestion list hides the suggestions. */
    method ClickOutsideSearch()
      requires Valid()
      modifies this
      ensures Valid()
      ensures View() == old(View()).(showSuggestions := false)
    {
      showSuggestions := false;
    }

    method HandleSearchKeyDown(key: Key)
      requires Valid()
      modifies this
      ensures Valid()
      ensures View() == SearchKey(old(View()), products, key)
    {
      var matches := NameMatches(products, searchTerm);
      if !showSuggestions || |matches| == 0 {
        return;
      }
      if key.ArrowDown? {
        suggestionIndex := if suggestionIndex < |matches| - 1 then suggestionIndex + 1 else suggestionIndex;
      } else if key.ArrowUp? {
        suggestionIndex := if suggestionIndex > 0 then suggestionIndex - 1 else 0;
      } else if key.Enter? {
        HandleSelectSuggestion(matches[suggestionIndex]);
      } else if key.Escape? {
        showSuggestions := false;
      }
    }

    /** Hovering over a suggestion highlights it. */
    method HoverSuggestion(i: nat)
      requires Valid() && i < |NameMatches(products, searchTerm)|
      modifies this
      ensures Valid()
      ensures View() == old(View()).(suggestionIndex := i)
    {
      suggestionIndex := i;
    }

    method HandleSelectSuggestion(p: Product)
      requires Valid()
      modifies this
      ensures Valid()
      ensures View() == PickSuggestion(old(View()), products, p)
    {
      ghost var v0 := View();
      showSuggestions := false;
      var before := |NameMatches(products, searchTerm)|;
      searchTerm := "";
      if |NameMatches(products, "")| != before {
        suggestionIndex := 0;
      }
      ghost var cleared := View();
      assert cleared == TermChanged(v0, products, "").(showSuggestions := false);
      HandleProductSelection(p);
      SelectionCommutes(v0, products, p, "", false);
    }

    method HandleProductSearch()
      requires Valid()
      modifies this
      ensures Valid()
      ensures View() == ProductSearch(old(View()), products)
    {
      showSuggestions := false;
      var matches := NameMatches(products, searchTerm);
      if |matches| > 0 {
        HandleProductSelection(matches[suggestionIndex]);
      }
    }

    method RemoveFromCart(key: string)
      requires Valid()
      modifies this
      ensures Valid()
      ensures View() == old(View()).(cart := Remove(old(cart), key))
    {
      RemoveContents(cart, key);
      cart := Remove(cart, key);
    }

    method UpdateQuantity(key: string, v: Option<real>)
      requires Valid()
      modifies this
      ensures Valid()
      ensures View() == old(View()).(cart := SetQuantity(old(cart), key, v))
    {
      OnlyQuantityKeepsKeys(cart, SetQuantity(cart, key, v), key);
      cart := SetQuantity(cart, key, v);
    }

    method IncrementQuantity(key: string)
      requires Valid()
      modifies this
      ensures Valid()
      ensures View() == old(View()).(cart := Increment(old(cart), key))
    {
      OnlyQuantityKeepsKeys(cart, Increment(cart, key), key);
      cart := Increment(cart, key);
    }

    method DecrementQuantity(key: string)
      requires Valid()
      modifies this
      ensures Valid()
      ensures View() == old(View()).(cart := Decrement(old(cart), key))
    {
      OnlyQuantityKeepsKeys(cart, Decrement(cart, key), key);
      cart := Decrement(cart, key);
    }

    /** The Clear button. */
    method ClearSale()
      requires Valid()
      modifies this
      ensures Valid()
      ensures View() == old(View()).(cart := [])
    {
      cart := [];
    }

    method SetPaymentMethod(m: PaymentMethod)
      requires Valid()
      modifies this
      ensures Valid()
      ensures View() == old(View()).(paymentMethod := m)
    {
      paymentMethod := m;
    }

    /** Picking a customer in the customer dialog, or None for "Continue as Guest". */
    method SelectCustomer(c: Option<Customer>)
      requires Valid()
      modifies this
      ensures Valid()
      ensures View() == old(View()).(customer := c)
    {
      customer := c;
    }

    /** Returns the subtotal the completed sale is recorded with, or None when refused. */
    method HandleCheckout() returns (sold: Option<real>)
      requires Valid()
      modifies this
      ensures Valid()
      ensures View() == Checkout(old(View()))
      ensures sold.Some? <==> !(old(paymentMethod) == Credit && old(customer).None?)
      ensures sold.Some? ==> sold.value == Total(old(cart))
    {
      if paymentMethod == Credit && customer.None? {
        return None;
      }
      sold := Some(Total(cart));
      cart := [];
    }

    /** The lookup of a completed code. */
    method ResolveScan(code: string)
      requires Valid()
      modifies this
      ensures Valid()
      ensures View() == Resolve(old(View()), products, code)
      ensures barcodeBuffer == old(barcodeBuffer) && lastKeyTime == old(lastKeyTime)
    {
      barcodeInput := code;
      match FindByBarcode(products, code) {
        case Some(p) => HandleProductSelection(p);
        case None => errorMessage := NotFound(code);
      }
    }

    method HandleGlobalKeyDown(key: Key, now: int)
      requires Valid()
      modifies this
      ensures Valid()
      ensures View() == GlobalKey(old(View()), products, key, now)
    {
      if (key.Char? || key.Enter?) && (now - lastKeyTime <= ScanTimeout || barcodeBuffer == "") {
        if key.Enter? {
          ScanEnter(now);
        } else {
          ScanChar(key.c, now);
        }
      }
    }

    /** Enter taken by the listener: a non-empty buffer is resolved, and the buffer is emptied
        with its timer disarmed. */
    method ScanEnter(now: int)
      requires Valid() && Takes(View().scan, Enter, now)
      modifies this
      ensures Valid()
      ensures View() == GlobalKey(old(View()), products, Enter, now)
    {
      ghost var v0 := View();
      ghost var scanned := ScanState("", now, None);
      if barcodeBuffer != "" {
        assert OnKey(v0.scan, Enter, now) == (scanned, Some(v0.scan.buffer));
        ResolveScan(barcodeBuffer);
        barcodeBuffer := "";
        clearAt := None;
        lastKeyTime := now;
        assert View() == Resolve(v0, products, v0.scan.buffer).(scan := scanned);
      } else {
        assert OnKey(v0.scan, Enter, now) == (scanned, None);
        clearAt := None;
        lastKeyTime := now;
        assert View() == v0.(scan := scanned);
      }
    }

    /** A character taken by the listener: it is appended to the buffer and the clear timer is
        re-armed. */
    method ScanChar(c: char, now: int)
      requires Valid() && Takes(View().scan, Char(c), now)
      modifies this
      ensures Valid()
      ensures View() == GlobalKey(old(View()), products, Char(c), now)
    {
      ghost var v0 := View();
      ghost var typed := ScanState(v0.scan.buffer + [c], now, Some(now + ClearDelay));
      assert OnKey(v0.scan, Char(c), now) == (typed, None);
      barcodeBuffer := barcodeBuffer + [c];
      clearAt := Some(now + ClearDelay);
      lastKeyTime := now;
      assert View() == v0.(scan := typed);
    }

    /** The clock reaching `now`: the armed clear-timer empties the buffer once its time has come. */
    method BarcodeTimerFires(now: int)
      requires Valid()
      modifies this
      ensures Valid()
      ensures View() == old(View()).(scan := OnTick(old(View()).scan, now))
    {
      if clearAt.Some? && now >= clearAt.value {
        barcodeBuffer := "";
        clearAt := None;
      }
    }
  }
}
