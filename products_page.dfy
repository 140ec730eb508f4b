/** The product catalog screen's state and handlers. Every handler replaces the product list
    (or the expanded-rows list) with one built by a `Catalog` function, and sets the dialog and
    selection state around it. The dialogs' field contents are passed to the submit handlers;
    the ids and the date that the screen reads from the clock are passed in as well. */
module ProductsScreen {
  import opened Inventory
  import opened Catalog

  /** Every piece of state the screen's handlers read or write. */
  datatype CatalogView = CatalogView(
    products: seq<Product>,
    expandedProducts: seq<string>,
    searchTerm: string,
    selectedProduct: Option<Product>,
    selectedBatch: Option<Batch>,
    isEditing: bool,
    productDialogOpen: bool,
    batchDialogOpen: bool,
    productDetailOpen: bool)

  /** The batch `handleAddBatch` creates for the product with id `productId`. */
  function NewBatch(productId: string, stamp: string, f: BatchForm): (r: Batch)
    ensures r.id == productId + "-" + stamp
    ensures r.batchNumber == f.batchNumber && r.expiry == f.expiry && r.quantity == f.quantity && r.price == f.price
  {
    Batch(productId + "-" + stamp, f.batchNumber, f.expiry, f.quantity, f.price)
  }

  class ProductsPage {
    var products: seq<Product>
    var expandedProducts: seq<string>
    var searchTerm: string
    var selectedProduct: Option<Product>
    var selectedBatch: Option<Batch>
    var isEditing: bool
    var productDialogOpen: bool
    var batchDialogOpen: bool
    var productDetailOpen: bool

    function View(): CatalogView
      reads this
    {
      CatalogView(products, expandedProducts, searchTerm, selectedProduct, selectedBatch,
                  isEditing, productDialogOpen, batchDialogOpen, productDetailOpen)
    }

    /** Each expanded product is listed once. */
    predicate Valid()
      reads this
    {
      NoDuplicates(expandedProducts)
    }

    /** The rows the table shows. */
    function Shown(): (r: seq<Product>)
      reads this
      ensures forall p :: p in r <==> p in products && Matches(p, searchTerm)
    {
      FilterProducts(products, searchTerm)
    }

    /** The screen as first rendered with the initial catalog: nothing expanded, selected or open. */
    constructor(initial: seq<Product>)
      ensures Valid()
      ensures View() == CatalogView(initial, [], "", None, None, false, false, false, false)
    {
      products := initial;
      expandedProducts := [];
      searchTerm := "";
      selectedProduct := None;
      selectedBatch := None;
      isEditing := false;
      productDialogOpen := false;
      batchDialogOpen := false;
      productDetailOpen := false;
    }

    method SetSearchTerm(t: string)
      requires Valid()
      modifies this
      ensures Valid()
      ensures View() == old(View()).(searchTerm := t)
    {
      searchTerm := t;
    }

    method ToggleProductExpand(id: string)
      requires Valid()
      modifies this
      ensures Valid()
      ensures View() == old(View()).(expandedProducts := Toggled(old(expandedProducts), id))
    {
      if id in expandedProducts {
        expandedProducts := Without(expandedProducts, id);
      } else {
        expandedProducts := expandedProducts + [id];
      }
    }

    /** `handleAddProduct`. `idStamp` and `barcodeStamp` are the two readings of the clock the
        handler takes, as strings. */
    method HandleAddProduct(f: ProductForm, idStamp: string, barcodeStamp: string)
      requires Valid()
      modifies this
      ensures Valid()
      ensures View() == old(View()).(products := old(products) + [NewProduct(f, idStamp, barcodeStamp)],
                                     productDialogOpen := false)
    {
      var productToAdd := NewProduct(f, idStamp, barcodeStamp);
      products := products + [productToAdd];
      productDialogOpen := false;
    }

    /** `handleEditProduct`: edits the products with the selected product's id; nothing happens
        without a selected product. */
    method HandleEditProduct(f: ProductForm)
      requires Valid()
      modifies this
      ensures Valid()
      ensures old(selectedProduct).None? ==> View() == old(View())
      ensures old(selectedProduct).Some? ==>
        View() == old(View()).(products := EditProducts(old(products), old(selectedProduct).value.id, f),
                               productDialogOpen := false, isEditing := false)
    {
      if selectedProduct.None? {
        return;
      }
      products := EditProducts(products, selectedProduct.value.id, f);
      productDialogOpen := false;
      isEditing := false;
    }

    method HandleDeleteProduct(id: string)
      requires Valid()
      modifies this
      ensures Valid()
      ensures View() == old(View()).(products := RemoveProduct(old(products), id))
    {
      products := RemoveProduct(products, id);
    }

    method OpenEditProductDialog(p: Product)
      requires Valid()
      modifies this
      ensures Valid()
      ensures View() == old(View()).(selectedProduct := Some(p), isEditing := true, productDialogOpen := true)
    {
      selectedProduct := Some(p);
      isEditing := true;
      productDialogOpen := true;
    }

    method OpenProductDetail(p: Product)
      requires Valid()
      modifies this
      ensures Valid()
      ensures View() == old(View()).(selectedProduct := Some(p), productDetailOpen := true)
    {
      selectedProduct := Some(p);
      productDetailOpen := true;
    }

    method OpenAddBatchDialog(p: Product)
      requires Valid()
      modifies this
      ensures Valid()
      ensures View() == old(View()).(selectedProduct := Some(p), isEditing := false, batchDialogOpen := true)
    {
      selectedProduct := Some(p);
      isEditing := false;
      batchDialogOpen := true;
    }

    method OpenEditBatchDialog(p: Product, b: Batch)
      requires Valid()
      modifies this
      ensures Valid()
      ensures View() == old(View()).(selectedProduct := Some(p), selectedBatch := Some(b),
                                     isEditing := true, batchDialogOpen := true)
    {
      selectedProduct := Some(p);
      selectedBatch := Some(b);
      isEditing := true;
      batchDialogOpen := true;
    }

    /** `handleAddBatch`: appends a new batch to the products with the selected product's id;
        nothing happens without a selected product. `stamp` is the clock reading in the id. */
    method HandleAddBatch(f: BatchForm, stamp: string)
      requires Valid()
      modifies this
      ensures Valid()
      ensures old(selectedProduct).None? ==> View() == old(View())
      ensures old(selectedProduct).Some? ==>
        var id := old(selectedProduct).value.id;
        View() == old(View()).(products := AppendBatch(old(products), id, NewBatch(id, stamp, f)),
                               batchDialogOpen := false)
    {
      if selectedProduct.None? {
        return;
      }
      var batchToAdd := NewBatch(selectedProduct.value.id, stamp, f);
      products := AppendBatch(products, selectedProduct.value.id, batchToAdd);
      batchDialogOpen := false;
    }

    /** `handleEditBatch`: rewrites the selected batch inside the selected product; nothing
        happens unless both are selected. */
    method HandleEditBatch(f: BatchForm)
      requires Valid()
      modifies this
      ensures Valid()
      ensures old(selectedProduct).None? || old(selectedBatch).None? ==> View() == old(View())
      ensures old(selectedProduct).Some? && old(selectedBatch).Some? ==>
        View() == old(View()).(products := EditBatches(old(products), old(selectedProduct).value.id,
                                                       old(selectedBatch).value.id, f),
                               batchDialogOpen := false, isEditing := false)
    {
      if selectedProduct.None? || selectedBatch.None? {
        return;
      }
      products := EditBatches(products, selectedProduct.value.id, selectedBatch.value.id, f);
      batchDialogOpen := false;
      isEditing := false;
    }

    method HandleDeleteBatch(productId: string, batchId: string)
      requires Valid()
      modifies this
      ensures Valid()
      ensures View() == old(View()).(products := RemoveBatch(old(products), productId, batchId))
    {
      products := RemoveBatch(products, productId, batchId);
    }

    /** The product dialog's submit button: update when editing, add otherwise. */
    method SubmitProductDialog(f: ProductForm, idStamp: string, barcodeStamp: string)
      requires Valid()
      modifies this
      ensures Valid()
      ensures old(isEditing) && old(selectedProduct).None? ==> View() == old(View())
      ensures old(isEditing) && old(selectedProduct).Some? ==>
        View() == old(View()).(products := EditProducts(old(products), old(selectedProduct).value.id, f),
                               productDialogOpen := false, isEditing := false)
      ensures !old(isEditing) ==>
        View() == old(View()).(products := old(products) + [NewProduct(f, idStamp, barcodeStamp)],
                               productDialogOpen := false)
    {
      if isEditing {
        HandleEditProduct(f);
      } else {
        HandleAddProduct(f, idStamp, barcodeStamp);
      }
    }

    /** The batch dialog's submit button: update when editing, add otherwise. */
    method SubmitBatchDialog(f: BatchForm, stamp: string)
      requires Valid()
      modifies this
      ensures Valid()
      ensures old(isEditing) && (old(selectedProduct).None? || old(selectedBatch).None?) ==> View() == old(View())
      ensures !old(isEditing) && old(selectedProduct).None? ==> View() == old(View())
      ensures old(isEditing) && old(selectedProduct).Some? && old(selectedBatch).Some? ==>
        View() == old(View()).(products := EditBatches(old(products), old(selectedProduct).value.id,
                                                       old(selectedBatch).value.id, f),
                               batchDialogOpen := false, isEditing := false)
      ensures !old(isEditing) && old(selectedProduct).Some? ==>
        var id := old(selectedProduct).value.id;
        View() == old(View()).(products := AppendBatch(old(products), id, NewBatch(id, stamp, f)),
                               batchDialogOpen := false)
    {
      if isEditing {
        HandleEditBatch(f);
      } else {
        HandleAddBatch(f, stamp);
      }
    }

    /** The product dialog's own open-state changes: the "Add Product" trigger opens it, and a
        click outside or Escape closes it. Neither touches `isEditing`. */
    method SetProductDialogOpen(open: bool)
      requires Valid()
      modifies this
      ensures Valid()
      ensures View() == old(View()).(productDialogOpen := open)
    {
      productDialogOpen := open;
    }

    /** The batch dialog's own dismissal (click outside or Escape); `isEditing` is kept. */
    method SetBatchDialogOpen(open: bool)
      requires Valid()
      modifies this
      ensures Valid()
      ensures View() == old(View()).(batchDialogOpen := open)
    {
      batchDialogOpen := open;
    }

    /** The product detail view's own dismissal. */
    method SetProductDetailOpen(open: bool)
      requires Valid()
      modifies this
      ensures Valid()
      ensures View() == old(View()).(productDetailOpen := open)
    {
      productDetailOpen := open;
    }

    /** The product dialog's Cancel button. */
    method CancelProductDialog()
      requires Valid()
      modifies this
      ensures Valid()
      ensures View() == old(View()).(productDialogOpen := false, isEditing := false)
    {
      productDialogOpen := false;
      isEditing := false;
    }

    /** The batch dialog's Cancel button. */
    method CancelBatchDialog()
      requires Valid()
      modifies this
      ensures Valid()
      ensures View() == old(View()).(batchDialogOpen := false, isEditing := false)
    {
      batchDialogOpen := false;
      isEditing := false;
    }
  }

  /** Dismissing the edit dialog instead of cancelling it leaves the screen in editing mode, so
      a later "Add Product" opens the dialog still titled "Edit Product", and submitting it
      edits the product selected before instead of adding a new one. */
  method DismissedEditThenAdd(ps: seq<Product>, p: Product, f: ProductForm, idStamp: string, barcodeStamp: string)
    returns (r: seq<Product>)
    ensures r == EditProducts(ps, p.id, f)
    ensures |r| == |ps|
  {
    var page := new ProductsPage(ps);
    page.OpenEditProductDialog(p);
    page.SetProductDialogOpen(false);
    page.SetProductDialogOpen(true);
    page.SubmitProductDialog(f, idStamp, barcodeStamp);
    r := page.products;
  }
}
