/** The product edit session of the admin page: the product being edited (if
    any), the tier being drafted, the new-product form and its draft. The two
    outbound callbacks (product updated, product added) are recorded as the
    sequences of records they were called with. */
module ProductManagement {
  import opened Shop
  import opened AdminUtils

  class ProductEditor {
    var editProduct: Option<Product>
    var newDiscount: Discount
    var showNewProductForm: bool
    var newProduct: ProductData
    /** Every record passed to onProductUpdate, in call order. */
    var updatesSent: seq<Product>
    /** Every record passed to onProductAdd, in call order. */
    var additionsSent: seq<Product>

    /** Nothing being edited, empty drafts, form hidden, nothing sent. */
    constructor ()
      ensures editProduct == None && newDiscount == InitialDiscountState()
      ensures !showNewProductForm && newProduct == InitialProductState()
      ensures updatesSent == [] && additionsSent == []
    {
      editProduct := None;
      newDiscount := InitialDiscountState();
      showNewProductForm := false;
      newProduct := InitialProductState();
      updatesSent := [];
      additionsSent := [];
    }

    /** The guard of the field handlers: a product is being edited and it has this id. */
    predicate IsEditing(productId: string)
      reads this
    {
      editProduct.Some? && editProduct.value.id == productId
    }

    /** handleEditProduct: start editing a copy of the product. */
    method HandleEditProduct(product: Product)
      modifies this`editProduct
      ensures editProduct == Some(product)
    {
      editProduct := Some(product);
    }

    /** handleProductNameUpdate: renames the edited product, only on an id match. */
    method HandleProductNameUpdate(productId: string, newName: string)
      modifies this`editProduct
      ensures old(IsEditing(productId)) ==>
                editProduct == Some(UpdateProductField(old(editProduct).value, NameValue(newName)))
      ensures !old(IsEditing(productId)) ==> editProduct == old(editProduct)
    {
      if IsEditing(productId) {
        editProduct := Some(editProduct.value.(name := newName));
      }
    }

    /** handlePriceUpdate: reprices the edited product, only on an id match. */
    method HandlePriceUpdate(productId: string, newPrice: real)
      modifies this`editProduct
      ensures old(IsEditing(productId)) ==>
                editProduct == Some(UpdateProductField(old(editProduct).value, PriceValue(newPrice)))
      ensures !old(IsEditing(productId)) ==> editProduct == old(editProduct)
    {
      if IsEditing(productId) {
        editProduct := Some(editProduct.value.(price := newPrice));
      }
    }

    /** handleStockUpdate: sets the edited product's stock, only on an id match. */
    method HandleStockUpdate(productId: string, newStock: int)
      modifies this`editProduct
      ensures old(IsEditing(productId)) ==>
                editProduct == Some(UpdateProductField(old(editProduct).value, StockValue(newStock)))
      ensures !old(IsEditing(productId)) ==> editProduct == old(editProduct)
    {
      if IsEditing(productId) {
        editProduct := Some(editProduct.value.(stock := newStock));
      }
    }

    /** handleEditComplete: sends the edited product once and ends the session;
        nothing happens when no product is being edited. */
    method HandleEditComplete()
      modifies this`editProduct, this`updatesSent
      ensures old(editProduct).Some? ==>
                updatesSent == old(updatesSent) + [old(editProduct).value] && editProduct == None
      ensures old(editProduct).None? ==> updatesSent == old(updatesSent) && editProduct == None
    {
      if editProduct.Some? {
        updatesSent := updatesSent + [editProduct.value];
        editProduct := None;
      }
    }

    /** handleAddDiscount: on an id match, appends the drafted tier, sends and
        keeps the result, and clears the tier draft. */
    method HandleAddDiscount(productId: string)
      modifies this`editProduct, this`updatesSent, this`newDiscount
      ensures old(IsEditing(productId)) ==>
                var updated := AddDiscountToProduct(old(editProduct).value, old(newDiscount));
                && editProduct == Some(updated)
                && updatesSent == old(updatesSent) + [updated]
                && newDiscount == InitialDiscountState()
      ensures !old(IsEditing(productId)) ==>
                editProduct == old(editProduct) && updatesSent == old(updatesSent)
                && newDiscount == old(newDiscount)
    {
      if IsEditing(productId) {
        var updated := editProduct.value.(discounts := editProduct.value.discounts + [newDiscount]);
        updatesSent := updatesSent + [updated];
        editProduct := Some(updated);
        newDiscount := InitialDiscountState();
      }
    }

    /** handleRemoveDiscount: on an id match, drops the tier at that position,
        sends and keeps the result. */
    method HandleRemoveDiscount(productId: string, index: int)
      modifies this`editProduct, this`updatesSent
      ensures old(IsEditing(productId)) ==>
                var updated := RemoveDiscountFromProduct(old(editProduct).value, index);
                editProduct == Some(updated) && updatesSent == old(updatesSent) + [updated]
      ensures !old(IsEditing(productId)) ==>
                editProduct == old(editProduct) && updatesSent == old(updatesSent)
    {
      if IsEditing(productId) {
        var updated := editProduct.value.(discounts := DropIndex(editProduct.value.discounts, index));
        updatesSent := updatesSent + [updated];
        editProduct := Some(updated);
      }
    }

    /** handleAddNewProduct: sends the draft with a fresh id, clears the draft
        and hides the form. The id comes from the clock in the hook. */
    method HandleAddNewProduct(freshId: string)
      modifies this`additionsSent, this`newProduct, this`showNewProductForm
      ensures additionsSent == old(additionsSent) + [CreateProduct(old(newProduct), freshId)]
      ensures newProduct == InitialProductState() && !showNewProductForm
    {
      additionsSent := additionsSent + [Product(freshId, newProduct.name, newProduct.price, newProduct.stock, newProduct.discounts)];
      newProduct := InitialProductState();
      showNewProductForm := false;
    }

    /** setNewDiscount: replaces the tier draft. */
    method SetNewDiscount(discount: Discount)
      modifies this`newDiscount
      ensures newDiscount == discount
    {
      newDiscount := discount;
    }

    /** setShowNewProductForm: shows or hides the new-product form. */
    method SetShowNewProductForm(show: bool)
      modifies this`showNewProductForm
      ensures showNewProductForm == show
    {
      showNewProductForm := show;
    }

    /** setNewProduct: replaces the new-product draft. */
    method SetNewProduct(data: ProductData)
      modifies this`newProduct
      ensures newProduct == data
    {
      newProduct := data;
    }
  }

  /** The hook unit test: edit p1, rename it, and the session holds p1 with
      only the new name; finishing the edit sends exactly that record. */
  method RenameScenario() returns (sent: seq<Product>)
    ensures sent == [Product("p1", "new product", 10000.0, 20, [Discount(10, 0.1)])]
  {
    var p1 := Product("p1", "product 1", 10000.0, 20, [Discount(10, 0.1)]);
    var editor := new ProductEditor();
    editor.HandleEditProduct(p1);
    editor.HandleProductNameUpdate("p1", "new product");
    assert editor.editProduct == Some(p1.(name := "new product"));
    editor.HandleProductNameUpdate("p2", "ignored");
    assert editor.editProduct == Some(p1.(name := "new product"));
    editor.HandleEditComplete();
    assert editor.updatesSent == [p1.(name := "new product")] && editor.editProduct == None;
    sent := editor.updatesSent;
  }
}
