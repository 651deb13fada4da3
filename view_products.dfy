/** The ViewProducts page: the product list with an edit modal bound to the
    selected product and a delete action per product. `products` is the
    application's product list, written through `setProducts`. */
module ViewProducts {
  import opened Options
  import opened Catalog

  const ProductUpdated: string := "Product updated successfully!"
  const ProductDeleted: string := "Product deleted successfully!"

  class ViewProductsPage {
    var products: seq<Product>
    var showEditModal: bool
    var selectedProduct: Option<Product>
    var error: string
    var success: string

    constructor (products: seq<Product>)
      ensures this.products == products
      ensures !showEditModal && selectedProduct == None && error == "" && success == ""
    {
      this.products := products;
      showEditModal := false;
      selectedProduct := None;
      error, success := "", "";
    }

    /** `handleEditClick`: selects the product and opens the modal. */
    method HandleEditClick(p: Product)
      modifies this
      ensures selectedProduct == Some(p) && showEditModal
      ensures products == old(products) && error == old(error) && success == old(success)
    {
      selectedProduct := Some(p);
      showEditModal := true;
    }

    /** `handleCloseEditModal`: hides the modal, drops the selection and
        clears both messages. */
    method HandleCloseEditModal()
      modifies this
      ensures !showEditModal && selectedProduct == None && error == "" && success == ""
      ensures products == old(products)
    {
      showEditModal := false;
      selectedProduct := None;
      error := "";
      success := "";
    }

    /** `handleInputChange`: changes exactly the named field of the selected
        product. The edit form is rendered only while a product is
        selected, so a selection is always present. */
    method HandleInputChange(f: FieldName, v: string)
      requires selectedProduct.Some?
      modifies this
      ensures selectedProduct == Some(SetField(old(selectedProduct).value, f, v))
      ensures products == old(products) && showEditModal == old(showEditModal)
      ensures error == old(error) && success == old(success)
    {
      selectedProduct := Some(SetField(selectedProduct.value, f, v));
    }

    /** `handleEditSubmit`. With an empty field only the error is set and
        the modal stays open. Otherwise every product with the selected
        product's id becomes the selected product, and the modal is closed;
        closing clears the success message set just before it. */
    method HandleEditSubmit()
      requires selectedProduct.Some?
      modifies this
      ensures var s := old(selectedProduct).value;
        !AllFilled(s.barcode, s.description, s.price, s.quantity, s.category) ==>
          && error == FillAllFields
          && products == old(products) && selectedProduct == old(selectedProduct)
          && showEditModal == old(showEditModal) && success == old(success)
      ensures var s := old(selectedProduct).value;
        AllFilled(s.barcode, s.description, s.price, s.quantity, s.category) ==>
          && products == ReplaceById(old(products), s.id, s)
          && !showEditModal && selectedProduct == None && error == "" && success == ""
    {
      var s := selectedProduct.value;
      if !AllFilled(s.barcode, s.description, s.price, s.quantity, s.category) {
        error := FillAllFields;
        return;
      }
      products := ReplaceById(products, s.id, s);
      success := ProductUpdated;
      error := "";
      HandleCloseEditModal();
    }

    /** `handleDelete`: removes every product with the id and reports it. */
    method HandleDelete(id: Option<int>)
      modifies this
      ensures products == RemoveById(old(products), id)
      ensures success == ProductDeleted
      ensures showEditModal == old(showEditModal) && selectedProduct == old(selectedProduct)
      ensures error == old(error)
    {
      products := RemoveById(products, id);
      success := ProductDeleted;
    }
  }
}
