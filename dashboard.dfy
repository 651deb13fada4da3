/** The admin Dashboard page: a modal form of five inputs that either adds a
    product to the catalogue or edits the one whose id is being edited, and
    a delete action per product. `products` is the application's product
    list, written through `setProducts`; the other fields are the page's own
    state. Every `setX(v)` of a handler is an assignment, in the order the
    handler makes it. */
module Dashboard {
  import opened Options
  import opened Catalog

  const ProductUpdated: string := "Product updated successfully!"
  const ProductAdded: string := "Product added successfully!"
  const ProductDeleted: string := "Product deleted successfully!"

  /** The id a new product gets: one more than the length of the list. It
      is positive, and while the ids are dense no product carries it. */
  function NextId(ps: seq<Product>): (id: int)
    ensures id >= 1
    ensures DenseIds(ps) ==> forall i :: 0 <= i < |ps| ==> ps[i].id != Some(id)
  {
    |ps| + 1
  }

  /** The ids are 1, 2, ..., n in order: what a list built only by adds
      starting from the empty list looks like. */
  predicate DenseIds(ps: seq<Product>) {
    forall i :: 0 <= i < |ps| ==> ps[i].id == Some(i + 1)
  }

  /** Appending a product with the next id keeps the ids dense. */
  lemma AddKeepsIdsDense(ps: seq<Product>, p: Product)
    requires DenseIds(ps)
    requires p.id == Some(NextId(ps))
    ensures DenseIds(ps + [p])
  {
  }

  /** Deleting any product but the last from a densely numbered list of at
      least two and then adding one gives the new product the id of the
      product that is now last: two products share an id. */
  lemma DeleteThenAddCollides(ps: seq<Product>, k: nat, p: Product)
    requires DenseIds(ps) && 2 <= |ps| && k < |ps| - 1
    requires p.id == Some(NextId(RemoveById(ps, Some(k + 1))))
    ensures var qs := RemoveById(ps, Some(k + 1)) + [p];
            |qs| == |ps| && qs[|qs| - 2].id == qs[|qs| - 1].id
  {
    var id := Some(k + 1);
    RemoveKeepsLast(ps, id);
    CountDense(ps, k);
    RemoveByIdLength(ps, id);
  }

  /** A last product without the id is still last after the delete. */
  lemma RemoveKeepsLast(ps: seq<Product>, id: Option<int>)
    requires ps != [] && ps[|ps| - 1].id != id
    ensures var rs := RemoveById(ps, id); rs != [] && rs[|rs| - 1] == ps[|ps| - 1]
  {
    var n := |ps|;
    assert ps == ps[..n - 1] + [ps[n - 1]];
    RemoveByIdConcat(ps[..n - 1], [ps[n - 1]], id);
    RemoveAbsentId([ps[n - 1]], id);
  }

  /** In a densely numbered list every id is carried exactly once. */
  lemma {:induction false} CountDense(ps: seq<Product>, k: nat)
    requires DenseIds(ps) && k < |ps|
    ensures CountId(ps, Some(k + 1)) == 1
  {
    var n := |ps|;
    if n == 1 {
      assert ps[1..] == [];
    } else if k == n - 1 {
      CountAbsent(ps[..n - 1], Some(k + 1));
      CountConcat(ps[..n - 1], [ps[n - 1]], Some(k + 1));
      assert ps[..n - 1] + [ps[n - 1]] == ps;
    } else {
      CountDense(ps[..n - 1], k);
      CountConcat(ps[..n - 1], [ps[n - 1]], Some(k + 1));
      assert ps[..n - 1] + [ps[n - 1]] == ps;
    }
  }

  lemma {:induction false} CountAbsent(ps: seq<Product>, id: Option<int>)
    requires forall i :: 0 <= i < |ps| ==> ps[i].id != id
    ensures CountId(ps, id) == 0
  {
    if ps != [] { CountAbsent(ps[1..], id); }
  }

  lemma {:induction false} CountConcat(a: seq<Product>, b: seq<Product>, id: Option<int>)
    ensures CountId(a + b, id) == CountId(a, id) + CountId(b, id)
  {
    if a == [] {
      assert a + b == b;
    } else {
      assert (a + b)[1..] == a[1..] + b;
      CountConcat(a[1..], b, id);
    }
  }

  /** `editingProductId`: `null` in add mode, otherwise the id (itself
      possibly `undefined`) of the product being edited. */
  datatype Mode = AddMode | EditMode(productId: Option<int>)

  class DashboardPage {
    var products: seq<Product>
    var showModal: bool
    var barcode: string
    var description: string
    var price: string
    var quantity: string
    var category: string
    var error: string
    var success: string
    var editingProductId: Mode

    /** The page as first rendered: empty form, closed modal, add mode. */
    constructor (products: seq<Product>)
      ensures this.products == products
      ensures !showModal && editingProductId == AddMode
      ensures barcode == "" && description == "" && price == "" && quantity == "" && category == ""
      ensures error == "" && success == ""
    {
      this.products := products;
      showModal := false;
      barcode, description, price, quantity, category := "", "", "", "", "";
      error, success := "", "";
      editingProductId := AddMode;
    }

    /** `resetForm`: closes the modal, empties the five inputs and leaves
        edit mode; the catalogue and the messages are untouched. */
    method ResetForm()
      modifies this
      ensures !showModal && editingProductId == AddMode
      ensures barcode == "" && description == "" && price == "" && quantity == "" && category == ""
      ensures products == old(products) && error == old(error) && success == old(success)
    {
      showModal := false;
      barcode := "";
      description := "";
      price := "";
      quantity := "";
      category := "";
      editingProductId := AddMode;
    }

    /** `handleEdit`: copies the product into the form, enters edit mode
        for its id and opens the modal. */
    method HandleEdit(p: Product)
      modifies this
      ensures editingProductId == EditMode(p.id) && showModal
      ensures barcode == p.barcode && description == p.description && price == p.price
      ensures quantity == p.quantity && category == p.category
      ensures products == old(products) && error == old(error) && success == old(success)
    {
      editingProductId := EditMode(p.id);
      barcode := p.barcode;
      description := p.description;
      price := p.price;
      quantity := p.quantity;
      category := p.category;
      showModal := true;
    }

    /** `handleDelete`: removes every product with the id and reports it. */
    method HandleDelete(id: Option<int>)
      modifies this
      ensures products == RemoveById(old(products), id)
      ensures success == ProductDeleted
      ensures showModal == old(showModal) && editingProductId == old(editingProductId)
      ensures barcode == old(barcode) && description == old(description) && price == old(price)
      ensures quantity == old(quantity) && category == old(category) && error == old(error)
    {
      products := RemoveById(products, id);
      success := ProductDeleted;
    }

    /** `handleSubmit`. With an empty field only the error is set. Otherwise,
        in edit mode every product with the edited id becomes the form's
        record under that id, and in add mode one record with id
        `length + 1` is appended; then the error is cleared and the form is
        reset. */
    method HandleSubmit()
      modifies this
      ensures !AllFilled(old(barcode), old(description), old(price), old(quantity), old(category)) ==>
        && error == FillAllFields
        && products == old(products) && success == old(success)
        && showModal == old(showModal) && editingProductId == old(editingProductId)
        && barcode == old(barcode) && description == old(description) && price == old(price)
        && quantity == old(quantity) && category == old(category)
      ensures AllFilled(old(barcode), old(description), old(price), old(quantity), old(category)) ==>
        && error == ""
        && !showModal && editingProductId == AddMode
        && barcode == "" && description == "" && price == "" && quantity == "" && category == ""
        && (old(editingProductId).EditMode? ==>
              && products == ReplaceById(old(products), old(editingProductId).productId,
                   Product(old(editingProductId).productId, old(barcode), old(description), old(price), old(quantity), old(category)))
              && success == ProductUpdated)
        && (old(editingProductId).AddMode? ==>
              && products == old(products) + [Product(Some(NextId(old(products))), old(barcode), old(description),
                                                      old(price), old(quantity), old(category))]
              && success == ProductAdded)
    {
      if !AllFilled(barcode, description, price, quantity, category) {
        error := FillAllFields;
        return;
      }
      if editingProductId.EditMode? {
        // The matched product's own id equals the edited id, so the record
        // `{ id: product.id, ...form }` is the same for every match.
        var id := editingProductId.productId;
        products := ReplaceById(products, id, Product(id, barcode, description, price, quantity, category));
        success := ProductUpdated;
      } else {
        var newProduct := Product(Some(NextId(products)), barcode, description, price, quantity, category);
        products := products + [newProduct];
        success := ProductAdded;
      }
      error := "";
      ResetForm();
    }
  }
}
