/** The EditProduct page reached at `/edit/:id`: a form bound to one product
    record, loaded from the catalogue by the route's id and written back by
    id on submit. `products` is the application's product list, written
    through `setProducts`; `routeId` is the route parameter after
    `parseInt`. */
module EditProduct {
  import opened Options
  import opened Catalog

  /** The form's initial record: every field empty and no id. */
  const BlankForm: Product := Product(None, "", "", "", "", "")

  /** Writing the blank form back matches no product that has an id, so a
      catalogue whose products all carry ids is left as it was. */
  lemma BlankSubmitChangesNothing(ps: seq<Product>)
    requires forall i :: 0 <= i < |ps| ==> ps[i].id.Some?
    ensures ReplaceById(ps, BlankForm.id, BlankForm) == ps
  {
  }

  /** Loading the record that is first for its id and writing it back
      unchanged leaves the catalogue as it was when that id is unique. */
  lemma {:induction false} LoadThenSubmitUnchanged(ps: seq<Product>, id: Option<int>)
    requires FindById(ps, id).Some?
    requires CountId(ps, id) == 1
    ensures ReplaceById(ps, id, FindById(ps, id).value) == ps
  {
    var r := FindById(ps, id).value;
    if ps[0].id == id {
      assert r == ps[0];
      OnlyOne(ps, id);
      ReplaceAbsentId(ps[1..], id, r);
      assert ReplaceById(ps, id, r) == [r] + ReplaceById(ps[1..], id, r);
    } else {
      assert FindById(ps, id) == FindById(ps[1..], id);
      assert CountId(ps[1..], id) == 1;
      LoadThenSubmitUnchanged(ps[1..], id);
      assert ReplaceById(ps, id, r) == [ps[0]] + ReplaceById(ps[1..], id, r);
    }
    assert ps == [ps[0]] + ps[1..];
  }

  lemma OnlyOne(ps: seq<Product>, id: Option<int>)
    requires ps != [] && ps[0].id == id && CountId(ps, id) == 1
    ensures forall i :: 0 <= i < |ps[1..]| ==> ps[1..][i].id != id
  {
    if exists i :: 0 <= i < |ps[1..]| && ps[1..][i].id == id {
      var i :| 0 <= i < |ps[1..]| && ps[1..][i].id == id;
      CountPositive(ps[1..], id, i);
    }
  }

  lemma {:induction false} CountPositive(ps: seq<Product>, id: Option<int>, i: nat)
    requires i < |ps| && ps[i].id == id
    ensures CountId(ps, id) >= 1
  {
    if i > 0 { CountPositive(ps[1..], id, i - 1); }
  }

  class EditProductPage {
    var products: seq<Product>
    var product: Product
    const routeId: int

    constructor (products: seq<Product>, routeId: int)
      ensures this.products == products && this.routeId == routeId
      ensures product == BlankForm
    {
      this.products := products;
      this.routeId := routeId;
      product := BlankForm;
    }

    /** The effect run when the route id or the catalogue changes: the form
        becomes the first product whose id is the route id, and stays as it
        is when there is none. */
    method LoadProduct()
      modifies this
      ensures FindById(products, Some(routeId)).Some? ==>
                product == FindById(products, Some(routeId)).value
      ensures FindById(products, Some(routeId)).None? ==> product == old(product)
      ensures products == old(products)
    {
      var found := FindById(products, Some(routeId));
      if found.Some? {
        product := found.value;
      }
    }

    /** `handleSubmit`: every product whose id is the form's id becomes the
        form's record; no field is validated. */
    method HandleSubmit()
      modifies this
      ensures products == ReplaceById(old(products), product.id, product)
      ensures product == old(product)
    {
      products := ReplaceById(products, product.id, product);
    }

    /** `handleChange`: changes exactly the named field of the form. */
    method HandleChange(f: FieldName, v: string)
      modifies this
      ensures product == SetField(old(product), f, v)
      ensures products == old(products)
    {
      product := SetField(product, f, v);
    }
  }
}
