/** The product record shared by the admin pages (Dashboard, ViewProducts,
    EditProduct) and the list operations they perform on the catalogue held
    in the application's `products` state: replace-by-id (`map`), delete-by-id
    (`filter`) and lookup-by-id (`find`). */
module Catalog {
  import opened Options

  /** A product as the admin pages store it. Every field but the id is the
      string value of a form input. The id is a number, or missing
      (`undefined`); comparing two ids with `===` is equality of options. */
  datatype Product = Product(
    id: Option<int>,
    barcode: string,
    description: string,
    price: string,
    quantity: string,
    category: string)

  /** The names of the edit-form inputs, used as `[name]: value` keys. */
  datatype FieldName = Barcode | Description | Price | Quantity | Category

  /** The message both product forms show when a field is empty. */
  const FillAllFields: string := "Please fill in all fields."

  function GetField(p: Product, f: FieldName): string {
    match f
    case Barcode => p.barcode
    case Description => p.description
    case Price => p.price
    case Quantity => p.quantity
    case Category => p.category
  }

  /** `{ ...p, [name]: value }`: the named field takes the new value and
      every other field, the id included, is kept. */
  function SetField(p: Product, f: FieldName, v: string): (r: Product)
    ensures GetField(r, f) == v
    ensures forall g :: g != f ==> GetField(r, g) == GetField(p, g)
    ensures r.id == p.id
  {
    match f
    case Barcode => p.(barcode := v)
    case Description => p.(description := v)
    case Price => p.(price := v)
    case Quantity => p.(quantity := v)
    case Category => p.(category := v)
  }

  /** The five-field check `!barcode || !description || !price || !quantity
      || !category` fails exactly when some field is the empty string. */
  predicate AllFilled(barcode: string, description: string, price: string, quantity: string, category: string)
    ensures AllFilled(barcode, description, price, quantity, category)
        <==> "" !in [barcode, description, price, quantity, category]
  {
    barcode != "" && description != "" && price != "" && quantity != "" && category != ""
  }

  lemma AllFilledIffNoEmptyField(p: Product)
    ensures AllFilled(p.barcode, p.description, p.price, p.quantity, p.category)
        <==> forall f :: GetField(p, f) != ""
  {
    if !AllFilled(p.barcode, p.description, p.price, p.quantity, p.category) {
      if p.barcode == "" { assert GetField(p, Barcode) == ""; }
      else if p.description == "" { assert GetField(p, Description) == ""; }
      else if p.price == "" { assert GetField(p, Price) == ""; }
      else if p.quantity == "" { assert GetField(p, Quantity) == ""; }
      else { assert GetField(p, Category) == ""; }
    }
  }

  /** `ps.map(p => p.id === id ? r : p)`: every product carrying the id is
      replaced by `r`; every other product, the length and the order are
      kept. */
  function ReplaceById(ps: seq<Product>, id: Option<int>, r: Product): (qs: seq<Product>)
    ensures |qs| == |ps|
    ensures forall i :: 0 <= i < |ps| && ps[i].id == id ==> qs[i] == r
    ensures forall i :: 0 <= i < |ps| && ps[i].id != id ==> qs[i] == ps[i]
  {
    if ps == [] then []
    else [if ps[0].id == id then r else ps[0]] + ReplaceById(ps[1..], id, r)
  }

  /** `ps.filter(p => p.id !== id)`: exactly the products without the id
      remain. */
  function RemoveById(ps: seq<Product>, id: Option<int>): (qs: seq<Product>)
    ensures |qs| <= |ps|
    ensures forall p :: p in qs <==> p in ps && p.id != id
  {
    if ps == [] then []
    else if ps[0].id == id then RemoveById(ps[1..], id)
    else [ps[0]] + RemoveById(ps[1..], id)
  }

  /** `ps.find(p => p.id === id)`: the first product carrying the id, or
      nothing when none does. */
  function FindById(ps: seq<Product>, id: Option<int>): (r: Option<Product>)
    ensures r.None? <==> forall i :: 0 <= i < |ps| ==> ps[i].id != id
    ensures r.Some? ==> exists i :: 0 <= i < |ps| && ps[i] == r.value && r.value.id == id
                                    && forall j :: 0 <= j < i ==> ps[j].id != id
  {
    if ps == [] then None
    else if ps[0].id == id then Some(ps[0])
    else
      var r := FindById(ps[1..], id);
      assert r.Some? ==> exists i :: 0 < i < |ps| && ps[i] == r.value && r.value.id == id
                                     && forall j :: 0 <= j < i ==> ps[j].id != id by {
        if r.Some? {
          var k :| 0 <= k < |ps[1..]| && ps[1..][k] == r.value && r.value.id == id
                   && forall j :: 0 <= j < k ==> ps[1..][j].id != id;
          assert forall j :: 0 <= j < k + 1 ==> ps[j].id != id by {
            forall j | 0 <= j < k + 1 ensures ps[j].id != id {
              if j > 0 { assert ps[j] == ps[1..][j - 1]; }
            }
          }
        }
      }
      r
  }

  /** The number of products carrying the id. */
  function CountId(ps: seq<Product>, id: Option<int>): nat {
    if ps == [] then 0 else (if ps[0].id == id then 1 else 0) + CountId(ps[1..], id)
  }

  /** Deleting removes one entry per product carrying the id and no more. */
  lemma {:induction false} RemoveByIdLength(ps: seq<Product>, id: Option<int>)
    ensures |RemoveById(ps, id)| == |ps| - CountId(ps, id)
  {
    if ps != [] { RemoveByIdLength(ps[1..], id); }
  }

  /** Deleting keeps the survivors in their order: deleting from a
      concatenation deletes from each part. */
  lemma {:induction false} RemoveByIdConcat(a: seq<Product>, b: seq<Product>, id: Option<int>)
    ensures RemoveById(a + b, id) == RemoveById(a, id) + RemoveById(b, id)
  {
    if a == [] {
      assert a + b == b;
    } else {
      assert (a + b)[1..] == a[1..] + b;
      RemoveByIdConcat(a[1..], b, id);
    }
  }

  /** Deleting an id nobody carries changes nothing. */
  lemma {:induction false} RemoveAbsentId(ps: seq<Product>, id: Option<int>)
    requires forall i :: 0 <= i < |ps| ==> ps[i].id != id
    ensures RemoveById(ps, id) == ps
  {
    if ps != [] {
      RemoveAbsentId(ps[1..], id);
      assert [ps[0]] + ps[1..] == ps;
    }
  }

  /** Deleting twice is deleting once. */
  lemma RemoveByIdIdempotent(ps: seq<Product>, id: Option<int>)
    ensures RemoveById(RemoveById(ps, id), id) == RemoveById(ps, id)
  {
  }

  /** Replacing an id nobody carries changes nothing. */
  lemma ReplaceAbsentId(ps: seq<Product>, id: Option<int>, r: Product)
    requires forall i :: 0 <= i < |ps| ==> ps[i].id != id
    ensures ReplaceById(ps, id, r) == ps
  {
  }

  /** Replacing twice with the same record is replacing once, provided the
      record keeps the id it replaces. */
  lemma ReplaceByIdIdempotent(ps: seq<Product>, id: Option<int>, r: Product)
    requires r.id == id
    ensures ReplaceById(ReplaceById(ps, id, r), id, r) == ReplaceById(ps, id, r)
  {
  }
}
