/** The cart store (`CartProvider`): the current cart with `loading` and
    `error` flags, and the operations load, add, update quantity, remove and
    clear. Each of add, update and remove sends one mutation to the remote
    cart and then replaces the whole local cart with a fresh reload; a
    successful add also lowers the stock of the product in the parent's
    product list. Every remote call is awaited and either returns or throws;
    which one happens is given to each operation as a parameter. */
module CartContext {
  import opened Options

  /** A cart line as the remote returns it; the store never looks inside. */
  datatype CartLine = CartLine(id: int, description: string, price: string, quantity: int)

  /** A product of the parent's product list; `quantity` is its stock. */
  datatype ShopProduct = ShopProduct(id: int, description: string, price: string, category: string, quantity: int)

  /** What an awaited remote call did: returned a value, or threw. */
  datatype Call<T> = Returned(value: T) | Threw

  /** The remote calls the store makes, in the order it makes them. */
  datatype Request =
    | FetchCart
    | AddItem(productId: int, quantity: int)
    | UpdateItem(lineId: int, quantity: int)
    | RemoveItem(lineId: int)
    | ClearCart

  const LoadFailed: string := "Unable to load cart items. Please try again."
  const AddFailed: string := "Unable to add item to the cart."
  const UpdateFailed: string := "Unable to update item quantity in the cart."
  const RemoveFailed: string := "Unable to remove item from the cart."
  const ClearFailed: string := "Unable to clear the cart."

  /** Everything the store holds, together with the requests sent so far. */
  datatype Store = Store(
    cart: seq<CartLine>,
    loading: bool,
    error: Option<string>,
    products: seq<ShopProduct>,
    sent: seq<Request>)

  /** `setProducts(prev => prev.map(p => p.id === id ? { ...p, quantity:
      p.quantity - 1 } : p))`: each product with the id loses exactly one
      unit of stock, with no floor at zero; every other product, the length
      and the order are kept. */
  function DecrementStock(ps: seq<ShopProduct>, id: int): (qs: seq<ShopProduct>)
    ensures |qs| == |ps|
    ensures forall i :: 0 <= i < |ps| && ps[i].id == id ==>
              qs[i] == ps[i].(quantity := ps[i].quantity - 1)
    ensures forall i :: 0 <= i < |ps| && ps[i].id != id ==> qs[i] == ps[i]
  {
    if ps == [] then []
    else [if ps[0].id == id then ps[0].(quantity := ps[0].quantity - 1) else ps[0]]
         + DecrementStock(ps[1..], id)
  }

  /** The cart a reload yields: what the remote returned, or the empty
      cart when it returned nothing (`updatedCart || []`). */
  function Reloaded(data: Option<seq<CartLine>>): (c: seq<CartLine>)
    ensures data.Some? ==> c == data.value
    ensures data.None? ==> c == []
  {
    data.GetOr([])
  }

  /** `loadCart`, run once on mount: one fetch; on success the cart is what
      it returned, on failure the cart is kept and the load message set.
      `loading` ends false either way. */
  function AfterLoad(s: Store, fetched: Call<Option<seq<CartLine>>>): (t: Store)
    ensures !t.loading && t.products == s.products && t.sent == s.sent + [FetchCart]
    ensures fetched.Returned? ==> t.cart == Reloaded(fetched.value) && t.error == s.error
    ensures fetched.Threw? ==> t.cart == s.cart && t.error == Some(LoadFailed)
  {
    match fetched
    case Returned(data) => s.(cart := Reloaded(data), loading := false, sent := s.sent + [FetchCart])
    case Threw => s.(loading := false, error := Some(LoadFailed), sent := s.sent + [FetchCart])
  }

  /** The write-then-reload pattern shared by add, update and remove: the
      mutation is sent; only when it returns is the cart fetched; only when
      both return is the cart replaced by the reload. A throw at either
      step keeps the cart and sets the operation's message. */
  function AfterMutation(s: Store, mutation: Request, failure: string,
                         mutated: Call<()>, reload: Call<Option<seq<CartLine>>>): (t: Store)
    ensures !t.loading && t.products == s.products
    ensures t.sent == s.sent + [mutation] + (if mutated.Returned? then [FetchCart] else [])
    ensures mutated.Returned? && reload.Returned? ==>
              t.cart == Reloaded(reload.value) && t.error == s.error
    ensures mutated.Threw? || reload.Threw? ==>
              t.cart == s.cart && t.error == Some(failure)
  {
    if mutated.Threw? then
      s.(loading := false, error := Some(failure), sent := s.sent + [mutation])
    else if reload.Threw? then
      s.(loading := false, error := Some(failure), sent := s.sent + [mutation, FetchCart])
    else
      s.(cart := Reloaded(reload.value), loading := false, sent := s.sent + [mutation, FetchCart])
  }

  /** `addToCart(product)`: asks for exactly one unit of `product.id`; when
      both the add and the reload return and a product setter was given,
      that product's stock drops by one. */
  function AfterAdd(s: Store, hasSetProducts: bool, product: ShopProduct,
                    added: Call<()>, reload: Call<Option<seq<CartLine>>>): (t: Store)
    ensures !t.loading
    ensures t.sent == s.sent + [AddItem(product.id, 1)] + (if added.Returned? then [FetchCart] else [])
    ensures added.Returned? && reload.Returned? ==>
              && t.cart == Reloaded(reload.value) && t.error == s.error
              && t.products == (if hasSetProducts then DecrementStock(s.products, product.id) else s.products)
    ensures added.Threw? || reload.Threw? ==>
              t.cart == s.cart && t.error == Some(AddFailed) && t.products == s.products
  {
    var t := AfterMutation(s, AddItem(product.id, 1), AddFailed, added, reload);
    if added.Returned? && reload.Returned? && hasSetProducts then
      t.(products := DecrementStock(t.products, product.id))
    else t
  }

  /** `updateQuantity(id, quantity)`: the quantity is sent as given, with no
      check; the local cart is whatever the reload returns. */
  function AfterUpdate(s: Store, lineId: int, quantity: int,
                       updated: Call<()>, reload: Call<Option<seq<CartLine>>>): (t: Store)
    ensures !t.loading && t.products == s.products
    ensures t.sent == s.sent + [UpdateItem(lineId, quantity)] + (if updated.Returned? then [FetchCart] else [])
    ensures updated.Returned? && reload.Returned? ==> t.cart == Reloaded(reload.value) && t.error == s.error
    ensures updated.Threw? || reload.Threw? ==> t.cart == s.cart && t.error == Some(UpdateFailed)
  {
    AfterMutation(s, UpdateItem(lineId, quantity), UpdateFailed, updated, reload)
  }

  /** `removeFromCart(id)`. */
  function AfterRemove(s: Store, lineId: int, removed: Call<()>, reload: Call<Option<seq<CartLine>>>): (t: Store)
    ensures !t.loading && t.products == s.products
    ensures t.sent == s.sent + [RemoveItem(lineId)] + (if removed.Returned? then [FetchCart] else [])
    ensures removed.Returned? && reload.Returned? ==> t.cart == Reloaded(reload.value) && t.error == s.error
    ensures removed.Threw? || reload.Threw? ==> t.cart == s.cart && t.error == Some(RemoveFailed)
  {
    AfterMutation(s, RemoveItem(lineId), RemoveFailed, removed, reload)
  }

  /** `clearCart`: one clear call and no reload; on success the cart is
      empty, on failure it is kept and the clear message set. */
  function AfterClear(s: Store, cleared: Call<()>): (t: Store)
    ensures !t.loading && t.products == s.products && t.sent == s.sent + [ClearCart]
    ensures cleared.Returned? ==> t.cart == [] && t.error == s.error
    ensures cleared.Threw? ==> t.cart == s.cart && t.error == Some(ClearFailed)
  {
    if cleared.Returned? then s.(cart := [], loading := false, sent := s.sent + [ClearCart])
    else s.(loading := false, error := Some(ClearFailed), sent := s.sent + [ClearCart])
  }

  /** One operation together with what its remote calls did. */
  datatype Intent =
    | Load(fetched: Call<Option<seq<CartLine>>>)
    | Add(product: ShopProduct, added: Call<()>, reload: Call<Option<seq<CartLine>>>)
    | Update(lineId: int, quantity: int, updated: Call<()>, reload: Call<Option<seq<CartLine>>>)
    | Remove(lineId: int, removed: Call<()>, reload: Call<Option<seq<CartLine>>>)
    | Clear(cleared: Call<()>)

  function Step(s: Store, hasSetProducts: bool, i: Intent): Store {
    match i
    case Load(f) => AfterLoad(s, f)
    case Add(p, a, r) => AfterAdd(s, hasSetProducts, p, a, r)
    case Update(l, q, u, r) => AfterUpdate(s, l, q, u, r)
    case Remove(l, d, r) => AfterRemove(s, l, d, r)
    case Clear(c) => AfterClear(s, c)
  }

  /** Operations run one after another, each to completion. A run may hold
      any number of loads at any place, more than the page does: it loads
      once, from the effect that runs on mount. The lemmas about runs hold
      for every such sequence, so also for the page's own. */
  function Run(s: Store, hasSetProducts: bool, intents: seq<Intent>): Store
    decreases |intents|
  {
    if intents == [] then s else Run(Step(s, hasSetProducts, intents[0]), hasSetProducts, intents[1..])
  }

  /** Whether some remote call of the operation threw. */
  predicate Failed(i: Intent) {
    match i
    case Load(f) => f.Threw?
    case Add(_, a, r) => a.Threw? || r.Threw?
    case Update(_, _, u, r) => u.Threw? || r.Threw?
    case Remove(_, d, r) => d.Threw? || r.Threw?
    case Clear(c) => c.Threw?
  }

  /** The error is written only when a call throws, so once set it stays
      set whatever runs after, successes included. */
  lemma {:induction false} ErrorIsNeverCleared(s: Store, hasSetProducts: bool, intents: seq<Intent>)
    requires s.error.Some?
    ensures Run(s, hasSetProducts, intents).error.Some?
    decreases |intents|
  {
    if intents != [] {
      ErrorIsNeverCleared(Step(s, hasSetProducts, intents[0]), hasSetProducts, intents[1..]);
    }
  }

  /** Whatever ran, `loading` is false once the last operation finished. */
  lemma {:induction false} NotLoadingAfterRun(s: Store, hasSetProducts: bool, intents: seq<Intent>)
    requires intents != []
    ensures !Run(s, hasSetProducts, intents).loading
    decreases |intents|
  {
    if |intents| > 1 {
      NotLoadingAfterRun(Step(s, hasSetProducts, intents[0]), hasSetProducts, intents[1..]);
    }
  }

  /** The fixed message an operation's `catch` block sets. */
  function FailureMessage(i: Intent): string {
    match i
    case Load(_) => LoadFailed
    case Add(_, _, _) => AddFailed
    case Update(_, _, _, _) => UpdateFailed
    case Remove(_, _, _) => RemoveFailed
    case Clear(_) => ClearFailed
  }

  /** Operations that all fail leave the cart and the product list exactly
      as they were; the error is the last one's message. */
  lemma {:induction false} FailuresKeepCartAndStock(s: Store, hasSetProducts: bool, intents: seq<Intent>)
    requires forall k :: 0 <= k < |intents| ==> Failed(intents[k])
    ensures Run(s, hasSetProducts, intents).cart == s.cart
    ensures Run(s, hasSetProducts, intents).products == s.products
    ensures intents != [] ==>
              Run(s, hasSetProducts, intents).error == Some(FailureMessage(intents[|intents| - 1]))
    decreases |intents|
  {
    if intents != [] {
      assert Failed(intents[0]);
      FailuresKeepCartAndStock(Step(s, hasSetProducts, intents[0]), hasSetProducts, intents[1..]);
    }
  }

  /** `n` successful adds of the same product, with a product setter, lower
      that product's stock by exactly `n` and touch no other product: the
      stock can go below zero. */
  lemma {:induction false} RepeatedAddsLowerStock(s: Store, product: ShopProduct, intents: seq<Intent>, k: nat)
    requires forall j :: 0 <= j < |intents| ==>
               intents[j].Add? && intents[j].product.id == product.id && !Failed(intents[j])
    requires k < |s.products|
    ensures |Run(s, true, intents).products| == |s.products|
    ensures Run(s, true, intents).products[k] ==
              if s.products[k].id == product.id
              then s.products[k].(quantity := s.products[k].quantity - |intents|)
              else s.products[k]
    decreases |intents|
  {
    if intents != [] {
      var i := intents[0];
      assert i.Add? && !Failed(i);
      var t := Step(s, true, i);
      assert t.products == DecrementStock(s.products, product.id);
      RepeatedAddsLowerStock(t, product, intents[1..], k);
    }
  }

  /** An illustration, one concrete instance of `RepeatedAddsLowerStock`:
      the stock is not floored, so a product with no stock left goes to -1. */
  lemma AddBelowZero(s: Store, product: ShopProduct, reload: Call<Option<seq<CartLine>>>)
    requires s.products == [product] && product.quantity == 0 && reload.Returned?
    ensures AfterAdd(s, true, product, Returned(()), reload).products[0].quantity == -1
  {
  }

  /** An illustration of `AfterMutation` seen through `Step`: after a
      successful add, update or remove the cart is the last reload, whatever
      it was before. */
  lemma ReloadWins(s: Store, hasSetProducts: bool, i: Intent)
    requires !i.Load? && !i.Clear? && !Failed(i)
    ensures Step(s, hasSetProducts, i).cart == Reloaded(i.reload.value)
  {
  }

  class CartProvider {
    var cart: seq<CartLine>
    var loading: bool
    var error: Option<string>
    /** The parent's product list, written through `setProducts`. */
    var products: seq<ShopProduct>
    /** Whether the parent passed a `setProducts` prop. */
    const hasSetProducts: bool
    /** The remote calls sent so far. */
    ghost var sent: seq<Request>

    ghost function State(): Store
      reads this
    {
      Store(cart, loading, error, products, sent)
    }

    /** The provider's initial state: empty cart, not loading, no error. */
    constructor (products: seq<ShopProduct>, hasSetProducts: bool)
      ensures State() == Store([], false, None, products, [])
      ensures this.hasSetProducts == hasSetProducts
    {
      cart := [];
      loading := false;
      error := None;
      this.products := products;
      this.hasSetProducts := hasSetProducts;
      sent := [];
    }

    method LoadCart(fetched: Call<Option<seq<CartLine>>>)
      modifies this
      ensures State() == AfterLoad(old(State()), fetched)
    {
      loading := true;
      sent := sent + [FetchCart];
      if fetched.Returned? {
        cart := Reloaded(fetched.value);
      } else {
        error := Some(LoadFailed);
      }
      loading := false;
    }

    /** The shared body of add, update and remove: send the mutation, and
        only if it returned, reload; `finally` clears `loading`. Returns
        whether both calls returned. */
    method MutateAndReload(mutation: Request, failure: string,
                           mutated: Call<()>, reload: Call<Option<seq<CartLine>>>) returns (ok: bool)
      modifies this
      ensures ok == (mutated.Returned? && reload.Returned?)
      ensures State() == AfterMutation(old(State()), mutation, failure, mutated, reload)
    {
      ok := false;
      loading := true;
      sent := sent + [mutation];
      if mutated.Returned? {
        sent := sent + [FetchCart];
        if reload.Returned? {
          cart := Reloaded(reload.value);
          ok := true;
        }
      }
      if !ok {
        error := Some(failure);
      }
      loading := false;
    }

    method AddToCart(product: ShopProduct, added: Call<()>, reload: Call<Option<seq<CartLine>>>)
      modifies this
      ensures State() == AfterAdd(old(State()), hasSetProducts, product, added, reload)
    {
      var ok := MutateAndReload(AddItem(product.id, 1), AddFailed, added, reload);
      if ok && hasSetProducts {
        products := DecrementStock(products, product.id);
      }
    }

    method UpdateQuantity(lineId: int, quantity: int, updated: Call<()>, reload: Call<Option<seq<CartLine>>>)
      modifies this
      ensures State() == AfterUpdate(old(State()), lineId, quantity, updated, reload)
    {
      var _ := MutateAndReload(UpdateItem(lineId, quantity), UpdateFailed, updated, reload);
    }

    method RemoveFromCart(lineId: int, removed: Call<()>, reload: Call<Option<seq<CartLine>>>)
      modifies this
      ensures State() == AfterRemove(old(State()), lineId, removed, reload)
    {
      var _ := MutateAndReload(RemoveItem(lineId), RemoveFailed, removed, reload);
    }

    method ClearCart(cleared: Call<()>)
      modifies this
      ensures State() == AfterClear(old(State()), cleared)
    {
      loading := true;
      sent := sent + [Request.ClearCart];
      if cleared.Returned? {
        cart := [];
      } else {
        error := Some(ClearFailed);
      }
      loading := false;
    }
  }
}
