# E-commerce storefront and admin front-end: cart store, catalogue editing and registration checks

This project models in Dafny the parts of a small React storefront/admin
front-end that hold state-update and validation logic, and proves what they
guarantee:

- **The cart store** (`CartProvider` in `src/context/CartContext.js`): the
  `cart` list with `loading` and `error` flags, and the operations load on
  mount, add, update quantity, remove and clear. Add, update and remove send
  one mutation to the remote cart and then replace the whole local cart with
  a reload. A successful add also lowers the product's stock by one in the
  parent's product list. Failures keep the cart and set a fixed message.
  (`cart_context.dfy`)
- **Catalogue editing** on three admin pages: Dashboard (add with id
  `length + 1`, edit by id, delete by id, form reset), ViewProducts (edit
  modal bound to a selected product, delete by id) and EditProduct (form
  loaded by the route's id, written back by id). The replace-by-id (`map`),
  delete-by-id (`filter`) and lookup-by-id (`find`) on the product list are
  shared in `catalog.dfy`. Each page is a class in `dashboard.dfy`,
  `view_products.dfy` and `edit_product.dfy`.
- **Registration** (`src/pages/UserRegistration.js`): the three-way
  password-strength label, the email-format check, the ordered validation
  chain of the submit handler and the append to the stored list of
  registered users. (`user_registration.dfy`)

How the model reads the JavaScript:

- Each page component and the cart provider is a class. Its fields are the
  component's `useState` values. The product list owned by the application
  and written through `setProducts` is a field of the page too. Every
  `setX(v)` in a handler is an assignment made in the handler's order, so
  the last write wins. This is why a valid edit on ViewProducts ends with an
  empty success message: closing the modal clears it.
- Every remote call of the cart store is awaited and either returns a value
  or throws. What each call does is given to the operation as a parameter
  (`Call<T>`). The requests sent are recorded in a ghost log so that their
  order can be stated. Each method of `CartProvider` is proved to leave the
  state given by a pure function (`AfterLoad`, `AfterAdd`, ...). The
  properties are proved about those functions, and about `Run`, which
  applies several operations one after another.
- Product ids are `Option<int>`. `===` on a number-or-`undefined` id is
  exactly equality of options. The EditProduct form starts with no id.
  Dashboard's `editingProductId` is `null` (add mode) or some product's id,
  which may itself be missing. The `Mode` datatype keeps those two cases
  apart.
- The email regular expression `^[a-zA-Z0-9._%+-]+@[a-zA-Z0-9.-]+\.[a-zA-Z]{2,}$`
  is stated directly as `MatchesEmailPattern`: some split of the string
  into local part, '@', domain, '.', and letters matches. It is implemented
  as a scan, `IsValidEmail`. They are proved equal.

The code behaves as follows where a reader might expect otherwise:

- The stock of a product is lowered with no floor at zero. It can become
  negative (`AddBelowZero`, `RepeatedAddsLowerStock`).
- `error` is never cleared by a successful operation. It is written only in
  `catch` blocks (`ErrorIsNeverCleared`).
- `updateQuantity` forwards any quantity, zero and negative included, with
  no check.
- `addToCart` always asks for one unit.
- The reload after a mutation is sent only when the mutation returned.

Also, in this version of the code `src/api.js` exports none of the cart
functions that `CartContext.js` imports (`fetchCart`, `addToCartAPI`,
`updateCartAPI`, `removeFromCartAPI`, `clearCartAPI`); it exports only
`fetchProducts`, `fetchProductById`, `addProduct`, `updateProduct` and
`deleteProduct`. The model keeps each remote call abstract, as a `Call`
parameter that either returns a value or throws.

## Model

| member | source | states |
|---|---|---|
| Catalog.SetField | src/pages/ViewProducts.js:49-52 | `{ ...p, [name]: value }` gives the named field the new value and keeps every other field and the id; EditProduct's `handleChange` (src/pages/EditProduct.js:38-41) is the same update |
| Catalog.AllFilled | src/pages/Dashboard.js:22 | the five-field check passes exactly when none of the five inputs is the empty string |
| Catalog.AllFilledIffNoEmptyField | src/pages/Dashboard.js:22 | the five-field emptiness test passes exactly when no field of the product is the empty string |
| Catalog.ReplaceById | src/pages/ViewProducts.js:39-41 | the `map` replacing by id keeps the length; every product carrying the id becomes the new record and every other product is kept at its position |
| Catalog.RemoveById | src/pages/Dashboard.js:68-69 | the `filter` deleting by id keeps exactly the products whose id differs, and never grows the list |
| Catalog.FindById | src/pages/EditProduct.js:21 | `find` returns nothing exactly when no product carries the id; otherwise it returns a product carrying the id with no earlier product carrying it |
| Catalog.RemoveByIdLength | src/pages/Dashboard.js:69 | a delete shortens the list by exactly the number of products carrying the id |
| Catalog.RemoveByIdConcat | src/pages/ViewProducts.js:56 | deleting from a concatenation deletes from each part, so the survivors keep their order |
| Catalog.RemoveAbsentId | src/pages/Dashboard.js:69 | deleting an id no product carries leaves the list unchanged |
| Catalog.RemoveByIdIdempotent | src/pages/ViewProducts.js:56 | deleting the same id twice is the same as deleting it once |
| Catalog.ReplaceAbsentId | src/pages/EditProduct.js:30-32 | replacing by an id no product carries leaves the list unchanged |
| Catalog.ReplaceByIdIdempotent | src/pages/ViewProducts.js:39-41 | replacing twice with a record that keeps the id is the same as replacing once |
| Dashboard.NextId | src/pages/Dashboard.js:40 | the id given to a new product is positive and, while the ids are 1..n (a list built only by adds), carried by no product |
| Dashboard.AddKeepsIdsDense | src/pages/Dashboard.js:39-47 | appending a product with id `length + 1` to a list with ids 1..n gives ids 1..n+1 |
| Dashboard.DeleteThenAddCollides | src/pages/Dashboard.js:40 | deleting any product but the last from a list with ids 1..n (n at least 2), then adding, gives the new product the same id as the product before it: the id scheme the comment calls weak produces duplicates |
| Dashboard.DashboardPage.constructor | src/pages/Dashboard.js:8-16 | the page starts with an empty form, the modal closed, no messages and add mode |
| Dashboard.DashboardPage.ResetForm | src/pages/Dashboard.js:75-83 | closes the modal, empties the five inputs and leaves edit mode; the catalogue and the messages are unchanged |
| Dashboard.DashboardPage.HandleEdit | src/pages/Dashboard.js:56-65 | copies the product's five fields into the form, sets the edited id to the product's id and opens the modal |
| Dashboard.DashboardPage.HandleDelete | src/pages/Dashboard.js:68-72 | the catalogue loses every product with the id, keeping the rest in order; the success message is set; the form is unchanged |
| Dashboard.DashboardPage.HandleSubmit | src/pages/Dashboard.js:19-53 | an empty field sets only 'Please fill in all fields.'. Otherwise, in edit mode every product with the edited id becomes the form's record under that id (others unchanged), and in add mode one record with id `length + 1` is appended after the unchanged products. Then the error is cleared, the form emptied, edit mode left and the modal closed |
| ViewProducts.ViewProductsPage.constructor | src/pages/ViewProducts.js:8-11 | the page starts with the modal closed, no selection and no messages |
| ViewProducts.ViewProductsPage.HandleEditClick | src/pages/ViewProducts.js:14-17 | selects the product and opens the modal |
| ViewProducts.ViewProductsPage.HandleCloseEditModal | src/pages/ViewProducts.js:20-25 | hides the modal, clears the selection and both messages |
| ViewProducts.ViewProductsPage.HandleInputChange | src/pages/ViewProducts.js:49-52 | the selected product changes in exactly the named field |
| ViewProducts.ViewProductsPage.HandleEditSubmit | src/pages/ViewProducts.js:28-46 | an empty field sets only 'Please fill in all fields.' and keeps the modal open; otherwise every product with the selected id becomes the selected product (others, length and order kept), then the modal is closed with no selection, and both the error and the success message end empty |
| ViewProducts.ViewProductsPage.HandleDelete | src/pages/ViewProducts.js:55-59 | the catalogue loses every product with the id, keeping order, and 'Product deleted successfully!' is set |
| EditProduct.BlankSubmitChangesNothing | src/pages/EditProduct.js:10-17 | submitting the initial form, which has no id, leaves a catalogue whose products all have ids unchanged |
| EditProduct.LoadThenSubmitUnchanged | src/pages/EditProduct.js:20-33 | loading the product for a unique id and submitting it unedited leaves the catalogue unchanged |
| EditProduct.EditProductPage.constructor | src/pages/EditProduct.js:10-17 | the form starts as the record with every field empty and no id |
| EditProduct.EditProductPage.LoadProduct | src/pages/EditProduct.js:20-25 | the form becomes the first product whose id is the route id; with no such product the form is unchanged |
| EditProduct.EditProductPage.HandleSubmit | src/pages/EditProduct.js:28-35 | every product whose id is the form's id becomes the form's record, with no validation |
| EditProduct.EditProductPage.HandleChange | src/pages/EditProduct.js:38-41 | the form changes in exactly the named field |
| UserRegistration.ContainsLetter | src/pages/UserRegistration.js:19 | the scan for `[A-Za-z]` is true exactly when some character is an ASCII letter |
| UserRegistration.ContainsDigit | src/pages/UserRegistration.js:19 | the scan for `\d` is true exactly when some character is an ASCII digit |
| UserRegistration.PasswordStrength | src/pages/UserRegistration.js:15-24 | Weak exactly when shorter than 6; Strong exactly when at least 6 long with a letter and a digit; Medium exactly when at least 6 long and lacking a letter or a digit |
| UserRegistration.MatchesEmailPattern | src/pages/UserRegistration.js:38 | the regular expression, stated as "some split into local part, '@', domain, '.' and letters matches"; a match has at least six characters, an '@' and a final letter |
| UserRegistration.IsValidEmail | src/pages/UserRegistration.js:38-39 | the email test accepts exactly the strings the regular expression matches |
| UserRegistration.ValidEmailHasOneAt | src/pages/UserRegistration.js:38 | an accepted email contains exactly one '@' |
| UserRegistration.SubmitError | src/pages/UserRegistration.js:29-48 | the chain passes exactly when all four fields are filled, the email matches and the label is Strong. An empty field gives 'All fields are required.'; otherwise a bad email gives the email message; otherwise a label other than Strong gives the strength message |
| UserRegistration.StrengthCheckIsOnCurrentPassword | src/pages/UserRegistration.js:44-48 | when the label is the one of the current password, the chain passes exactly when the fields are filled, the email matches and the current password is Strong |
| UserRegistration.RegistrationPage.constructor | src/pages/UserRegistration.js:6-11 | all inputs and the error start empty, with no label yet |
| UserRegistration.RegistrationPage.SetName | src/pages/UserRegistration.js:74 | the name input changes only the name |
| UserRegistration.RegistrationPage.SetEmail | src/pages/UserRegistration.js:86 | the email input changes only the email |
| UserRegistration.RegistrationPage.SetContact | src/pages/UserRegistration.js:118 | the contact input changes only the contact |
| UserRegistration.RegistrationPage.OnPasswordChange | src/pages/UserRegistration.js:98-101 | the password input stores the value and its label, keeping the label in step with the password |
| UserRegistration.RegistrationPage.HandleSubmit | src/pages/UserRegistration.js:27-57 | the error is the chain's first failure and nothing is stored. On success the error is empty and the stored list (empty when absent) grows by exactly the record {name, email, password, contact} at its end. A user is stored exactly when the four fields are filled, the email matches and the current password itself is Strong; otherwise the error is non-empty and the list is kept |
| CartContext.DecrementStock | src/context/CartContext.js:42-47 | every product with the id has its stock lowered by exactly 1 and its other fields kept, with no floor at zero; every other product, the length and the order are unchanged |
| CartContext.Reloaded | src/context/CartContext.js:39 | the reloaded cart is what the remote returned, or empty when it returned nothing |
| CartContext.AfterLoad | src/context/CartContext.js:16-27 | one fetch; on success the cart is what it returned, on failure the cart is kept and 'Unable to load cart items. Please try again.' is set; loading ends false |
| CartContext.AfterMutation | src/context/CartContext.js:58-72 | the write-then-reload pattern: the mutation is sent and the fetch only after it returned. When both return the cart is the reload and the error is unchanged. When either throws the cart is kept and the operation's message set. Loading ends false and the products are untouched |
| CartContext.AfterAdd | src/context/CartContext.js:32-55 | asks for exactly one unit of `product.id`. When the add and the reload both return, the cart is the reload and, only if a product setter exists, that product's stock drops by one. On a throw the cart and the products are kept and 'Unable to add item to the cart.' is set. Loading ends false |
| CartContext.AfterUpdate | src/context/CartContext.js:58-72 | the quantity is sent as given; on success the cart is the reload, on a throw the cart is kept and 'Unable to update item quantity in the cart.' is set; loading ends false |
| CartContext.AfterRemove | src/context/CartContext.js:75-89 | on success the cart is the reload, on a throw the cart is kept and 'Unable to remove item from the cart.' is set; loading ends false |
| CartContext.AfterClear | src/context/CartContext.js:93-104 | one clear call and no reload; on success the cart is empty, on failure it is kept and 'Unable to clear the cart.' is set; loading ends false |
| CartContext.ErrorIsNeverCleared | src/context/CartContext.js:12-104 | once the error is set it stays set after any further operations, successful ones included |
| CartContext.NotLoadingAfterRun | src/context/CartContext.js:52-54 | after any non-empty run of operations, loading is false |
| CartContext.FailuresKeepCartAndStock | src/context/CartContext.js:49-51 | a run of failing operations leaves the cart and the products exactly as they were, and the error is the last operation's message |
| CartContext.RepeatedAddsLowerStock | src/context/CartContext.js:42-47 | n successful adds of one product, with a setter, lower its stock by exactly n, below zero if need be, and change no other product |
| CartContext.AddBelowZero | src/context/CartContext.js:45 | illustration: a product with no stock left goes to -1 after a successful add |
| CartContext.ReloadWins | src/context/CartContext.js:38-39 | illustration: after a successful add, update or remove the cart is the last reload, whatever it was before |
| CartContext.CartProvider.constructor | src/context/CartContext.js:9-12 | the store starts with an empty cart, not loading, no error and no request sent |
| CartContext.CartProvider.LoadCart | src/context/CartContext.js:16-27 | leaves the state `AfterLoad` gives |
| CartContext.CartProvider.MutateAndReload | src/context/CartContext.js:58-72 | leaves the state `AfterMutation` gives and reports whether both calls returned |
| CartContext.CartProvider.AddToCart | src/context/CartContext.js:32-55 | leaves the state `AfterAdd` gives |
| CartContext.CartProvider.UpdateQuantity | src/context/CartContext.js:58-72 | leaves the state `AfterUpdate` gives |
| CartContext.CartProvider.RemoveFromCart | src/context/CartContext.js:75-89 | leaves the state `AfterRemove` gives |
| CartContext.CartProvider.ClearCart | src/context/CartContext.js:93-104 | leaves the state `AfterClear` gives |

## Left out

- Remote calls (`src/api.js`, `fetch`) and their HTTP details: each is reduced to "returned a value" or "threw", passed in as a parameter.
- Interleaving of concurrent cart operations: each operation runs to completion before the next starts. The race between overlapping reloads is not modelled.
- The intermediate states React may render while an operation awaits (for example `loading` true during the call): only the state after each handler finishes is stated.
- `console.error` logging of an error object, `e.preventDefault()`, and navigation (`navigate('/login')`, `navigate('/dashboard')`): these have no effect on the modelled state.
- A rejected cart call is treated as rejecting with an object that has a `message`. Every `catch` of `CartContext.js` reads `err.message` before its `setError`. A rejection with `null` or `undefined` makes that read throw, so the source leaves `error` unchanged and the operation itself rejects. The model's `Threw` always sets the operation's message, so this case is not modelled.
- `localStorage` and its JSON serialisation: the stored `registeredUsers` entry is a sequence, or absent.
- `parseInt` of the route parameter: EditProduct takes the integer as given, so a `NaN` id is not modelled.
- The EditProduct effect re-runs whenever the route id or the product list changes. The model exposes it as `LoadProduct`, which the caller invokes.
- The `name: ''` key of EditProduct's initial form: no input edits or displays it, so the form record has only the id and the five product fields.
- Product field values are strings, as the form inputs give them. JavaScript truthiness of a numeric `0` field (which the five-field check would also reject) is not modelled.
- String lengths count Dafny characters, not JavaScript UTF-16 code units. A password of astral characters is measured differently.
- Dashboard's inline input setters and the "Add Product" button that opens the modal: each assigns one field.
- Rendering, routing and the other pages (`App.js`, `Login.js`, `Register.js`, `CartPage.js` totals in floating point, `CheckoutPage.js`, `ProductList.js`, `ProductDetails.js`, the components).
- The cart store's product list is typed on its own (`CartContext.ShopProduct`), apart from the admin pages' `Catalog.Product`: it has a numeric id and a numeric stock, because the cart code subtracts from `quantity`, and it has no barcode, which the cart code never reads. The two views of the shared `products` state are not unified.
