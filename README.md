# POS-Cafe API core in Dafny

This project models the table-level behaviour of a Laravel point-of-sale API for a café. The API has four parts:

- orders move through a five-state lifecycle;
- order items are priced either by the client or from the product catalogue;
- products, categories and suppliers are soft-deactivated instead of deleted;
- product images are tracked on a public file disk, with a shared default picture.

Each database table is a `map<int, Record>` field of a controller class, with an auto-increment counter beside it. Every action that writes is a method. It returns the HTTP status code it would answer with (200, 201, 400, 404 or 422), and its contract states the new state of the table for each outcome. Every read-only action (`show`, `index`, the listings) is a function of the table. It returns a `Result` (the value, or a failure code) or the listed rows. Validation rules are predicates over a request whose fields are `Param`s:

- `Absent`: the field was not sent;
- `Null`: an explicit null (a blank string arrives as `Given`, and `Common.Text` turns it into `Null` as the input middleware does);
- `Invalid`: it fails the field's type rule;
- `Given(v)`: a well-typed value.

A request that fails validation changes nothing.

Money columns are `decimal:2`, so they are integer cents here. Pure logic is kept in functions next to each class, with lemmas about it. Examples are the status parser, the order-number shape, the cancel guard, the item snapshot of a bulk add, the image URL fallback and mass assignment.

| file | module | models |
|---|---|---|
| `common.dfy` | `Common` | status codes, request parameters, the shared validation rules, partial-update helpers |
| `orders.dfy` | `Orders` | `OrderController`, the orders table and its enums |
| `order_items.dfy` | `OrderItems` | `OrderItemController`, including the `bulkAdd` loop |
| `product_model.dfy` | `ProductModel` | `Product`: row shape, image URL accessor, `$fillable` mass assignment |
| `products.dfy` | `Products` | `ProductController`, with the public disk as a ghost set of stored paths |
| `categories.dfy` | `Categories` | `CategoryController` |
| `suppliers.dfy` | `Suppliers` | `SupplierController` |

Controllers read one another's tables through `const` references. This is how the `exists:` rules and the order and product lookups of the item controller are modelled.

## Behaviours of the code worth knowing

- **`bulkAdd` answers 422 for an unknown product, never skipping it.** The rule `items.*.product_id => required|exists:products,id` (app/Http/Controllers/API/OrderItemController.php:252) rejects the whole request first. The loop's skip branch (:276-278) is reached only if a product disappears between validation and lookup. `OrderItemController.AddEntries` models that branch, and `SnapshotSkipsUnresolved` proves it. `BulkAdd` proves one item per entry.
- **Item `store` and `update` take prices from the client.** They write the request as sent (OrderItemController.php:54, :121). They do not look at the order's status, and they do not recompute the subtotal. A stored item can therefore have `subtotal != unit_price * quantity`; see `StoreAcceptsInconsistentSubtotal` and `PatchQuantityKeepsSubtotal`.
- **A category's `is_active` can be written as null.** Category `update` mass-assigns the request (CategoryController.php:115) under the rule `nullable|boolean` (:104), so an explicit null is passed on as sent. `store`, by contrast, turns a null into true (:49). The model assumes the column accepts null; see "Left out".
- **An order's number can change.** Order `update` mass-assigns the request (OrderController.php:130), and `order_number` is fillable (app/Models/Order.php:14), although no rule validates it.

## Model

| member | source | states |
|---|---|---|
| Common.Code.Http | app/Http/Controllers/API/OrderItemController.php:35-239 | each of the five outcomes has its own status number: OK 200, Created 201, BadRequest 400, NotFound 404, Unprocessable 422; exactly OK and Created are 2xx |
| Common.Text | app/Http/Controllers/API/CategoryController.php:33 | a blank string reaches the rules and the controller as null; every other value passes through unchanged |
| Common.Patch | app/Http/Controllers/API/ProductController.php:142-147 | a sent field overwrites the column, an absent one keeps the previous value |
| Common.PatchText | app/Http/Controllers/API/CategoryController.php:115 | a nullable text column: absent keeps it, null or blank clears it, a sent non-blank value is written as sent |
| Common.TextOrNull | app/Http/Controllers/API/OrderItemController.php:285 | a nullable text field is stored exactly when it was sent non-blank |
| Orders.ParseStatus | database/migrations/2025_03_17_142204_create_orders_table.php:20 | the `in:` rule of the status enum accepts a string only if it names the status it returns |
| Orders.StatusNameParses | database/migrations/2025_03_17_142204_create_orders_table.php:20 | every one of the five statuses is accepted under its own name |
| Orders.ParseOrderType | database/migrations/2025_03_17_142204_create_orders_table.php:19 | the order-type rule accepts a string only if it names the type it returns |
| Orders.OrderTypeNameParses | database/migrations/2025_03_17_142204_create_orders_table.php:19 | every order type is accepted under its own name |
| Orders.UpperChar | app/Http/Controllers/API/OrderController.php:58 | `strtoupper` on one character: a lower-case letter becomes its capital, anything else is unchanged, and the result is never lower case |
| Orders.Upper | app/Http/Controllers/API/OrderController.php:58 | the same length; each lower-case letter becomes its own capital in place and every other character is unchanged |
| Orders.UpperIdempotent | app/Http/Controllers/API/OrderController.php:58 | upper-casing twice is upper-casing once |
| Orders.OrderNumber | app/Http/Controllers/API/OrderController.php:57-58 | a generated number is 12 characters: `ORD-` and then eight upper-case letters or digits |
| Orders.ValidNewOrder | app/Http/Controllers/API/OrderController.php:36-46 | an accepted request names an existing user, an order type and a status from their enums, and non-negative subtotal, tax and total; a sent discount is non-negative |
| Orders.NewOrder | app/Http/Controllers/API/OrderController.php:34-67 | a created order carries the request's user, type, status, subtotal, tax, total, table and notes, the generated number, and a discount of 0 when none is sent; all amounts are non-negative |
| Orders.ValidOrderPatch | app/Http/Controllers/API/OrderController.php:110-120 | a request that sends nothing is accepted; a sent status is in the enum, a sent user exists, and no amount may be null |
| Orders.PatchOrder | app/Http/Controllers/API/OrderController.php:110-130 | each sent field is written and each absent one kept; status may take any enum value; non-negative amounts stay non-negative |
| Orders.EmptyPatchKeepsOrder | app/Http/Controllers/API/OrderController.php:130 | an update that sends nothing leaves the order unchanged |
| Orders.SetStatus | app/Http/Controllers/API/OrderController.php:157-170 | succeeds exactly for a status inside the enum (otherwise 422) and changes the status only |
| Orders.SetStatusUnrestricted | app/Http/Controllers/API/OrderController.php:157-170 | any status can be set from any status, a completed or cancelled one included |
| Orders.CancelOrder | app/Http/Controllers/API/OrderController.php:196-204 | refused with 400 exactly when the order is completed; otherwise the status becomes cancelled and nothing else changes |
| Orders.CancelIdempotent | app/Http/Controllers/API/OrderController.php:203-204 | cancelling a cancelled order gives the same result again |
| Orders.CompletedCannotBeCancelled | app/Http/Controllers/API/OrderController.php:196-201 | after a status update to completed, cancel answers 400 |
| Orders.WithStatus | app/Http/Controllers/API/OrderController.php:233 | exactly the orders with the given status, unchanged |
| Orders.StatusListingsDisjoint | app/Http/Controllers/API/OrderController.php:233 | each order appears under its own status and under no other |
| Orders.StatusListingsPartition | app/Http/Controllers/API/OrderController.php:233 | the five status listings together count every order exactly once |
| Orders.OrderController.Store | app/Http/Controllers/API/OrderController.php:34-67 | 201 exactly when the request validates, inserting the new order under a fresh key; otherwise 422 and no change |
| Orders.OrderController.Show | app/Http/Controllers/API/OrderController.php:75-90 | the stored order, or 404 exactly for an unknown id |
| Orders.OrderController.Update | app/Http/Controllers/API/OrderController.php:99-137 | 404 and then 422 with no change; otherwise only that order is patched |
| Orders.OrderController.UpdateStatus | app/Http/Controllers/API/OrderController.php:146-177 | 404 with no change, otherwise the outcome of `SetStatus` applied to that order only |
| Orders.OrderController.Cancel | app/Http/Controllers/API/OrderController.php:185-211 | 404 with no change, otherwise the outcome of `CancelOrder` applied to that order only |
| Orders.OrderController.ByStatus | app/Http/Controllers/API/OrderController.php:219-239 | 422 exactly for a string outside the enum, otherwise exactly the orders with that status |
| OrderItems.NewItem | app/Http/Controllers/API/OrderItemController.php:54 | a stored item carries the client's order, product, quantity (at least 1), unit price and subtotal as sent |
| OrderItems.ValidNewItem | app/Http/Controllers/API/OrderItemController.php:37-44 | an accepted request names an existing order and product, a quantity of at least 1 and non-negative prices; nothing about the order's status |
| OrderItems.StoreAcceptsInconsistentSubtotal | app/Http/Controllers/API/OrderItemController.php:37-54 | `store` validates and stores an item whose subtotal is not its unit price times its quantity |
| OrderItems.ValidItemPatch | app/Http/Controllers/API/OrderItemController.php:104-111 | a request that sends nothing is accepted; a sent order or product exists, a sent quantity is at least 1, and no quantity or price may be null |
| OrderItems.PatchItem | app/Http/Controllers/API/OrderItemController.php:121 | each sent field is written and each absent one kept; the subtotal is not recomputed |
| OrderItems.PatchQuantityKeepsSubtotal | app/Http/Controllers/API/OrderItemController.php:104-121 | changing only the quantity through `update` keeps the old subtotal, which leaves a consistent priced item inconsistent |
| OrderItems.Requantified | app/Http/Controllers/API/OrderItemController.php:230-232 | the new quantity, a subtotal equal to unit price times quantity, and the unit price and other fields unchanged |
| OrderItems.RequantifiedLastWins | app/Http/Controllers/API/OrderItemController.php:230-232 | two quantity changes equal the last one alone |
| OrderItems.RequantifiedExample | app/Http/Controllers/API/OrderItemController.php:230-232 | 15.50 times 3 is 46.50, and changing the quantity to 5 gives 77.50 at the same unit price |
| OrderItems.ValidBulk | app/Http/Controllers/API/OrderItemController.php:249-255 | an accepted request names an existing order and a non-empty list whose every entry names an existing product with a quantity of at least 1 |
| OrderItems.ItemFor | app/Http/Controllers/API/OrderItemController.php:278-285 | a bulk-added item has the request's order, the entry's product and quantity, the product's price as unit price, a consistent subtotal, and the entry's notes or null |
| OrderItems.Emit | app/Http/Controllers/API/OrderItemController.php:276-288 | one entry adds one item exactly when its product resolves, belonging to the order and priced from that product, and none otherwise |
| OrderItems.Snapshot | app/Http/Controllers/API/OrderItemController.php:273-290 | the items the loop creates, never more than the entries |
| OrderItems.SnapshotItems | app/Http/Controllers/API/OrderItemController.php:273-290 | every bulk-added item belongs to the order, has a catalogue product and that product's price, and is consistent |
| OrderItems.SnapshotAppend | app/Http/Controllers/API/OrderItemController.php:273-290 | the loop handles entries independently and in order: a batch gives the items of its first part followed by those of its second |
| OrderItems.SnapshotSkipsUnresolved | app/Http/Controllers/API/OrderItemController.php:276-278 | an entry whose product does not resolve adds nothing, and the entries after it are still processed |
| OrderItems.SnapshotOnePerEntry | app/Http/Controllers/API/OrderItemController.php:273-290 | when every product resolves there is exactly one item per entry, in input order |
| OrderItems.ItemsOf | app/Http/Controllers/API/OrderItemController.php:181-183 | exactly the items whose order id is the given one, unchanged |
| OrderItems.OrderItemController.OrderClosed | app/Http/Controllers/API/OrderItemController.php:149 | the guard blocks only when the owning order exists and is completed or cancelled; a missing or pending order does not block |
| OrderItems.OrderItemController.Show | app/Http/Controllers/API/OrderItemController.php:69-84 | the stored item, or 404 exactly for an unknown id |
| OrderItems.OrderItemController.ByOrder | app/Http/Controllers/API/OrderItemController.php:170-189 | 404 exactly for an unknown order, otherwise exactly that order's items |
| OrderItems.OrderItemController.Store | app/Http/Controllers/API/OrderItemController.php:35-61 | 201 exactly when the request validates, whatever the order's status, inserting the client's row under a fresh key; otherwise 422 and no change |
| OrderItems.OrderItemController.Update | app/Http/Controllers/API/OrderItemController.php:93-128 | 404 and then 422 with no change; otherwise only that item is patched, with no status check |
| OrderItems.OrderItemController.Destroy | app/Http/Controllers/API/OrderItemController.php:136-162 | 404 with no change; 400 with no change when the owning order exists and is closed; otherwise exactly that item is removed and the table shrinks by one |
| OrderItems.OrderItemController.UpdateQuantity | app/Http/Controllers/API/OrderItemController.php:198-239 | 404, then 400 for a closed order before any validation, then 422, all with no change; otherwise only that item gets the new quantity and a recomputed subtotal |
| OrderItems.OrderItemController.BulkAdd | app/Http/Controllers/API/OrderItemController.php:247-297 | 422 and then 400 with no items added; otherwise 201 with one snapshot-priced item per entry, in order, inserted under consecutive fresh keys |
| OrderItems.OrderItemController.Insert | app/Http/Controllers/API/OrderItemController.php:286 | the row is inserted under the next key and the counter advances |
| OrderItems.OrderItemController.AddEntries | app/Http/Controllers/API/OrderItemController.php:273-290 | the loop adds exactly the snapshot of the entries, skipping unresolved products, under consecutive keys from the counter |
| ProductModel.ImageUrl | app/Models/Product.php:46-53 | `storage/` followed by the path when it is set (non-empty and not "0"), otherwise by `products/default.png` |
| ProductModel.SameUrlAsUnset | app/Models/Product.php:46-53 | a path has the same URL as no path exactly when it is the default sentinel or unset |
| ProductModel.UrlDeterminesPath | app/Models/Product.php:48-49 | two set paths have the same URL exactly when they are equal |
| ProductModel.ParseKey | app/Models/Product.php:13-21 | a column name is read as a whitelisted key only when it is that key's name; any other name is unlisted |
| ProductModel.KeyNameParses | app/Models/Product.php:13-21 | each of the seven whitelisted names is read back as its own key |
| ProductModel.ColumnsDetermineProduct | app/Models/Product.php:13-21 | the seven whitelisted columns make up the whole row |
| ProductModel.Fill | app/Models/Product.php:13-21 | attributes outside the whitelist alone leave the product unchanged; a sent price or name is written |
| ProductModel.FillColumn | app/Models/Product.php:13-21 | mass assignment writes each whitelisted key that is sent and keeps every other column |
| ProductModel.FillIgnoresUnlisted | app/Models/Product.php:13-21 | a key outside the whitelist has no effect on mass assignment, whatever its value |
| Products.Decimal | app/Http/Controllers/API/ProductController.php:65 | the text of a clock reading is a non-empty string of digits that denotes the reading, with no leading zero |
| Products.StoredPath | app/Http/Controllers/API/ProductController.php:65-67 | a stored upload's path starts with `products/` and a digit, so it is set and never the default sentinel |
| Products.Release | app/Http/Controllers/API/ProductController.php:188-191 | the release step removes at most the product's own file, only when that path is set and is not the sentinel; the default picture always survives |
| Products.ValidNewProduct | app/Http/Controllers/API/ProductController.php:36-44 | an accepted request names an existing category, a non-blank name of at most 255 characters and a non-negative price; the flags, when sent, are booleans and the image an upload |
| Products.NewProduct | app/Http/Controllers/API/ProductController.php:54-71 | active unless told otherwise, not featured unless told otherwise, and the sentinel image when nothing is uploaded, so the image path is never empty |
| Products.ValidProductPatch | app/Http/Controllers/API/ProductController.php:123-131 | a request that sends nothing is accepted; a sent category exists, a sent name is non-blank and at most 255, a sent price is non-negative, none of them null |
| Products.PatchProduct | app/Http/Controllers/API/ProductController.php:142-147 | only the sent fields change; the image path is kept |
| Products.SwapImage | app/Http/Controllers/API/ProductController.php:150-160 | a new upload replaces the image path; without one the product is unchanged |
| Products.SwapStored | app/Http/Controllers/API/ProductController.php:150-160 | with an upload the old image is released and the new file stored; without one the disk is unchanged |
| Products.SwapReleasesOldImage | app/Http/Controllers/API/ProductController.php:150-160 | replacing a set, non-default image removes the old file, keeps the new one and the default picture, and touches nothing else |
| Products.WithoutImage | app/Http/Controllers/API/ProductController.php:194 | after image removal the path is the sentinel and nothing else changes |
| Products.RemoveImageIdempotent | app/Http/Controllers/API/ProductController.php:188-195 | a second image removal changes neither the row nor the stored files |
| Products.Deactivated | app/Http/Controllers/API/ProductController.php:221 | the product becomes inactive and nothing else changes |
| Products.FeaturedOf | app/Http/Controllers/API/ProductController.php:237-240 | exactly the products that are active and featured |
| Products.InCategory | app/Http/Controllers/API/ProductController.php:256-259 | exactly the active products of the category |
| Products.DeactivationHidesFromListings | app/Http/Controllers/API/ProductController.php:221-222 | deactivating a product removes exactly it from the featured listing and from its category listing |
| Products.ProductController.Show | app/Http/Controllers/API/ProductController.php:88-103 | the stored product, inactive ones included, or 404 exactly for an unknown id |
| Products.ProductController.Featured | app/Http/Controllers/API/ProductController.php:19-26 | `index` and `getFeatured` list exactly the active, featured products |
| Products.ProductController.ByCategory | app/Http/Controllers/API/ProductController.php:254-265 | exactly the active products of the category |
| Products.ProductController.Store | app/Http/Controllers/API/ProductController.php:34-80 | 201 exactly when the request validates, inserting `NewProduct` under a fresh key and storing the upload if any; otherwise 422 and no change |
| Products.ProductController.Update | app/Http/Controllers/API/ProductController.php:112-169 | 404 and then 422 with no change; otherwise only that product is patched and its image swapped |
| Products.ProductController.RemoveImage | app/Http/Controllers/API/ProductController.php:177-202 | 404 with no change; otherwise the row points at the sentinel, and only a set, non-default old image is released |
| Products.ProductController.Destroy | app/Http/Controllers/API/ProductController.php:210-228 | 404 with no change; otherwise the product is deactivated in place, keeping every row and every file |
| Categories.ValidNewCategory | app/Http/Controllers/API/CategoryController.php:32-36 | an accepted request has a non-blank name of at most 255 characters and an `is_active` that is a boolean or null |
| Categories.NewCategory | app/Http/Controllers/API/CategoryController.php:46-50 | `is_active` is the sent boolean, or true when it is absent or null |
| Categories.ValidCategoryPatch | app/Http/Controllers/API/CategoryController.php:101-105 | a request that sends nothing is accepted; a sent name must be non-blank and at most 255 characters, and a non-boolean `is_active` is rejected |
| Categories.PatchCategory | app/Http/Controllers/API/CategoryController.php:101-115 | only the sent fields change; a sent name is non-blank; a sent null `is_active` is written as null |
| Categories.Deactivated | app/Http/Controllers/API/CategoryController.php:141-142 | the category becomes inactive and nothing else changes |
| Categories.DeactivatedIdempotent | app/Http/Controllers/API/CategoryController.php:141-142 | deactivating twice is deactivating once |
| Categories.CategoryController.Index | app/Http/Controllers/API/CategoryController.php:13-22 | every category, inactive ones included |
| Categories.CategoryController.Store | app/Http/Controllers/API/CategoryController.php:30-57 | 201 exactly when the request validates, inserting the new category under a fresh key; otherwise 422 and no change |
| Categories.CategoryController.Show | app/Http/Controllers/API/CategoryController.php:65-81 | the stored category, or 404 exactly for an unknown id |
| Categories.CategoryController.Update | app/Http/Controllers/API/CategoryController.php:90-122 | 404 and then 422 with no change; otherwise only that category is patched |
| Categories.CategoryController.Destroy | app/Http/Controllers/API/CategoryController.php:130-148 | 404 exactly for an unknown id; otherwise the category is deactivated in place, and the table keeps its keys |
| Suppliers.ValidNewSupplier | app/Http/Controllers/API/SupplierController.php:36-42 | an accepted request has a non-blank name of at most 255 characters, an e-mail of at most 255 and a phone of at most 20 when sent, and a boolean `is_active` when sent |
| Suppliers.NewSupplier | app/Http/Controllers/API/SupplierController.php:36-52 | the sent fields within their limits: a non-blank name of at most 255, email at most 255, phone at most 20 |
| Suppliers.ValidSupplierPatch | app/Http/Controllers/API/SupplierController.php:102-108 | a request that sends nothing is accepted; the same limits as `store` for every sent field, and a null name is rejected |
| Suppliers.PatchSupplier | app/Http/Controllers/API/SupplierController.php:102-118 | only the sent fields change, and the length limits are kept |
| Suppliers.Deactivated | app/Http/Controllers/API/SupplierController.php:144-145 | the supplier becomes inactive and nothing else changes |
| Suppliers.DeactivatedIdempotent | app/Http/Controllers/API/SupplierController.php:144-145 | deactivating twice is deactivating once |
| Suppliers.SupplierController.Index | app/Http/Controllers/API/SupplierController.php:18-26 | every supplier, inactive ones included |
| Suppliers.SupplierController.Store | app/Http/Controllers/API/SupplierController.php:34-59 | 201 exactly when the request validates, inserting the new supplier under a fresh key; otherwise 422 and no change |
| Suppliers.SupplierController.Show | app/Http/Controllers/API/SupplierController.php:67-82 | the stored supplier, or 404 exactly for an unknown id |
| Suppliers.SupplierController.Update | app/Http/Controllers/API/SupplierController.php:91-125 | 404 and then 422 with no change; otherwise only that supplier is patched |
| Suppliers.SupplierController.Destroy | app/Http/Controllers/API/SupplierController.php:133-151 | 404 exactly for an unknown id; otherwise the supplier is deactivated in place, and the table keeps its keys |

## Left out

- HTTP and JSON plumbing are not modelled. A response is its status code plus the state of the tables; envelopes, messages and routing are out.
- Eloquent and eager loading are out. `with(...)` attaches related rows, and listings are maps, so result order is not modelled.
- `index` of the order and order-item controllers is out: it only returns the whole table.
- Validation is modelled as predicates, not as Laravel's Validator.
  - The Validator's per-field type checks (numeric, integer, boolean, email syntax, image type and size) become the `Invalid` request value.
  - Request middleware is modelled as: blank strings become null. Trimming of non-blank strings is not modelled.
- The public disk is a ghost set of paths. `storeAs` and `Storage::delete` become set insertion and removal.
- The clock and randomness are parameters: `time()` is the `now` parameter, and `Str::random(8)` is a parameter checked to be eight alphanumeric characters.
- The host part of `asset()` is left out. `ProductModel.ImageUrl` returns the relative `storage/...` path.
- Users are a set of ids, used only for `exists:users,id`.
- The uniqueness of `order_number` is not modelled, and neither is a collision on insert.
- PHP float arithmetic on decimal strings is not modelled. Amounts are integer cents and quantities are integers.
- There are no transactions or concurrency. In particular, a product can vanish between `bulkAdd`'s validation and its lookup. The model treats the skip branch only as the code states it, in `AddEntries`.
- `Orders.PatchOrder`: an `order_number` that is sent in an update is taken as a string. The code mass-assigns it without any rule, so a null or non-string value is not modelled.
- `OrderItems.OrderItemController.AddEntries`: an entry without a product id resolves to no product. The code would read an undefined index there, which validation rules out.
- The categories migration is not part of this model, so the `is_active` column of categories is assumed nullable. If it is NOT NULL, a category `update` that sends `is_active: null` fails in the database (a server error); the model answers 200 and stores null.
- Database-level failures are not modelled. The model answers 201 or 200 wherever validation passes, including where the insert or update itself would fail. Examples are a null into a NOT NULL column, and an amount beyond the `decimal(10,2)` range of the orders table (database/migrations/2025_03_17_142204_create_orders_table.php:21-24), which validation does not bound.
- Supplier rows: `isActive` is `None` when no request wrote it, and the column default then applies.
- `app/Models/Category.php`, `app/Models/Supplier.php`, `app/Models/OrderItem.php` and their migrations are not part of this model. Their mass-assignment whitelists are taken to contain every validated field.
