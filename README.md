# car-store: inventory, orders, admin actions and access rules in Dafny

This project models the business rules of the car-store marketplace backend, a
Django application where traders list car parts and customers order them.
It covers:

- the inventory ledger: in the model, a part's stock changes only through
  `Part.restock` and `OrderItem.save`, and each change appends an
  `InventoryLog` entry with the same signed delta (the admin change form,
  which edits `quantity` directly and logs nothing, is left out; see below);
- the commission loop of `Order.save`;
- the back-office bulk actions of the part and order admins, and their small
  display helpers;
- the `post_save` handler that creates profiles for new users, and
  `Location.__str__`;
- the two custom REST permission classes, how the base views combine
  permission classes, and the client-address lookup of `GetIpAddress`;
- the `check_stock` management command.

The database tables are the fields of two classes. `StoreModels.Store` holds
parts, inventory logs, orders and order items. `AccountsModels.Accounts` holds
users, profiles and trader profiles. Rows are datatypes. `Store.Valid()` keeps
the ledger invariant. It says that every part's quantity equals the quantity
the part was inserted with plus the sum of the deltas its log entries record
(`StoreModels.Balanced`). Every operation that writes a table preserves the
invariant. Restocking and order-item creation are the only operations that
change stock.

Money is held in exact integers:
- prices are in cents;
- a trader's `commission_rate` is in hundredths of a percent (the default
  10.00 % is `1000`);
- a commission is in millionths of the currency unit, so that
  quantity × price × rate / 100 is exact.

The code does not check a deduction against stock. `Part.quantity` is a
`PositiveIntegerField`, so the database's check constraint refuses a quantity
below zero. That refusal is modelled as the error `NegativeStock`, and nothing
is written when it happens.

The model follows the code as written:
- the commission rate comes from the trader profile of the item's supplier;
- `Order.total` is written as the caller gives it and is never recomputed;
- the commission is an attribute of the instance and is not stored;
- cancelling an order, like every other status change, is a plain overwrite
  that returns no stock and checks no previous status;
- no code reserves, releases or counts stock reservations against stock;
  the admin only lists them and tests their expiry.

Modules, one per source file, plus two helper modules:

| module | file | source |
|---|---|---|
| `Results` | results.dfy | `Option`, `Result`, `Outcome` |
| `Text` | text.dfy | `str(n)`, `s[:n]` and `s.split(',')[0]` of Python |
| `AccountsModels` | accounts_models.dfy | accounts/models.py |
| `StoreModels` | store_models.dfy | store/models.py |
| `StoreAdmin` | store_admin.dfy | store/admin.py |
| `ApiPermissions` | api_permissions.dfy | api/permissions.py |
| `ApiViews` | api_views.dfy | api/views.py |
| `CheckStock` | check_stock.dfy | store/management/commands/check_stock.py |

## Model

| member | source | states |
|---|---|---|
| `AccountsModels.NewTraderProfile` | accounts/models.py:39-56 | A trader profile created with only its user has commission rate 10.00 % (1000 hundredths), which fits `max_digits=5, decimal_places=2`. It is not approved, and it has its other declared defaults. |
| `AccountsModels.LocationLabel` | accounts/models.py:86-87 | The label is at most 37 characters long: three parts of at most 10 characters each, the ", " separators and "...". It starts with the truncated city followed by ", " and ends in "...". When every part has at most 10 characters the label is the full join. |
| `AccountsModels.LocationLabelIgnoresTail` | accounts/models.py:86-87 | Two locations whose city, state and street agree on their first ten characters get the same label. |
| `AccountsModels.Accounts.EmailTaken` | accounts/models.py:19 | In a valid table, an email is free exactly when writing the user keeps every email unique. |
| `AccountsModels.Accounts.CreateProfile` | accounts/models.py:72-77 | When `created` is false, nothing is inserted. When it is true, a trader gets a trader profile with the defaults, and then every user gets a profile. A one-to-one clash fails with `DuplicateProfile`. A trader profile already inserted stays when the profile insert then fails. |
| `AccountsModels.Accounts.SaveUser` | accounts/models.py:17-36 | An email held by another user is refused with `DuplicateEmail`, and then nothing changes. Otherwise the row is written and `created` is reported exactly when the key is new. A new user gets exactly one profile, and a trader profile if and only if `is_trader` is set. Saving an existing user inserts nothing. |
| `StoreModels.SaveCategory` | store/models.py:49-51 | Saving sets the slug to `slugify(name)`, with `slugify` as a parameter, and keeps the other fields. |
| `StoreModels.SaveCategoryIdempotent` | store/models.py:49-51 | Saving a category twice gives the same row as saving it once. |
| `StoreModels.NewPart` | store/models.py:73-95 | A new part has quantity 0, threshold 5, reorder quantity 10 and 12 months of warranty. It is active, not approved and not featured. |
| `StoreModels.StockStatus` | store/models.py:97-103 | Out of stock if and only if the quantity is 0. Low stock if and only if 0 < quantity ≤ threshold. In stock if and only if the quantity is above the threshold and not 0. The three cases are exhaustive and disjoint. |
| `StoreModels.NewPartIsOutOfStock` | store/models.py:85-100 | A part created with the default quantity is out of stock. |
| `StoreModels.AtOrBelowThresholdIffNotInStock` | store/models.py:97-103 | A part is at or below its threshold exactly when its status is not in stock. |
| `StoreModels.NewOrder` | store/models.py:152-159 | A new order is pending with total 0. |
| `StoreModels.RestockNote` | store/models.py:113 | The note opens with "Restocked " and closes with " units", and shows a minus sign exactly when q is negative. |
| `StoreModels.RestockNoteNamesQuantity` | store/models.py:105-114 | The note of a restock by a non-negative q, which is all `restock_action` passes, reads "Restocked ", then digits that parse back to q, then " units". |
| `StoreModels.DeductionNote` | store/models.py:198 | The note of a deduction reads "Order ", then digits that parse back to the order id, then " deduction". |
| `StoreModels.RestockLog` | store/models.py:108-114 | The restock entry is for the restocked part, records delta +q and type RESTOCK, and is created by the acting user. |
| `StoreModels.DeductionLog` | store/models.py:194-200 | The deduction entry is for the item's part, records delta −quantity and type ADJUSTMENT, and is created by the order's user. |
| `StoreModels.WithDefaultSupplier` | store/models.py:189-190 | After saving, the item always has a supplier. An explicit supplier is kept. A missing one becomes the part's trader. |
| `StoreModels.BalancedAfterLoggedChange` | store/models.py:105-114 | Changing one part's quantity by d while logging an entry of delta d keeps the ledger invariant. |
| `StoreModels.Commission` | store/models.py:164-174 | The commission of an order is computed, rather than raised, exactly when every item of that order has a supplier and the supplier has a trader profile. A raise is always one of those two errors. |
| `StoreModels.CommissionErrorPersists` | store/models.py:164-175 | Once an item of the order has no supplier, or its supplier has no trader profile, the computation raises. The first such item decides the error. |
| `StoreModels.CommissionWithoutItems` | store/models.py:164-175 | An order with no items has commission 0. |
| `StoreModels.CommissionOfOwnItems` | store/models.py:164-175 | Items of other orders added to the table after an order's items do not change that order's commission. |
| `StoreModels.Store.AddPart` | store/models.py:73-95 | A part is inserted under the next free key unless another part already has its sku, in which case the result is `DuplicateSku` and nothing changes. A new part has no log entries, so the ledger invariant holds. The order key counter never moves. |
| `StoreModels.Store.Restock` | store/models.py:105-114 | The part's quantity grows by exactly q and exactly one entry `RestockLog(id, q, user)` is appended. No other part, order or item changes, and the ledger invariant is kept. A negative result is refused with `NegativeStock` and nothing changes. |
| `StoreModels.Store.SaveOrderItem` | store/models.py:187-201 | On creation (no pk) with quantity ≤ stock, the part's quantity drops by the item's quantity. One ADJUSTMENT entry of −quantity by the order's user is appended, and the item is appended under the next key with its default supplier. More than stock is refused with `NegativeStock` and nothing is written. A re-save (pk set) rewrites only that row and changes no stock and no log, so nothing is deducted twice. |
| `StoreModels.Store.OrderCommission` | store/models.py:164-174 | The loop's result equals `Commission`: the sum of quantity × price × the supplier's current rate over the order's items, or the error of the first item without a supplier or a trader profile. |
| `StoreModels.Store.SaveOrder` | store/models.py:164-175 | A new order is inserted under a fresh key with commission 0. An existing one is written back with the commission of its stored items, or the save raises as the loop does and nothing is written. The total is stored as given, and parts, logs and items are untouched. The part key counter never moves; the order key counter moves past a new key only. |
| `StoreAdmin.LineTotal` | store/admin.py:200-201 | Used by `line_total` and by `OrderItemAdmin.total` (lines 246-247). A line of quantity 0 totals 0, and a line with a non-negative price has a non-negative total. |
| `StoreAdmin.CommissionAtUniformRate` | store/models.py:164-175 | When every item of an order has a supplier with the same rate, the commission is that rate times the sum of the line totals the admin shows. |
| `StoreAdmin.ExpiryIsStrictAndStable` | store/admin.py:266-268 | A reservation is not expired at its own expiry instant, and once expired it stays expired. |
| `StoreAdmin.StockBadge` | store/admin.py:104-110 | Out of stock shows red "Out of Stock", low stock shows orange "Low Stock", and in stock shows green "In Stock". |
| `StoreAdmin.StockBadgeDistinguishesStatus` | store/admin.py:104-110 | Two parts show the same badge text if and only if they have the same stock status. |
| `StoreAdmin.VisibleParts` | store/admin.py:82-86 | A trader who is not a superuser sees exactly their own parts. Everyone else sees every part. Visible rows are unchanged. |
| `StoreAdmin.Restocked` | store/admin.py:115-119 | Restocking a selection keeps the set of parts. |
| `StoreAdmin.RestockedOnlyQuantity` | store/admin.py:115-119 | Restocking changes nothing of a part but its quantity. |
| `StoreAdmin.RestockedAt` | store/admin.py:115-119 | Each selected part's quantity grows by exactly its own reorder quantity. An unselected part keeps its quantity. |
| `StoreAdmin.RestockLogs` | store/admin.py:115-119 | One entry per selected part. |
| `StoreAdmin.RestockLogsEntries` | store/admin.py:117-118 | Entry k is the RESTOCK entry of the k-th selected part, by its own reorder quantity and created by the acting user, so the entries follow the selection order. |
| `StoreAdmin.RestockLogsDelta` | store/admin.py:115-119 | For every part, the deltas of the appended entries add up exactly to the change in its quantity. |
| `StoreAdmin.RestockNext` | store/admin.py:117-118 | One pass of the loop restocks the next selected part and appends its entry. |
| `StoreAdmin.RestockAction` | store/admin.py:115-119 | After the action, the parts are `Restocked` over the whole selection and the log has gained `RestockLogs` in selection order. Orders and items are unchanged and the ledger invariant holds. |
| `StoreAdmin.Toggled` | store/admin.py:121-126 | Toggling keeps the set of parts. |
| `StoreAdmin.ToggledOnlyActive` | store/admin.py:121-126 | Toggling changes nothing of a part but `is_active`. |
| `StoreAdmin.ToggledAt` | store/admin.py:121-126 | A selected part's flag is negated and an unselected part's flag is kept. |
| `StoreAdmin.ToggledParity` | store/admin.py:121-126 | For any selection, repeats included, a part's flag ends negated exactly when its id occurs an odd number of times. |
| `StoreAdmin.ToggleTwiceRestores` | store/admin.py:121-126 | Toggling the same selection twice restores every part, for any selection. |
| `StoreAdmin.ToggleActive` | store/admin.py:121-126 | The action leaves the parts `Toggled` over the selection, and logs, orders and items unchanged. |
| `StoreAdmin.WithApproved` | store/admin.py:94-102 | Selected parts get `approved` set and nothing else changes. Unselected parts are unchanged. |
| `StoreAdmin.WithApprovedIdempotent` | store/admin.py:94-102 | Approving, or unapproving, the same selection twice is the same as doing it once. |
| `StoreAdmin.SetApproved` | store/admin.py:94-102 | The update leaves the parts as `WithApproved` and returns the number of selected parts that exist. |
| `StoreAdmin.ApproveParts` | store/admin.py:94-97 | Sets `approved` on the selection and returns the count updated. |
| `StoreAdmin.UnapproveParts` | store/admin.py:99-102 | Clears `approved` on the selection and returns the count updated. |
| `StoreAdmin.WithFeatured` | store/admin.py:128-131 | Selected parts become featured and nothing else changes. |
| `StoreAdmin.MarkAsFeatured` | store/admin.py:128-131 | The action leaves the parts as `WithFeatured`, and logs, orders and items unchanged. |
| `StoreAdmin.WithStatus` | store/admin.py:219-237 | Selected orders get the new status whatever their old one was. Nothing else changes. |
| `StoreAdmin.WithStatusLastWins` | store/admin.py:219-237 | Two status overwrites of the same selection leave only the second. |
| `StoreAdmin.SetOrderStatus` | store/admin.py:219-237 | Orders are overwritten with `WithStatus`. No part, log or item changes. |
| `StoreAdmin.MarkAsProcessing` | store/admin.py:219-222 | Every selected order becomes PROCESSING and no stock moves. |
| `StoreAdmin.MarkAsShipped` | store/admin.py:224-227 | Every selected order becomes SHIPPED and no stock moves. |
| `StoreAdmin.MarkAsDelivered` | store/admin.py:229-232 | Every selected order becomes DELIVERED and no stock moves. |
| `StoreAdmin.MarkAsCancelled` | store/admin.py:234-237 | Every selected order becomes CANCELLED and no stock is returned. |
| `ApiPermissions.TraderOrReadOnly` | api/permissions.py:10-16 | Safe methods are always granted. Other methods are refused to anonymous users. |
| `ApiPermissions.TraderOrReadOnlyForObject` | api/permissions.py:18-24 | Safe methods are always granted. |
| `ApiPermissions.OwnerOrReadOnlyForObject` | api/permissions.py:32-37 | Safe methods are always granted. |
| `ApiPermissions.SafeMethodsAlwaysAllowed` | api/permissions.py:12-13 | GET, HEAD and OPTIONS are allowed by both classes at view and object level, whoever asks. |
| `ApiPermissions.TraderWriteRule` | api/permissions.py:16 | For other methods, `IsTraderOrReadOnly` grants if and only if the user is authenticated and is a trader. |
| `ApiPermissions.TraderObjectPermissionIgnoresObject` | api/permissions.py:10-24 | The object-level answer equals the view-level answer for the same request, whatever the object. |
| `ApiPermissions.OwnerWriteRule` | api/permissions.py:37 | For other methods, `IsOwnerOrReadOnly` grants if and only if the user is authenticated and owns the object. |
| `ApiViews.ViewAllows` | api/views.py:19-24 | A view admits a request if and only if every listed class grants `has_permission`. |
| `ApiViews.ObjectAllows` | api/views.py:19-24 | An object is reached if and only if the view check passes and every class grants `has_object_permission`. |
| `ApiViews.ObjectChecks` | api/views.py:19-24 | Every listed class grants `has_object_permission`. |
| `ApiViews.DashboardViewRule` | api/views.py:19-32 | Dashboard views admit exactly the authenticated users, and for unsafe methods only traders. |
| `ApiViews.DashboardObjectRule` | api/views.py:19-32 | Dashboard objects can be read by any authenticated user. They can be written only by an authenticated trader who owns the object. |
| `ApiViews.ServerViewRule` | api/views.py:10-16 | Server views admit safe methods for everyone and other methods for authenticated users. The object check adds nothing. |
| `ApiViews.PublicViewRule` | api/views.py:35-41 | Public views admit every request and every object access. |
| `ApiViews.ClientIp` | api/views.py:49-55 | With a non-empty X-Forwarded-For, the ip is a comma-free, untrimmed prefix of the header that ends at its first comma or at its end. Otherwise it is REMOTE_ADDR, or None when that is missing too. |
| `ApiViews.ClientIpWholeHeader` | api/views.py:50-52 | A header without a comma is returned whole, spaces included. |
| `ApiViews.ClientIpFirstHop` | api/views.py:52 | For a header "first,rest" with a comma-free first part, the ip is exactly that first part, even when it is empty. |
| `CheckStock.LowStockParts` | store/management/commands/check_stock.py:11-13 | A part is selected if and only if it is listed, active and at or below its threshold. That includes parts with quantity 0. |
| `CheckStock.LowStockPartsAppend` | store/management/commands/check_stock.py:11-13 | Selection keeps the query's order: selecting from a concatenation gives the concatenation of the selections. |
| `CheckStock.ReportedIffNotInStock` | store/management/commands/check_stock.py:12 | An active part is reported exactly when its stock status is low stock or out of stock. |
| `CheckStock.ReportLine` | store/management/commands/check_stock.py:16-19 | A line opens with "Low stock: ", the part's name and " (Current: ", and closes with ")". |
| `CheckStock.ReportLineNamesCounts` | store/management/commands/check_stock.py:16-19 | Two parts with the same name and the same report line agree on quantity and threshold: for a fixed name, the line gives back both counts. |
| `CheckStock.Handle` | store/management/commands/check_stock.py:10-19 | Exactly one line is written per selected part, in query order, and line i is the report of selected part i. |

## Left out

- Persistence mechanics (querysets, `save()` plumbing, timestamps, `auto_now`, UUID generation): tables are in-memory maps and sequences, and keys are naturals allocated in sequence.
- Deletion and its cascades (`CASCADE`, `SET_NULL`): no operation of the core deletes rows.
- Concurrency, transactions and row locking: the code has none, and every operation here runs alone. A failing insert in `create_profile` keeps the inserts before it, as autocommit does.
- Editing a part's quantity directly through the admin form bypasses the ledger. It is not modelled, since the invariant holds only for the operations above.
- `StoreModels.Store.SaveOrderItem` requires that the item's part and order rows exist and that a set pk names an existing item row. On the inputs this excludes, the code does the following, and the model does not capture it:
  - a dangling `order_id`: the reduced quantity is saved first (store/models.py:192-193), then reading `self.order` at :198 raises `DoesNotExist`, so stock is deducted with no log entry and the ledger no longer balances;
  - an order instance that was never saved: the entry "Order None deduction" is written as well, then `super().save()` at :201 raises `ValueError`, so stock and log change but no item row exists;
  - a pk that names no row: the test at :191 skips the deduction and :201 inserts the item, with no stock change and no log entry.
- `StoreModels.Store.Restock` and `StoreModels.Store.SaveOrderItem` always read the part's current row. The code instead changes the quantity of the Python instance it holds and saves the whole row (store/models.py:106-107 and :192-193). An out-of-date instance therefore overwrites a newer quantity, even with no concurrency: two copies of a part loaded at 10 and used for items of 2 and 3 leave 7 against log entries of −5. The ledger invariant holds in the model only because every change starts from the stored row.
- `StoreModels.Store.Restock` and `StoreModels.Store.SaveOrderItem`: quantities are unbounded naturals and prices unbounded integers. The code's `PositiveIntegerField` is a 32-bit column on PostgreSQL and MySQL, and `price` and `total` are `DecimalField(max_digits=10)`. So a restock or a price past those bounds raises in the code, while the model writes it.
- `StoreModels.Store.Restock` and `StoreAdmin.RestockAction` require the restocked parts to exist. The admin selection is a queryset of existing rows.
- `StoreAdmin.RestockedAt` and `StoreAdmin.ToggledAt` require a selection without repeats, as a queryset yields each row once. `RestockAction`, `ToggleActive`, `StoreAdmin.ToggledParity` and `StoreAdmin.ToggleTwiceRestores` accept any sequence.
- `StoreModels.Store.SaveOrder`: a new order is taken to have no items, so its commission is 0. This is the behaviour before Django 4.1, which raises `ValueError` for `items.all()` on an unsaved instance.
- `StoreModels.Store.OrderCommission`: the commission is exact. The 28-digit context of Python's `Decimal` is not modelled.
- `AccountsModels.FitsRate` holds for the default rate, but the 5-digit limit of `commission_rate` is not enforced on other writes.
- The missing import of `F` at store/management/commands/check_stock.py:2 would make the command fail with `NameError` when it runs. `CheckStock` models the filter the code evidently intends.
- `slugify` is a parameter, and slug uniqueness is not modelled.
- Output and messages: `message_user` texts, `format_html` markup, image previews, `view_orders`, `total_parts`, `item_count` and `formfield_for_foreign_key` display or restrict forms only.
- `APIResponse` wrapping, authentication classes and routing: `GetIpAddress` is modelled as its returned ip.
- The clock: `timezone.now()` is the parameter `now` of `StoreAdmin.IsExpired`, whose properties are stated by `StoreAdmin.ExpiryIsStrictAndStable`.
- Stock reservations are a record type only. No code reserves, releases or counts them.
