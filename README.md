# Warehouse inventory: a Dafny model of its stock ledger and access rules

The system keeps an inventory of products across warehouses. Stock is
never stored. It is an append-only ledger of movements ("transactions"),
each `in` or `out`, and the stock of a (product, warehouse) pair is
recomputed as the sum of its `in` quantities minus the sum of every other
quantity. Two back ends implement the ledger:

- a flat-file Node server (`server/server.js`), which keeps products,
  warehouses, movements and teams in four arrays;
- a relational Laravel backend (`InventoryController`,
  `TransactionController`), which validates requests and aggregates with SQL.

A React client guards its routes and filters its sidebar by the signed-in
user's roles and permissions.

The model has these modules:

| module | file | what it holds |
|---|---|---|
| `Wrappers` | `wrappers.dfy` | the `Option` type for absent fields, props and payload entries |
| `Seqs` | `seqs.dfy` | order-preserving `Filter` and stable newest-first `SortDesc`, with their laws |
| `Ledger` | `ledger.dfy` | the shared data (`Movement`, `Record`, `Level`), `StockOf` (the stock of a pair), the grouping `Aggregated`, the stock gate and its invariant |
| `FlatServer` | `flat_server.dfy` | the Node server: record creation, update and deletion, inventory view, listing, movement POST; its data is the class `Store` |
| `TransactionController` | `transaction_controller.dfy` | the backend's validation, `getCurrentStock`, listing and `store`; its tables are the class `Database` |
| `InventoryController` | `inventory_controller.dfy` | the backend's grouped inventory and the loop that builds the response |
| `AuthContext` | `auth.dfy` | `hasPermission` and `hasRole` |
| `ProtectedRoute` | `protected_route.dfy` | the route guard's decision chain |
| `Layout` | `layout.dfy` | the permission-filtered sidebar menu and `isActive` |

Conventions used throughout the model:

- Quantities are integers counting hundredths. The backend stores two-decimal numbers (`backend/app/Models/Transaction.php:23`).
- A movement's creation time is an integer instant.
- Record attributes are text.
- Generated ids and the current time are parameters of the operations that use them.
- Each request is one atomic step on the store.

## Model

| member | source | states |
|---|---|---|
| Ledger.StockOfAbsent | server/server.js:309-321 | a pair with no movements has stock 0 |
| Ledger.StockOfAppend | server/server.js:309-321 | the stock after two runs of movements is the sum of the stocks of each run |
| Ledger.StockOfPush | server/server.js:295 | appending one movement changes only its own pair's stock, by +quantity for `in` and −quantity otherwise |
| Ledger.StockOfOwnMovements | server/server.js:312 | movements of other pairs never affect a pair's stock |
| Ledger.StockIsInMinusOther | server/server.js:313-317 | stock = Σ quantities of `in` − Σ quantities of every other type |
| Ledger.DistinctKeys | server/server.js:189-196 | the grouping keys are pairwise distinct |
| Ledger.DistinctKeysMembers | server/server.js:188-196 | a pair gets a key exactly when one of its movements exists |
| Ledger.AggregatedIsGrouping | server/server.js:186-205 | one level per pair, no pair twice; each level's quantity is that pair's stock; a level exists exactly when the pair moved |
| Ledger.GatedHistoryNonNegative | server/server.js:278-283 | if every movement is a well-formed `in`/`out` that passed the stock gate when stored, no pair's stock is negative |
| Ledger.GatedHistoryAppend | server/server.js:278-295 | appending a movement that passes the gate keeps the whole history gated |
| FlatServer.FindIndex | server/server.js:90-93 | −1 exactly when no record has the id; otherwise the first position holding it |
| FlatServer.NewRecordSpec | server/server.js:70-78 | a created record has the fresh id and `createdAt` = now; the copied attributes (name and location, name and code, name) are stored as given, even when empty, and are absent when the body omits them; an attribute written `body[key] || fallback` keeps a non-empty body value and otherwise takes its fallback (unit "piece", price "0", colour "#3b82f6", "" otherwise); nothing else comes from the body (likewise lines 130-140 and 336-342) |
| FlatServer.NewRecordCopied | server/server.js:70-78 | a copied attribute is in the created record exactly when the body gives it, with the body's value, the empty string included (likewise lines 130-140 and 336-342) |
| FlatServer.MergeSpec | server/server.js:94-98 | PUT overrides with every body attribute and then `updatedAt`, keeps unmentioned ones, and an `id` in the body replaces the record's id |
| FlatServer.RemoveIdSpec | server/server.js:109 | DELETE keeps exactly the records with another id; it is idempotent; deleting an absent id changes nothing |
| FlatServer.CreatedIsFound | server/server.js:87-93 | a record appended under a fresh id is the one a later PUT finds |
| FlatServer.CreatedThenRemoved | server/server.js:106-110 | deleting a record just created under a fresh id restores the collection |
| FlatServer.Aggregate | server/server.js:186-205 | the `forEach` that fills the dictionary computes exactly the grouping `Aggregated` |
| FlatServer.FilteredLevelsSpec | server/server.js:207-210 | after the warehouse filter, levels are distinct; each is its pair's stock; one is present exactly when the pair moved and lies in the filtered warehouse |
| FlatServer.EnrichSpec | server/server.js:213-221 | enrichment keeps one row per level, with the level's quantity and the product and warehouse as found (or none) |
| FlatServer.InventoryRowsDistinct | server/server.js:186-228 | the inventory view lists no pair twice |
| FlatServer.InventoryViewSpec | server/server.js:180-234 | a row is listed iff it is its pair's row with the pair's stock, the pair moved, and either (no warehouse filter and quantity > 0) or (it lies in the filtered warehouse, whatever its sign); also, with a team filter, its product exists and has that `teamId` |
| FlatServer.ListingSpec | server/server.js:237-260 | the listing is newest first; it is a permutation of the stored movements, each enriched; movements with equal `createdAt` keep stored order |
| FlatServer.UntypedMovementIsUngatedAndSubtracted | server/server.js:278-289 | a movement whose type is neither `in` nor `out` passes the gate unchecked and is subtracted from its pair |
| FlatServer.UntypedMovementCanOverdraw | server/server.js:278-295 | hence the server can reach negative stock: one "return" of 1.00 on an empty ledger is accepted and leaves −1.00 |
| FlatServer.Store.Create | server/server.js:67-85 | POST appends exactly the new record to its collection; the other collections and the movements are unchanged |
| FlatServer.Store.Update | server/server.js:87-104 | a missing id gives NotFound and no change; otherwise only the first record with the id is replaced by its merge; the length is kept; nothing else changes |
| FlatServer.Store.Delete | server/server.js:106-115 | DELETE leaves the collection filtered by id; other collections and the movements are untouched |
| FlatServer.Store.GetCurrentStock | server/server.js:309-321 | the running sum equals the pair's stock `StockOf` |
| FlatServer.Store.Inventory | server/server.js:180-234 | GET inventory returns exactly `InventoryView`, which `InventoryViewSpec` characterises |
| FlatServer.Store.PostTransaction | server/server.js:262-307 | a missing product is NotFound, checked before a missing warehouse; InsufficientStock iff both exist, the type is `out` and the stock is below the quantity; success iff both exist and the movement passes the gate; any failure leaves the movements unchanged; success appends exactly the new movement and returns it enriched; an accepted `out` leaves the pair's stock ≥ 0 |
| TransactionController.SignedSumIsStock | backend/app/Http/Controllers/Api/TransactionController.php:52-55 | over one pair's rows the SQL SUM is NULL exactly when there are no rows, and otherwise equals the pair's stock |
| TransactionController.CurrentStockIsStock | backend/app/Http/Controllers/Api/TransactionController.php:50-58 | `getCurrentStock` equals the ledger stock of the pair; for a pair with no rows the SUM is NULL and the result is 0 |
| TransactionController.IndexSpec | backend/app/Http/Controllers/Api/TransactionController.php:14-20 | the listing is ordered by creation time, newest first; it is a permutation of the stored movements, each with its product and warehouse loaded |
| TransactionController.Database.Store | backend/app/Http/Controllers/Api/TransactionController.php:22-48 | a request failing a rule is refused with every failing field in rule order; InsufficientStock iff the request is valid, of type `out`, and above the current stock, so an `in` is never checked; success iff the request is valid and is not an `out` above the current stock; a refusal stores nothing; success appends exactly one movement with the validated fields; that movement is well formed, refers to an existing product and warehouse, and passes the gate; validity of the database (every movement well formed and gated) is preserved |
| TransactionController.ValidStockNonNegative | backend/app/Http/Controllers/Api/TransactionController.php:36-46 | in a valid `Database` (the invariant `store` preserves) no pair's stock is negative |
| InventoryController.AggregatedGroups | backend/app/Http/Controllers/Api/InventoryController.php:17-22 | a grouping of the movements exists that meets `IsGrouping`: one row per pair, no pair twice, each the pair's signed sum |
| InventoryController.WhereOccurs | backend/app/Http/Controllers/Api/InventoryController.php:24-26 | with a truthy `warehouseId` (not missing, "" or "0") the query sees exactly the pairs of that warehouse; otherwise it sees all pairs |
| InventoryController.WhereKeepsStock | backend/app/Http/Controllers/Api/InventoryController.php:17-26 | filtering before grouping leaves a kept pair's sum equal to its full stock |
| InventoryController.Index | backend/app/Http/Controllers/Api/InventoryController.php:30-53 | the `foreach` with its two `continue`s builds exactly `Report` of the query's rows |
| InventoryController.ReportAppend | backend/app/Http/Controllers/Api/InventoryController.php:30-53 | the response keeps the query's row order |
| InventoryController.ReportMembers | backend/app/Http/Controllers/Api/InventoryController.php:31-52 | a row is in the response exactly when one query row emits it |
| InventoryController.ReportDistinct | backend/app/Http/Controllers/Api/InventoryController.php:30-53 | distinct groups give distinct response rows |
| InventoryController.IndexSpec | backend/app/Http/Controllers/Api/InventoryController.php:13-56 | for any row order of the query, a row is listed iff: its pair moved; it lies in the given warehouse (when one is given); its product and warehouse exist and are attached; it carries the pair's full stock; that stock is > 0 unless a warehouse is given. No pair is listed twice |
| InventoryController.EmptiedPairListedOnlyWithWarehouse | backend/app/Http/Controllers/Api/InventoryController.php:42-44 | after an `in` and an equal `out`, the pair is listed with quantity 0 when its warehouse is requested, and omitted otherwise |
| AuthContext.AnyNamed | client/src/contexts/AuthContext.jsx:100 | true iff some permission in the list has the name |
| AuthContext.AnyGrants | client/src/contexts/AuthContext.jsx:99-101 | true iff some role has a permission list containing the name |
| AuthContext.AnyRoleNamed | client/src/contexts/AuthContext.jsx:106 | true iff some role has the name |
| AuthContext.HasPermission | client/src/contexts/AuthContext.jsx:97-102 | false without a user; true iff the user has a role list in which some role has a permission list holding a permission of that name, so a missing list yields false |
| AuthContext.HasRole | client/src/contexts/AuthContext.jsx:104-107 | false without a user; true iff the user has a role list in which some role has that name |
| AuthContext.AddRoleMonotone | client/src/contexts/AuthContext.jsx:97-107 | adding a role never removes a permission or a role; the user gains the new role's name and permissions |
| AuthContext.RoleNameIsNoPermission | client/src/contexts/AuthContext.jsx:97-107 | holding a role named X does not grant a permission named X |
| ProtectedRoute.Guard | client/src/components/ProtectedRoute.jsx:4-42 | loading screen whenever loading; redirect to /login iff not loading and no user; permission denial iff a required permission is missing; role denial iff the permission is met and a required role is missing; children iff both are met. An empty requirement is none |
| ProtectedRoute.OpenRouteAdmitsAnyUser | client/src/components/ProtectedRoute.jsx:19-41 | a route with neither requirement renders its children for every signed-in user |
| ProtectedRoute.GuardMonotone | client/src/components/ProtectedRoute.jsx:19-41 | an added role never turns an admitted route into a denial, and never turns a role denial into a permission denial |
| ProtectedRoute.PermissionDeniedFirst | client/src/components/ProtectedRoute.jsx:19-39 | any signed-in user holding neither the required permission nor the required role is shown the permission denial, not the role denial |
| Layout.MenuItemsMembers | client/src/components/Layout.jsx:9-17 | an entry is shown iff it is in the menu and needs no permission or the user holds it |
| Layout.DashboardAlwaysFirst | client/src/components/Layout.jsx:10-17 | the dashboard `/` is always shown, first |
| Layout.MenuItemsKeepOrder | client/src/components/Layout.jsx:9-17 | the shown entries keep the menu's order |
| Layout.NoRolesOnlyDashboard | client/src/components/Layout.jsx:9-17 | with no user or no role list only the dashboard is shown |
| Layout.StartsWith | client/src/components/Layout.jsx:23 | true iff the prefix is no longer than the path and equals its beginning |
| Layout.IsActive | client/src/components/Layout.jsx:19-24 | `/` is active only on `/` itself; any other path is active iff the location begins with it |
| Layout.ActiveBelowPath | client/src/components/Layout.jsx:23 | an entry is active on every location below its path, and also on "/products-archive" for "/products", since the test is on characters; `/` is not active on "/products" |

## Left out

- Reading and writing the data file, and seeding default data: the store is an in-memory value; each request is one atomic step.
- Concurrency: two requests interleaving between the read and the write of the data file can both pass the stock gate; this race is not modelled.
- Id generation and the clock are parameters (`id`, `now`).
- The flat server groups by the text key `productId_warehouseId`; the model groups by the pair, which agrees when ids contain no `_` (generated ids are UUIDs).
- Floating point: quantities are integer hundredths; the backend's `(float)` cast and the `numeric|min:0.01` rule are stated on hundredths, so finer fractions are not modelled.
- JSON values are text: a non-string body value, such as a numeric `price`, is not distinguished from its text; a quantity that is not a number is not modelled on the flat server, and is a missing quantity on the backend.
- HTTP: status codes and error texts are the `ApiError`/`StoreError` constructors; the 500 paths of the `catch` blocks (I/O failures) are not modelled.
- The GET handlers that return a whole collection unchanged are not modelled.
- Laravel: the validator's type checks (`string` on `serial_number` and `notes`) beyond presence, the uuid pattern, the ranges and existence are not modelled. `Product::findOrFail` cannot fail after the `exists` rule, so it has no path of its own. `store` returns the movement without its loaded relations.
- SQL: the grouped query of the inventory endpoint is a parameter. The properties hold for every row order the database may return (`IsGrouping`).
- TransactionController.IndexSpec: does not state the order of movements with equal `created_at`, because SQL leaves it unspecified; the model's sort keeps the stored order.
- InventoryController.IndexSpec: states membership and distinctness for every row order of the query; the order itself is that of the query (`ReportAppend`).
- The client's `login`, `logout` and `fetchUser` (network and local storage), all rendering, icons and pages are not modelled; menu labels are kept as data only.
