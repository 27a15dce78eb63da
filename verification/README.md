# Item access policy of the catalog backend, in Dafny

This project models the part of the catalog backend that decides who may do
what to an item: the bearer-token middleware that attaches a caller's uid and
role to a request, the six item handlers (`createItem`, `getItem`,
`getAllItems`, `updateItem`, `deleteItem`, `searchItems`) with their
validation, ownership and filtering rules, and the `DataService` that stands in
front of the document collection. The hosted collection is modelled as a
`map<string, Record>` held by a `DataService` object whose methods change it in
place; a record (a stored document or a JSON body) is a map from field name to
a JavaScript value, an absent field being `undefined`.

Files and modules:

- `js_values.dfy` — `JsValues`: the JavaScript values (`Str`, `Num`, `Bool`,
  `Null`, `Date`, `Compound`), JavaScript truthiness (`Truthy`: absent, `null`,
  `false`, `0` and `""` are falsy) and `||` (`Or`).
- `http.dfy` — `Http`: a response is a status and a JSON payload.
- `data_service.dfy` — `DataStore`: the `DataService` class (`Create`,
  `GetById`, `Update`, `Delete`, `GetAll`), the `where` clauses of a query and
  what it means for a document to match them (`Holds`, `Matches`,
  `SatisfiesFilters`).
- `auth_middleware.dfy` — `AuthMiddleware`: token extraction from the
  `Authorization` header, the `Request` object that `authenticate` fills in,
  `Authenticate` and `Authorize`.
- `data_controller.dfy` — `DataController`: the handlers, as methods that take
  the controller's `DataService` and the authenticated `Caller`, and the checks
  they make, as predicates and functions: `CanAccess` (the single ownership
  rule, `createdBy == uid || role == 'admin'`), `ValidPrice` (`typeof precio
  === 'number' && precio > 0`), `PriceRejected` (the update's truthiness-guarded
  price check), `Listable` (which documents a listing may return) and the
  allow-list of search fields.
- `scenarios.dfy` — `Scenarios`: requests in sequence (create then read,
  create then a refused update then read), proved from the handlers' contracts.

External collaborators become parameters: the identity provider's token check
is the function `verify: string -> Option<Decoded>` given to `Authenticate`
(a verified token's uid is never empty, so `Uid` is the type of non-empty
strings; `GetAllItems`'s guarantee that a non-admin sees only their own items
rests on it, because with an empty uid the forced `createdBy` filter would be
falsy, no creator clause would be added and the listing would be unfiltered); the clock is the `now` given to `Create` and `CreateItem`, and a
timestamp is the opaque value `Date(now)`. The store's automatic document ids
are modelled by `AutoId(issued)`, the `issued`-th id; the object invariant
`Valid()` says that every stored id is shorter than it, so a new id is always
fresh — freshness is the only property of the ids the model relies on.

Points where the code departs from its own API documentation, or from what
its checks suggest; the model follows the code:

- The item schema documents `createdBy` and `createdAt` as read-only
  (src/controllers/data-controller.js:50,53 and src/app.js:33-34), yet
  `updateItem` merges the whole request body into the stored document, so an
  update can overwrite `createdBy`, `createdAt` and any other field.
  `UpdateQuirks` states it.
- `createItem` refuses a price of 0, since `!req.body.precio` holds for it;
  `updateItem` tests the price only when it is truthy, so `precio: 0` passes an
  update and is stored. `PriceChecks` states where the two checks agree and
  where they do not.
- A negative `limit` (for example `?limit=-3`, which `parseInt(...) || 10`
  keeps) is passed to the store, whose query service accepts only
  non-negative limits; the model treats that as a store failure, which the
  handler reports as 500.

## Model

| member | source | states |
|---|---|---|
| `JsValues.Truthy` | src/controllers/data-controller.js:101 | the `!x` tests of the handlers (also at line 294): `undefined`, `null`, `false`, `0` and `""` are falsy, every other value is truthy; a definition, used by every check below |
| `JsValues.Or` | src/controllers/data-controller.js:111-114 | JavaScript's or-operator with a fallback: the value itself when it is truthy, the fallback otherwise (used for `descripcion`, `stock` and the default role) |
| `DataStore.WithId` | src/services/data-service.js:22 | `{ id, ...data }`: every stored field is kept, `id` is added, and a stored `id` field wins over the document id |
| `DataStore.Merge` | src/services/data-service.js:31 | a merging update overwrites exactly the patch's fields and keeps every other stored field |
| `DataStore.MatchesWhere` | src/services/data-service.js:49-54 | adding a `where` clause to a query conjoins it: a document matches the longer query iff it matches the shorter one and the clause |
| `DataStore.SatisfiesFilters` | src/services/data-service.js:49-54 | the meaning of a filter object: each truthy entry (`categoria`, `createdBy`) requires the document's field to equal it, and nothing else is required; a definition, tied to the store's query by `GetAll` |
| `DataStore.DataService.constructor` | src/services/data-service.js:4-6 | a service bound to the named collection holds the documents the collection already has, and every automatic id it hands out afterwards differs from theirs |
| `DataStore.DataService.Create` | src/services/data-service.js:8-15 | the document is stored under an id not already in use, as the input data with `createdAt` set to the clock's time; the result is that stored document with its id; nothing else changes |
| `DataStore.DataService.GetById` | src/services/data-service.js:17-23 | `null` exactly when the id is not stored; otherwise the stored document with its id |
| `DataStore.DataService.Update` | src/services/data-service.js:25-34 | an unknown id gives `null` and no change; a known id gets the patch merged over its document, every other id is untouched, and the merged document is returned with its id |
| `DataStore.DataService.Delete` | src/services/data-service.js:36-44 | an unknown id gives `null` and no change; a known id is removed, nothing else, and the result is that id |
| `DataStore.DataService.Fetch` | src/services/data-service.js:56-61 | running a query returns at most `limit` documents, each with its id, each matching every clause, no document twice, and every matching document when fewer than `limit` came back |
| `DataStore.DataService.GetAll` | src/services/data-service.js:46-62 | each returned document satisfies every truthy filter (`categoria`, `createdBy`, joined by AND) and no other restriction; at most `limit` of them, all matching ones when fewer; a negative limit is refused |
| `DataStore.DataService.QueryByField` | src/controllers/data-controller.js:446 | the equality query on one field that the search handler calls: at most `limit` distinct documents whose field has that value, all of them when fewer |
| `AuthMiddleware.SpaceFrom` | src/middlewares/auth-middleware.js:4 | the position of the first space at or after a given position, or the end of the string |
| `AuthMiddleware.BearerToken` | src/middlewares/auth-middleware.js:4 | `split(' ')[1]`: no token exactly when the header is missing or has no space; a token never contains a space |
| `AuthMiddleware.BearerTokenOfHeader` | src/middlewares/auth-middleware.js:4-8 | for a header `<word> <token>[ <rest>]` the token is the second word, whatever the first word is: the scheme is not checked |
| `AuthMiddleware.Request.constructor` | src/middlewares/auth-middleware.js:3 | a request arrives with its header and without `uid` or `userRole` |
| `AuthMiddleware.Authenticate` | src/middlewares/auth-middleware.js:3-19 | no truthy token: 401 and the request untouched; a token the provider rejects: 403 and the request untouched; otherwise `uid` is the decoded uid, `userRole` the decoded role or `'user'` when that is falsy, and `next` runs with a truthy role |
| `AuthMiddleware.Authorize` | src/middlewares/auth-middleware.js:22-34 | a falsy role is refused with 403; an empty list lets every defined role through; a non-empty list lets a role through iff it equals one of the listed strings; every refusal is a 403 |
| `AuthMiddleware.AuthenticatedRoleDefined` | src/middlewares/auth-middleware.js:13-26 | after a successful authentication the role gate's "role not defined" branch cannot fire, and the gate with no roles lets the request through |
| `DataController.CanAccess` | src/controllers/data-controller.js:164 | the one ownership rule of `getItem`, `updateItem` (line 289) and `deleteItem` (lines 364-367): the stored `createdBy` equals the caller's uid, or the caller's role is `'admin'`; a definition, used by the three handlers' contracts |
| `DataController.ValidPrice` | src/controllers/data-controller.js:105 | `typeof precio === 'number' && precio > 0`; a price that passes it is truthy |
| `DataController.CreateError` | src/controllers/data-controller.js:101-107 | a body is accepted iff `nombre` and `categoria` are truthy and `precio` is a positive number; the price message is given only when all three are truthy but the price is not a positive number |
| `DataController.ItemData` | src/controllers/data-controller.js:109-116 | the stored item has exactly the six item fields, no other body field; `createdBy` is the caller's uid whatever the body says; `descripcion` defaults to `''` and `stock` to `0` when falsy |
| `DataController.CreateItem` | src/controllers/data-controller.js:98-124 | a refused body gives 400 with the reason and leaves the store unchanged; otherwise exactly one new document, stored under a fresh id, and 201 with it |
| `DataController.GetItem` | src/controllers/data-controller.js:155-168 | unknown id: 404; known id: 403 unless the caller is the creator or an admin, else 200 with the document |
| `DataController.EffectiveLimit` | src/controllers/data-controller.js:231 | the parsed limit or 10: the parsed limit unless it is missing, not a number or 0, in which case 10; never 0 |
| `DataController.Listable` | src/controllers/data-controller.js:217-229 | which documents a listing may return: of the requested category when one is given; for a non-admin, only the caller's own; for an admin, the requested creator's when one is given; a definition, tied to the store's filters by `GetAllItems` |
| `DataController.GetAllItems` | src/controllers/data-controller.js:215-234 | a non-admin gets only documents it created, whatever `createdBy` it asks for; an admin gets the requested creator's documents, or every creator's when none is asked; `categoria` narrows when truthy; at most the effective limit, all listable documents when fewer |
| `DataController.PriceRejected` | src/controllers/data-controller.js:294 | the update's price check: a price is refused iff it is truthy and not a positive number; a definition |
| `DataController.PriceChecks` | src/controllers/data-controller.js:101-106 | every body `createItem` accepts has a price the update check accepts, every price the create refuses as not positive the update refuses too, but a price of 0 is refused by the create (as missing) and passes the update (line 294) |
| `DataController.UpdatePatch` | src/controllers/data-controller.js:298-301 | the patch is the whole body with `updatedBy` set to the caller, overriding any `updatedBy` in the body |
| `DataController.UpdateQuirks` | src/controllers/data-controller.js:294-303 | a `precio` of 0 passes the price check and is stored; a `createdBy` in the body replaces the stored creator |
| `DataController.UpdateItem` | src/controllers/data-controller.js:280-304 | 404 (unknown id), then 403 (neither creator nor admin), then 400 (truthy price that is not a positive number), each leaving the store unchanged; otherwise the patch is merged into that document only and 200 with the re-read document |
| `DataController.DeleteItem` | src/controllers/data-controller.js:348-379 | 404 (unknown id), then 403 (neither creator nor admin), each leaving the store unchanged; otherwise exactly that id is removed and 200 with the message and the same id |
| `DataController.SearchError` | src/controllers/data-controller.js:433-443 | 400 when `field` or `value` is falsy; otherwise 400 exactly when `field` is not `nombre`, `categoria` or `createdBy` |
| `DataController.SearchItems` | src/controllers/data-controller.js:431-452 | as written: the validation's 400, and 500 with the missing-method error for every query that passes it; never 200 |
| `DataController.SearchOnAllowedFieldFails` | src/controllers/data-controller.js:445-451 | a search by `nombre` for `Laptop` ends in 500 |
| `DataController.SearchItemsIntended` | src/controllers/data-controller.js:431-448 | as intended: the same 400s, then 200 with at most the effective limit of distinct documents whose field has the value, all of them when fewer, for any caller, with no ownership filter |
| `Scenarios.CreateThenRead` | src/controllers/data-controller.js:118-168 | after a create, the creator and an admin read back exactly what the create returned, another user is refused with 403 |
| `Scenarios.RejectedUpdateKeepsItem` | src/controllers/data-controller.js:283-296 | after an update refused by the price check, the item reads back as it was created |
| `Scenarios.LaptopAccepted` | src/controllers/data-controller.js:101-116 | a laptop priced 1299.99 is accepted and owned by its poster even though the body names another creator; a price of -5 is refused by the update check |

## Left out

- Registration and login (`src/services/auth-service.js`, `src/controllers/auth-controller.js`): calls into the identity provider and its REST login endpoint; src/services/auth-service.js is not part of this model beyond this note.
- Express, Swagger and Firebase start-up (`src/app.js`, `src/config/firebase-admin-init.js`) and the routing glue (`src/routes/data-routes.js`). Because `/items/:id` is registered before `/items/search`, an HTTP `GET /items/search` reaches `getItem` with the id `"search"`; the model calls the handlers directly.
- The identity provider's token verification: a parameter of `Authenticate`, with no model of signatures, expiry or revocation.
- The length, maximum and minimum constraints written only in the API documentation comments (name length, description length, stock, limit range): the code does not enforce them, so neither does the model.
- Timestamps: `Date(now)` with `now` supplied by the caller.
- Floating point: `precio` and `stock` are real numbers; NaN and the infinities are not modelled.
- `parseInt`: the query's `limit` arrives already parsed, as an optional integer (`None` for a missing or non-numeric limit).
- Query parameters given more than once (which Express turns into arrays): every query parameter is a single string.
- Field paths: the store reads a patch key containing a dot as a path into a nested object; the model merges keys as flat names.
- DataStore.DataService.Fetch: does not model the order of the results (the store orders by document id), only which documents may be returned; so it does not say which `limit` documents come back when more match.
- DataController.GetAllItems: the 500 answer for a refused limit carries the store's error text after the handler's prefix; the model keeps only the prefix.
- DataController.SearchItemsIntended: a negative limit gives 500 with the handler's prefix only, as for the listing.
- The 403 body of `deleteItem` also carries a `details` object (required role, the caller's role, whether the caller is the creator); the model keeps only the `error` message.
- Every other 500 path (store or provider exceptions) and all logging.
- Concurrency: requests are handled one at a time; the read-check-write races between concurrent requests are not modelled.

## Findings

| source | as written | input that shows it | evidently intended | confidence | as-written member | corrected member |
|---|---|---|---|---|---|---|
| src/controllers/data-controller.js:445-446 | the search handler calls `dataService.queryByField`, which `DataService` does not define, so every query that passes validation throws and is answered 500 | `field=nombre`, `value=Laptop` gives 500 `Error en la búsqueda: dataService.queryByField is not a function` | an equality query on the named field, at most the limit, answered 200 | not executed; high | `DataController.SearchOnAllowedFieldFails` | `DataController.SearchItemsIntended` |
