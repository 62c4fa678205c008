# Purchase-order interceptor of the AdventureWorks mock data server

The mock data server puts one request interceptor in front of its generic
json-server router. This project models that interceptor, `mock-data/middleware.js`.
For every request the interceptor sets three CORS headers. It then tries three rules in order:

1. `GET /purchase-orders/<digits>/details` answers with the purchase-order
   details whose `purchaseOrderId` is the parsed id.
2. `GET /purchase-orders/<digits>` sets three cache-disabling headers. It
   answers 404 with `{error: "Purchase order not found"}` when no order has
   the id. Otherwise it answers with the first such order, with
   `purchaseOrderDetails` attached, and with `vendor` (a three-field summary
   of its vendor) when a vendor matches, and without a `vendor` property
   otherwise.
3. `GET /purchase-orders` or `GET /purchase-orders/` sets the same
   cache-disabling headers. It answers with every order, each with its vendor
   summary attached, or without `vendor` when none matches.

Any other request is passed on to the next stage.

The model has seven modules:

- `Json` holds the JavaScript values the handler touches. It covers:
  - `undefined`;
  - property access (`Get`);
  - object spread (`Set`);
  - strict equality (`StrictEq`);
  - what `res.json`'s `JSON.stringify` writes (`Serialize`), which drops
    `undefined` properties.
- `Collections` holds `filter` and `find` with the predicate `x => x.key === v`.
- `Urls` holds the URL side:
  - a matcher for the two regular expressions, proved equal to the
    languages they denote;
  - `parseInt` of a digit run;
  - `Classify`, the rule chosen for a request.
- `PurchaseOrders` holds the store (three collections) and the joins built
  from it.
- `Middleware` holds the handler:
  - `Response`, the specification function;
  - `Handle`, the imperative handler with one method per rule, each proved
    equal to its rule's specification;
  - the properties of the handler, stated as lemmas about `Response`.
- `Scenarios` works through concrete requests against a small store.
- `Wrappers` holds the `Option` type used for lookups and matches.

The handler only reads the store. `Handle` and its helpers take the store as
an immutable value and have no `modifies` clause.

Some points where the code behaves differently from what one might expect
of a read-only enrichment layer:

- The interceptor is installed for every request, before the router mounted
  at `/api` (`server.js:11-14`). It therefore sees `/api/purchase-orders...`
  unchanged. None of its patterns match that URL, so those requests go to the
  generic router and are not enriched (`ApiPrefixPassesOn`).
- The repository's Angular client uses the base URL `http://localhost:3000/api`
  (`example-angular-service.ts:72`). Its purchase-order requests are
  therefore always answered by the generic router, never by these rules.
- The handler itself sets cache-disabling headers only in the single-order
  and list rules, not in the details rule (`NoCacheOnlyOnSingleAndList`).
  By the comment at `server.js:7`, json-server's defaults, installed ahead of
  the handler at `server.js:8`, add no-cache headers, so even the details
  answer must be revalidated; the handler itself adds none there. Those
  defaults are outside this model, which records only the headers the
  handler sets.
- `require('./db.json')` returns the module cached at the first load. The
  store is therefore read once, not on every request, and changes written
  through the router are not seen by the interceptor. The model takes the
  store as a parameter of each request, which covers both readings.
- `req.url` includes the query string. `GET /purchase-orders?x` is therefore
  passed on, not answered (`QueryStringPassesOn`).

## Model

| member | source | states |
|---|---|---|
| Json.Get | mock-data/middleware.js:39 | reading an own property an object lacks gives `undefined`; what a present property reads is stated by `Json.GetPresent` |
| Json.GetPresent | mock-data/middleware.js:39 | reading an own property the object has gives the value of its first property of that name |
| Json.Set | mock-data/middleware.js:46-54 | `{...o, k: v}`: k reads v, every other key reads as in o, an existing key keeps its place, a new key goes last, and no key appears twice |
| Json.StrictEq | mock-data/middleware.js:13 | `===` holds exactly for equal primitive values; arrays and objects from the store are never strictly equal |
| Json.DropUndefined | mock-data/middleware.js:57 | the written object keeps exactly the properties whose value is not `undefined`, and adds no key |
| Json.Serialize | mock-data/middleware.js:57 | `JSON.stringify` writes nothing only for `undefined`, and otherwise writes a value with no `undefined` anywhere in it |
| Json.GetInKeys | mock-data/middleware.js:48-52 | in an object with no `undefined` value, a key is present exactly when reading it is not `undefined` |
| Json.DropUndefinedGet | mock-data/middleware.js:57 | dropping `undefined` properties keeps keys unique and does not change what any key reads |
| Json.DropUndefinedOfDefined | mock-data/middleware.js:57 | an object with no `undefined` value loses nothing when written |
| Json.PointwiseGet | mock-data/middleware.js:57 | serializing each property keeps the keys, and every key reads the serialized value |
| Json.SerializedGet | mock-data/middleware.js:57 | a written object's key reads the serialization of the key's value, and the key is written exactly when that value is not `undefined` |
| Json.SerializeOfJson | mock-data/middleware.js:15 | a value read from the store is written back unchanged |
| Collections.Matches | mock-data/middleware.js:39 | the predicate `x => x.key === v` of every lookup; `StrictEq` states when it holds |
| Collections.Filter | mock-data/middleware.js:13 | `filter` keeps exactly the elements that match, and no more elements than there were |
| Collections.FilterAppend | mock-data/middleware.js:42 | filtering a concatenation is the concatenation of the filtered parts, so store order is kept |
| Collections.FilterSingleton | mock-data/middleware.js:42 | a one-element array is kept exactly when its element matches |
| Collections.FilterCount | mock-data/middleware.js:42 | each matching element is kept as many times as it occurs, and a non-matching one never |
| Collections.Find | mock-data/middleware.js:32 | `find` returns the position of a matching element with no match before it, or none when nothing matches |
| Collections.FindIsFirstOfFilter | mock-data/middleware.js:39 | `find` fails exactly when `filter` is empty, and otherwise returns the first element `filter` keeps |
| Urls.LeadingDigits | mock-data/middleware.js:9 | the longest run of digits at the start of a string |
| Urls.AfterCollection | mock-data/middleware.js:8 | the rest of the URL after `/purchase-orders/`, present exactly when the URL starts with it |
| Urls.MatchDetails | mock-data/middleware.js:8-9 | a match gives a digit run d, and the URL is `/purchase-orders/d/details` |
| Urls.MatchSingle | mock-data/middleware.js:20-21 | a match gives a digit run d, and the URL is `/purchase-orders/d` |
| Urls.LeadingDigitsOfRun | mock-data/middleware.js:9 | the leading digits of a digit run followed by a non-digit are that run |
| Urls.AfterCollectionOf | mock-data/middleware.js:8 | the text after `/purchase-orders/` is recovered exactly |
| Urls.MatchDetailsComplete | mock-data/middleware.js:9 | every URL of the details shape is matched, with its own digits captured |
| Urls.MatchSingleComplete | mock-data/middleware.js:21 | every URL of the single-order shape is matched, with its own digits captured |
| Urls.MatchDetailsIff | mock-data/middleware.js:8 | the details matcher accepts exactly the URLs `^/purchase-orders/\d+/details$` accepts |
| Urls.MatchSingleIff | mock-data/middleware.js:20 | the single-order matcher accepts exactly the URLs `^/purchase-orders/\d+$` accepts |
| Urls.DetailsPathNotSinglePath | mock-data/middleware.js:20 | a details URL is never a single-order URL |
| Urls.ShapesDisjoint | mock-data/middleware.js:8-62 | the details, single-order and list shapes never overlap |
| Urls.Decimal | example-angular-service.ts:115-121 | the text a client writes for `${id}` in an order URL is a non-empty digit run |
| Urls.LeadingZeroIgnored | mock-data/middleware.js:9 | `parseInt` gives the same id with a leading zero |
| Urls.ParseDecimal | example-angular-service.ts:115-121 | `parseInt` of a number's decimal text gives the number back |
| Urls.Classify | mock-data/middleware.js:8-62 | the rule chosen for a request, tried in source order; its meaning is stated by `ClassifyShapes`, `ClassifyDetailsPath` and `ClassifySinglePath` |
| Urls.ParseInt | mock-data/middleware.js:21 | `parseInt` of the captured digit run; `ParseDecimal` and `LeadingZeroIgnored` state its value |
| Urls.ClassifyShapes | mock-data/middleware.js:8-93 | each rule is chosen exactly for GET requests of its own shape; every other request is passed on |
| Urls.ClassifyDetailsPath | mock-data/middleware.js:8-9 | `GET /purchase-orders/d/details` is the details rule with the parsed id |
| Urls.ClassifySinglePath | mock-data/middleware.js:20-21 | `GET /purchase-orders/d` is the single-order rule with the parsed id |
| Urls.SinglePathRoundTrip | mock-data/middleware.js:20-21 | the decimal text of n in `/purchase-orders/<text>` routes to order n, and in `/purchase-orders/<text>/details` to the details of n |
| Urls.LeadingZerosExample | mock-data/middleware.js:21 | `/purchase-orders/007` names order 7 |
| PurchaseOrders.DetailsOf | mock-data/middleware.js:42 | the details of an order; `DetailsOfMembers`, `FilterAppend` and `FilterCount` state which are kept and in what order |
| PurchaseOrders.FindOrder | mock-data/middleware.js:32 | the first order with the id; `Find` states it, and `FoundAnswer` restates it for the answer |
| PurchaseOrders.FindVendor | mock-data/middleware.js:39 | the first vendor whose businessEntityId is the order's vendorId, as `Find` states |
| PurchaseOrders.VendorSummary | mock-data/middleware.js:48-52 | the three vendor fields; `SummaryFields` states what is written |
| PurchaseOrders.VendorOf | mock-data/middleware.js:48-52 | the `vendor` value is `undefined` exactly when no vendor is found |
| PurchaseOrders.WithVendor | mock-data/middleware.js:78-85 | an order with its vendor; `WithVendorFields` states what is written |
| PurchaseOrders.WithVendorAndDetails | mock-data/middleware.js:46-54 | the single-order object; `WithVendorAndDetailsFields` states what is written |
| PurchaseOrders.EnrichAll | mock-data/middleware.js:76-86 | every order with its vendor; `ListAnswer` states what is written |
| PurchaseOrders.DetailsOfMembers | mock-data/middleware.js:13 | a detail is answered exactly when it is in the store and its `purchaseOrderId` is the number id |
| PurchaseOrders.SummaryFields | mock-data/middleware.js:48-52 | the written vendor summary holds exactly the vendor's businessEntityId, name and accountNumber, leaving out the ones the vendor lacks |
| PurchaseOrders.GetOfJsonObject | mock-data/middleware.js:49-51 | a field read from a store object is written back unchanged |
| PurchaseOrders.WithVendorFields | mock-data/middleware.js:76-86 | each written list element keeps every order property except `vendor`; `vendor` is present exactly when the vendor lookup succeeds, and is then the first matching vendor's summary |
| PurchaseOrders.WithVendorAndDetailsFields | mock-data/middleware.js:46-54 | the written single order is as above, and `purchaseOrderDetails` is the array of the order's details |
| PurchaseOrders.DetailsAreJson | mock-data/middleware.js:42 | the details of an order contain no `undefined` |
| Middleware.DetailsResponse | mock-data/middleware.js:13-15 | the details rule's answer; `DetailsAnswer` states it for the request |
| Middleware.SingleResponse | mock-data/middleware.js:25-57 | the single-order rule's answer; `NotFoundAnswer` and `FoundAnswer` state it |
| Middleware.ListResponse | mock-data/middleware.js:66-89 | the list rule's answer; `ListAnswer` states it |
| Middleware.Response | mock-data/middleware.js:1-93 | the outcome of a request, the handler's specification; `CorsOnEveryRequest`, `NoCacheOnlyOnSingleAndList`, `PassesOnExactly` and the answer lemmas state its properties |
| Middleware.SetCorsHeaders | mock-data/middleware.js:2-4 | the three CORS headers are appended in order |
| Middleware.SetNoCacheHeaders | mock-data/middleware.js:25-27 | the three cache-disabling headers are appended in order |
| Middleware.AnswerDetails | mock-data/middleware.js:9-16 | the details rule answers as its specification says |
| Middleware.AnswerSingle | mock-data/middleware.js:21-58 | the single-order rule answers as its specification says, on both the 404 and the found path |
| Middleware.AnswerList | mock-data/middleware.js:66-90 | the list rule answers as its specification says |
| Middleware.Handle | mock-data/middleware.js:1-94 | the handler's outcome is `Response`: the rules are tried in order and the first that applies answers |
| Middleware.CorsOnEveryRequest | mock-data/middleware.js:2-4 | every outcome, answered or passed on, starts with the three CORS headers |
| Middleware.NoCacheOnlyOnSingleAndList | mock-data/middleware.js:25-27 | the headers are CORS plus no-cache exactly for single-order and list requests, and CORS alone otherwise, including for the details rule |
| Middleware.PassesOnExactly | mock-data/middleware.js:93 | a request is passed on exactly when it is not a GET of one of the three shapes |
| Middleware.DetailsAnswer | mock-data/middleware.js:8-16 | the details URL answers 200 with the matching details in store order; an id with no details gives the empty array, never 404 |
| Middleware.NotFoundAnswer | mock-data/middleware.js:33-36 | an id no order has answers 404 with the error body, whatever the vendors and details are |
| Middleware.FoundAnswer | mock-data/middleware.js:32-57 | an existing id answers 200 with the first order of that id, with its properties kept, its vendor attached or absent, and its details attached |
| Middleware.ListAnswer | mock-data/middleware.js:62-89 | the list URL answers 200 with one element per order, in order, each with its vendor attached; no `purchaseOrderDetails` is added |
| Middleware.ListElement | mock-data/middleware.js:78-85 | one list element keeps the order's properties, attaches its vendor, and has `purchaseOrderDetails` only if the order has it |
| Middleware.NotUnderCollection | mock-data/middleware.js:93 | a URL that differs from `/purchase-orders/` within its length matches none of the three shapes |
| Middleware.QueryStringPassesOn | mock-data/middleware.js:62 | `GET /purchase-orders?…` is passed on |
| Middleware.ApiPrefixPassesOn | server.js:11-14 | a request under `/api` is always passed on to the router |
| Scenarios.AcmeWellFormed | mock-data/middleware.js:12 | the sample vendor is an object JSON.parse can produce |
| Scenarios.Order10WellFormed | mock-data/middleware.js:12 | the sample order is an object JSON.parse can produce |
| Scenarios.LinesWellFormed | mock-data/middleware.js:12 | the sample details are objects JSON.parse can produce |
| Scenarios.StoreWellFormed | mock-data/middleware.js:12 | the sample store is what JSON.parse can produce |
| Scenarios.StoreLookups | mock-data/middleware.js:32-39 | order 10 is found first, and its vendor is Acme |
| Scenarios.ParsedIds | mock-data/middleware.js:21 | `parseInt` reads "10", "11" and "999" as 10, 11 and 999 |
| Scenarios.DetailsOfOrder10 | mock-data/middleware.js:42 | both sample details belong to order 10, in store order |
| Scenarios.DetailsValues10 | mock-data/middleware.js:53 | the details array of order 10 holds both details |
| Scenarios.DetailsScenario | mock-data/middleware.js:8-16 | `GET /purchase-orders/10/details` gives both details |
| Scenarios.DetailsAt | mock-data/middleware.js:8-16 | the same answer, for the URL built from the id |
| Scenarios.AcmeSummary | mock-data/middleware.js:48-52 | Acme's summary is written as Acme itself |
| Scenarios.FoundScenario | mock-data/middleware.js:20-58 | `GET /purchase-orders/10` gives order 10 with Acme under `vendor` and both details under `purchaseOrderDetails` |
| Scenarios.FoundAt | mock-data/middleware.js:20-58 | the same answer, for the URL built from the id |
| Scenarios.FoundRoute | mock-data/middleware.js:20-32 | the request takes the found path with order 10 |
| Scenarios.FoundBody | mock-data/middleware.js:46-54 | the written body of order 10 holds Acme and both details |
| Scenarios.NotFoundScenario | mock-data/middleware.js:33-36 | `GET /purchase-orders/999` gives the 404 answer |
| Scenarios.Order11WellFormed | mock-data/middleware.js:12 | the order with a missing vendor is an object JSON.parse can produce |
| Scenarios.OrphanLookups | mock-data/middleware.js:32-39 | order 11 is found, and its vendor is not |
| Scenarios.OrphanDetails | mock-data/middleware.js:42 | order 11 has no details |
| Scenarios.VendorAbsentScenario | mock-data/middleware.js:46-57 | an order whose vendor is missing still answers 200; it has no `vendor` property and an empty details array |
| Scenarios.OrphanRoute | mock-data/middleware.js:20-32 | the request for order 11 takes the found path |
| Scenarios.OrphanBody | mock-data/middleware.js:46-54 | the written body of order 11 has no `vendor` and an empty details array |

## Left out

- Json.Get: reads own properties only; inherited properties such as `constructor` are not modelled. None of the five keys the handler reads (`purchaseOrderId`, `vendorId`, `businessEntityId`, `name`, `accountNumber`) is inherited from `Object.prototype`.
- The log lines (`console.log`, `new Date()`) are output only and do not affect the outcome.
- `require('./db.json')` and its file I/O become the store parameter of each request. The model also does not capture the module cache that makes every request see the same store.
- Express itself is left out: the `req`/`res` objects, `res.status` and `next()`. `res.json`'s Content-Type and ETag headers are also left out. The model keeps the status, the headers the handler sets in call order, and the JSON value sent.
- Numbers are exact reals. `parseInt` is exact on naturals, so ids beyond 2^53 do not round as doubles do.
- Object key order follows insertion order. The language's own-property order, which puts integer-like keys first and which `JSON.stringify` follows, is not modelled; the store's keys are all names.
- Store elements that are not objects (for example `null`, on which the source would throw) are not modelled: each collection is a sequence of objects.
- Store objects are assumed to be what JSON.parse produces: unique keys and no `undefined` (`PurchaseOrders.WellFormed`). The lemmas that need this require it.
- `server.js` beyond the order of its `use` calls, the rewriter and its `routes.json`, the data generators, `test-server.js` and the Angular services are not part of this model.
- The interceptor has no sales-order rules. Sales-order URLs, like every URL it does not recognise, are passed on (`PassesOnExactly`).
- json-server's default middlewares (`server.js:7-8`: logger, static files, CORS and no-cache) run before the handler and are not part of this model.
