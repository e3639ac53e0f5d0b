# smartbill-sync in Dafny

smartbill-sync connects a Shopify store with the SmartBill invoicing service. It does three things:

- it issues SmartBill invoices, proformas and credit notes for Shopify orders, on request (`/actions/document`, `/actions/credit`) or from signed Shopify webhooks (`orders/paid`, `refunds/create`);
- it keeps a small settings file (`/api/settings`, `/api/map`);
- it runs a scheduled pass that copies SmartBill stock quantities into Shopify inventory levels.

This project models the decision and translation logic of `server.js`, `services/smartbill.js` and `services/shopify.js`, and proves what that logic promises.

Modules:

- `Wrappers` holds `Option` and `Result`.
- `Js` holds the JavaScript value semantics the code relies on: truthiness, `||` and `??`, destructuring defaults, `String(v)`, `Number(v)`, `trim()`, `startsWith`, `replace(/\D/g, '')`, `toLowerCase()`, `filter(Boolean)`, and the UTF-8 bytes of `Buffer.from(string)`.
- `Orders` is the Shopify order record.
- `SmartBill` covers `services/smartbill.js`:
  - the client block and product lines built from an order;
  - the invoice, proforma and credit-note requests;
  - reading the provider's replies;
  - the stock map.
- `Shopify` covers `services/shopify.js`: order-reference routing, the location sentinel, inventory-item lookup, the inventory write payload and the variant projection.
- `Server` covers `server.js`:
  - the settings store, a `class` whose methods replace the stored settings;
  - the layered configuration;
  - both manual actions, in validation order;
  - the webhook: authenticate, then dispatch;
  - one stock pass, an imperative method with a loop, proved equal to a specification function that the pass lemmas are about.

How the outside world is represented:

- **Provider calls are oracles.** SmartBill is a function from a request to a response body or a thrown error. Shopify is a record of one such function per endpoint.
- **Requests are recorded.** Every operation that calls out returns the requests it sent, in order, together with its result. A "no call is made" property is therefore a statement about that list.
- **Handlers return their requests.** Each handler returns its reply and every request it sent to either provider.

The model follows the code as written, including where its behaviour is easy to misread:

- A failed document call in the webhook answers 500 `error`, not `ok`.
- A header whose byte length differs from the digest's makes `timingSafeEqual` throw, which gives 500; only an equal-length mismatch gives 401. An unset webhook secret also gives 500.
- The stock loop has no per-item isolation: the first throw stops the pass.
- Codes the stock provider reports but that were never requested are kept in the stock map. The loop looks them up like any other.
- The webhook credit note's reason is `Refund Shopify`.
- An unlisted location gives an `undefined` location id, not a configuration error.
- The library's own defaults are destructuring defaults, which apply only to `undefined`. So a warehouse variable that is set but empty stays empty, and the library's `SB` series fallback is never reached from the server.

## Model

| member | source | states |
|---|---|---|
| Js.FilterTruthy | server.js:99 | `filter(Boolean)` keeps only truthy values, each drawn from the input, never more than the input |
| Js.FilterTruthyAppend | services/smartbill.js:5-6 | filtering a concatenation is the concatenation of the filtered parts, so kept values keep their order |
| Js.FilterTruthyCounts | server.js:99 | a truthy value occurs as often after filtering as before (duplicates kept), a falsy one never |
| Js.NatToStr | services/shopify.js:17 | `String(n)` of a natural number is a non-empty digit string without a leading zero |
| Js.ToStr | services/smartbill.js:20 | a definition: `String(v)` of each JavaScript value, with numbers printed by `Js.NatToStr` and a sign; `Js.DecimalRoundTrip` and `Js.NatToStrInjective` state what the numerals mean |
| Js.DecimalRoundTrip | services/shopify.js:21 | reading back the printed numeral of `n` gives `n` |
| Js.NatToStrInjective | server.js:32 | different numbers print differently, so an array body spreads into distinct index keys |
| Js.TrimStart | services/smartbill.js:19 | the result is a suffix of the input that does not start with white space, and only white space was dropped |
| Js.TrimEnd | services/smartbill.js:19 | the result is a prefix of the input that does not end with white space, and only white space was dropped |
| Js.TrimIsInnerSlice | services/smartbill.js:19 | `trim()` is the slice of the input between its leading and trailing white space, and neither starts nor ends with white space |
| Js.Trim | services/smartbill.js:19 | a definition: `trim()` drops leading, then trailing white space; `Js.TrimIsInnerSlice`, `Js.TrimKeepsUnpadded` and `Js.TrimEmptyIffBlank` state what it returns |
| Js.TrimKeepsUnpadded | services/smartbill.js:19 | a string that neither starts nor ends with white space is its own trim |
| Js.TrimEmptyIffBlank | services/smartbill.js:19 | `trim()` is empty exactly when the string is all white space |
| Js.AllSpaceAroundSpace | services/smartbill.js:19 | `a + " " + b` is blank exactly when both `a` and `b` are |
| Js.DigitsOf | services/shopify.js:21 | `replace(/\D/g, '')` leaves only digits, is no longer than its input, and keeps an all-digit string as it is |
| Js.DigitsOfCounts | services/shopify.js:21 | every digit of the input is kept as often as it occurs, and every other character is deleted |
| Js.DigitsOfAppend | services/shopify.js:21 | deleting non-digits works piecewise, so the digits keep their order |
| Js.AsciiLower | server.js:80 | lower-casing keeps the length, turns each capital letter into its small letter and leaves every other character as it is |
| Js.Utf8Char | server.js:74 | one character encodes to one to four bytes, and to one byte exactly when it is ASCII |
| Js.Utf8 | server.js:74 | a string encodes to at least as many bytes as it has characters, and to exactly as many exactly when it is ASCII |
| Js.Utf8LeadByte | server.js:74 | the lead byte of an encoding tells its length |
| Js.Utf8CharInjective | server.js:74 | different characters encode differently |
| Js.Utf8Injective | server.js:74 | different strings have different UTF-8 bytes, so comparing buffers compares the strings |
| SmartBill.BuildClient | services/smartbill.js:19 | the client name is the trimmed full name, else the customer e-mail, else `Client Shopify`, and is never empty; not a VAT payer, `vatCode` null; the e-mail, city, county and country come from the customer and the shipping address |
| SmartBill.AddressJoinsPresentLines | services/smartbill.js:19 | the address is the non-empty address lines joined with ", ": both, either one alone, or empty |
| SmartBill.ClientNamedAfterCustomer | services/smartbill.js:19 | a customer with non-blank, unpadded first and last names is billed as exactly "first last" |
| SmartBill.ClientNameFallsBack | services/smartbill.js:19 | the full name is empty exactly when both name parts are blank, and then the client is named after the e-mail or `Client Shopify` |
| SmartBill.BuildProducts | services/smartbill.js:20 | one product per line item, in order, none without line items; code is the SKU if truthy else `String(variant_id)`; unit `buc`, VAT 19, not a discount; currency is the order's or `RON`; quantity and price from the line; warehouse is the argument |
| SmartBill.CreditMirrorsInvoice | services/smartbill.js:15 | the credit-note lines are the invoice lines in the same order, each quantity non-positive with the same magnitude, every other field unchanged; flipping twice changes nothing |
| SmartBill.DocResultOf | services/smartbill.js:12 | a missing body throws; otherwise `number` is `data.number` if truthy else `data.numberString`, and `pdfUrl` is `data.pdfUrl` if truthy, else exactly null |
| SmartBill.CreateDocFromOrder | services/smartbill.js:8-13 | exactly one request; the path is `/api/proforma` exactly for type `proforma`, otherwise `/api/invoice`; the company's VAT code; not a draft; `sendEmail` is the boolean of the argument (true when omitted); series, issue date, warehouse, client, products and observation text as given; the result is read from the reply or the throw is passed on |
| SmartBill.CreateCreditFromOrder | services/smartbill.js:14-18 | exactly one request to `/api/creditnote`, with the company's VAT code, the flipped invoice lines, the observation `credit • <reason>` (reason `Return` when omitted), and the result read as for invoices |
| SmartBill.ListOf | services/smartbill.js:5 | the list is a truthy `items` array, else the body when it is an array, else empty for a falsy body; a missing body throws, and so does every other body (a truthy non-array `items`, an object without `items`, a truthy primitive) |
| SmartBill.Names | services/smartbill.js:5 | reading names throws exactly when some entry is null or undefined |
| SmartBill.NamesMeaning | services/smartbill.js:5-6 | every name returned is truthy and the name of some entry, and each truthy name occurs as often as the entries bearing it |
| SmartBill.FetchSeries | services/smartbill.js:5 | one request for the company's series; a throw of the call or of the envelope is passed on, otherwise the result is the names (`name`, else `seriesName`) of the envelope's list; every name returned is truthy |
| SmartBill.FetchWarehouses | services/smartbill.js:6 | one request for the company's warehouses; a throw of the call or of the envelope is passed on, otherwise the result is the `name`s of the envelope's list; every name returned is truthy |
| SmartBill.NamesKeepOrder | services/smartbill.js:5-6 | names of a concatenated list are the names of each part in order, and when every name is truthy none is dropped |
| SmartBill.PutLookup | services/smartbill.js:21 | after `out[code] = stock` that code reads the new quantity and every other code reads as before |
| SmartBill.StockMapContents | services/smartbill.js:21 | the stock map exists exactly when no entry is null; each code appears once; a code is present exactly when the list mentions it, requested or not, and it is not `__proto__`, and otherwise absent rather than 0; a repeated code keeps its last quantity |
| SmartBill.StockMapFrom | services/smartbill.js:21 | a definition: the `forEach` over the stock list from a given object onward; `SmartBill.StockMapFromOk`, `SmartBill.StockMapFromDistinct`, `SmartBill.StockMapFromUntouched` and `SmartBill.StockMapFromLast` state what it yields |
| SmartBill.StockMap | services/smartbill.js:21 | a definition: the `forEach` from the empty object; `SmartBill.StockMapContents` states its contents |
| SmartBill.StocksBySkus | services/smartbill.js:21 | a definition: one stock request, then the envelope and the stock map; `SmartBill.FetchStocksBySkus` is proved equal to it and `Server.StockPassStart` states its request |
| SmartBill.StockQuantityDefaults | services/smartbill.js:21 | a null or missing stock reads as 0 and an integer stock as itself |
| SmartBill.FetchStocksBySkus | services/smartbill.js:21 | the loop that fills the stock object entry by entry gives exactly the specified stock map and the single stock request |
| Shopify.FetchOrderByRef | services/shopify.js:16-24 | exactly one request; a reference printing with a leading `#` is looked up by name (status any, limit 1) and gives the first order or none; any other is looked up by its digits alone and gives that order or none |
| Shopify.HashRefIsLookedUpByName | services/shopify.js:17-18 | `#1001` goes to the name lookup |
| Shopify.DigitRefsAreLookedUpById | services/shopify.js:21-22 | `1001` and `abc1001` both look up order id `1001` |
| Shopify.NumericRefIsLookedUpById | services/shopify.js:21-22 | the number 1001 looks up order id `1001` |
| Shopify.GetLocationId | services/shopify.js:26-30 | a truthy configured id other than `########` is returned with no request; otherwise one location listing, giving the first location's id or `undefined` |
| Shopify.GetInventoryItemIdBySku | services/shopify.js:32-36 | one lookup by SKU with limit 1; the first variant's inventory item, else null |
| Shopify.UpdateInventoryLevel | services/shopify.js:38-42 | one write whose payload is exactly the location, the inventory item (each through `Number`) and the quantity |
| Shopify.PayloadKeepsNumericIds | services/shopify.js:39 | numeric ids reach the payload unchanged |
| Shopify.ListRecentVariantSkus | services/shopify.js:44-47 | one listing; one `{id, sku, inventory_item_id}` per variant in order, SKUs kept even when empty; no list gives none |
| Server.Indexed | server.js:32 | an array body spreads into one property per element, under its decimal index, and nothing else |
| Server.Field | server.js:38 | a definition: a field of the request body, or of an empty object when the body is missing, so a missing body has no fields; `Server.ActionDocument` and `Server.ActionCredit` state the replies it leads to |
| Server.Merge | server.js:32 | the merged settings hold the stored keys and the body's; body keys take the body's value, all other stored keys keep theirs |
| Server.UnreadableIsEmpty | server.js:17 | an unreadable settings file reads as no settings, so a post stores just the body |
| Server.MergeIdempotent | server.js:32 | posting the same body twice stores what posting it once does |
| Server.MergeComposes | server.js:32 | two posts store what one post of their union does, the later winning |
| Server.SettingsStore.PostSettings | server.js:32 | the file afterwards holds the merge of the settings read and the body, and the reply echoes it with `ok: true` |
| Server.SettingsStore.PostMap | server.js:33 | the file afterwards holds the settings read with `warehouseMap` replaced by the body or `{}`, every other setting unchanged; the reply is `{ok: true}` |
| Server.ResolveSeries | server.js:45 | the series is the setting if truthy, else the environment's if truthy, else `SB`, and is always truthy |
| Server.ResolveSendEmail | server.js:46 | `sendEmail` is the setting unless it is null or undefined, and true otherwise |
| Server.SeriesFallbackUnused | server.js:81 | the library's own series default never changes the series the server passes |
| Server.EffectiveWarehouse | server.js:60 | with no requested warehouse, a document uses the setting if truthy, else the environment variable whenever it is set (even empty), else `Magazin 2` |
| Server.DefaultWarehouse | server.js:82 | a definition: the warehouse setting if truthy, else the environment variable; `Server.EffectiveWarehouse` states what a document then uses |
| Server.ResolveWarehouse | server.js:44 | a definition: the requested warehouse if truthy, else `Server.DefaultWarehouse`; `Server.ManualDocumentRequest` states that the request carries it |
| Server.EnvFlagMeaning | server.js:80 | an environment flag is on exactly when the variable is set and lower-cases to `true`, that is, exactly when it is the four letters t, r, u, e in any mix of cases |
| Server.EnvFlag | server.js:80 | a definition: the variable printed with `String` and lower-cased equals `true`; `Server.EnvFlagMeaning` states when it holds |
| Server.OrderAction | server.js:38-48 | a falsy reference gives 400 with no request, and 400 only then; otherwise the order lookup comes first; a throwing lookup gives 500 with the provider's response or the message; 404 exactly when no order is found; a document request exactly when one is, and then 200 with the success body of its result, or 500 with its error |
| Server.ManualDocumentRequest | server.js:43-46 | the manual document is a proforma exactly when the body's `type` is `proforma`; the body's warehouse wins when truthy, else the layered default; series and `sendEmail` from the layered settings |
| Server.DocumentReply | server.js:47 | the reply body is exactly `docType`, `number` and `pdfUrl` |
| Server.ActionDocument | server.js:36-49 | `/actions/document` answers 400 exactly for a missing reference, before any lookup; a throwing lookup gives 500; 404 before any document; when the order exists it requests the document with the resolved arguments and replies 200 with `docType` (default `invoice`) and the document's own `number` and `pdfUrl`, or 500 with the error |
| Server.ManualCreditRequest | server.js:59-62 | the manual credit note ignores any requested warehouse, uses the layered series and warehouse, and gives the body's reason or `Return` |
| Server.CreditReply | server.js:63 | the reply body is exactly `number` and `pdfUrl` |
| Server.ActionCredit | server.js:52-65 | `/actions/credit` has the same validation order as the document action, the same 500 for a throwing lookup, and when the order exists requests the credit note and replies 200 with its own `number` and `pdfUrl`, or 500 with the error |
| Server.AuthenticIffHeaderIsDigest | server.js:73-74 | a delivery is authentic exactly when the secret is set and the header equals the digest of the raw body |
| Server.Authenticate | server.js:71-74 | a definition: no secret, a byte-length mismatch, a byte mismatch, or authentic, in that order; `Server.AuthenticIffHeaderIsDigest` and `Server.AsciiSignatureOutcomes` state what each outcome means |
| Server.AsciiSignatureOutcomes | server.js:74 | for an ASCII digest and header, a header of another length fails the check (throw) and a different one of the same length is refused as forged |
| Server.Dispatch | server.js:80-90 | a paid order with invoicing on gets exactly one invoice request, and a refund with crediting on exactly one credit-note request; the reply is `ok` when that request succeeds and `error` otherwise; any other delivery is acknowledged with no request |
| Server.Webhook | server.js:68-92 | nothing is sent unless the delivery is authentic and parses; a forged header gives 401, the other failed checks and an unparsable body give 500; otherwise the dispatch decides; at most one document is requested |
| Server.WebhookDocuments | server.js:80-89 | webhook invoices are never proformas and use the layered `sendEmail`; webhook credit notes give `Refund Shopify` as their reason; both use the layered series and the settings-then-environment warehouse, ignoring anything in the payload |
| Server.WriteOne | server.js:104-105 | each entry is looked up by code with limit 1 and written exactly when the lookup yields a truthy inventory item, with the location and the entry's quantity; the entry's step throws exactly when the lookup throws or the write it sends throws, with that error |
| Server.WriteStocksAppend | server.js:103-106 | the loop over two runs of entries is the loop over the first and then, unless it threw, over the second |
| Server.WriteStocksSucceeds | server.js:103-108 | the loop finishes without a throw exactly when no entry's step throws |
| Server.WriteStocksFirstError | server.js:103-108 | a loop that throws ends with the error of the first entry whose step throws |
| Server.WriteStocksCalls | server.js:103-106 | the loop sends at most two requests per entry, each a lookup of one of the map's codes or a write of one of its quantities at the given location |
| Server.StockPassStart | server.js:98-101 | a pass starts by listing 250 variants; it stops there exactly when no listed variant has a SKU; otherwise it next asks SmartBill for exactly the filtered SKUs |
| Server.StockPassSplits | server.js:98-106 | a pass is at most three setup requests (listing, stock request, location lookup, none of them a write) followed by loop requests |
| Server.StockPassThenStorefrontOnly | server.js:102-106 | after the stock request a pass sends requests only to Shopify |
| Server.StockPassLocatesOnce | server.js:102 | a pass lists the locations at most once |
| Server.StockPassWritesAtResolvedLocation | server.js:102-105 | every inventory write of a pass goes to the location id that the location lookup returned |
| Server.StockPassWritesOneLocation | server.js:102-105 | every inventory write of a pass goes to the resolved location, so all writes share one location |
| Server.WriteStocksStopsAtFirstFailure | server.js:103-108 | once an entry's request throws, no request for a later entry is sent |
| Server.RunStockPass | server.js:95-109 | one run of the scheduled job sends exactly the requests of the specified pass and ends the same way |
| Server.SyncEntry | server.js:104-105 | the loop body for one entry does exactly what the per-entry specification says |
| Server.RunWrites | server.js:103-106 | the `for … of` loop over the stock map sends exactly the specified requests and stops at the first throw |
| Server.WriteStocks | server.js:103-106 | a definition: the loop over the stock map, stopping at the first throw; `Server.WriteStocksAppend`, `Server.WriteStocksSucceeds`, `Server.WriteStocksFirstError` and `Server.WriteStocksCalls` state its behaviour, and `Server.RunWrites` is proved equal to it |
| Server.StockPass | server.js:95-109 | a definition: one pass of the stock job; `Server.StockPassStart`, `Server.StockPassSplits` and the other pass lemmas state its behaviour, and `Server.RunStockPass` is proved equal to it |

## Left out

- HTTP plumbing: Express routing, `express.json()`, morgan, static files, `/health`, `/admin/settings`, `PORT` and `listen`. A request body that is not JSON is not modelled.
- The raw webhook body is a parameter, as if it were still unread. `express.json()` is mounted for every route (server.js:13) before the webhook reads the raw stream (server.js:70), so a delivery sent as JSON reaches the handler with its stream already consumed. The model does not capture that.
- `/api/sb/meta` and its `Promise.all`. Its two calls, `SmartBill.FetchSeries` and `SmartBill.FetchWarehouses`, are modelled; the route is not.
- Network plumbing for both providers: axios, base URLs, tokens, headers and timeouts. Every call is an oracle: a function from the request to the field the client reads, or to the error it throws. Within one handler the oracles are deterministic.
- The HMAC-SHA256 digest and its base64 encoding (RFC 2104). They are the `digest` parameter of `Server.Webhook`. The constant-time behaviour of `timingSafeEqual` cannot be stated.
- Errors from `getRawBody`. The raw body is a parameter.
- JSON payloads that parse but are not order-shaped. The payload is an already-parsed `Order`, or `None` when the body is not JSON.
- File I/O and JSON text: `readFileSync`, `writeFileSync`, `JSON.parse` and `JSON.stringify`. The settings file is a value that is unreadable or holds an object; writing it back and reading it again gives the same object. A settings file holding JSON that is not an object is not modelled, and neither is a failing write.
- `Server.OwnProps`: spreading a body copies an object's entries or an array's elements; any other kind of body copies nothing. Spreading strings is not modelled because `express.json()` delivers only objects and arrays.
- Scheduling: `node-cron`, `CRON_STOCK_EXPR`, and overlapping passes. `Server.RunStockPass` is one pass.
- Logging with `console.log` or `console.error`.
- Dates: the issue date `new Date().toISOString().slice(0,10)` is the `today` field of the handler context.
- Environment timing: each library reads its variables once at load time, and the model reads them from the same environment the handler sees. In the code the imports (server.js:7-8) are evaluated before `dotenv.config()` (server.js:10), so a value set only in the `.env` file never reaches the libraries' load-time reads. The model does not capture that.
- `Js.ToNumber`: floating point is not modelled. Numbers are integers, and `Number` of a string is kept symbolic, so prices and string quantities are never computed.
- `SmartBill.FetchStocksBySkus`: `Object.entries` lists the stock object in insertion order in the model. JavaScript's rule that integer-like keys come first is not modelled.
- `Js.Utf8`: strings are sequences of Unicode scalar values. Lone UTF-16 surrogates, which `Buffer.from` replaces, are not modelled.
- `Js.AsciiLower`: only ASCII letters are lower-cased. That is exact for the comparisons with `true`, its two uses in the code (server.js:80 and 85), but it is not full Unicode `toLowerCase`.
- `Js.Prop`: only object properties are read; the code never reads a named property of a string or an array through it. The length and index reads of lists (`skus.length` at server.js:100, `[0]` at services/shopify.js:19, 29 and 34) are modelled as `|·|` and `Shopify.First`.
- `Js.NatToStr`: numbers print as all their digits. For 10^21 and above, `String(n)` prints exponent form, which the model does not produce.
- Concurrency between handlers, the job and settings writers.
