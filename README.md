# Magento 2 stock sync, modelled in Dafny

This project models the core of an InvenTree plugin that pushes a part's total stock quantity
to a Magento 2 store, and proves properties of that model. The core has two parts:

- the plugin (`inventree_magento2_sync/plugin.py`): the event gate `wants_process_event` and the
  pipeline `process_event` → `_get_part_from_event` → `_calculate_total_quantity` →
  `_sync_to_magento`, including the settings check of `get_magento_client`;
- the REST client `Magento2Client` (`inventree_magento2_sync/magento_api.py`): construction,
  `_make_request`'s error mapping, `get_product_by_sku`, `update_product_stock` and
  `test_connection`.

Files and modules:

- `results.dfy` (`Results`): `Option` and `Result`, which stand for Python's `None` and for
  raised exceptions.
- `strings.dfy` (`Strings`): Python's `t in s` (`Contains`), `f"{n}"` for integers
  (`IntToString`) and `s.rstrip(c)` (`TrimRight`), with the lemmas the client needs about them.
- `json.dfy` (`JsonValues`): decoded JSON values and their Python truth value.
- `magento_api.dfy` (`MagentoApi`): requests, the replies of the HTTP layer, the `ApiError`
  messages, endpoints and payload, and the classes `Remote` and `Client`.
- `plugin.dfy` (`StockSync`): settings, parts, the event gate, the quantity sum, the pipeline
  as pure functions (`Sync`, `ProcessRun`), and the classes `StockStore` and `Plugin`.

How the host and the remote side are represented:

- The settings are a record.
- The stock tables are a `StockStore` object. It holds the part of each stock item id and, for
  each part, the quantity column of its stock items (None for NULL) or a failed read. It logs
  every stock item lookup.
- The HTTP layer and the Magento server are a `Remote` object: a fixed reply for each request,
  and the log `sent` of every request issued. A reply is a response (status, text, what JSON
  decoding of the text gives), a connection error, a read timeout or any other exception.
- `Plugin.ProcessEvent` and `Plugin.SyncToMagento` are methods. They are proved to append to
  these logs exactly the lookups and requests that the pure functions `ProcessRun` and `Sync`
  describe. The properties of the pipeline are proved about those functions.

Behaviour of the code that the model keeps as written:

- The allow-list has no delete event. The `"stock_stockitem.deleted"` branch of
  `_get_part_from_event` is modelled, but only a direct call of `process_event` reaches it.
- `process_event` calls `_get_part_from_event(event, instance, stock_item_id, **kwargs)`
  (plugin.py:187). A keyword named like one of that method's parameters (`instance`,
  `stock_item_id`) is passed twice, so the call raises TypeError before the method runs. The
  handler at plugin.py:214 catches it: no lookup, no request (outcome `ArgumentClash`). Without
  such a keyword the `instance` it receives is always None. So the snapshot branch of
  `_get_part_from_event` (plugin.py:233-234) is reached only by a direct call. `ResolvePart` and
  `Plugin.GetPartFromEvent` model that direct call.
- "Not found" is a test for the substring `"404"` anywhere in the error message, not a status
  check. `MagentoApi.ProductNotFoundExactly` characterises it per reply kind. A 400 whose body
  mentions 404, a connection error whose text does, and a timeout configured as 404 seconds all
  count as "not found". A 500 is not such a case. The retry policy (magento_api.py:45-53)
  retries 500. When the retries run out, the client gets a `RetryError`, which the generic
  clause reports as "Unexpected error: …". That message does not include the body.
- `_sync_to_magento` tests `if not product`. A 2xx reply to the product GET with an empty text
  yields `{}`, which is false, so the product is treated as missing. The same holds for any other
  false JSON value.
- A connect timeout is a `requests` connection error and a timeout at once. The clause order
  maps it to the `"Connection error: "` message. The model's `ConnectionFailed` reply stands
  for it.
- Every failure of a sent request becomes the one error type `Magento2APIError`. Its message
  prefix is the only thing that tells a connection error, a timeout, an HTTP status and any other
  exception apart.

## Model

| member | source | states |
|---|---|---|
| `StockSync.WantsProcessEvent` | inventree_magento2_sync/plugin.py:118-159 | with sync disabled no event is wanted; a wanted event is one of the `stockitem.` names |
| `StockSync.SumAggregate` | inventree_magento2_sync/plugin.py:267-269 | Django's `Sum` over the quantity column is NULL exactly when every quantity is NULL (or there are no records) |
| `StockSync.WantsExactlyStockChanges` | inventree_magento2_sync/plugin.py:142-152 | with sync enabled, an event is wanted if and only if it is one of the seven listed names |
| `StockSync.DeleteEventsIgnored` | inventree_magento2_sync/plugin.py:142-152 | neither `stock_stockitem.deleted` nor `stockitem.deleted` passes the gate, whatever the settings |
| `StockSync.ResolvePart` | inventree_magento2_sync/plugin.py:217-249 | on a direct call of `_get_part_from_event`, a snapshot with a `part` attribute gives that part; otherwise the delete event gives None and any other event gives the looked-up item's part, or None when the lookup fails |
| `StockSync.StockStore.GetItemPart` | inventree_magento2_sync/plugin.py:239-247 | one lookup is logged; the result is the item's part, or None for a missing or unknown id |
| `StockSync.Plugin.GetPartFromEvent` | inventree_magento2_sync/plugin.py:217-249 | the store is asked exactly when there is no usable snapshot and the event is not the delete event; the result is `ResolvePart` |
| `StockSync.SumAggregateIsSumOfPresent` | inventree_magento2_sync/plugin.py:267-271 | the SQL sum is NULL exactly when no quantity is present, and otherwise equals the sum of the present quantities |
| `StockSync.TotalQuantity` | inventree_magento2_sync/plugin.py:251-278 | the total is the sum of the present quantities (0 for no records or only NULLs), and 0 when the read fails |
| `StockSync.TotalQuantityAdditive` | inventree_magento2_sync/plugin.py:267-269 | the total over two groups of stock records is the sum of their totals |
| `StockSync.TotalQuantityExamples` | inventree_magento2_sync/plugin.py:267-272 | records 3, 0, NULL, 7 total 10; no records total 0 |
| `StockSync.ClientSettings` | inventree_magento2_sync/plugin.py:102-116 | a client configuration exists if and only if both URL and token are set, carrying the settings unchanged; otherwise the fixed configuration message |
| `StockSync.Plugin.GetMagentoClient` | inventree_magento2_sync/plugin.py:93-116 | incomplete settings give the configuration error; complete ones give a fresh client with the stripped URL, the bearer headers, timeout and SSL flag of the settings |
| `StockSync.Sync` | inventree_magento2_sync/plugin.py:280-327 | dry-run sends nothing; missing settings send nothing; otherwise the product GET is sent first, at most two requests are sent, and the second is the stock PUT for the same SKU and quantity exactly when the product is found |
| `StockSync.FailedLookupSendsOnlyTheGet` | inventree_magento2_sync/plugin.py:303-320 | a product GET that fails gives that GET alone and `SyncFailed` with its error, without raising |
| `StockSync.FalsyProductReadsAsNotFound` | inventree_magento2_sync/plugin.py:303-309 | any false JSON value for the product gives one GET and `ProductNotFound` |
| `StockSync.FailedUpdateIsReported` | inventree_magento2_sync/plugin.py:313-320 | a found product whose PUT fails gives the GET and the PUT, and `SyncFailed` with the PUT's error |
| `StockSync.NotFoundSendsOnlyTheGet` | inventree_magento2_sync/plugin.py:303-309 | a product reported missing gives one GET and no PUT |
| `StockSync.EmptyProductBodyReadsAsNotFound` | inventree_magento2_sync/plugin.py:303-309 | a 2xx product reply with empty text is taken for a missing product: one GET, no PUT |
| `StockSync.FoundSendsGetThenPut` | inventree_magento2_sync/plugin.py:303-313 | a found product gives a GET of its resource then a PUT of its stock item whose body holds the quantity and `quantity > 0` |
| `StockSync.RequestsAuthorized` | inventree_magento2_sync/plugin.py:110-116 | every request carries the settings' bearer token, the base URL (stripped of trailing slashes) that is joined with its endpoint, the timeout and the SSL flag |
| `StockSync.Plugin.SyncToMagento` | inventree_magento2_sync/plugin.py:280-327 | the requests appended to the remote log and the outcome are exactly those of `Sync` |
| `StockSync.ProcessPart` | inventree_magento2_sync/plugin.py:187-212 | once `_get_part_from_event` is entered, the lookups are those of part resolution; an unresolved part or an empty name sends no request; otherwise the run is `Sync` of the part's name and total |
| `StockSync.ProcessRun` | inventree_magento2_sync/plugin.py:161-215 | a keyword argument that repeats a parameter of `_get_part_from_event` ends in the caught TypeError with no lookup and no request; otherwise the item named by `kwargs["id"]` is looked up (except for the delete event), an unresolved part or an empty name sends no request, and the rest is `Sync` of the part's name and total |
| `StockSync.InstanceKeywordAborts` | inventree_magento2_sync/plugin.py:180-187 | an event with an `instance` keyword, whatever its value, causes no lookup and no request |
| `StockSync.InstanceKeywordExample` | inventree_magento2_sync/plugin.py:180-187 | a move event carrying a snapshot of part "A" whose product exists still sends nothing |
| `StockSync.AtMostOneUpdate` | inventree_magento2_sync/plugin.py:303-313 | for every event, at most two requests; only the second is a PUT, and it addresses the SKU the GET addressed |
| `StockSync.DryRunSendsNothing` | inventree_magento2_sync/plugin.py:292-297 | with dry-run on, no event causes any request |
| `StockSync.EndToEndExample` | inventree_magento2_sync/plugin.py:176-212 | item 42 of part WIDGET-1 with records summing to 25, found remotely, is synced: one lookup, a GET, then a PUT with qty 25 and in stock |
| `StockSync.Plugin.ProcessEvent` | inventree_magento2_sync/plugin.py:161-215 | every keyword argument map ends in an outcome, including the one with the TypeError of plugin.py:187; the lookups and requests appended to the logs are exactly those of `ProcessRun` |
| `Strings.TrimRight` | inventree_magento2_sync/magento_api.py:38 | the result is a prefix of the input, does not end in the character, and only that character was removed |
| `Strings.TrimRightUnique` | inventree_magento2_sync/magento_api.py:38 | those three properties determine the stripped URL |
| `Strings.Contains` | inventree_magento2_sync/magento_api.py:126 | Python's `t in s` for strings: `t` occurs at some index of `s`; only a string no longer than `s` occurs in it, and the empty string and `s` itself always do |
| `Strings.IntToString` | inventree_magento2_sync/magento_api.py:94-104 | `f"{n}"`: a non-negative number gives digits, and a negative one gives `-` then digits; the digits read back as the magnitude and have no leading zero |
| `Strings.DecimalRoundTrip` | inventree_magento2_sync/magento_api.py:94-104 | reading back the decimal form of a number gives the number |
| `JsonValues.Truthy` | inventree_magento2_sync/plugin.py:305 | `if not product`: exactly `None`, `false`, `0`, `""`, `[]` and `{}` are false |
| `MagentoApi.SessionHeaders` | inventree_magento2_sync/magento_api.py:56-62 | exactly the Authorization (`Bearer ` + token), Content-Type and Accept (JSON) headers |
| `MagentoApi.Client.constructor` | inventree_magento2_sync/magento_api.py:23-62 | the base URL is stored without trailing slashes, the other arguments unchanged (timeout 30 and SSL verification by default), the headers are `SessionHeaders` |
| `MagentoApi.ConstructionTestCases` | inventree_magento2_sync/tests/test_magento_api.py:22-33 | `https://example.com` is kept, trailing slashes are removed, the bearer header carries the test token |
| `MagentoApi.Client.RequestOf` | inventree_magento2_sync/magento_api.py:80-89 | a request carries the method, endpoint, body, base URL, session headers, timeout and SSL flag |
| `MagentoApi.ProductEndpoint` | inventree_magento2_sync/magento_api.py:123 | the product path followed by the SKU as it is |
| `MagentoApi.StockItemEndpoint` | inventree_magento2_sync/magento_api.py:151 | the product path, the SKU, then `/stockItems/1` |
| `MagentoApi.EndpointsInjective` | inventree_magento2_sync/magento_api.py:151 | different SKUs give different product and stock item endpoint strings |
| `MagentoApi.InStockFlag` | inventree_magento2_sync/magento_api.py:148-149 | an explicit flag is sent unchanged; no flag sends `quantity > 0` |
| `MagentoApi.StockPayload` | inventree_magento2_sync/magento_api.py:153-158 | the body is one `stockItem` object with exactly `qty` and `is_in_stock`, from which the quantity and flag read back |
| `MagentoApi.StockFlagTestCases` | inventree_magento2_sync/tests/test_magento_api.py:85-109 | quantity 100 is sent as in stock, quantity 0 as out of stock |
| `MagentoApi.MessageKinds` | inventree_magento2_sync/magento_api.py:93-111 | each of the four message forms is recognised by its prefix |
| `MagentoApi.RequestResult` | inventree_magento2_sync/magento_api.py:80-111 | a reply fails exactly for a 4xx/5xx status, undecodable non-empty text or a raised exception, and the message prefix names which; success gives `{}` for empty text and the decoded body otherwise |
| `MagentoApi.ErrorMessageTestCases` | inventree_magento2_sync/tests/test_magento_api.py:111-135 | the exact messages for a connection error and a 10 s timeout, for a 401 on a real response (the path `raise_for_status` takes, not the test's bare `HTTPError`), and `{}` for an empty 200 |
| `MagentoApi.Client.MakeRequest` | inventree_magento2_sync/magento_api.py:64-111 | one request is logged and the result is `RequestResult` of its reply |
| `MagentoApi.ProductLookup` | inventree_magento2_sync/magento_api.py:122-129 | the result is "no product" exactly for a failure whose message contains `404`; a success is the product; any other failure is raised again |
| `MagentoApi.ProductNotFoundExactly` | inventree_magento2_sync/magento_api.py:122-129 | product lookup reports "not found" exactly for a 4xx/5xx whose code is 404 or whose text contains 404, for an exception or decode error whose message contains 404, and for a timeout whose decimal value contains 404 |
| `MagentoApi.SubstringNotFoundCases` | inventree_magento2_sync/magento_api.py:126 | a 400 whose body mentions 404, and a timeout of 404 seconds, read as "not found" |
| `MagentoApi.NotFoundTestCase` | inventree_magento2_sync/tests/test_magento_api.py:54-68 | a plain exception `404 Client Error` becomes an "Unexpected error" that reads as "not found" |
| `MagentoApi.Client.GetProductBySku` | inventree_magento2_sync/magento_api.py:113-129 | one GET of the product resource is logged; the result is `ProductLookup` of its outcome |
| `MagentoApi.Client.UpdateProductStock` | inventree_magento2_sync/magento_api.py:131-170 | one PUT of the stock item with the payload and flag is logged; true on success, the error raised again otherwise |
| `MagentoApi.Client.TestConnection` | inventree_magento2_sync/magento_api.py:172-189 | one GET of the store configuration is logged; true on success, the error raised again otherwise |
| `MagentoApi.Remote.Send` | inventree_magento2_sync/magento_api.py:83-89 | the request is appended to the log and answered by the server's reply for it |

## Left out

- The HTTP layer is left out: `requests.Session`, the urllib3 retry and backoff policy, SSL verification and the timeout mechanism. The server's reply to each request is a fixed function that already includes the HTTP layer's own retries. Consequently the same request always gets the same answer. No final reply has a status that the policy retries (429, 500, 502, 503, 504). Either a retry gets another status, or the retries run out and the client sees `RetryError`, an `OtherFailure` whose detail is urllib3's message. The model does not exclude `Response` values with such a status. For them it describes what `raise_for_status` would do. The policy also retries read timeouts: once the retries run out, requests raises `ConnectionError`, not `Timeout`. So the `Timeout` clause (magento_api.py:103), and the model's `TimedOut` reply, are reached only when `Session.request` raises `Timeout` itself. A 404-second timeout retried to exhaustion still reads as "not found": urllib3's message, and so the connection error, contains `read timeout=404`.
- `urljoin`: a request records the base URL and the endpoint separately instead of the joined URL. The SKU goes into the path unencoded, so two different endpoint strings can still name the same resource once joined (`A#x` and `A#y` both address product `A`; `B/../A` resolves to `A`). `MagentoApi.EndpointsInjective` is about the strings only. Every endpoint starts with `/`, so the join drops any path of the base URL: `https://shop.example/magento` with `/rest/V1/products/X` gives `https://shop.example/rest/V1/products/X`. The trailing-slash strip therefore does not change the joined URL.
- A base URL that `urljoin` rejects is not modelled, for example `https://[shop` ("Invalid IPv6 URL") or a host that fails NFKC normalisation. The join at magento_api.py:80 runs before the `try` at magento_api.py:82. So no request is sent, and the ValueError is not a `Magento2APIError`: it passes through `get_product_by_sku` (magento_api.py:125), and `_sync_to_magento` logs it as a configuration error (plugin.py:321). The model takes every base URL as joinable: `Client.MakeRequest` always sends its request, and `Sync` does not produce this `ConfigurationError`.
- The `requests` session's own default headers (User-Agent and the like): the client's `headers` holds only what the constructor sets.
- The ORM query and the `Sum` aggregate are modelled as each part's list of optional quantities or a read failure. The aggregate read is not logged.
- Database errors other than a missing stock item are modelled like a missing one: `_get_part_from_event` turns both into None.
- `float()` of the total: quantities are `real`.
- Logging, the plugin's metadata and `SETTINGS` declarations, the mixins and `get_setting`. Settings come in as a record. An empty URL or token stands for an unset one.
- The `_client` attribute set at plugin.py:88 is never read, so it is not modelled.
- The host's event dispatcher, which calls `wants_process_event` before `process_event`, is not modelled. The gate and the pipeline are proved separately.
- In the model, the handler of `process_event` (plugin.py:214) catches one error: the TypeError of a repeated keyword at plugin.py:187 (`ArgumentClash`). The last handler of `_sync_to_magento` (plugin.py:323-327) has nothing to catch, because no other modelled step raises. `Plugin.ProcessEvent` ends in an `Outcome` for every input.
- Keyword argument values are reduced to what the plugin does with them. `id` is an integer key or anything else. The model lets any non-integer `id` find no item, although Django's `pk=` lookup (plugin.py:242) would turn a numeric string, an integral float or a bool into a key and find that item. `instance` is a snapshot or anything else. Positional `*args` are not used by the code and are not modelled.
- The texts of Python exceptions (`str(e)`) are not computed. They are carried in the reply as given.
