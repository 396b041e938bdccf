# Odoo ⇄ PrestaShop middleware: a verified model of its decision rules

The middleware keeps an Odoo ERP and a PrestaShop storefront in step. It has three entry points:

- **`syncAllStock`** (`app/Services/StockSyncService.php`) reconciles stock. It walks the active Odoo products in order and skips any product with no reference or no storefront stock. It clamps a negative ERP quantity at zero and pushes the quantity only where it differs from the storefront's. For every differing product it writes one audit row (Simulado, Actualizado or Error) and tallies successes and errors.
- **The incremental cron** (`public/sync_odoo_cron.php`) works out a cutoff date. The cutoff is either a lookback range such as `6h`, `2d` or `30m` with a one-hour fallback, or the saved cursor. The cron fetches the products modified since the cutoff and keeps those with a reference. It pushes price and clamped quantity for every one of them through `syncProductFromOdoo`, and advances the cursor after every real run whose fetch returned products.
- **The sale webhook** (`public/webhook_sale.php`) is a linear validation pipeline:
  - empty body → 400
  - bad XML → 400
  - incomplete data → 400
  - unknown product → 404
  - otherwise it computes the stock left after the sale (never below 0) and appends one CSV line, then either simulates or writes the stock to Odoo (200 or 500).

Under these sit the two clients:

- `OdooClient`: configuration check, credentials, JSON-RPC endpoint, field mapper and the remote operations.
- `PrestaShopClient`: base URL, the stock XML envelope, and the step-by-step storefront operations.

Every remote call is an oracle, that is, a function-valued field of a datatype:

- `OdooClient.Odoo` wraps the JSON-RPC answers.
- `PrestaShopClient.Storefront` wraps the REST answers.

Each client operation returns its value together with the trace of requests it sent. "No call is made" and "only this write happens" can therefore be stated as properties of that trace.

The loops of the source are modelled as methods with loop invariants:

- `SyncAllStock`
- `PushProducts`
- `CheckOdooConfig`

Each one is proved equal to a recursive specification function over the products seen so far, and the source's promises are proved as lemmas about those functions. The webhook is one method with the script's early exits. Pure helpers are functions: `parseTimeRange`, `getLastSyncTimestamp`, `mapProductFields`, endpoint construction and the envelope builders.

Files:

| file | contents |
|---|---|
| `wrappers.dfy` | `Option` |
| `seqs.dfy` | slicing facts the loops and inductive lemmas use |
| `text.dfy` | PHP `trim`, `rtrim($s, '/')`, string truthiness, decimal integers |
| `inventory.dfy` | the clamp, the audit status and the tally |
| `odoo_client.dfy` | the ERP client |
| `prestashop_client.dfy` | the storefront client |
| `stock_sync.dfy` | `syncAllStock` |
| `odoo_cron.dfy` | `sync_odoo_cron.php` |
| `webhook_sale.dfy` | `webhook_sale.php` |

## Model

| member | source | states |
|---|---|---|
| Text.Trim | public/sync_odoo_cron.php:13 | The result of `trim` neither starts nor ends with PHP whitespace; it is empty exactly when the input is all whitespace. |
| Text.TrimPadded | public/sync_odoo_cron.php:13 | `trim` removes exactly the whitespace around a string whose ends are not whitespace. |
| Text.RTrimChar | app/Services/PrestaShopClient.php:15 | `rtrim($s, $c)` returns a prefix of `s`; everything it removed is `c`; the result does not end in `c`. |
| Text.NatToString | public/sync_odoo_cron.php:15-20 | The decimal rendering of a non-negative integer is non-empty digits with no leading zero, and reads back as the same number. |
| Text.IntToString | app/Services/PrestaShopClient.php:135-152 | The decimal rendering of any integer parses back to that integer. |
| Inventory.Clamp | app/Services/StockSyncService.php:41 | The quantity sent is never negative: a negative quantity becomes 0 and any other is unchanged. |
| Inventory.Label | app/Services/StockSyncService.php:45-53 | The status column reads "Simulado", "Actualizado" or "Error", each for exactly one status. |
| OdooClient.MissingFrom | app/Services/OdooClient.php:28-37 | The collected keys are exactly the checked keys that are absent or whitespace-only. |
| OdooClient.NoneMissingIffNoneBlank | app/Services/OdooClient.php:28-41 | Nothing is collected as missing if and only if no required key is blank. |
| OdooClient.CheckOdooConfig | app/Services/OdooClient.php:27-50 | The loop collects every blank key, not just the first. The check succeeds iff no key is blank and the URL passes the validator. |
| OdooClient.GetCredentials | app/Services/OdooClient.php:52-64 | The credentials are null iff the configuration check fails; otherwise they are the four environment values, unchanged. |
| OdooClient.Endpoint | app/Services/OdooClient.php:85 | The endpoint is the URL without its trailing slashes followed by `/jsonrpc`, so there is never a doubled slash where `/jsonrpc` is appended. |
| OdooClient.GetModifiedProductsSince | app/Services/OdooClient.php:78-128 | No request is sent, and null is returned, iff the configuration is invalid. Otherwise one authenticated `product.product` search_read goes out, on `write_date >= datetime` with limit 100, and its answer is returned. |
| OdooClient.GetAllActiveProductsWithStock | app/Services/OdooClient.php:130-182 | The same, with the domain `active = true` and limit 1000. |
| OdooClient.GetProductByReference | app/Services/OdooClient.php:205-254 | Without valid configuration nothing is sent. Otherwise one search goes out on `default_code = reference` with limit 1. A product is returned iff the answer is a non-empty list, and it is the first element. |
| OdooClient.UpdateProductStock | app/Services/OdooClient.php:259-313 | Without valid configuration it returns false and sends nothing. Otherwise one authenticated `stock.change.product.qty` create goes out for that product and quantity, and its outcome is returned. |
| OdooClient.MapProductFields | app/Services/OdooClient.php:187-200 | A record is dropped iff `default_code` is empty by `empty()`, which includes "0". Otherwise the reference is the `default_code`, id and write date are copied, and absent fields default to '', 0.0 and 0. |
| PrestaShopClient.BaseUrl | app/Services/PrestaShopClient.php:15 | The stored base URL is the configured one with all trailing slashes removed, and it never ends in `/`. |
| PrestaShopClient.QuantityEnvelope | app/Services/PrestaShopClient.php:135-152 | The envelope `prestashop > stock_available > (id, id_product, quantity)` reads back as exactly the three integers, in that order. |
| PrestaShopClient.QuantityOnlyBody | app/Services/PrestaShopClient.php:294-295 | The `stock_available > quantity` body reads back as the quantity. |
| PrestaShopClient.StockPathInjective | app/Services/PrestaShopClient.php:154 | Different stock records are patched at different `/api/stock_availables/{id}` paths. |
| PrestaShopClient.UpdateProductQuantity | app/Services/PrestaShopClient.php:130-187 | Exactly one PATCH is sent, to the record's path, carrying the three integers; the result is true iff the PATCH did not fail. |
| PrestaShopClient.GetStockByReference | app/Services/PrestaShopClient.php:227-263 | The operation never writes. When the product lookup fails it returns null without querying stock; otherwise it returns the product's stock quantity. |
| PrestaShopClient.UpdateStockByReference | app/Services/PrestaShopClient.php:265-329 | The only possible write is the last call. It happens iff the product and its stock record are both found, and it carries the quantity to the record's path. The result is true iff that PATCH answered exactly 200. |
| PrestaShopClient.SyncProductFromOdoo | app/Services/PrestaShopClient.php:188-226 | A falsy reference or a missing price or quantity gives false with no call at all. Otherwise the product lookup comes first. Success requires all four calls. |
| PrestaShopClient.SyncProductFromOdooSteps | app/Services/PrestaShopClient.php:198-214 | An unknown product stops before the price update. The price PATCH precedes the stock-record lookup. A missing record gives false even after a successful price update. Otherwise one stock PATCH carries (record, product, quantity), and the result is the AND of both updates. |
| StockSyncService.VisitProduct | app/Services/StockSyncService.php:31-58 | For one product, no reference means no row and no call. A row carries the reference, the original Odoo quantity and the clamped quantity, which differs from the storefront's. The status is Simulado iff dry run. A dry run, or a product without a row, makes only read calls. |
| StockSyncService.VisitProductCalls | app/Services/StockSyncService.php:37-56 | A row is emitted iff the storefront stock is known and differs from the clamped quantity. Only then, and only outside a dry run, is the update called with the clamped quantity; the status is its outcome. |
| StockSyncService.RowsAppend | app/Services/StockSyncService.php:31-59 | Rows follow input order: the rows of a concatenation are the rows of the first part followed by those of the second. |
| StockSyncService.CallsAppend | app/Services/StockSyncService.php:31-59 | Storefront calls follow input order in the same way. |
| StockSyncService.RowsMatchProducts | app/Services/StockSyncService.php:31-59 | There are never more rows than products. Every row comes from some product, and every product that yields a row has it in the run. |
| StockSyncService.SyncProduct | app/Services/StockSyncService.php:32-58 | One loop iteration produces exactly the row and calls `VisitProduct` specifies. |
| StockSyncService.SyncAllStock | app/Services/StockSyncService.php:19-69 | A failed or empty fetch gives `{0, 0}` with no rows and no calls. Otherwise the rows and calls are those of every product in order. `errores` counts the Error rows and `actualizados + errores` equals the number of rows. A dry run counts no error and never writes. |
| StockSyncService.RowsAreDifferences | app/Services/StockSyncService.php:35-46 | Every row has a truthy reference, a non-negative sent quantity equal to the clamped Odoo quantity, and a sent quantity different from the storefront's. Its status is Simulado iff dry run. |
| StockSyncService.DryRunWritesNothing | app/Services/StockSyncService.php:44-46 | In a dry run no call writes to the storefront and no row is an error. |
| StockSyncService.RealRunStatuses | app/Services/StockSyncService.php:48-56 | In a real run no row is Simulado, and a row is Actualizado iff its stock update with the sent quantity succeeded (Error otherwise). |
| OdooCron.UnitOf | public/sync_odoo_cron.php:14-21 | Only `h`, `d` and `m` are unit letters, and each maps back to its own letter. |
| OdooCron.ParseTimeRange | public/sync_odoo_cron.php:12-24 | The fallback is taken iff the trimmed range is not digits followed by a unit letter. Otherwise the amount is the digits' value and the unit is the letter's. |
| OdooCron.PhraseOfRange | public/sync_odoo_cron.php:14-23 | A matching range returns `-N hours`, `-N days` or `-N minutes`, with N the digits' value written without leading zeros, and spans N times the unit's seconds. Anything else returns `-1 hour`, which is 3600 seconds. |
| OdooCron.ParseWellFormed | public/sync_odoo_cron.php:14-21 | A range that trims to digits plus a unit letter is read as that many units. |
| OdooCron.ParseTimeRangeRoundTrip | public/sync_odoo_cron.php:12-22 | Any amount and unit, written in decimal and surrounded by whitespace, is parsed back to exactly that amount and unit. |
| OdooCron.DefaultRangeIsOneHour | public/sync_odoo_cron.php:57 | The default range `1h` is one hour, the same 3600 seconds as the fallback. |
| OdooCron.FallsBack | public/sync_odoo_cron.php:23 | Any trimmed string other than digits plus a unit letter falls back to one hour. |
| OdooCron.NegativeRangeFallsBack | public/sync_odoo_cron.php:14-23 | `-3h` is not accepted and falls back to one hour. |
| OdooCron.LastSyncTimestamp | public/sync_odoo_cron.php:27-46 | The stored cursor is used iff it is not a dry run, the range is not forced, the file exists, and its trimmed content parses to a non-zero time no later than now. It is then returned trimmed and otherwise verbatim. In every other case the cutoff is now minus the range. |
| OdooCron.CutoffNotInFuture | public/sync_odoo_cron.php:33-45 | The cutoff never lies after now, and a fresh cutoff lies exactly the range before now. |
| OdooCron.ValidProducts | public/sync_odoo_cron.php:82 | Only mapped records with a truthy reference remain, and there are never more kept products than records. |
| OdooCron.ValidProductsMembers | public/sync_odoo_cron.php:82 | Every kept product is the mapping of some input record, and every record with a reference is kept. |
| OdooCron.ValidProductsSingleton | public/sync_odoo_cron.php:82 | A single record yields its mapping when it has a reference, and nothing otherwise. |
| OdooCron.ValidProductsAppend | public/sync_odoo_cron.php:82 | The filter keeps Odoo's order and keeps each record at most once: the products kept from a concatenation are those of the first part followed by those of the second. With the singleton case this fixes the result for every input. |
| OdooCron.PushOne | public/sync_odoo_cron.php:90-115 | Every product yields one row with its reference, price, original quantity and clamped quantity. The status is Simulado iff dry run, and a dry run makes no call. |
| OdooCron.PushOneSyncs | public/sync_odoo_cron.php:103-114 | Outside a dry run the calls are those of `syncProductFromOdoo` on the product with its clamped quantity. The row is Actualizado iff that returns true, and Error iff it returns false. |
| OdooCron.OneRowPerProduct | public/sync_odoo_cron.php:89-116 | The loop writes exactly one row per product, at the product's own position. |
| OdooCron.PushProduct | public/sync_odoo_cron.php:90-115 | One loop iteration produces exactly the row and calls `PushOne` specifies. |
| OdooCron.PushProducts | public/sync_odoo_cron.php:85-116 | The loop's rows and calls are those of every product in order. `errores` counts Error rows and `exitos + errores` equals the number of products' rows. |
| OdooCron.DryRunCallsNothing | public/sync_odoo_cron.php:97-100 | A dry run makes no storefront call and counts no error. |
| OdooCron.NeverSendsNegativeStock | public/sync_odoo_cron.php:94-106 | Every stock PATCH a run sends is a well-formed envelope with a non-negative quantity, whatever Odoo holds. |
| OdooCron.RunCron | public/sync_odoo_cron.php:54-121 | A failed or empty fetch changes nothing, so the cursor is kept. Otherwise the cursor becomes the run's start time unless it is a dry run, even when products failed. The rows and calls are those of the products with a reference, in order, and the tally counts them. A dry run keeps the cursor, makes no call and counts no error. No negative stock is ever sent. |
| OdooCron.CursorResumesNextRun | public/sync_odoo_cron.php:37-45 | The cursor written by a real run is, on the next plain run at that time or later, the exact cutoff that run queries from. |
| WebhookSale.NewStock | public/webhook_sale.php:54-58 | The new stock is stock minus sold when that is non-negative, and 0 otherwise; it is never negative. |
| WebhookSale.Appended | public/webhook_sale.php:63-71 | One line is appended at the end. The header is written only when the file did not exist, and existing lines are kept. |
| WebhookSale.AppendKeepsLogWellFormed | public/webhook_sale.php:64-70 | Appending keeps the CSV a single header followed by sale lines, and adds exactly one line. |
| WebhookSale.HandleSale | public/webhook_sale.php:11-108 | An empty body, unparsable XML, or a falsy reference or absent quantity each give 400 with no Odoo request and no CSV line. An unknown product gives 404 with no CSV line. Otherwise exactly one CSV line is appended. A dry run happens only for `dryRun` exactly "true" and returns `dryrun` with the new stock and no update. Otherwise the update is sent with the new stock and the response is 200 `ok` or 500. |

## Left out

- HTTP transport is not modelled: Guzzle, curl, JSON-RPC encoding, SimpleXML/DOM parsing, and Guzzle's `base_uri` resolution of request paths. Every remote call is an oracle answering an already-decoded value (`Odoo`, `Storefront`), and the webhook's body is parsed by an oracle `parseXml`.
- Oracles are functions, so the model assumes a remote system answers the same question the same way within one run. Concurrent changes on either side are not modelled.
- `updateProductPrice`'s XML envelope carries a float price and is not modelled. It is the oracle `patchPrice`, and prices are `real` values passed through unchanged.
- Float formatting is not modelled, and neither is the truncating `(int)` cast of a float `qty_available`: quantities are integers throughout.
- PHP's `(int)` cast of an over-long digit string, which saturates at the platform integer limit, is not modelled; integers are unbounded.
- `updateProductStockWithQuant` is unused by the entry points and is not part of this model.
- The calls to `logProductSyncError`, `error_log`, Monolog and `echo` are logging only and are not modelled.
- The CSV files are represented by their rows: the sequence of rows for `syncAllStock` and the cron, and the sequence of lines for the webhook. File names with `date('Ymd_His')`, `fputcsv` quoting and the header line of `logToCsv` are not modelled.
- Time is integer seconds, and the clock is passed in as a `Clock`: `now`, `format` for `date()`, and `parseTime` for `strtotime` of an absolute date.
- OdooCron.Seconds: treats `-N days` as N × 86400 seconds. `strtotime`'s calendar arithmetic across a daylight-saving change is not modelled.
- OdooCron.LastSyncTimestamp: the fresh cutoff is modelled as a number of seconds that `format` renders. The `time()` read at line 30 and the clock read by `strtotime` at line 34 are taken to be the same instant.
- modules/odooorderhook/odooorderhook.php is not part of this model. It is PrestaShop hooks and a form; its `<sale>` envelope is the input of `WebhookSale.HandleSale`.
- public/index.php, public/sync_stock_cron.php and app/Bootstrap/AppBootstrap.php are not part of this model. They are option parsing, dispatch and client construction.
- The cron advances the cursor to the run's start even when the Odoo fetch was capped at 100 records. The model states this as the source does. Records beyond the cap that keep an older `write_date` are not tracked, because the model carries no `write_date` ordering.
