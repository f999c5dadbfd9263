# Airwallex payments for Magento: capture webhook and available-methods cache

A Dafny model of two parts of the Airwallex payment module for Magento:

- **The capture webhook handler** (`Model/Webhook/Capture.php`, event
  `payment_attempt.capture_requested`, constant `CaptureWebhook.WEBHOOK_NAME`).
  It looks the order up by payment intent id. A missing order throws a webhook
  exception. If the order's base grand total minus its base total paid is zero,
  it returns at once; this guards against duplicate deliveries. Otherwise it
  builds one offline-capture invoice whose four totals are the captured amount
  and whose transaction id is the payment intent id. It registers the invoice,
  switches customer notification off and marks the order in process. It saves
  the invoice and the order in one database transaction.
- **The available-methods helper** (`Helper/AvailablePaymentMethodsHelper.php`).
  `isAvailable(code)` rewrites `wechat` to `wechatpay`. It then needs the
  `Mobile_Detect` environment check to hold and the code to be in the list of
  methods the processor offers for the store's currency. That list is cached
  under `airwallex_payment_methods` followed by the currency code, for 60
  seconds. On a miss it is fetched, and a transport failure yields an empty list.

Files:

- `wrappers.dfy`: `Option`, `Result` and `Outcome` in place of PHP's `null` and exceptions.
- `capture.dfy` (module `CaptureWebhook`): the order as a class (`Order`) whose fields
  the handler sets, with a value snapshot `OrderState`; invoices as values built by
  successive field updates, one per setter; a `Transaction` that collects objects and
  saves them as one batch into a `Database`; the handler class `Capture` with
  `Execute`. `Execute` is proved against the functions `ApplyCapture` and
  `SavedBatches`. The lemmas prove the guard, the invoice's fields and how the
  handler behaves under redelivery.
- `available_methods.dfy` (module `AvailablePaymentMethods`): pure alias resolution (`ResolveAlias`),
  cache key, `in_array` and the one-call function `AllMethods`, with lemmas about hits,
  misses, failures and runs of calls. The class `AvailablePaymentMethodsHelper` holds
  the cache map and a ghost count of requests sent. Its functions `CanInitialize`,
  `GetCurrencyCode` and `GetCacheName` model `canInitialize`, `getCurrencyCode` and
  `getCacheName`. Its `GetAllMethods` and `IsAvailable` methods are proved against
  those functions.

Amounts are integers in minor units (fixed point). The source uses PHP floats.

Redelivery: the handler's only idempotence guard is "nothing left to pay".
Deliveries are modelled one after another: each one sees the order as the previous
one left it. For such deliveries, `SecondDeliveryIsNoOpIff` proves that a repeated
delivery is a no-op exactly when
the order was already paid or the captured amount equalled the remainder. A partial
capture that is delivered twice is invoiced twice (`PartialCaptureRedeliveredIsInvoicedTwice`).
An over-capture is not clamped and leaves the remainder negative, so a repeat of it
is invoiced again too. The model keeps this behaviour as written.

## Model

| member | source | states |
|---|---|---|
| `CaptureWebhook.Capture.Execute` | Model/Webhook/Capture.php:65-95 | An unknown payment intent id fails with the "Can't find Order" webhook exception and saves nothing. Otherwise it returns normally, the order becomes `ApplyCapture` of its old state, and the database gains exactly the batches `SavedBatches` gives. The handler touches no other order. |
| `CaptureWebhook.CaptureInvoice` | Model/Webhook/Capture.php:79-86 | Subtotal, base subtotal, grand total and base grand total all equal the captured amount. The transaction id is the payment intent id. The capture case is offline. |
| `CaptureWebhook.CaptureInvoiceIgnoresOrder` | Model/Webhook/Capture.php:79-86 | The invoice is the same whatever the order's state: the captured amount is neither compared with nor limited by what is left to pay. |
| `CaptureWebhook.ApplyCapture` | Model/Webhook/Capture.php:73-89 | A fully paid order is returned unchanged. Otherwise exactly one invoice is appended after the old ones, and it is the capture invoice for the event. Total paid and base total paid grow by the captured amount. The grand totals do not change. Customer notification is off and the order is in process. |
| `CaptureWebhook.SavedBatches` | Model/Webhook/Capture.php:90-94 | Nothing is saved if and only if the order was fully paid. Otherwise exactly one batch of two documents is saved: the invoice, then its updated order, whose last invoice is that same invoice. |
| `CaptureWebhook.Order.Register` | Model/Webhook/Capture.php:87 | Registering an invoice whose requested capture case is offline (the only case this handler uses) pays the invoice on its order and appends it to the order's invoices (the model's assumption about the platform). |
| `CaptureWebhook.Transaction.AddObject` | Model/Webhook/Capture.php:90-92 | Each added object is appended to the transaction, in order. |
| `CaptureWebhook.Transaction.Save` | Model/Webhook/Capture.php:94 | Everything added is committed as one batch. |
| `CaptureWebhook.OverCaptureIsNotClamped` | Model/Webhook/Capture.php:79-85 | A capture for more than the remainder is invoiced for the full captured amount and leaves the remainder negative. |
| `CaptureWebhook.SecondDeliveryIsNoOpIff` | Model/Webhook/Capture.php:73-77 | A second delivery of the same event, processed after the first, leaves the order as the first delivery left it, if and only if the order was already paid or the captured amount was the whole remainder. |
| `CaptureWebhook.RedeliveryKeepsOneInvoice` | Model/Webhook/Capture.php:73-77 | For an event that settles the order, any number n >= 1 of deliveries, processed one after another, gives the state of one delivery, with at most one new invoice. |
| `CaptureWebhook.PartialCaptureRedeliveredIsInvoicedTwice` | Model/Webhook/Capture.php:73-87 | A partial capture delivered twice appends two invoices and pays the amount twice. |
| `CaptureWebhook.CaptureScenario` | Model/Webhook/Capture.php:65-95 | An unpaid order of 50.00 receives a capture of 50.00 for `int_1`. It gets one offline invoice of 50.00 and goes in process. Delivering the event again changes nothing. |
| `AvailablePaymentMethods.ResolveAlias` | Helper/AvailablePaymentMethodsHelper.php:30-32 | `wechat` maps to `wechatpay`; every other code maps to itself. |
| `AvailablePaymentMethods.CacheName` | Helper/AvailablePaymentMethodsHelper.php:124-139 | The key starts with `airwallex_payment_methods` and continues with the currency code. When reading the currency throws an `Exception`, the key is the bare prefix. |
| `AvailablePaymentMethods.CacheNameSeparatesCurrencies` | Helper/AvailablePaymentMethodsHelper.php:124-127 | Two currencies share a cache key if and only if their codes are equal. |
| `AvailablePaymentMethods.InArrayIsMembership` | Helper/AvailablePaymentMethodsHelper.php:91 | The strict `in_array` scan is true exactly when the code is an element of the list. |
| `AvailablePaymentMethods.AvailabilityIsMembership` | Helper/AvailablePaymentMethodsHelper.php:87-92 | A code is available if and only if the environment check holds and its alias-resolved code is in the method list. |
| `AvailablePaymentMethods.IsAvailableAnswersMembership` | Helper/AvailablePaymentMethodsHelper.php:89-91 | With the environment check holding, isAvailable answers whether the alias-resolved code is in the list getAllMethods returns. It passes on getAllMethods' exception, and its cache and fetch are those of getAllMethods. |
| `AvailablePaymentMethods.IsAvailablePassesOnOtherFailure` | Helper/AvailablePaymentMethodsHelper.php:105-109 | On a miss whose request raises an exception other than a transport failure, isAvailable raises it, the request was sent, and nothing is cached. |
| `AvailablePaymentMethods.WechatIsLookedUpAsWechatpay` | Helper/AvailablePaymentMethodsHelper.php:89-91 | With the environment check holding, `wechat` is available exactly when `wechatpay` is in the list. |
| `AvailablePaymentMethods.UninitializedIsNeverAvailable` | Helper/AvailablePaymentMethodsHelper.php:77-91 | When `Mobile_Detect` is not loaded, every code is unavailable, no request is sent and the cache is unchanged. |
| `AvailablePaymentMethods.HitDoesNotFetch` | Helper/AvailablePaymentMethodsHelper.php:99-103 | On a hit the stored list is returned, nothing is fetched and the cache is unchanged. |
| `AvailablePaymentMethods.TransportFailureMakesNothingAvailable` | Helper/AvailablePaymentMethodsHelper.php:105-118 | On a miss whose request fails in transport, the answer is "not available" for every code and no exception escapes. The empty list is cached for 60 seconds. |
| `AvailablePaymentMethods.MissThenHit` | Helper/AvailablePaymentMethodsHelper.php:99-118 | A miss that does not raise fetches. It returns the processor's list on success, or the empty list after a transport failure, and stores that list with lifetime 60 under the key. The next lookup under that key is a hit that returns the same list without fetching. |
| `AvailablePaymentMethods.OtherFailureEscapes` | Helper/AvailablePaymentMethodsHelper.php:105-109 | Any other exception from the request propagates and nothing is cached. |
| `AvailablePaymentMethods.ExpiredEntryIsFetchedAgain` | Helper/AvailablePaymentMethodsHelper.php:99-106 | After the entry expires (`Expire`, the change `Evict` makes to the helper's cache), the next lookup sends a request. |
| `AvailablePaymentMethods.CachedKeyIsNeverFetched` | Helper/AvailablePaymentMethodsHelper.php:99-103 | While the entry lives, any run of lookups sends no request. |
| `AvailablePaymentMethods.AtMostOneFetch` | Helper/AvailablePaymentMethodsHelper.php:97-119 | With no exception other than transport failures, any run of lookups under one key sends at most one request. |
| `AvailablePaymentMethods.AvailablePaymentMethodsHelper.Send` | Helper/AvailablePaymentMethodsHelper.php:106 | The request asks about the store's currency code, and the ghost request count grows by one. |
| `AvailablePaymentMethods.AvailablePaymentMethodsHelper.GetAllMethods` | Helper/AvailablePaymentMethodsHelper.php:97-119 | The result and the new cache are those of `AllMethods` for the store's key and the processor's answer for the store's currency. The request count grows by one exactly when the key was missing. |
| `AvailablePaymentMethods.AvailablePaymentMethodsHelper.IsAvailable` | Helper/AvailablePaymentMethodsHelper.php:87-92 | The answer, the new cache and the request count are those of `IsAvailableLookup`. The environment check is evaluated first, so no lookup happens without it. |

## Left out

- Floating-point amounts and the exact `=== 0.0` test (`Capture.php` line 75): amounts are integers, so the guard is exact integer equality. PHP's int/float distinction, where an integer 0 would not be identical to 0.0, is not modelled.
- `InvoiceService::prepareInvoice`, item-level invoice totals and `Invoice::register`: these are platform services. The draft invoice's totals are taken as the unpaid amounts, and every invoice field the model keeps (all six of `Invoice`) is overwritten by the handler's setters. `register` is assumed to add the invoice totals to the order's paid totals and to list the invoice on the order.
- Concurrent deliveries: deliveries are modelled as sequential. In the source, the order is read and the guard tested (`Capture.php` lines 67-77) outside the transaction, which covers only the save (lines 90-94). So the read, the guard and the save are not one atomic unit, and two deliveries of a settling capture that run at the same time can both pass the guard and both create an invoice. The redelivery lemmas do not cover that case.
- Event data validation: the event data is assumed well formed, with a payment intent id and an integer captured amount. The handler itself validates nothing: it reads `payment_intent_id` and `captured_amount` unchecked (lines 67, 79, 84). Reading a missing field yields null with a PHP warning; under Magento's error handler that warning becomes an exception at line 79, before any invoice is built. This case is not modelled.
- `CaptureWebhook.Transaction.Save`: a failing save (a database exception, with rollback) is not modelled. A save is one atomic batch append.
- The payment intent repository's database lookup: it is a map from payment intent id to order object.
- `AbstractWebhook`, the other webhook handlers, the event-name registry and the payload decoder: they are not part of this model.
- The HTTP request of the available-methods client, the Guzzle exception types and `class_exists`: they are inputs. There is a function from currency code to response (a list, a transport failure or another exception), and a boolean.
- The serializer: serialize and unserialize are identity. A stored entry, including an empty list (serialized as a non-empty string), counts as a hit.
- Cache expiry timing: each entry records its 60-second lifetime, and expiry is the abstract event `Evict`. Cache tags are not modelled.
- Store and currency configuration: the current currency is a constant that is either a code or a read that throws an `Exception` (caught, giving `''`). A PHP `Error` thrown by the read is not caught by the source and is not modelled.
