# TaskUp backend: auth registry, payment request builders, profile checks

A Dafny model of four small pieces of the TaskUp marketplace backend (Python,
FastAPI) and proofs of what they promise:

- **User registry** (`auth/auth_routes.py`): the temporary in-memory
  dictionary `_fake_users`, from lower-cased email to password, written by
  `register_user` and read by `login_user`. It is modelled as the class
  `AuthRoutes.UserRegistry` with a `map<string, string>` field. `Register`
  changes the map. `Login` has no `modifies` clause, so it cannot change the
  store. The functions `RegisterAnswer`, `Registered` and `LoginAnswer`
  specify the two endpoints. The lemmas about them state the register→login
  round trip, case-insensitivity, and that both login failures look the same.
- **Connect-based payment handler**
  (`backend/payments/stripe_handler_complete.py`): the keyword dictionaries
  handed to the payment processor's SDK for payment intents, refunds,
  reversals, Connect accounts, customers and transfers. It also covers the
  platform fee kept back from a transfer and the constructor's configuration
  checks. The SDK is opaque. The ids it returns are parameters.
- **Older payment handler** (`backend/payments/stripe_handler.py`): NOK→øre
  conversion, metadata merge, idempotency key, refund/payout/reversal
  parameters and the payment-method listing. Where the two handlers differ,
  lemmas state the difference. The older one includes an amount when it `is
  not None`. The newer one includes it only when it is truthy.
- **Profile routes** (`backend/routes/profile_routes.py`): avatar upload
  validation (content type first, then the 5 MiB bound), the stored file name
  and URL, the profile-update echo of the fields the caller set, and the
  country-code→language choice with its `"en"` fallback.

Python dictionaries handed to the SDK are `map<string, Value>`, where `Value`
holds Python's null, booleans, integers, strings and nested dictionaries. The
contracts say which keys are present, not only which values they hold.
Python's truthiness is spelled out: `IntTruthy`, `StrTruthy` and `DictTruthy`
in module `Common`. `str.lower()`, `str.upper()` and `str.split('.')` are
modelled in module `Text`. The split is proved to be the unique dot-free
suffix characterisation.

These source files hold no wallet ledger, escrow hold/release/refund state
machine, cashback logic or webhook reconciler, so none is modelled. The
platform fee modelled is the one this code computes: 10% by default, kept
back from transfers to taskers.

## Model

| member | source | states |
|---|---|---|
| `AuthRoutes.UserRegistry.constructor` | auth/auth_routes.py:7-8 | The registry starts empty. |
| `AuthRoutes.UserRegistry.Register` | auth/auth_routes.py:19-32 | Rejects with 400 "User already exists" when the lower-cased email is present, and then leaves the store unchanged. Otherwise it stores the password under the lower-cased email and answers success with that email and the full name. It keeps every key lower case. |
| `AuthRoutes.UserRegistry.Login` | auth/auth_routes.py:34-49 | Succeeds iff the lower-cased email is stored with exactly this password. The token is "fake-token-for-" + lower-cased email with token_type "bearer". Otherwise it answers 401 "Invalid email or password". It cannot modify the store. |
| `AuthRoutes.TokenFor` | auth/auth_routes.py:42 | The token is the prefix "fake-token-for-" followed by the whole email, and nothing else. |
| `AuthRoutes.RegisterAnswer` | auth/auth_routes.py:21-32 | Fails iff the lower-cased email is already stored, and then with 400 "User already exists". Otherwise it answers success with the lower-cased email, which is its own lower case, and the full name given. |
| `AuthRoutes.Registered` | auth/auth_routes.py:21-25 | The stored keys afterwards are the old keys plus the lower-cased email. An email already present leaves the store unchanged. A new one maps to the password. Every old entry keeps its password. |
| `AuthRoutes.LoginAnswer` | auth/auth_routes.py:36-48 | Succeeds iff the lower-cased email is stored with exactly this password. It then answers with token "fake-token-for-" + lower-cased email, type "bearer" and that email. Otherwise it fails with 401 "Invalid email or password". |
| `AuthRoutes.RegisterOtherCasingRefused` | auth/auth_routes.py:21-25 | After a successful registration, an email that differs only in letter case is refused with 400 and the store is unchanged. |
| `AuthRoutes.RegisterAddsOneEntry` | auth/auth_routes.py:21-25 | A successful registration adds exactly the lower-cased email as a new key and keeps every other entry. |
| `AuthRoutes.RegisterKeepsKeysLowerCase` | auth/auth_routes.py:21-25 | If every stored key is lower case before a registration, it still is after. |
| `AuthRoutes.RegisterThenLogin` | auth/auth_routes.py:21-48 | Round trip: after register(e, p) succeeds, login(e', p) succeeds for every e' that differs from e only in case, with the token for lower(e). |
| `AuthRoutes.LoginFailuresIndistinguishable` | auth/auth_routes.py:37-40 | An unknown email and a wrong password give the same 401 answer. |
| `AuthRoutes.RegisterLoginScenario` | auth/auth_routes.py:19-49 | A concrete run through the class: register "Ab", re-register "ab" (refused), log in as "aB" (token "fake-token-for-ab"), log in with a wrong password (401). |
| `Text.Lower` | auth/auth_routes.py:21 | `str.lower()` keeps the length and maps each ASCII letter to lower case. |
| `Text.LowerIdempotent` | auth/auth_routes.py:36 | Lower-casing an already lower-cased email changes nothing, so stored keys are found again. |
| `Text.LowerIgnoresCase` | auth/auth_routes.py:21 | Emails that differ only in letter case lower-case to the same key. |
| `Text.Upper` | backend/routes/profile_routes.py:225 | `str.upper()` keeps the length and maps each ASCII letter to upper case. |
| `Text.UpperOfLower` | backend/routes/profile_routes.py:225 | Upper-casing ignores how a code was cased before. |
| `Text.Split` | backend/routes/profile_routes.py:63 | `str.split(sep)` gives at least one part, no part holds the separator, and joining the parts with the separator gives the string back. |
| `Text.TailAfterLastUnique` | backend/routes/profile_routes.py:63 | Only one suffix is dot-free and is either the whole string or preceded by the separator. |
| `Text.LastPieceIsTail` | backend/routes/profile_routes.py:63 | `split(sep)[-1]` is that suffix. |
| `Text.LastPieceAfter` | backend/routes/profile_routes.py:63-64 | The last piece of `prefix + sep + tail` is `tail` when `tail` holds no separator. |
| `ProfileRoutes.Extension` | backend/routes/profile_routes.py:63 | The extension holds no '.' and is a suffix of the file name. |
| `ProfileRoutes.AvatarFileName` | backend/routes/profile_routes.py:64 | The stored name starts with the user id and "_", and is two characters longer than its three parts together. When the extension holds no '.', reading the extension back off the name gives it again. |
| `ProfileRoutes.UploadAvatar` | backend/routes/profile_routes.py:52-89 | A missing content type, or one outside image/jpeg, image/png, image/webp, gives 400 "Invalid file type". An allowed type with more than 5*1024*1024 bytes gives 400 "File too large". Every other upload succeeds with the success message. |
| `ProfileRoutes.ExtensionIsTextAfterLastDot` | backend/routes/profile_routes.py:63 | The extension is the text after the last '.', or the whole name when it has no '.'. |
| `ProfileRoutes.AvatarUrlKeepsExtension` | backend/routes/profile_routes.py:63-77 | The URL is "/uploads/avatars/" + user_id + "_" + uuid + "." + extension. Reading the extension back off the URL gives the uploaded file's extension. |
| `ProfileRoutes.BadTypeRefusedAtAnySize` | backend/routes/profile_routes.py:53-60 | The type check precedes the size check: a bad type is refused as such whatever the size. |
| `ProfileRoutes.SizeBoundInclusive` | backend/routes/profile_routes.py:59-60 | Exactly 5 MiB is accepted; one byte more is refused. |
| `ProfileRoutes.UpdateProfile` | backend/routes/profile_routes.py:115-119 | The echoed profile holds exactly the request fields the caller set, each with the value given, null included. |
| `ProfileRoutes.UpdateEchoDistinguishesNullFromUnset` | backend/routes/profile_routes.py:118 | A field explicitly set to null is echoed as null. A field left out is not echoed. |
| `ProfileRoutes.LanguageFor` | backend/routes/profile_routes.py:192-226 | The 12 listed country codes map to their language. Every other code maps to "en". The result is always one of the 11 languages of the table. |
| `ProfileRoutes.DetectLanguage` | backend/routes/profile_routes.py:207-243 | Succeeds iff an address with a country_code was obtained. The code is upper-cased, the language is looked up, and the country defaults to "Unknown". The city is the non-empty city, else the town, else "Unknown". Otherwise the answer is "en" with success false. |
| `ProfileRoutes.LanguageIgnoresCodeCase` | backend/routes/profile_routes.py:225-226 | Country codes that differ only in case give the same language. |
| `ProfileRoutes.DetectNorway` | backend/routes/profile_routes.py:224-234 | Worked example: country_code "no" with only a town gives code "NO", language "nb" and the town as city. |
| `ProfileRoutes.CityFallback` | backend/routes/profile_routes.py:233 | All three cases: a non-empty city is the city. With no city or an empty one, the town is the city when given. With neither, the city is "Unknown". |
| `StripeHandlerComplete.ApiKey` | backend/payments/stripe_handler_complete.py:28-30 | The module refuses to load unless STRIPE_SECRET_KEY is set and non-empty. |
| `StripeHandlerComplete.StripeHandler.Create` | backend/payments/stripe_handler_complete.py:33-40 | Construction fails with "STRIPE_WEBHOOK_SECRET not set" iff the secret is unset or empty. The fee percentage is the configured one, default 10. |
| `StripeHandlerComplete.StripeHandler.constructor` | backend/payments/stripe_handler_complete.py:34-40 | The fields __init__ sets once its check has passed. |
| `StripeHandlerComplete.PlatformFee` | backend/payments/stripe_handler_complete.py:336 | `int()` truncates toward zero. For a non-negative amount*pct the fee is the floor of amount*pct/100. For a negative one it is the ceiling. |
| `StripeHandlerComplete.FeeSplitBounds` | backend/payments/stripe_handler_complete.py:336-337 | For amount >= 0 and pct <= 100: 0 <= fee <= amount, the fee is the floor of amount*pct/100, and the tasker keeps at least (100-pct)%. |
| `StripeHandlerComplete.FeeOfNegativeAmount` | backend/payments/stripe_handler_complete.py:336 | `int()` truncates toward zero: for a negative amount the fee lies between the amount and 0, mirroring the positive case. |
| `StripeHandlerComplete.FeeExample` | backend/payments/stripe_handler_complete.py:320-323 | 50000 øre at 10% gives fee 5000 and tasker 45000. |
| `StripeHandlerComplete.DropNone` | backend/payments/stripe_handler_complete.py:85-86 | Keeps exactly the entries whose value is not None, with their values. |
| `StripeHandlerComplete.IntentMetadataDraft` | backend/payments/stripe_handler_complete.py:78-83 | The draft metadata has exactly the keys order_id, user_id, task_id and platform. The ids are the ones given, None included. platform is "taskup". |
| `StripeHandlerComplete.IntentMetadataKeepsGivenIds` | backend/payments/stripe_handler_complete.py:78-86 | Payment metadata holds order_id, user_id and task_id exactly when given, always holds platform = "taskup", and holds nothing else. |
| `StripeHandlerComplete.PaymentIntentParams` | backend/payments/stripe_handler_complete.py:88-101 | The payment-intent request carries the amount, currency, filtered metadata and receipt email. The description is the one given, or "TaskUp payment - Order " + order_id when none or empty. Automatic payment methods are enabled with redirects "never" (cards only). Capture is "automatic". The statement descriptor is "TASKUP" with suffix "TASK". |
| `StripeHandlerComplete.DefaultDescriptionWithoutOrder` | backend/payments/stripe_handler_complete.py:91 | Without an order id the default description reads "TaskUp payment - Order None". |
| `StripeHandlerComplete.RefundParams` | backend/payments/stripe_handler_complete.py:166-173 | Refund parameters always carry payment_intent, reason and metadata (default {}). `amount` is present iff it is truthy. |
| `StripeHandlerComplete.ZeroRefundIsFullRefund` | backend/payments/stripe_handler_complete.py:172-173 | An amount of 0 gives the same request as no amount: a full refund. |
| `StripeHandlerComplete.ReversalParams` | backend/payments/stripe_handler_complete.py:383-389 | Reversal parameters always carry description = reason and metadata {reason}. `amount` is present iff it is truthy. |
| `StripeHandlerComplete.WithUserTag` | backend/payments/stripe_handler_complete.py:214-216 | `taskup_user_id` is set iff user_id is truthy. Every other key is kept. Without a user id the metadata is unchanged. |
| `StripeHandlerComplete.StripeHandler.CreateRefund` | backend/payments/stripe_handler_complete.py:146-175 | Builds the refund dictionary step by step and ends equal to `RefundParams`. |
| `StripeHandlerComplete.StripeHandler.ReverseTransfer` | backend/payments/stripe_handler_complete.py:372-394 | Passes the transfer id positionally. The keyword dictionary equals `ReversalParams`. |
| `StripeHandlerComplete.StripeHandler.TagMetadata` | backend/payments/stripe_handler_complete.py:214-216 | `metadata or {}` then the tag. A non-empty caller dictionary is written into in place. A missing or empty one is left alone. |
| `StripeHandlerComplete.StripeHandler.CreateConnectAccount` | backend/payments/stripe_handler_complete.py:194-236 | The account request is an express account with the country, email, individual business type and tagged metadata. It requests the card_payments and transfers capabilities. Its payout schedule is "manual". The caller's dictionary changes exactly as `TagMetadata` says. |
| `StripeHandlerComplete.StripeHandler.CreateCustomer` | backend/payments/stripe_handler_complete.py:482-499 | The customer request carries the email, the name (or null) and tagged metadata. The caller's dictionary changes exactly as `TagMetadata` says. |
| `StripeHandlerComplete.StripeHandler.TransferToTasker` | backend/payments/stripe_handler_complete.py:309-366 | The fee is `PlatformFee(amount, pct)`. The transfer sends amount - fee to the destination in NOK, with description and metadata. The answer reports tasker_receives + platform_fee == total_amount == amount, status "created". |
| `StripeHandlerComplete.DefaultFeeTransferExample` | backend/payments/stripe_handler_complete.py:320-323 | A handler built without a fee setting splits 50000 øre into 45000 for the tasker and 5000 for the platform. |
| `StripeHandlerLegacy.ToOre` | backend/payments/stripe_handler.py:55 | NOK to øre is exact: the result is a multiple of 100 whose quotient is the NOK amount. |
| `StripeHandlerLegacy.IdempotencyKey` | backend/payments/stripe_handler.py:60 | The key is the prefix "taskup-" followed by the whole order id. |
| `StripeHandlerLegacy.IdempotencyKeyIdentifiesOrder` | backend/payments/stripe_handler.py:60 | "taskup-" + order_id: equal keys iff equal order ids. |
| `StripeHandlerLegacy.MergedMetadata` | backend/payments/stripe_handler.py:44-51 | The keys are user_id, order_id, platform and the caller's keys. A caller's value wins over a base key. Base keys the caller does not give keep their values (platform = "taskup"). |
| `StripeHandlerLegacy.CreatePaymentIntent` | backend/payments/stripe_handler.py:22-70 | The request carries amount*100 øre, "nok", the merged metadata, automatic payment methods {enabled: true} and idempotency key "taskup-" + order_id. The answer reports the NOK amount and the SDK's id, client secret and status. |
| `StripeHandlerLegacy.RefundParams` | backend/payments/stripe_handler.py:143-152 | `amount` (in øre) is present iff an amount is given, 0 included. `metadata` is present iff non-empty. |
| `StripeHandlerLegacy.CreateRefund` | backend/payments/stripe_handler.py:126-154 | Builds the refund dictionary step by step and ends equal to `RefundParams`. |
| `StripeHandlerLegacy.ZeroRefundDiffersBetweenHandlers` | backend/payments/stripe_handler.py:148-149 | A refund of 0 asks this handler for 0 øre, while the Connect-based handler omits the amount (a full refund). |
| `StripeHandlerLegacy.CreatePayout` | backend/payments/stripe_handler.py:233-265 | The transfer carries amount*100 øre in "nok" to the destination, with metadata or {}. The answer always reports "succeeded" with the NOK amount and the destination. |
| `StripeHandlerLegacy.ReversalParams` | backend/payments/stripe_handler.py:280-283 | Always holds the transfer id. `amount` in øre is present iff an amount is given. |
| `StripeHandlerLegacy.ReverseTransfer` | backend/payments/stripe_handler.py:271-285 | Builds the reversal dictionary step by step and ends equal to `ReversalParams`. |
| `StripeHandlerLegacy.Summarize` | backend/payments/stripe_handler.py:401-410 | The entry has the method's id and type. It has a card iff the method has one, and then the card's brand, last4, exp_month and exp_year. |
| `StripeHandlerLegacy.SummarizeAll` | backend/payments/stripe_handler.py:400-412 | One entry per payment method, in order, with id and type. Card brand, last4, exp_month and exp_year are copied when there is a card; otherwise the card is null. |
| `StripeHandlerLegacy.ListPaymentMethods` | backend/payments/stripe_handler.py:392-416 | The listing is the summaries of the SDK's methods, or [] when the SDK raised. |
| `StripeHandlerLegacy.SummarizeAllAppend` | backend/payments/stripe_handler.py:400-412 | The listing works method by method: the listing of a concatenation is the concatenation of the listings. |

## Left out

- Every SDK call (`PaymentIntent`, `Refund`, `Account`, `AccountLink`, `Transfer`, `Payout`, `Customer`, `PaymentMethod`): opaque. For the modelled methods, the model builds the keyword arguments of the first SDK call. Where a method's answer is modelled, the SDK fields it copies are parameters.
- The onboarding link that `create_connect_account` requests after the account (`stripe.AccountLink.create`, with refresh and return URLs built from the account id, `backend/payments/stripe_handler_complete.py:239-244`) is not modelled.
- Some answer dictionaries are not modelled: the Connect-based `create_payment_intent` (`backend/payments/stripe_handler_complete.py:105-111`), `create_refund` (:179-184), `create_connect_account` (:248-253), `reverse_transfer` (:398-402) and `create_customer` (:503-506), and the older `create_refund` (`backend/payments/stripe_handler.py:158-163`) and `reverse_transfer` (:289-293, which always reports "succeeded"). They copy fields of the SDK's answer. Only the answers of `transfer_to_tasker`, the older `create_payment_intent` and `create_payout`, and `list_payment_methods` are modelled.
- Python default arguments are not modelled: every argument is a plain parameter. The defaults are `country="NO"` (`backend/payments/stripe_handler_complete.py:197`), `currency="nok"` (:54), `reason="requested_by_customer"` (:150 and `backend/payments/stripe_handler.py:130`), `reason="Task cancelled"` (`backend/payments/stripe_handler_complete.py:376`) and the older handler's `description="TaskUp payment"` (`backend/payments/stripe_handler.py:27`).
- Several handler methods are outside the modelled core and are not modelled: `get_payment_intent`, `cancel_payment_intent`, `confirm_payment_intent`, `get_account_status`, `create_account_link` and `attach_payment_method`. The same holds for the older `create_connected_account` and `create_customer`, which send `metadata or {}` and fixed onboarding URLs. It also holds for the Connect-based `create_payout`, which sends `description or "TaskUp earnings"` on the connected account.
- SDK failures are not modelled. The older handler turns a `StripeError` into `Exception("Stripe ... failed: ...")`, as at `backend/payments/stripe_handler.py:72-74`, `165-167`, `267-269` and `295-297`. The Connect-based handler logs it and re-raises it. The only failure path modelled is `list_payment_methods` answering `[]`.
- Webhook signature checking (`stripe.Webhook.construct_event`): the scheme is inside the library.
- Floating point: the fee percentage is a natural number. `int(amount * (pct / 100))` is modelled as exact truncation toward zero, without float rounding. The `amount / 100` conversions back to NOK and `int(amount * 100)` on non-integer amounts are not modelled. The transfer metadata records the percentage as an integer, where the source has a float.
- `StripeHandlerComplete.StripeHandler.Create`: a PLATFORM_FEE_PERCENTAGE that `float()` cannot parse (which raises) is not modelled. The setting arrives already as a number or as absent.
- Python's `str.lower()` and `str.upper()` are modelled on ASCII letters only. Other Unicode case mappings are not modelled.
- Pydantic's request validation (`EmailStr` syntax, required fields) happens before the endpoints run and is not modelled.
- The avatar file write and directory creation, `uuid.uuid4()` (a parameter), reading the body (its size is a parameter), and an upload without a file name are not modelled.
- The reverse-geocoding HTTP call: its outcome is a parameter, the address object or none. Non-string JSON values are not modelled.
- `get_profile` and `delete_avatar` return constants and are not modelled.
- Dictionary key order (Python dicts are ordered; Dafny maps are not) is not modelled.
- Logging, environment reads other than the two configuration settings, and the async nature of the endpoints are not modelled.
- `backend/payments/endpoints.py`, `backend/main.py`, `backend/fastapi_main.py`, `fastapi_main.py` and `profile/profile_routes.py` (wiring and storage calls) are not part of this model.
