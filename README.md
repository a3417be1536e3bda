# A verified model of the shop, payment, business-owner and place services

This project models the core of a NestJS marketplace backend in Dafny. Users keep a
cart of products and a set of favourite places, verify their phone with one-time
codes, and log in with a password (and, optionally, a second factor) to receive a
refresh token stored under `refresh_token:<user id>`. Checkout totals the cart,
asks the card gateway for a payment intent and records a pending order. The
gateway's webhooks then move transactions to `succeeded`, `failed`, `canceled` or
`requires_action` and insert completed orders. Business owners apply with two
optional documents and list the orders that contain their products. Admins and
business owners create geocoded places, update them and soft-delete them.

Layout, one module per file:

- `common.dfy` (`Common`): `Option`, `Result`, JavaScript truthiness (`Truthy`,
  `OrElse` for `x || d`, `OrNull` for `x || null`), and the table scans `FindFirst`
  (the first matching row) and `Filter` (`findMany` with a `where`, in row order).
- `schema.dfy` (`Schema`): the user, product, cart-line and business-owner rows
  shared by the services, and their lookups.
- `storage.dfy` (`Storage`): an upload, described by its file, the prefix put in
  front of its name and whether the write to the blob store succeeded.
- `auth.dfy` (`Auth`): from `auth.service.ts`, the cart, the favourites, the
  one-time-code checks, the login gate and the refresh-token map. The
  state-changing operations are methods of `class AuthStore`. Its fields are the
  `users`, `cart`, `favourites` and `ucodes` tables and the `redis` key map.
- `payment.dfy` (`Payment`): from `stripe.controller.ts`, the checkout plan and
  the webhook reconciler as functions. `class PaymentLedger` holds the `orders`
  and `transactions` its `Pay` and `HandleWebhook` methods change.
- `business_owner.dfy` (`BusinessOwners`): from `business-owner.service.ts`, the
  guarded application insert (`class BusinessOwnerRegistry`) and the two order
  listings as pure projections.
- `create_place.dfy` (`CreatePlace`): from `create-place.service.ts`, the geocode
  pick, the ordered create gate, and `class PlaceDirectory` with `Create`,
  `Update` and `Remove`.

Modelling conventions:

- Money is kept in integer cents. The source's `/ 100` on webhook amounts is the
  cents-to-dollars view, so a paid amount is recorded as the amount received.
- A table is a sequence in row order; a key/value store is a `map`. Ids the
  database would generate are parameters.
- Everything outside the process is a parameter:
  - the gateway's reply to the intent request;
  - `JSON.stringify` of the order items;
  - the bcrypt hash of a new password;
  - the password and second-factor checks;
  - the outcome of signature verification;
  - the geocoder's reply;
  - the clock;
  - whether each blob-store write succeeds, and whether the place insert succeeds.

Behaviour the model makes explicit:

- `createPaymentIntent` receives metadata with only `user_id` and `order_details`.
  The webhook's order insert connects `metadata.cart_item_id`, so a success event
  for a payment started by `pay` fails that insert. The handler then answers
  `received: false` and leaves the transaction untouched
  (`Payment.PaidIntentSuccessIsNotRecorded`).
- Two deliveries of the same success event insert two completed orders
  (`Payment.RedeliveryInsertsSecondOrder`).
- `place.update` rewrites the location text but never the coordinates
  (`CreatePlace.UpdatedPlace`).
- The geocoder's failure message is never empty, so `create`'s fallback message
  cannot appear (`CreatePlace.GeocodeRefusalKeepsMessage`).

## Model

| member | source | states |
|---|---|---|
| Common.Lookup | src/modules/auth/auth.service.ts:554 | a key lookup succeeds exactly when the key is stored, and returns its value |
| Common.FindFirst | src/modules/auth/auth.service.ts:1100-1107 | the result is the first index whose row matches; none exactly when no row matches |
| Common.Filter | src/modules/auth/auth.service.ts:1139-1140 | keeps only matching rows, and keeps every matching row |
| Common.FilterAppend | src/modules/business-owner/business-owner.service.ts:261-262 | filtering distributes over concatenation, so kept rows keep their relative order |
| Common.FilterKeepsAll | src/modules/business-owner/business-owner.service.ts:261-262 | a filter every row passes returns its input unchanged |
| Common.RemoveAt | src/modules/auth/auth.service.ts:1113-1115 | deleting one row keeps all the others, in order |
| Schema.UserCart | src/modules/auth/auth.service.ts:1139-1140 | exactly the cart rows of the user, and all of them |
| Storage.TrimTrailingSlash | src/modules/auth/auth.service.ts:1167 | `replace(/\/$/, '')` drops exactly one trailing slash and leaves any other folder as it is |
| Storage.ImageUrl | src/modules/auth/auth.service.ts:1086-1088 | an image key exists exactly when the image name is truthy, and it is `folder/image` |
| Storage.StoredNameNonEmpty | src/modules/business-owner/business-owner.service.ts:83 | the stored name `prefix-originalname` is never empty, so it is always truthy |
| Auth.CartLines | src/modules/auth/auth.service.ts:1158-1169 | one formatted line per cart row, in order, carrying the row's product |
| Auth.LineTotals | src/modules/auth/auth.service.ts:1165 | the per-line totals, one per line |
| Auth.ReduceIsSumOfLineTotals | src/modules/auth/auth.service.ts:1154-1156 | the `reduce` over price × quantity equals the sum of the formatted lines' totals |
| Auth.GetCartItems | src/modules/auth/auth.service.ts:1138-1176 | one line per cart row of the user, each line's total is price × quantity, the lines are `CartLines` of the user's rows in row order (each with the row's product id, title, price and stock flag), each image key lies under the place folder without its trailing slash, the cart total is the sum of the line totals and the `reduce` total, and an empty cart gives no lines and total 0 |
| Auth.UserCartEmpty | src/modules/auth/auth.service.ts:1139-1140 | a user with no cart rows gets an empty selection |
| Auth.Toggle | src/modules/auth/auth.service.ts:1052-1061 | the pair's membership flips and every other pair is unchanged |
| Auth.ToggleTwice | src/modules/auth/auth.service.ts:1042-1064 | toggling the same pair twice restores the original set |
| Auth.GetFavouritePlaces | src/modules/auth/auth.service.ts:1065-1092 | fails with "No favourite places found" exactly when the user has no favourites; otherwise one entry per favourite place, each with the image key `folder/image` exactly when the place has an image |
| Auth.CheckOtp | src/modules/auth/auth.service.ts:142-175 | invalid exactly when no status-1 code matches phone and token; expired only when the matched code has an expiry time earlier than now |
| Auth.RemovePhoneCodes | src/modules/auth/auth.service.ts:177-179 | deletes every code of the phone number and keeps every other code |
| Auth.ValidateUser | src/modules/auth/auth.service.ts:459-511 | the ordered gate: unknown phone, then wrong password, then a missing second-factor token, then a wrong one, each failing exactly under its condition; a pass returns the user without the password |
| Auth.RefreshKeyInjective | src/modules/auth/auth.service.ts:529 | distinct users have distinct `refresh_token:` keys |
| Auth.RefreshToken | src/modules/auth/auth.service.ts:552-593 | succeeds exactly when the stored token is present and equal to the given one and the user exists, returning that user; otherwise it says which check failed |
| Auth.AuthStore.AddOrUpdateCart | src/modules/auth/auth.service.ts:1099-1135 | creates a row with quantity `quantity \|\| 1` when none exists and the product is known, and rejects the create of a row for an unknown product with the cart unchanged; otherwise adds that amount and deletes the row when the new quantity is not positive; keeps (user, product) rows unique and every row's product known, and with a positive request keeps every quantity positive |
| Auth.AuthStore.ToggleFavourite | src/modules/auth/auth.service.ts:1042-1064 | reports "added" exactly when the pair was absent, and the new set is the toggled set |
| Auth.AuthStore.MatchPhoneOtp | src/modules/auth/auth.service.ts:142-214 | an invalid or expired code changes nothing; an accepted one deletes the phone's codes, marks an existing user verified or creates one, and leaves a user with that phone |
| Auth.AuthStore.ResetPassword | src/modules/auth/auth.service.ts:648-702 | missing fields or an invalid or expired code change nothing; an accepted code deletes the phone's codes, then the user with that phone gets the hashed password, or the call fails when there is none |
| Auth.AuthStore.Login | src/modules/auth/auth.service.ts:518-550 | succeeds exactly when the user exists, then stores the token under that user's key only, so a later refresh with it succeeds |
| Auth.AuthStore.RevokeRefreshToken | src/modules/auth/auth.service.ts:595-616 | succeeds exactly when a token is stored, removes that key only, and afterwards every refresh for the user fails |
| Payment.OrderItemFor | src/modules/payment/stripe/stripe.controller.ts:48-54 | an order item copies the row's product id and quantity and the product's price, and its total is price × quantity |
| Payment.OrderItems | src/modules/payment/stripe/stripe.controller.ts:47-55 | one order item per cart row, with name, price and price × quantity |
| Payment.ItemTotals | src/modules/payment/stripe/stripe.controller.ts:53 | the items' totals, one per item |
| Payment.ReduceItemsIsSum | src/modules/payment/stripe/stripe.controller.ts:57-60 | the `reduce` is the sum of the item totals |
| Payment.CartItemIds | src/modules/payment/stripe/stripe.controller.ts:89 | the ids connected to the order, one per cart row |
| Payment.PlanPayment | src/modules/payment/stripe/stripe.controller.ts:21-76 | the guards in order (missing user id, unknown user, empty cart, non-positive total), each exactly under its condition; a plan charges the cart total in "usd" to the billing id with metadata holding exactly `user_id` and `order_details` |
| Payment.PlanFor | src/modules/payment/stripe/stripe.controller.ts:47-76 | the plan's items are the rows' order items, its total is their sum, and the request carries those items, that total, "usd", the billing id and metadata holding exactly `user_id` and `order_details` |
| Payment.PlanTotalIsCartTotal | src/modules/payment/stripe/stripe.controller.ts:47-60 | checkout charges exactly the total the cart view shows |
| Payment.PlanHasNoCartItemId | src/modules/payment/stripe/stripe.controller.ts:69-72 | the intent's metadata never carries `cart_item_id` |
| Payment.TransactionUpdateFor | src/modules/payment/stripe/stripe.controller.ts:148-216 | exactly the five handled event kinds update the transaction row named by the event object's id, and only the two success kinds record a paid amount and currency |
| Payment.ApplyTransactionUpdate | src/modules/payment/stripe/stripe.controller.ts:148-154 | the update touches only the referenced row and only the supplied fields, and adds no row |
| Payment.SuccessOrder | src/modules/payment/stripe/stripe.controller.ts:129-144 | the completed order can be inserted exactly when the metadata's `cart_item_id` names an existing cart row; it carries the metadata's user, the amount (`amount_received` for an intent, `amount` for a charge), that one cart row, and the payment method (the intent's id string or object id or `''`; the charge's id string or null) |
| Payment.Reconcile | src/modules/payment/stripe/stripe.controller.ts:119-249 | an unverified event is answered `received: false` with nothing changed; a success event is acknowledged exactly when its completed order can be inserted, and then that order is appended and the transaction updated; a failed insert changes nothing; every other event is acknowledged, leaves the orders alone and applies its transaction update, if any; other transaction rows never change |
| Payment.WebhookStatusMapping | src/modules/payment/stripe/stripe.controller.ts:157-188 | the failed, canceled and requires-action events set that status and the event's raw status, acknowledge, and leave the orders alone; a success event is acknowledged exactly when its `cart_item_id` names a cart row, and then records the paid amount, currency, status and raw status |
| Payment.IgnoredEventsChangeNothing | src/modules/payment/stripe/stripe.controller.ts:219-245 | every other event type is acknowledged and changes nothing |
| Payment.PaidIntentSuccessIsNotRecorded | src/modules/payment/stripe/stripe.controller.ts:67-76 | a success event carrying the metadata `pay` sent is not acknowledged and leaves orders and transactions as they were |
| Payment.SuccessWithoutCartItemIsRejected | src/modules/payment/stripe/stripe.controller.ts:129-144 | a success event without `cart_item_id` in its metadata is answered `received: false` and changes nothing |
| Payment.RedeliveryInsertsSecondOrder | src/modules/payment/stripe/stripe.controller.ts:125-155 | delivering the same success event twice inserts two completed orders |
| Payment.ExampleCartTotal | src/modules/auth/auth.service.ts:1154-1156 | a cart of 2 × 1000 and 1 × 500 cents shows a total of 2500 cents whatever the place folder |
| Payment.ExampleCartPlan | src/modules/payment/stripe/stripe.controller.ts:24-62 | `pay` for the owner of that cart passes every guard and requests an intent of 2500 cents |
| Payment.CheckoutExample | src/modules/payment/stripe/stripe.controller.ts:47-62 | `pay` on that cart requests 2500 cents, and a success event with `amount_received` 2500 that names a cart row records 2500 as paid |
| Payment.PaymentLedger.Pay | src/modules/payment/stripe/stripe.controller.ts:19-112 | a refused plan or a failing gateway inserts no order; otherwise one pending "wallet" order with the cart total and the cart row ids is appended and the client secret returned |
| Payment.PaymentLedger.HandleWebhook | src/modules/payment/stripe/stripe.controller.ts:115-250 | the new orders and transactions and the acknowledgement are those of `Reconcile` on the old state |
| BusinessOwners.BusinessOwnerRegistry.CreateBusinessOwner | src/modules/business-owner/business-owner.service.ts:18-86 | an unknown user, and only an unknown user, is refused with nothing written; a failed document write answers "File upload failed" without a row; otherwise one row with the stored names is appended and each URL is present exactly when its document was given; when the trade licence write fails after the id document was stored, the id document stays in the store |
| BusinessOwners.ExtendedUserDetailsOf | src/modules/business-owner/business-owner.service.ts:249-258 | a missing name becomes "Unknown User"; email, phone, city, country, address and state are kept when truthy and become null otherwise |
| BusinessOwners.UserDetailsOf | src/modules/business-owner/business-owner.service.ts:151-156 | a missing name becomes "Unknown User", and a missing email or phone becomes null |
| BusinessOwners.CartDetails | src/modules/business-owner/business-owner.service.ts:167-172 | one entry per cart item, in order, with product id, title, price and quantity |
| BusinessOwners.FormatOrders | src/modules/business-owner/business-owner.service.ts:143-173 | one formatted entry per order, in order |
| BusinessOwners.GetAllOrders | src/modules/business-owner/business-owner.service.ts:98-180 | fails with "No orders found" exactly on an empty table; otherwise keeps order, copies id, total, status and timestamps, and takes the owner from the first cart item, null exactly when there are none |
| BusinessOwners.SelectOrders | src/modules/business-owner/business-owner.service.ts:183-194 | exactly the orders having some item of the owner |
| BusinessOwners.OwnedItems | src/modules/business-owner/business-owner.service.ts:261-262 | exactly the cart items whose product belongs to the owner |
| BusinessOwners.FormatOwnerOrders | src/modules/business-owner/business-owner.service.ts:242-269 | one formatted entry per selected order, in order |
| BusinessOwners.OwnedItemsNonEmpty | src/modules/business-owner/business-owner.service.ts:261-268 | a selected order keeps at least one of the owner's items |
| BusinessOwners.GetAllOrderByBusinessUserId | src/modules/business-owner/business-owner.service.ts:182-276 | fails with "No orders found for this business owner" exactly when no order has an item of the owner; otherwise each selected order is `FormatOwnerOrder` of it: id, total, status and timestamps copied, the extended user details, and only that owner's items, never none |
| BusinessOwners.SelectOrdersAppend | src/modules/business-owner/business-owner.service.ts:183-194 | the selection keeps the table's order |
| CreatePlace.GetLatLongFromLocation | src/modules/admin/create-place/create-place.service.ts:206-236 | the first result's coordinates; "Location not found" for a missing or empty list; "Error fetching geolocation: " and the message when the lookup throws; never an empty message |
| CreatePlace.CreateGate | src/modules/admin/create-place/create-place.service.ts:108-157 | "User not found" exactly when the user or the owner row is missing (for ADMIN too), then "Unauthorized user type" exactly for other roles, then exactly the geocoder's failure |
| CreatePlace.GeocodeRefusalKeepsMessage | src/modules/admin/create-place/create-place.service.ts:150-155 | a geocode refusal shows the geocoder's own message, never the fallback text |
| CreatePlace.NewPlace | src/modules/admin/create-place/create-place.service.ts:166-187 | the new row has the user's stored phone (not the request's), the owner id, the caller's id, the geocoded coordinates and exactly the requested opening hours |
| CreatePlace.UpdatedPlace | src/modules/admin/create-place/create-place.service.ts:305-327 | the required columns are overwritten, optional ones only when given, the opening hours become exactly the request's list, and the coordinates stay as they were |
| CreatePlace.UpdateIdempotent | src/modules/admin/create-place/create-place.service.ts:305-327 | applying the same update twice equals applying it once |
| CreatePlace.UpdateForgetsOldAvailability | src/modules/admin/create-place/create-place.service.ts:317-324 | the opening hours after an update do not depend on the ones before |
| CreatePlace.SoftDeleted | src/modules/admin/create-place/create-place.service.ts:329-336 | only `deleted_at` changes, to the current time |
| CreatePlace.PlaceDirectory.Create | src/modules/admin/create-place/create-place.service.ts:103-205 | gate refusals write nothing; a failed image write throws with no row; a rejected insert answers "There was an error creating the place"; otherwise the new row is appended |
| CreatePlace.PlaceDirectory.Update | src/modules/admin/create-place/create-place.service.ts:305-327 | a missing id throws and changes nothing; otherwise only that row changes, to the updated row |
| CreatePlace.PlaceDirectory.Remove | src/modules/admin/create-place/create-place.service.ts:329-336 | a missing id throws and changes nothing; otherwise the row is kept at its position, still found by its id, with only `deleted_at` set |

## Left out

- Controllers, guards, DTO validation, cookies and HTTP status codes are not part
  of this model. The validated DTO shapes appear as parameter types.
- The JWT signing in `login`, the OTP sending through SMS, and the Stripe client
  are external. Their results are parameters.
- Redis TTLs, concurrency between requests, and database transactions are not
  modelled. Each operation runs alone on the state it is given.
- `SojebStorage.url` is modelled as the identity on storage keys. The models
  build the keys (`folder/image`, with the folder passed in as configuration), but
  the public URL prefix that `url` puts in front of a key is left out.
- Latitude and longitude are `real`. Floating-point rounding is not modelled.
- Money is in integer cents; the decimal prices of the source are not modelled.
- Inserts other than the place's are assumed to succeed: `user.create` in
  `matchPhoneOtp`, `businessOwner.create`, and `order.create` in `pay` and the
  webhook (beyond the missing or unknown cart row). The one database rejection
  modelled besides that is the cart-row create for a product that does not
  exist, which the product relation refuses.
- `TransactionRepository` is not part of this model. `updateTransaction` is
  modelled as "update the row with that reference, setting only the supplied
  fields; do nothing if it is absent".
- Schema defaults are assumed: `status` 1 on codes, no expiry unless set, an
  empty `type` list on places when none is given.
- A product without a business owner would make the order listings throw.
  `OrderedItem` always carries its owner, so that case is not modelled.
- Favourites are a set, so the order of `getFavouritePlaces`' entries is not
  modelled. The result is a map from place id.
- `findMany` without `orderBy` is modelled as returning rows in table order.
- `ResetPassword` models the bcrypt hash as a given string; hashing is external.
- `Payment.PaymentLedger.Pay`: the catch-all that turns any thrown error into a
  500 response is modelled as the `PayServerError` result with the error text;
  the text of a gateway exception is the gateway's message.
- `CreatePlace.PlaceDirectory.Create`: an image write that fails leaves no
  partial file; a rejected insert keeps a written image in `storedFiles`.
