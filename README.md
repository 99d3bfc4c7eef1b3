# Scooter rental backend: transactional core

A Dafny model of the transactional logic of a scooter-rental web backend
(FastAPI over SQLAlchemy). The backend serves several kinds of data:

- payment cards: validation, classification, encryption guards, the
  default-card rules, and the card endpoints;
- the pricing configuration and the tiered rental price;
- the rental lifecycle: reservation, the transition table, the expiry
  sweep and deletion;
- settlement of a rental through the simulated payment gateway;
- daily, weekly and custom-period revenue statistics;
- feedback triage;
- the per-model scooter price list;
- the chat-history formatter of the assistant.

Each database table is a class holding its rows as a `seq` in insertion
order, next to the next id to assign. A `Valid()` invariant keeps ids
unique and below that next id. `.filter(...).first()` is the first
matching row in that order, `.all()` is every matching row, and
`.offset(skip).limit(limit)` is a window (module `Query`). Other choices:

- Money is `real`.
- Timestamps are integer seconds and dates are integer day numbers. Day
  `d` covers seconds `d*86400 .. d*86400+86399`.
- The current time, today's date and the gateway's random outcome are
  parameters.
- HTTP errors are the `Http.ApiError` values 400, 403, 404, 422 and 500.

The modules:

| module | file | source |
|---|---|---|
| `Wrappers`, `Http` | wrappers.dfy | Python `None`, `HTTPException` status codes |
| `Text` | text.dfy | the `str` methods the backend relies on |
| `Query` | query.dfy | the query shapes of the CRUD layer |
| `PaymentModel` | payment_model.dfy | `PaymentStatus`, `PaymentMethod` |
| `CardRules` | card_rules.dfy | both copies of `app/core/payment.py` |
| `CardSchema` | card_schema.dfy | `app/schemas/payment_card.py` |
| `CardVault` | card_vault.dfy | `app/crud/payment_card.py` |
| `CardEndpoints` | card_endpoints.dfy | `app/api/v1/endpoints/payment_cards.py` |
| `RentalConfigSchema` | rental_config_schema.dfy | `app/schemas/rental_config.py` |
| `RentalConfigStore` | rental_config_store.dfy | `app/crud/rental_config.py` |
| `Scooters` | scooters.dfy | the scooter rows the rental and payment code touches |
| `Rentals` | rentals.dfy | `backend/app/crud/rental.py` |
| `RentalPeriods` | rental_period.dfy | the `RentalPeriod` enumeration of the rental schema |
| `LegacyRentals` | legacy_rentals.dfy | `backend/backend/app/crud/rental.py` |
| `RentalPricing` | rental_pricing.dfy | `backend/backend/app/api/v1/endpoints/rentals.py` |
| `Payments` | payments.dfy | `app/crud/payment.py` |
| `Settlement` | settlement.dfy | `app/api/v1/endpoints/payments.py` |
| `RevenueTally` | revenue_tally.dfy | the accumulation loop of `create_or_update_daily_stats` |
| `RevenueStats` | revenue_stats.dfy | `app/crud/revenue_stats.py` |
| `RevenueEndpoints` | revenue_endpoints.dfy | `app/api/v1/endpoints/revenue_stats.py` |
| `FeedbackStore` | feedback_store.dfy | `app/crud/feedback.py` |
| `FeedbackEndpoints` | feedback_endpoints.dfy | `app/api/v1/endpoints/feedbacks.py` |
| `ScooterPrices` | scooter_prices.dfy | `app/api/v1/endpoints/scooter_prices.py` |
| `ChatHistory` | chat_history.dfy | `format_chat_history` of `model/extract_query.py` |

The two copies of `app/core/payment.py` differ only in message language.
They are modelled once: the verdicts come from one function, and a
`Snapshot` value only picks the message text.

## Model

| member | source | states |
|---|---|---|
| Text.Strip | backend/app/schemas/payment_card.py:35 | `str.strip()`: the result is a contiguous piece of the input with only whitespace around it, neither starting nor ending with whitespace, and empty only for an all-whitespace input; so it is the longest such piece |
| Text.ParseInt | backend/app/core/payment.py:70-71 | `int(s)`: once stripped, a run of digits gives its value and a sign followed by digits gives the signed value; anything else raises (`None`), and only those forms succeed |
| Text.NatToString | model/extract_query.py:38 | `str(n)` is a digit string without a leading zero whose value is `n` |
| Query.Filter | backend/app/crud/rental.py:13-17 | `.filter(...).all()` returns exactly the rows satisfying the condition, and only rows of the table |
| Query.First | backend/app/crud/rental_config.py:9-10 | `.first()` is absent exactly when no row matches; otherwise it returns a matching row with no matching row before it |
| Query.FirstOfAppend | backend/app/crud/rental_config.py:9-10 | inserting a row changes what `.first()` finds only when no earlier row matched |
| Query.Window | backend/app/crud/feedback.py:35-36 | `.offset(skip).limit(limit)` is exactly the page `.offset(skip).limit(limit)`: empty past the end, otherwise `limit` rows or the rest, whichever is shorter, each the row at its position from `skip` |
| Query.WindowIsUnique | backend/app/crud/feedback.py:35-36 | that description of a page fixes it completely: two pages of the same rows, offset and limit are equal |
| Query.FilterKeepsDistinct | backend/app/crud/rental.py:13-17 | a filtered query keeps the key column unique |
| CardRules.RemoveSeparators | backend/app/core/payment.py:41 | the result keeps no space or dash, and a string without them is unchanged |
| CardRules.RemoveSeparatorsAppend | backend/app/core/payment.py:41 | removing separators distributes over concatenation, so the kept characters stay in their order |
| CardRules.RemoveSeparatorsChar | backend/app/core/payment.py:41 | a space or dash on its own becomes empty and any other character is kept; with the append lemma this fixes the result on every string |
| CardRules.GetCardType | backend/app/core/payment.py:37-55 | on the number without spaces and dashes, the first matching test decides: Visa iff it starts with 4, MasterCard iff 51 to 55, American Express iff 34 or 37, Discover iff 6 (so a 62 number is Discover), UnionPay iff 81, Unknown iff none of these |
| CardRules.SeparatorInsertionKeepsType | backend/app/core/payment.py:41 | inserting a space or a dash anywhere never changes the card type |
| CardRules.SlicesSumToLuhn | backend/app/core/payment.py:102-118 | the odd-position digits from the right plus the doubled even-position digits add up to the ISO/IEC 7812-1 Annex B sum |
| CardRules.SumOfDoubledDigits | backend/app/core/payment.py:107-112 | the list the doubling loop builds sums to the doubled even-position digits |
| CardRules.IsValidCardNumber | backend/app/core/payment.py:86-118 | the loop's verdict is the Luhn predicate; a valid number is 13 to 19 digits once stripped |
| CardRules.LuhnSumUpdate | backend/app/core/payment.py:115-118 | changing one digit changes the sum by exactly the change in that digit's weight |
| CardRules.SingleDigitErrorDetected | backend/app/core/payment.py:115-118 | a number that passes fails once any single digit is replaced by another |
| CardRules.ValidateCard | backend/app/core/payment.py:58-83 | Luhn is reported first, then a non-numeric expiry raises, then an expiry is past iff the year is earlier or the year is equal and the month earlier, then the CVV must have 4 digits for American Express and 3 otherwise; OK iff all pass |
| CardRules.ValidateCardReply | rental-platform-backend-main/app/core/payment.py:62-93 | the returned flag is true only when the Luhn and CVV checks passed |
| CardRules.ProcessPayment | backend/app/core/payment.py:121-165 | a non-positive amount fails with no transaction id and no error code; otherwise success iff the draw approves, success carries COMPLETED and a 12-character A-Z/0-9 id, failure carries FAILED and the drawn error code |
| CardRules.EncryptCardData | rental-platform-backend-main/app/core/payment.py:21-28 | the empty string encrypts to the empty string |
| CardRules.DecryptCardData | rental-platform-backend-main/app/core/payment.py:31-38 | the empty string decrypts to the empty string |
| CardRules.CardDataRoundTrip | backend/app/core/payment.py:17-34 | for a cipher that round-trips on non-empty text, the guarded pair round-trips on every string |
| CardSchema.RemoveWhitespaceAndDashes | backend/app/schemas/payment_card.py:20 | no whitespace or dash is left, and a clean string is unchanged |
| CardSchema.RemoveWhitespaceAndDashesAppend | backend/app/schemas/payment_card.py:20 | the substitution distributes over concatenation, so the kept characters stay in their order |
| CardSchema.RemoveWhitespaceAndDashesChar | backend/app/schemas/payment_card.py:20 | a whitespace character or dash on its own becomes empty and any other character is kept; with the append lemma this fixes the result on every string |
| CardSchema.ValidateCardNumber | backend/app/schemas/payment_card.py:16-28 | `None` passes unchanged; a number is accepted iff it is 13 to 19 digits once whitespace and dashes are removed, and the value returned is exactly that cleaned number |
| CardSchema.AcceptedNumberReachesLuhn | backend/app/schemas/payment_card.py:16-28 | an accepted number needs no separator removal in the payment core, so it is classified by its digits and judged by the Luhn sum alone |
| CardSchema.CardNumberIdempotent | backend/app/schemas/payment_card.py:16-28 | an accepted number fed back is accepted unchanged |
| CardSchema.ZFill2 | backend/app/schemas/payment_card.py:44 | `zfill(2)` keeps the value, puts one `0` in front of a single digit and leaves a longer string unchanged |
| CardSchema.ValidateExpiryMonth | backend/app/schemas/payment_card.py:30-44 | `None` passes; a month is accepted iff it is digits once stripped with value 1 to 12, and it is returned zero-filled: `0` plus the stripped digit for one digit, the stripped string itself otherwise |
| CardSchema.ExpiryMonthIdempotent | backend/app/schemas/payment_card.py:44 | a normalised month fed back is returned unchanged |
| CardSchema.ValidateExpiryYear | backend/app/schemas/payment_card.py:46-62 | `None` passes; a year is accepted iff it is 2 or 4 digits once stripped, and the last two digits are returned |
| CardSchema.ExpiryYearIdempotent | backend/app/schemas/payment_card.py:56-57 | a normalised year fed back is returned unchanged |
| CardSchema.ValidateCvv | backend/app/schemas/payment_card.py:64-76 | `None` passes; a CVV is accepted iff it is 3 or 4 digits once stripped, and the stripped CVV is returned |
| CardSchema.ValidateFields | backend/app/schemas/payment_card.py:7-76 | a card body is accepted iff all four validators accept their fields; the accepted body holds each validator's output (the cleaned number, the zero-filled month, the two-digit year, the stripped CVV) and keeps the fields without a validator |
| CardSchema.MakeCardCreate | backend/app/schemas/payment_card.py:80-88 | a creation body is accepted iff holder name, number, month, year and CVV are all present and all four validators accept; it then holds the validators' outputs, and `is_default` defaults to false |
| CardVault.LastFour | backend/app/crud/payment_card.py:23 | `number[-4:]` is the last four characters, or the whole number when it is shorter |
| CardVault.CardStore.GetByUser | backend/app/crud/payment_card.py:51-55 | only the user's cards; with no offset and room, all of them; empty iff the user has no card; in full, the page `.offset(skip).limit(limit)`: empty past the end, otherwise `limit` rows or the rest, whichever is shorter, each the row at its position from `skip` of the user's cards in table order |
| CardVault.CardStore.GetByIdAndUser | backend/app/crud/payment_card.py:57-61 | the card only when it has that id and belongs to the user; `None` for an absent or another user's card |
| CardVault.CardStore.GetDefaultCard | backend/app/crud/payment_card.py:63-67 | a default card of the user, or `None` exactly when the user has no default card |
| CardVault.CardStore.CreateWithUser | backend/app/crud/payment_card.py:11-49 | the stored card has the type of its number, its last four digits and the encrypted number and CVV; a default card demotes the user's other cards and no one else's |
| CardVault.CardStore.UpdateCard | backend/app/crud/payment_card.py:69-86 | only the patched columns change; a patch setting `is_default` demotes the owner's other cards |
| CardVault.CardStore.DeleteByIdAndUser | backend/app/crud/payment_card.py:88-110 | a missing or foreign card changes nothing; otherwise the card is gone, and when it was default the owner's first other card is promoted |
| CardVault.UpdatedAt | backend/app/crud/payment_card.py:69-86 | after an update the patched card has the patch applied, and another card loses its default flag exactly when it is the owner's and the patch sets `is_default` |
| CardVault.PromoteSuccessorAt | backend/app/crud/payment_card.py:97-106 | the promotion only raises flags, and only on the first other card of the deleted default card's owner |
| CardVault.CreatedKeepsAtMostOneDefault | backend/app/crud/payment_card.py:39-44 | creation never gives a user two default cards; a default card created is the owner's only default |
| CardVault.CreatedDefaultIsFound | backend/app/crud/payment_card.py:39-49 | a card created as default is the card `get_default_card` returns for its owner |
| CardVault.CreatedKeepsOwnersDefault | backend/app/api/v1/endpoints/payment_cards.py:39-41 | with the first-card rule, every user who owns a card still has a default card after a create |
| CardVault.UpdatedKeepsAtMostOneDefault | backend/app/crud/payment_card.py:79-84 | an update never gives a user two default cards |
| CardVault.UpdateCanClearDefault | backend/app/crud/payment_card.py:78-86 | clearing `is_default` on the default card leaves its owner with no default, since nothing is promoted |
| CardVault.UpdateKeepsOwnersDefault | backend/app/crud/payment_card.py:69-86 | any other update keeps every owner's default card |
| CardVault.DeletedKeepsUniqueIds | backend/app/crud/payment_card.py:88-110 | deletion keeps card ids unique |
| CardVault.DeletedRowOrigin | backend/app/crud/payment_card.py:97-108 | every card left after deletion was there before with the same id and owner, and is default only if it was default or is the promoted card |
| CardVault.PromotedOwner | backend/app/crud/payment_card.py:97-106 | the promoted card belongs to the owner of the deleted default card |
| CardVault.DeletedIdsBelow | backend/app/crud/payment_card.py:107-108 | deletion adds no id and removes the deleted id |
| CardVault.DeletedKeepsAtMostOneDefault | backend/app/crud/payment_card.py:88-110 | deletion never gives a user two default cards |
| CardVault.DeletedPair | backend/app/crud/payment_card.py:97-106 | two default cards of one owner after deletion are the same card |
| CardVault.DeletedKeepsOwnersDefault | backend/app/crud/payment_card.py:97-106 | deleting a default card while the owner has another card leaves the owner with a default card |
| CardVault.CreatedKeepsDefaultRules | backend/app/crud/payment_card.py:39-44 | both default-card rules survive creation, the second under the first-card rule |
| CardVault.UpdatedKeepsDefaultRules | backend/app/crud/payment_card.py:78-86 | both rules survive an update, the second unless it clears a default card |
| CardVault.DeletedKeepsDefaultRules | backend/app/crud/payment_card.py:88-110 | both rules survive deletion |
| CardEndpoints.CreatePaymentCard | backend/app/api/v1/endpoints/payment_cards.py:28-46 | a rejected body is 422 with nothing stored; otherwise the card is default iff the body asks or the user had no card, a default card is then the one `/default` returns, and both default-card rules are kept |
| CardEndpoints.ReadDefaultPaymentCard | backend/app/api/v1/endpoints/payment_cards.py:49-63 | 404 exactly when the user has no default card; otherwise the user's default card |
| CardEndpoints.ReadPaymentCard | backend/app/api/v1/endpoints/payment_cards.py:66-84 | 404 exactly when the user has no card with that id |
| CardEndpoints.UpdatePaymentCard | backend/app/api/v1/endpoints/payment_cards.py:87-108 | a rejected body is 422 and a foreign or absent card 404, with no change; otherwise the patched card; at most one default per user is kept |
| CardEndpoints.DeletePaymentCard | backend/app/api/v1/endpoints/payment_cards.py:111-129 | 404 with no change exactly when the user has no such card; otherwise the deletion, keeping both default-card rules |
| RentalConfigSchema.DefaultDiscounts | backend/app/schemas/rental_config.py:12-17 | the defaults cover exactly the four period keys |
| RentalConfigSchema.ValidatePeriodDiscounts | backend/app/schemas/rental_config.py:20-27 | accepted maps are returned unchanged with period keys and factors in [0, 1]; a rejected map has an unknown key or an out-of-range factor |
| RentalConfigSchema.MakeConfigCreate | backend/app/schemas/rental_config.py:10-27 | accepted iff the rate is positive and the given map is valid; absent discounts take the defaults |
| RentalConfigSchema.MakeConfigPatch | backend/app/schemas/rental_config.py:33-35 | every field is optional, but a given rate must be positive and a given map valid |
| RentalConfigSchema.DiscountExamples | backend/app/schemas/rental_config.py:12-27 | the default map, the empty map and a zero factor are accepted; a factor of 2.0, an unknown key and a rate of -20 are rejected |
| RentalConfigStore.DeactivateAll | backend/app/crud/rental_config.py:14 | every row becomes inactive and nothing else changes |
| RentalConfigStore.PlainInsertKeepsEarlierActive | rental-platform-backend-main/app/models/rental_config.py:12 | a plain insert keeps the earlier active row as the active config, and an active insert makes two active rows |
| RentalConfigStore.ConfigStore.GetActiveConfig | backend/app/crud/rental_config.py:9-10 | the first active row, absent iff none is active; the last row when only it is active |
| RentalConfigStore.ConfigStore.GetAllConfigs | backend/app/crud/rental_config.py:31-32 | exactly the page `.offset(skip).limit(limit)`: empty past the end, otherwise `limit` rows or the rest, whichever is shorter, each the row at its position from `skip` of the table |
| RentalConfigStore.ConfigStore.CreateWithDeactivateOthers | backend/app/crud/rental_config.py:12-25 | the new row stores the given rate, discounts and description and is the only active row, so it is the active config |
| RentalConfigStore.ConfigStore.Create | rental-platform-backend-main/app/models/rental_config.py:12 | the generic create inserts an active row without touching the others |
| RentalConfigStore.ConfigStore.UpdateConfig | backend/app/crud/rental_config.py:27-29 | only the supplied fields change; the id and `is_active` never change |
| RentalPricing.TierHours | backend/backend/app/api/v1/endpoints/rentals.py:16-21 | the tiers last 1, 4, 24 or 168 hours |
| RentalPricing.Discount | backend/backend/app/api/v1/endpoints/rentals.py:30-37 | every factor is in (0, 1], and only the one-hour tier is undiscounted |
| RentalPricing.RentalCost | backend/backend/app/api/v1/endpoints/rentals.py:27-39 | the cost is positive and at most hours times 20, with equality only for one hour |
| RentalPricing.TierCosts | backend/backend/app/api/v1/endpoints/rentals.py:16-39 | the four tiers cost exactly 20, 72, 384 and 2352 |
| RentalPricing.LongerTierCostsMoreButNotPerHour | backend/backend/app/api/v1/endpoints/rentals.py:27-39 | a longer tier costs strictly more but never more per hour |
| RentalPricing.EndTime | backend/backend/app/api/v1/endpoints/rentals.py:75-76 | the end lies exactly the tier's hours after the start |
| RentalPricing.CreateRental | backend/backend/app/api/v1/endpoints/rentals.py:53-86 | an unknown scooter is 404 and a scooter that is not "available" is 400, with nothing written; it succeeds iff the scooter exists and is available, and the rental then takes the next id, belongs to the current user, keeps the request's scooter, start time, start location and status ("active" unless the request says otherwise), has the tier's cost and end time and no end location, is the one row appended, and the scooter is in use |
| Scooters.SetStatusById | backend/app/crud/rental.py:37-40 | a status write keeps every row's id |
| Scooters.ScooterStore.Get | backend/app/crud/rental.py:30 | the scooter with that id, absent iff there is none |
| Scooters.ScooterStore.SetStatus | backend/app/crud/rental.py:37-40 | sets the status of the scooter with that id |
| Scooters.ScooterStore.SetStatusIfFound | backend/app/crud/rental.py:30-33 | a scooter that is not there is left alone |
| Rentals.SweepRow | backend/app/crud/rental.py:21-28 | an active rental started at least an hour ago becomes completed with end time `now`; any other row is unchanged |
| Rentals.SweptKeepsIds | backend/app/crud/rental.py:19-34 | the sweep keeps ids unique |
| Rentals.SweepLeavesNoExpired | backend/app/crud/rental.py:19-34 | after a sweep no rental is still expired at the same `now` |
| Rentals.SweepIdempotent | backend/app/crud/rental.py:21-24 | a second sweep at the same `now` changes no rental and releases no scooter |
| Rentals.ActiveAfterSweep | backend/app/crud/rental.py:21-24 | after a sweep, the active rentals are exactly those that were active and started within the last hour |
| Rentals.ReleaseStep | backend/app/crud/rental.py:30-33 | releasing one more scooter is one status write, and a missing scooter changes nothing |
| Rentals.ReleaseScooter | backend/app/crud/rental.py:30-33 | the scooter of an expired rental, when it exists, becomes available |
| Rentals.AllowedTransitions | backend/app/crud/rental.py:62-66 | only ACTIVE to COMPLETED is listed; PAID has no entry |
| Rentals.ApplyPatch | backend/app/crud/rental.py:71-72 | every set field replaces its column; an empty patch changes nothing |
| Rentals.UpdateOutcome | backend/app/crud/rental.py:59-72 | no status: the partial update; a status on a PAID rental: the lookup fails (500); otherwise accepted iff ACTIVE to COMPLETED, else 400 |
| Rentals.TerminalStatusesAreFinal | backend/app/crud/rental.py:64-69 | a completed or cancelled rental cannot change status through `update_rental` |
| Rentals.RentalStore.GetById | backend/app/crud/rental.py:56-57 | the rental with that id, absent iff there is none |
| Rentals.RentalStore.GetUserRentals | backend/app/crud/rental.py:13-14 | exactly the user's rentals |
| Rentals.RentalStore.GetActiveRentals | backend/app/crud/rental.py:16-17 | exactly the active rentals |
| Rentals.RentalStore.CreateWithScooter | backend/app/crud/rental.py:36-54 | the scooter, when it exists, is marked in use whatever its status; the rental is stored with the given start, user, cost, end time and status |
| Rentals.RentalStore.UpdateRental | backend/app/crud/rental.py:59-72 | the stored row follows the transition table's outcome; on an error nothing changes |
| Rentals.RentalStore.UpdateRentalStatus | backend/app/crud/rental.py:74-77 | any status is written, bypassing the table |
| Rentals.RentalStore.DeleteRental | backend/app/crud/rental.py:79-84 | `None` and no change for an absent rental; otherwise it is removed and `get_by_id` finds nothing |
| Rentals.RentalStore.SweepAt | backend/app/crud/rental.py:26-33 | one pass of the sweep loop advances the swept prefix by one rental and releases its scooter if it expired |
| Rentals.RentalStore.CheckExpiredRentals | backend/app/crud/rental.py:19-34 | every expired rental becomes completed at `now` and its scooter, when it exists, available; nothing else changes |
| LegacyRentals.ApplyPatch | backend/backend/app/crud/rental.py:43-45 | every set field replaces its column whatever the status; the total cost is kept |
| LegacyRentals.LegacyRentalStore.GetById | backend/backend/app/crud/rental.py:40-41 | the rental with that id, absent iff there is none |
| LegacyRentals.LegacyRentalStore.GetUserRentals | backend/backend/app/crud/rental.py:12-13 | exactly the user's rentals |
| LegacyRentals.LegacyRentalStore.GetActiveRentals | backend/backend/app/crud/rental.py:15-16 | exactly the rentals whose status is the string "active" |
| LegacyRentals.LegacyRentalStore.CreateWithScooter | backend/backend/app/crud/rental.py:18-38 | the scooter, when it exists, becomes "in_use"; the rental copies user, scooter, times, status, total cost and start location |
| LegacyRentals.LegacyRentalStore.UpdateRental | backend/backend/app/crud/rental.py:43-45 | the set fields are written, with no transition check |
| LegacyRentals.LegacyRentalStore.DeleteRental | backend/backend/app/crud/rental.py:47-52 | `None` and no change for an absent rental; otherwise it is removed |
| Payments.WithStatus | backend/app/crud/payment.py:62-77 | the status is always set; the transaction id changes only to a non-empty new one; no other column changes |
| Payments.PaymentStore.GetByRental | backend/app/crud/payment.py:30-34 | exactly the payments of that rental |
| Payments.PaymentStore.GetByUser | backend/app/crud/payment.py:36-48 | only the user's payments, at most `limit`; with no offset and room, all of them; in full, the page `.offset(skip).limit(limit)`: empty past the end, otherwise `limit` rows or the rest, whichever is shorter, each the row at its position from `skip` of the user's payments in table order |
| Payments.PaymentStore.GetByIdAndUser | backend/app/crud/payment.py:50-60 | `None` for an absent payment and for another user's |
| Payments.PaymentStore.CreateWithUserAndRental | backend/app/crud/payment.py:10-28 | copies user, rental, card, amount, currency and method; the status is PENDING unless given |
| Payments.PaymentStore.UpdatePaymentStatus | backend/app/crud/payment.py:62-77 | the stored row gets the new status and the transaction id only when a non-empty one is given |
| Settlement.CurrencyOr | backend/app/api/v1/endpoints/payments.py:141 | the currency given, or a non-empty default |
| Settlement.CardFieldsOf | backend/app/api/v1/endpoints/payments.py:94-102 | a card to save has every field set, and its default flag is `set_as_default` |
| Settlement.RentalGuard | backend/app/api/v1/endpoints/payments.py:45-63 | an unknown rental is 404, another user's 403, an amount other than the cost 400; the guard passes only for the payer's rental at its exact cost |
| Settlement.CardGuard | backend/app/api/v1/endpoints/payments.py:69-133 | a saved-card payment needs a card id (400) of the payer's card (404); a card payment needs its details, and a card to save must be valid |
| Settlement.SaveCard | backend/app/api/v1/endpoints/payments.py:94-109 | the card is stored for the payer with `is_default = set_as_default`, and its id is returned |
| Settlement.ResolveCard | backend/app/api/v1/endpoints/payments.py:69-133 | the card id recorded is the saved card, the newly saved card or none; a card is saved only when asked |
| Settlement.SettledPayment | backend/app/api/v1/endpoints/payments.py:136-160 | the stored payment carries the request's rental, amount and method and the gateway's status |
| Settlement.ReplaceLast | backend/app/api/v1/endpoints/payments.py:155-160 | writing the outcome over the pending row appends the settled row |
| Settlement.RecordPayment | backend/app/api/v1/endpoints/payments.py:136-160 | a pending payment is stored and then holds the gateway's status and transaction id |
| Settlement.MarkPaid | backend/app/api/v1/endpoints/payments.py:163-169 | the rental becomes PAID and its scooter available |
| Settlement.Settle | backend/app/api/v1/endpoints/payments.py:136-199 | the payment is stored with the gateway's outcome; the rental and scooter change on success only |
| Settlement.ProcessPaymentEndpoint | backend/app/api/v1/endpoints/payments.py:33-199 | the guards are checked in order and every error leaves all four tables unchanged; otherwise the one row appended to the payments is the settled payment: the next id, the payer, the request's rental, amount, currency and method, the gateway's status and transaction id, and as card id the saved card's id, the id of the card newly saved, or none; a card is appended to the payer's cards, default iff `set_as_default`, exactly when the request asks to save it, and the card table is otherwise unchanged; COMPLETED iff the gateway succeeded, and on success only the rental is PAID and the scooter available |
| RevenueTally.OnDayIsDivision | backend/app/crud/revenue_stats.py:32-40 | a payment lies in a day's window iff its time divided by a day's length is that day |
| RevenueTally.AddTo | backend/app/crud/revenue_stats.py:64-77 | one more rental in one bucket; the other buckets are unchanged |
| RevenueTally.Bucket | backend/app/crud/revenue_stats.py:61-77 | every duration falls in exactly one bucket: up to 5400 s, up to 18000 s, up to 90000 s, beyond |
| RevenueTally.BucketByHours | backend/app/crud/revenue_stats.py:62-77 | the bucket limits are the 1.5, 5 and 25 hour thresholds |
| RevenueTally.DayPayments | backend/app/crud/revenue_stats.py:32-40 | exactly the completed payments created on that day |
| RevenueTally.CountedRental | backend/app/crud/revenue_stats.py:53-57 | a payment counts iff the first rental with its rental id is completed or paid |
| RevenueTally.TallyOf | backend/app/crud/revenue_stats.py:53-77 | no more rentals are counted than payments |
| RevenueTally.TallyBalances | backend/app/crud/revenue_stats.py:55-77 | the count and the revenue are the bucket sums plus the counted rentals without both times |
| RevenueStats.RowOf | backend/app/crud/revenue_stats.py:15-17 | the row of a date, absent iff there is none |
| RevenueStats.DateRange | backend/app/crud/revenue_stats.py:19-24 | rows within the range, ordered by date; with unique dates, every row in the range |
| RevenueStats.DateRangeFull | backend/app/crud/revenue_stats.py:19-24 | when every date of the range has a row, the range lists one row per day, in order |
| RevenueStats.Upserted | backend/app/crud/revenue_stats.py:80-94 | a missing date gets a new row with the tally; an existing date keeps the table size |
| RevenueStats.AppendedRow | backend/app/crud/revenue_stats.py:87-94 | a new date's row keeps dates and ids unique and other dates' rows unchanged |
| RevenueStats.UpsertedAt | backend/app/crud/revenue_stats.py:80-86 | an existing date's row is rewritten in place with the tally |
| RevenueStats.RewrittenRow | backend/app/crud/revenue_stats.py:80-86 | rewriting keeps dates and ids unique and other dates' rows unchanged |
| RevenueStats.UpsertIdempotent | backend/app/crud/revenue_stats.py:80-98 | recomputing a day from unchanged data leaves the table as it was |
| RevenueStats.Averaged | backend/app/crud/revenue_stats.py:158-164 | a bucket's daily average times the number of days is its revenue |
| RevenueStats.CountPayment | backend/app/crud/revenue_stats.py:53-77 | one pass of the loop adds the payment to the totals exactly as the tally does |
| RevenueStats.TallyDay | backend/app/crud/revenue_stats.py:26-77 | the loop computes the tally of the day's completed payments |
| RevenueStats.FindDate | backend/app/crud/revenue_stats.py:113-116 | the search finds a date iff the listed rows have it |
| RevenueStats.Summarise | backend/app/crud/revenue_stats.py:139-164 | the totals are the sums of the daily rows, and every average is over `end - start + 1` days |
| RevenueStats.InRange | backend/app/crud/revenue_stats.py:108-116 | a date in the range is listed iff it has a row |
| RevenueStats.FilledStep | backend/app/crud/revenue_stats.py:111-122 | filling one more date extends the filled range by one day |
| RevenueStats.RevenueStore.GetByDate | backend/app/crud/revenue_stats.py:15-17 | the row of a date, absent iff none |
| RevenueStats.RevenueStore.GetDateRange | backend/app/crud/revenue_stats.py:19-24 | the rows of the range ordered by date, and, with dates unique, every stored row whose date lies in the range |
| RevenueStats.RevenueStore.CreateOrUpdateDailyStats | backend/app/crud/revenue_stats.py:26-98 | the day's row holds the tally of its completed payments, created when missing; no other date's row changes |
| RevenueStats.RevenueStore.FillDay | backend/app/crud/revenue_stats.py:113-120 | a date already listed keeps its row; a missing one gets its tally; other dates are unchanged |
| RevenueStats.RevenueStore.FillMissingDays | backend/app/crud/revenue_stats.py:111-122 | every date of the range has a row afterwards, existing rows are kept, missing ones hold their tally, and other dates are unchanged |
| RevenueStats.RevenueStore.SummariseRange | backend/app/crud/revenue_stats.py:111-177 | after filling, every date of the range has a row (kept when it existed, computed when missing, no other date touched); the summary lists the stored rows of the range, one per day in order, with its totals their sums and every average over the days of the range |
| RevenueStats.RevenueStore.GenerateWeeklyStats | backend/app/crud/revenue_stats.py:100-177 | the seven days ending at the end date, today by default: each keeps its row or gets its tally, no other date changes, and the result is the summary of those seven stored rows (totals, per-bucket sums and averages) |
| RevenueStats.RevenueStore.GenerateCustomPeriodStats | backend/app/crud/revenue_stats.py:179-255 | a reversed range is swapped; every date in it keeps its row or gets its tally, no other date changes, and the result is the summary of the range's stored rows |
| RevenueEndpoints.GetDailyStats | backend/app/api/v1/endpoints/revenue_stats.py:13-36 | a future date is 400; a stored row is returned unchanged; a missing one is computed |
| RevenueEndpoints.GetWeeklyStats | backend/app/api/v1/endpoints/revenue_stats.py:39-62 | the end date defaults to today and a future one is 400 with no change; otherwise the weekly summary of the seven days ending there, with missing days computed and stored rows kept |
| RevenueEndpoints.GetCustomPeriodStats | backend/app/api/v1/endpoints/revenue_stats.py:65-94 | a future start or end, or a start after the end, is 400 with no change; otherwise the summary of the range, one stored row per day, with missing days computed and stored rows kept |
| RevenueEndpoints.RefreshDailyStats | backend/app/api/v1/endpoints/revenue_stats.py:97-116 | a future date is 400; otherwise the day is always recomputed |
| FeedbackStore.NewFeedback | backend/app/crud/feedback.py:12-26 | high priority starts in progress, any other priority pending; an unset priority is medium; no resolution fields |
| FeedbackStore.StatusUpdated | backend/app/crud/feedback.py:74-91 | the status is set; the resolution time is stamped iff resolved; the handler is set iff a non-zero one is given; nothing else changes |
| FeedbackStore.WithNotes | backend/app/crud/feedback.py:93-102 | the notes and the handler are set, and nothing else changes |
| FeedbackStore.ApplyPatch | rental-platform-backend-main/app/schemas/feedback.py:25-32 | every set field of a `FeedbackUpdate` replaces its column; an empty patch changes nothing |
| FeedbackStore.StatusUpdateIdempotent | backend/app/crud/feedback.py:74-91 | setting a status twice at the same moment is setting it once |
| FeedbackStore.ReplaceTwice | backend/app/api/v1/endpoints/feedbacks.py:279-284 | a second write to the same row overrides the first |
| FeedbackStore.FeedbackStore.Get | backend/app/api/v1/endpoints/feedbacks.py:272 | the feedback with that id, absent iff none |
| FeedbackStore.FeedbackStore.GetMulti | backend/app/api/v1/endpoints/feedbacks.py:197 | exactly the page `.offset(skip).limit(limit)`: empty past the end, otherwise `limit` rows or the rest, whichever is shorter, each the row at its position from `skip` of the table |
| FeedbackStore.FeedbackStore.GetByUser | backend/app/crud/feedback.py:28-38 | only the user's feedback; with no offset and room, all of it; in full, the page `.offset(skip).limit(limit)`: empty past the end, otherwise `limit` rows or the rest, whichever is shorter, each the row at its position from `skip` of the user's feedback in table order |
| FeedbackStore.FeedbackStore.GetByIdAndUser | backend/app/crud/feedback.py:40-48 | `None` for absent feedback and for another user's |
| FeedbackStore.FeedbackStore.GetHighPriority | backend/app/crud/feedback.py:50-60 | only high-priority feedback; with no offset and room, all of it; in full, the page `.offset(skip).limit(limit)`: empty past the end, otherwise `limit` rows or the rest, whichever is shorter, each the row at its position from `skip` of the high-priority feedback in table order |
| FeedbackStore.FeedbackStore.GetByStatus | backend/app/crud/feedback.py:62-72 | only feedback with that status; with no offset and room, all of it; in full, the page `.offset(skip).limit(limit)`: empty past the end, otherwise `limit` rows or the rest, whichever is shorter, each the row at its position from `skip` of the feedback with that status in table order |
| FeedbackStore.FeedbackStore.CreateWithUser | backend/app/crud/feedback.py:12-26 | the new feedback is stored with the next id |
| FeedbackStore.FeedbackStore.Update | backend/app/api/v1/endpoints/feedbacks.py:177 | the patched row replaces the stored one |
| FeedbackStore.FeedbackStore.UpdateStatus | backend/app/crud/feedback.py:74-91 | the row with the new status, resolution time and handler replaces the stored one |
| FeedbackStore.FeedbackStore.AddResolutionNotes | backend/app/crud/feedback.py:93-102 | the row with notes and handler replaces the stored one |
| FeedbackEndpoints.TypeOptions | backend/app/api/v1/endpoints/feedbacks.py:23-58 | five types, each with one of the three priorities as default |
| FeedbackEndpoints.DefaultPriority | backend/app/api/v1/endpoints/feedbacks.py:74-85 | high iff scooter damage or payment issue, medium iff app or rental issue, low otherwise |
| FeedbackEndpoints.EffectivePriority | backend/app/api/v1/endpoints/feedbacks.py:69-85 | a valid given priority is kept; anything else takes the type's default |
| FeedbackEndpoints.OptionsMatchDefaults | backend/app/api/v1/endpoints/feedbacks.py:23-85 | the types table's default equals the defaulting rule for every type, and no type is listed twice |
| FeedbackEndpoints.UnknownTypeIsLow | backend/app/api/v1/endpoints/feedbacks.py:84-85 | a type outside the table defaults to low, as `other` does |
| FeedbackEndpoints.FieldFilter | backend/app/api/v1/endpoints/feedbacks.py:129-130 | the `if status:` and `if priority:` filters: an unset or empty value keeps every item; otherwise exactly the items whose field equals it |
| FeedbackEndpoints.ReadFeedbacks | backend/app/api/v1/endpoints/feedbacks.py:115-132 | the caller's feedback only, within the limit; with a status, only that status; and every item of the caller's window that passes the filter is returned |
| FeedbackEndpoints.ReadAllFeedbacks | backend/app/api/v1/endpoints/feedbacks.py:184-224 | the window of all feedback, keeping exactly the items that pass both filters |
| FeedbackEndpoints.ReadFeedback | backend/app/api/v1/endpoints/feedbacks.py:135-149 | 404 exactly when the caller has no feedback with that id |
| FeedbackEndpoints.UserPatch | backend/app/api/v1/endpoints/feedbacks.py:168-175 | a user's patch keeps type and detail only |
| FeedbackEndpoints.UserUpdateKeepsTriage | backend/app/api/v1/endpoints/feedbacks.py:168-177 | a user update leaves priority, status, resolution fields, owner and id unchanged |
| FeedbackEndpoints.CreateFeedback | backend/app/api/v1/endpoints/feedbacks.py:61-112 | an unknown scooter or rental is 404 and another user's rental 403, with nothing created; otherwise the feedback with the defaulted priority, in progress iff high |
| FeedbackEndpoints.UpdateFeedback | backend/app/api/v1/endpoints/feedbacks.py:152-178 | 404 with no change unless the caller owns the feedback; otherwise only type and detail change |
| FeedbackEndpoints.AdminUpdateFeedback | backend/app/api/v1/endpoints/feedbacks.py:262-286 | any field may change; setting the status to resolved also stamps the resolution time and the caller as handler |
| FeedbackEndpoints.ResolveFeedback | backend/app/api/v1/endpoints/feedbacks.py:289-317 | the feedback becomes resolved at `now`, handled by the caller, with the notes |
| ScooterPrices.FindById | backend/app/api/v1/endpoints/scooter_prices.py:75 | the price row with that id, absent iff none |
| ScooterPrices.FindByModel | rental-platform-backend-main/app/crud/scooter_price.py:9-10 | the price row of that model, absent iff none |
| ScooterPrices.ApplyPatch | backend/app/schemas/scooter_price.py:17-18 | the set fields replace their columns; the id is kept |
| ScooterPrices.UpdateOutcomeAsWritten | backend/app/api/v1/endpoints/scooter_prices.py:64-91 | the handler as written: an accepted update is the patched row; a model held by another row is never accepted, since the unique constraint refuses it |
| ScooterPrices.UpdateOutcome | backend/app/api/v1/endpoints/scooter_prices.py:64-91 | the checked update: a non-positive price is 422 and an unknown id 404; an accepted update is the patched row |
| ScooterPrices.UpdateNeverConflicts | backend/app/api/v1/endpoints/scooter_prices.py:79-87 | with one row per model, the checked update never reaches the unique constraint, and answers 400 exactly when another row has the model |
| ScooterPrices.ReplaceKeepsUnique | backend/app/models/scooter_price.py:6-13 | writing a row whose model no other row holds keeps ids and models unique |
| ScooterPrices.EmptyModelSkipsCheck | backend/app/api/v1/endpoints/scooter_prices.py:79 | renaming a row to "" when another row has "" reaches the unique constraint (500) as written; the checked update answers 400 |
| ScooterPrices.PriceStore.GetMulti | backend/app/api/v1/endpoints/scooter_prices.py:32-43 | exactly the page `.offset(skip).limit(limit)`: empty past the end, otherwise `limit` rows or the rest, whichever is shorter, each the row at its position from `skip` of the table |
| ScooterPrices.PriceStore.Create | backend/app/models/scooter_price.py:6-13 | the row is inserted unless its model already exists, which the unique constraint refuses |
| ScooterPrices.PriceStore.Update | backend/app/models/scooter_price.py:6-13 | the patched row is written unless its model belongs to another row |
| ScooterPrices.PriceStore.Remove | backend/app/api/v1/endpoints/scooter_prices.py:107 | the row with that id is removed and returned |
| ScooterPrices.CreateScooterPrice | backend/app/api/v1/endpoints/scooter_prices.py:12-29 | a non-positive price is 422 and a model that has a price 400, with no change; otherwise the new row; prices stay positive and one per model |
| ScooterPrices.ReadScooterPriceByModel | backend/app/api/v1/endpoints/scooter_prices.py:46-61 | 404 exactly when no row has the model |
| ScooterPrices.UpdateScooterPrice | backend/app/api/v1/endpoints/scooter_prices.py:64-91 | the checked update's outcome, never a 500; an error changes nothing; prices stay positive and one per model |
| ScooterPrices.DeleteScooterPrice | backend/app/api/v1/endpoints/scooter_prices.py:94-108 | 404 with no change for an unknown id; otherwise the row is removed |
| ChatHistory.Entries | model/extract_query.py:34-38 | there are ceil(n/2) question entries |
| ChatHistory.Format | model/extract_query.py:32-39 | an empty history gives "", and the text never starts or ends with whitespace |
| ChatHistory.AppendPairAddsEntry | model/extract_query.py:34-38 | a question and answer appended to a history of whole pairs add exactly one entry, numbered next, to the entries and to their joined text |
| ChatHistory.AppendQuestionAddsOpenEntry | model/extract_query.py:34-38 | an unanswered question appended to a history of whole pairs adds one entry whose answer is empty |
| ChatHistory.Concat | model/extract_query.py:38 | the joined entries begin with the first entry |
| ChatHistory.StripKeepsPrefix | model/extract_query.py:39 | stripping keeps a prefix without whitespace at either end |
| ChatHistory.FormatOpensWithFirstQuestion | model/extract_query.py:32-39 | a non-empty history's text opens with question 1 and the answer 1 label |
| ChatHistory.FormatChatHistory | model/extract_query.py:32-39 | the loop produces the stripped join of the entries |

## Findings

| source | as written | input that shows it | evidently intended | confidence | as-written member | corrected member |
|---|---|---|---|---|---|---|
| backend/app/api/v1/endpoints/scooter_prices.py:79-87 | the clash check runs only when the requested model is truthy, so an empty model skips it | rows (1, "", 10.0) and (2, "x", 5.0); update id 2 with model "" | a 400 for a model held by another row; as written, the unique constraint fails (500) | not executed | ScooterPrices.UpdateOutcomeAsWritten, ScooterPrices.EmptyModelSkipsCheck | ScooterPrices.UpdateOutcome, ScooterPrices.UpdateNeverConflicts, ScooterPrices.UpdateScooterPrice |

## Left out

- Floating point: money is exact `real`. The exact-equality test of the amount against the rental cost (backend/app/api/v1/endpoints/payments.py:59) compares floats in the source and exact values here. Cost rounding is not modelled.
- Fernet: encryption and decryption are a `Cipher` of two functions passed in. Only the empty-string guards are modelled, and the round trip of the cipher is a hypothesis of `CardRules.CardDataRoundTrip`.
- Randomness: the gateway's 95% success draw, transaction id and error code are the `GatewayDraw` parameter. A draw's id must be a 12-character A-Z/0-9 string.
- Clocks: `datetime.now()`/`utcnow()` are the `now`, `today` and `Today` parameters.
- Side effects: the confirmation email and the background task (backend/app/api/v1/endpoints/payments.py:171-186) are I/O.
- Authentication, JWT and superuser checks are out of scope. The current user id is an input. The administrator feedback endpoints and the scooter-price endpoints have no permission check in the source either.
- The LLM and retrieval code under `model/` is left out, except `format_chat_history`.
- Text: characters are compared as code points. Whitespace is Python's full `str.isspace()` set; digits are only the ASCII ones, so `str.isdigit()` and `int()` reject the other Unicode digits here. `int()` accepts no underscores here.
- The generic CRUD base class (`app/crud/base.py`) is not part of this model. Its `get`, `get_multi`, `create`, `update` and `remove` are assumed to do the usual thing: look up by primary key, take a window, insert, write the set fields, and delete.
- `crud.scooter.get` (called at backend/backend/app/api/v1/endpoints/rentals.py:61 and backend/app/api/v1/endpoints/feedbacks.py:89) and `crud.scooter.update_scooter_status` (called at backend/app/api/v1/endpoints/payments.py:167-169) are not part of this model. They are assumed to look a scooter up by id and set an existing scooter's status.
- A request field sent as an explicit `null` is treated like an unset field.
- Rental statuses are the four values ACTIVE, COMPLETED, CANCELLED and PAID. The enum's definition is not part of this model.
- Rental rows: the location fields of a rental update have no column and are dropped. The start time of a rental is never null.
- Settlement: `save_for_future` is read only to decide whether to save the card. The "invalid payment method" branch (backend/app/api/v1/endpoints/payments.py:130-133) is unreachable, because the request schema admits only `card` and `saved_card`.
- Revenue statistics: the `created_at`/`updated_at` columns are not modelled. `revenue_by_period` is four fixed buckets, not a string-keyed dictionary. The stored rows are snapshots of the payments and rentals passed in.
- Feedback: `updated_at` is not modelled. The joined user, scooter and handler names of the administrator views are not modelled. The free-text descriptions of the `/types` table are not modelled.
- `RentalConfigStore.ConfigStore.UpdateConfig`: the `rental_configs` router, which only forwards to the CRUD layer, is not modelled, and the row is addressed by its position.
- The legacy copy's rental endpoints other than `create_rental` (reading, updating and deleting through the router) are left out; their CRUD operations are modelled.
- CardRules.ValidateCardReply: states only that a true flag means the Luhn and CVV checks passed; the messages are not specified.
- Rows are kept in insertion order. Any SQL ordering other than `get_date_range`'s `ORDER BY date` is not modelled.
