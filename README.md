# Listing lifecycle of a real-estate brokerage server, in Dafny

The server brokers property listings between sellers (session role `user`),
verifying agents (`agent`) and administrators (`admin`). Each route handler
reads rows of a MySQL database, checks a guard and inserts or updates rows.
The handlers are the following:

- A seller submits a listing, which starts `pending` / `available`.
- An agent fixes its final and government amounts, and sellers and agents upload images.
- An agent verifies the listing. Two routes do this: one checks images, price and status; the other checks nothing.
- A buyer opens the booking form and posts a booking, which puts the property on `hold`.
- An agent cancels the bookings of a property.
- A buyer submits a payment, which is `paid`.
- An agent marks the property sold, which requires a `verified` payment.
- An admin adds, approves and rejects agents. Login picks a credential table by the posted role string and refuses agents that are not approved.

The model has five modules:

- `Records` (`records.dfy`): the rows (`Property`, `Image`, `Booking`,
  `Payment`, `Agent`) and the status strings the handlers write. Statuses are
  kept as strings, so the `'Sold'` written by mark-sold stays distinct from
  `'sold'`. It also holds the replies a handler can give: a redirect, a
  plain-text notice, the booking form, or Express's error response. It defines the JavaScript
  truthiness of an amount, the image count, and the bulk
  `UPDATE property_bookings ... WHERE property_id = ?`.
- `Access` (`access.dfy`): the pure pieces of login and registration.
- `Transitions` (`transitions.dfy`): one pure step function per handler, from
  the database (`Store`) and the request's inputs to the new database and the
  reply. Each `ensures` says which rows change, how, and that nothing else
  changes.
- `LedgerStore` (`ledger.dfy`): class `Ledger`, whose fields are the tables.
  Each state-changing handler is a method with `modifies this`; the booking
  form, which only reads, has none. It runs the handler's guards
  in the handler's order, and is proved to produce exactly the state and reply
  of its step function. The image uploads keep the handler's per-file loop.
- `Traces` (`traces.dfy`): request sequences (`Run`) and lemmas about them.
  These cover the invariants every handler keeps, and the points where the
  handlers depart from the intended lifecycle.

What the handlers guarantee, and where they depart from the intended
lifecycle, as this model proves it:

- No handler ever writes `verified` into a payment. So, starting from an empty
  database, mark-sold refuses every property after every sequence of requests
  (`RunNeverVerifies`, `SaleNeverCloses`).
- `POST /agent/verify/:id` sets any existing listing `live`, with no image,
  price or status check (`ForceLiveSkipsGuards`). The guarded route
  `/agent/verify-property/:id` only makes a priced, imaged, pending listing
  live (`VerifyListingGoesLiveComplete`). Every handler other than the
  unguarded verify route and fix-price keeps "live implies priced and imaged"
  (`ApplyKeepsLiveListingsComplete`). Those two break it
  (`ForceLiveSkipsGuards`, `FixPriceUnpricesLiveListing`).
- `POST /booking/:id` does not re-check availability. Only the GET form does,
  so a second post on a held property creates a second `hold` booking
  (`ReserveDoesNotRecheck`).
- Mark-sold accepts any verified payment of the property, even when the
  booking it completes has no payment (`MarkSoldIgnoresWhichBooking`). It
  writes status `Sold` with a capital S. With a free-text status column, no
  run ever stores status `sold` (`NeverLowerCaseSold`; see "## Left out"
  for an ENUM column).
- Cancel and fix-price check neither role nor state. Cancel re-opens a sold
  listing to bookings (`CancelReopensSoldListing`).

Where the code and the intended lifecycle disagree, the model follows the code:

- Submission does not validate fields. The intended rule refuses a listing
  with an empty required text field.
- Pricing is allowed in any status, and an unknown id is not refused. The
  intended rule allows pricing only while the listing is `pending`, and
  refuses an unknown property.
- Verification refuses an amount of 0 as well as NULL, provided the amount
  columns come back as JavaScript numbers (see "## Left out"). The intended
  rule asks only that both amounts are non-null.
- A booking on an unknown property id still inserts the booking row, unless
  the schema has a foreign key on `property_id`. The
  intended rule books only a `live` property whose booking_status is
  `available`.
- A payment is accepted for a booking in any state. The intended rule
  accepts it only for a `hold` booking of a property on `hold`.

Both upload routes run behind multer's `upload.array("images", 10)`. More
than ten files fail the request before the handler runs, whatever the role,
and Express sends its error response (`ServerError`). A request that is not
multipart leaves `req.files` undefined. The seller's handler then throws,
which also ends in `ServerError`, and the agent's handler refuses it with
"No images selected".

## Model

| member | source | states |
|---|---|---|
| `Records.ImageBatch` | server.js:690-699 | one image row per uploaded file, in file order, for the path's property and uploader |
| `Records.CountImagesPositive` | server.js:745-756 | the image-count guard (`imgCount === 0` refuses) passes exactly when some image row names the property |
| `Records.Truthy` | server.js:771-772 | JavaScript truthiness of an amount read back as a number: NULL and 0 fail the `!final_amount` / `!govt_amount` test |
| `Records.PricingFixed` | server.js:768-773 | the price check of verify-property: both amounts truthy |
| `Records.HasVerifiedPayment` | server.js:423-440 | mark-sold's `property_id = ? AND payment_status = 'verified'` query as an existential over the payment rows; its law for appended rows is `HasVerifiedPaymentAppend` |
| `Records.CountImages` | server.js:745-751 | `COUNT(*)` of the image rows of the property: never more than the rows, and all of them when it equals the row count |
| `Records.HasVerifiedPaymentAppend` | server.js:423-440 | mark-sold's payment query (one row that both names the property and is `verified`) finds a row in appended payments exactly when it finds one in the old rows or in the new ones |
| `Records.RestampBookings` | server.js:457-463 | the bulk booking update keeps every key, property and buyer, sets the status of every booking of the property and leaves all others untouched |
| `Access.LoginTable` | server.js:61-64 | role `admin` selects `admins`, `agent` selects `agents`, any other string selects `users` |
| `Access.LoginDecision` | server.js:75-91 | no row: invalid credentials; an `agent` row whose status is not `approved` is refused even with matching credentials; otherwise the session takes the posted role and the row |
| `Access.RegistrationCheck` | server.js:102-104 | registration is refused with "All fields are required" exactly when one of name, email, phone, password is missing or empty |
| `Transitions.SubmitListing` | server.js:212-260 | a non-user is redirected with no change; otherwise exactly one property is added under the next id with the caller as seller, `pending`/`available`, NULL amounts and agent, the ask or 0; nothing else changes |
| `Transitions.FixPrice` | server.js:310-322 | with no role or status guard, overwrites exactly the two amounts of an existing property; an unknown id changes nothing |
| `Transitions.TooManyFiles` | server.js:684-711 | multer's `maxCount` of 10 on the `images` field: a multipart upload with more files is refused before the handler |
| `Transitions.UploadSellerImages` | server.js:682-703 | more than ten files fail in multer with no change; a non-user changes nothing; an undefined `req.files` throws; otherwise appends one `seller` image row per file for the path's property and changes nothing else |
| `Transitions.UploadAgentImages` | server.js:709-735 | more than ten files fail in multer with no change; a non-agent changes nothing; a missing or empty upload is refused with no change; otherwise appends one `agent` image row per file |
| `Transitions.VerifyAllowed` | server.js:739-773 | the verify guards pass only for an agent on a property with an image row; for an agent on a `pending`, priced property they pass exactly when an image row exists |
| `Transitions.VerifyListing` | server.js:738-797 | changes the database only when the caller is an agent, an image exists, the property is `pending` and both amounts are truthy; then exactly status becomes `live` and agent_id the caller; each failed guard gives its own reply |
| `Transitions.ForceLive` | server.js:324-332 | any agent sets any existing property `live` and takes it over; no other check, no other change |
| `Transitions.BookingForm` | server.js:481-495 | the form is rendered exactly when the property exists with booking_status `available`; unknown property and already booked are refused |
| `Transitions.Reserve` | server.js:516-548 | adds exactly one `hold` booking under the next id, sets that property's booking_status to `hold`, redirects to its payment page; no availability check |
| `Transitions.CancelBooking` | server.js:499-515 | sets the property's booking_status to `available` and every booking of the property to `cancelled`, whatever their state; nothing else changes |
| `Transitions.SubmitPayment` | server.js:390-417 | an unknown booking is refused with no change; otherwise exactly one `paid` payment is appended with the booking's property; no property or booking changes |
| `Transitions.MarkSold` | server.js:420-479 | with no verified payment for the property nothing changes; otherwise the property gets booking_status `sold` and status `Sold` and every booking of it becomes `completed`; nothing else changes |
| `Transitions.SetAgentStatus` | server.js:614-632 | a non-admin changes nothing; an admin overwrites exactly the status of an existing agent |
| `Transitions.ApproveAgent` | server.js:614-622 | an admin sets an existing agent's status to `approved` |
| `Transitions.RejectAgent` | server.js:624-632 | an admin sets an existing agent's status to `rejected` |
| `Transitions.AddAgent` | server.js:337-355 | an admin adds exactly one agent under the next id, already `approved` |
| `Traces.ApplyKeepsWellFormed` | server.js:224-249 | every handler keeps every row id below the next AUTO_INCREMENT id of its table |
| `Traces.RunKeepsWellFormed` | server.js:224-249 | the same over any sequence of requests |
| `Traces.ApplyKeepsRow` | server.js:224-249 | no handler deletes a listing or changes its seller, text or ask, and none returns a non-pending listing to `pending` |
| `Traces.RunKeepsRow` | server.js:224-249 | the same over any sequence of requests |
| `Traces.ApplyKeepsStatusDomain` | server.js:443-448 | status stays within pending/live/Sold and booking_status within available/hold/sold |
| `Traces.RunKeepsStatusDomain` | server.js:443-448 | the same over any sequence of requests |
| `Traces.NeverLowerCaseSold` | server.js:446 | from an empty database no listing ever gets status `sold`: mark-sold writes `Sold` |
| `Traces.ApplyNeverVerifies` | server.js:406-412 | no handler adds or removes a verified payment for any property |
| `Traces.RunNeverVerifies` | server.js:406-412 | the same over any sequence of requests |
| `Traces.SaleNeverCloses` | server.js:423-440 | from an empty database mark-sold refuses every property after every sequence of requests, changing nothing |
| `Traces.UploadCounts` | server.js:682-735 | an accepted upload adds one to the image count of the path's property per file and nothing to any other property's; a refused upload changes no count |
| `Traces.VerifyListingGoesLiveComplete` | server.js:745-784 | a listing the guarded route makes live has an image and truthy amounts |
| `Traces.ApplyKeepsLiveListingsComplete` | server.js:738-797 | every handler but the unguarded verify route and fix-price keeps "live implies priced and imaged" |
| `Traces.ForceLiveSkipsGuards` | server.js:324-332 | on a listing without an image or a price the guarded route changes nothing, while the unguarded one makes it live and breaks "live implies priced and imaged" |
| `Traces.FixPriceUnpricesLiveListing` | server.js:310-322 | fix-price with no final amount on a live listing leaves it live and unpriced |
| `Traces.FixPriceLastWriteWins` | server.js:313-319 | two fix-price posts equal the second alone |
| `Traces.VerifyListingNotRepeatable` | server.js:759-775 | after a successful verification a second one is refused with "Fix price before verification" and changes nothing, so the first agent stays |
| `Traces.ReserveDoesNotRecheck` | server.js:516-548 | on a property already on hold the form refuses, but the post succeeds and leaves two `hold` bookings |
| `Traces.ReserveOnUnheldKeepsOneHold` | server.js:521-540 | on a property none of whose bookings is on hold, posting a booking leaves at most one hold |
| `Traces.ReserveThenCancel` | server.js:499-548 | reserve then cancel: the property is `available`, the new booking `cancelled`, the form accepts again |
| `Traces.CancelReopensSoldListing` | server.js:499-515 | cancel turns a sold listing's booking_status back to `available` and leaves its status as it was |
| `Traces.MarkSoldIgnoresWhichBooking` | server.js:423-428 | a hold booking with no payment is completed when some other payment of the property is verified |
| `Traces.PaidIsNotEnough` | server.js:390-440 | after a `paid` payment, mark-sold still refuses and changes nothing unless a verified payment already existed |
| `Traces.LifecycleStopsBeforeSale` | server.js:212-479 | from an empty database: listed pending, priced, imaged, verified live with the agent, reserved on hold, paid; mark-sold still refuses |
| `Traces.RejectedAgentCannotSignIn` | server.js:83-85 | an agent an admin rejected is refused at login |
| `Traces.ApprovedAgentSignsIn` | server.js:337-346 | an agent an admin added or approved passes the approval check |
| `LedgerStore.Ledger.SubmitListing` | server.js:212-260 | the new tables and reply are those of `Transitions.SubmitListing`; ids stay below the counters |
| `LedgerStore.Ledger.FixPrice` | server.js:310-322 | the new tables and reply are those of `Transitions.FixPrice` |
| `LedgerStore.Ledger.InsertImages` | server.js:690-699 | the per-file loop appends exactly the batch of image rows and changes no other table |
| `LedgerStore.Ledger.UploadSellerImages` | server.js:682-703 | the new tables and reply are those of `Transitions.UploadSellerImages` |
| `LedgerStore.Ledger.UploadAgentImages` | server.js:709-735 | the new tables and reply are those of `Transitions.UploadAgentImages` |
| `LedgerStore.Ledger.VerifyListing` | server.js:738-797 | the new tables and reply are those of `Transitions.VerifyListing` |
| `LedgerStore.Ledger.ForceLive` | server.js:324-332 | the new tables and reply are those of `Transitions.ForceLive` |
| `LedgerStore.Ledger.ShowBookingForm` | server.js:481-495 | changes nothing; renders the form exactly when the property exists and is `available` |
| `LedgerStore.Ledger.Reserve` | server.js:516-548 | the new tables and reply are those of `Transitions.Reserve` |
| `LedgerStore.Ledger.CancelBooking` | server.js:499-515 | the new tables and reply are those of `Transitions.CancelBooking` |
| `LedgerStore.Ledger.SubmitPayment` | server.js:390-417 | the new tables and reply are those of `Transitions.SubmitPayment` |
| `LedgerStore.Ledger.MarkSold` | server.js:420-479 | the new tables and reply are those of `Transitions.MarkSold` |
| `LedgerStore.Ledger.SetAgentStatus` | server.js:614-632 | the new tables and reply are those of `Transitions.SetAgentStatus` |
| `LedgerStore.Ledger.ApproveAgent` | server.js:614-622 | the new tables and reply are those of `Transitions.ApproveAgent` |
| `LedgerStore.Ledger.RejectAgent` | server.js:624-632 | the new tables and reply are those of `Transitions.RejectAgent` |
| `LedgerStore.Ledger.AddAgent` | server.js:337-355 | the new tables and reply are those of `Transitions.AddAgent` |

## Left out

- HTTP routing, sessions, cookies, redirects as HTTP responses, view rendering and static files: the session's role and user id are method parameters, and a reply is a value.
- Multer's disk storage and `Date.now()` file naming: an upload is the list of stored file names, or None when `req.files` is undefined.
- Files posted under a field name other than `images`: multer refuses them as an unexpected field. The model's upload is only the `images` field.
- Credential lookup against the SQL tables, including the agent-only `/agent/login` route: the row the query returns is a parameter of `LoginDecision`. The `users` INSERT of registration is left out too; only its required-field check is modelled.
- Dashboards, listings, search, localities, reports, property details and the `ORDER BY uploaded_by='agent'` main-image choice: these are read-only queries that change no state.
- Enquiry and feedback inserts: these are unguarded single-row tables that no lifecycle handler reads.
- Database error branches, the partial writes a failure between chained callbacks would leave, and concurrency: each handler is one sequential step applied in full. Uniqueness and foreign-key constraints of the schema are not modelled, because the schema is not part of this model.
- Column types of the amounts: the model assumes `final_amount` and `govt_amount` are numeric columns that the driver reads back as JavaScript numbers, so 0 is falsy. With mysql2's defaults a DECIMAL column comes back as a string such as `"0.00"`, and a VARCHAR column as `"0"`. Both are truthy, so verification would then accept a 0 amount. The schema is not part of this model.
- `parseFloat` and floating point: amounts are integers. A `market_amount` that does not parse is None and is stored as 0. A missing body field stored by fix-price is NULL (None).
- Column types of the statuses: the model assumes `status`, `booking_status` and the booking and payment status columns are free-text (VARCHAR) columns that store exactly the string written. If `properties.status` were `ENUM('pending','live','sold')`, MySQL's case-insensitive collation would store mark-sold's `'Sold'` as the member `'sold'`, and `NeverLowerCaseSold` would not describe that database. The schema is not part of this model.
- MySQL's case-insensitive string comparison: the model compares status strings exactly. No handler compares a status that another handler writes with different case.
- Path parameters that are not numeric ids: every id is a natural number.
