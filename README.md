# Paid-event registration and payment bookkeeping — a Dafny model

This project models the payment side of an event-management web application:

- **The backend payment router** (`PaymentRoutes`, `payment_routes.dfy`). It covers:
  - registration for a paid event, a chain of guards in a fixed order whose first failure decides the reply;
  - the field-wise payment status update, with its owner / organizer / admin authorization;
  - the per-event payment statistics;
  - the caller's payment list and the "has paid" check.

  The event table and the payment list are a `map` and a `seq` in the class `PaymentStore`. Its two writing handlers, `RegisterPaidEvent` and `UpdatePaymentStatus`, are imperative methods. Each is proved equal to a pure function (`Register`, `UpdateStatus`) of the old state. The properties are proved about those functions: the first failing guard decides, capacity is never exceeded, registrants stay distinct, the payment date is stamped once, and the statistics add up. Registration never creates a second completed payment for an (event, user) pair. A status update does not either, as long as every payment belongs to a registrant of its event and no pair has two payments; both handlers keep that invariant.
- **The analytics dashboard** (`AnalyticsDashboard`, `analytics_dashboard.dfy`). It covers:
  - the CSV export, an accumulator built line by line, proved against the report text;
  - a parser proving that the report can be read back into the numbers and categories it came from;
  - the top-five numbering of the best events;
  - the pie-slice colour cycle.
- **The payment form** (`PaymentPage`, `payment_page.dfy`). It covers:
  - the order of the submission checks;
  - the body it posts;
  - the classification of the reply;
  - the `loading` / `success` flags, kept in the class `PaymentPageState`.
- **Helpers.** `Decimal` (`decimal.dfy`) renders integers the way a JavaScript template literal does for magnitudes below 10^21, and parses them back. `Optional` (`optional.dfy`) holds the Option type.

Modelling conventions:

- A request field that may be left out, or sent empty, is the empty string. Both are falsy in JavaScript, and the code treats them alike.
- A nullable value is an `Option`.
- The clock is an integer `now`.
- The bearer token's content is a given `Caller` (user id and role).
- A payment is addressed by its position in the payment list, since nothing deletes payments.
- The generated transaction id is built as the code builds it: `TXN_<now>_<userId>`.

Notes on what the code does, which the model follows:

- Any non-cash method gives a "completed" payment, with or without a transaction id. When none is given, a generated one is stored.
- The backend asks only for name, e-mail and phone. The form also requires the address.
- `registeredUsers` is an array searched with `includes`, not a set.

## Model

| member | source | states |
|---|---|---|
| `PaymentRoutes.FindCompleted` | Event-Management-System_Final_Review/backend/src/routes/paymentRoutes.js:56-60 | the query for a completed payment of (event, user) yields the first such payment, and finds none exactly when none exists |
| `PaymentRoutes.FirstFailure` | Event-Management-System_Final_Review/backend/src/routes/paymentRoutes.js:30-69 | the reported error is a guard that fails and every guard ranked before it passes (missing event, free, past, already registered, full, already paid, incomplete contact); no error only when all guards pass |
| `PaymentRoutes.GeneratedTransactionId` | Event-Management-System_Final_Review/backend/src/routes/paymentRoutes.js:82 | the placeholder transaction id starts with `TXN_` |
| `PaymentRoutes.NewPayment` | Event-Management-System_Final_Review/backend/src/routes/paymentRoutes.js:71-85 | status is pending exactly for "Cash on Registration", otherwise completed; a payment date is set exactly when completed, and is `now`; amount and currency come from the event; the method defaults to GPay; the transaction id is never empty and is the caller's when given |
| `PaymentRoutes.Register` | Event-Management-System_Final_Review/backend/src/routes/paymentRoutes.js:29-97 | fails exactly when a guard fails, replying with the status (404 for a missing event, 400 otherwise) and the text of the first failing guard, and then writes nothing; on success appends exactly the new payment and appends the caller to that event's registrants, leaving every other event unchanged |
| `PaymentRoutes.FreeEventRejected` | Event-Management-System_Final_Review/backend/src/routes/paymentRoutes.js:35-38 | an unpaid or zero-price event is refused with 400 whatever the other inputs, and nothing is written |
| `PaymentRoutes.RegisterRespectsCapacity` | Event-Management-System_Final_Review/backend/src/routes/paymentRoutes.js:45-53 | after a successful registration the event is within its limit (0 = unlimited), the caller was not registered before and is now, and the registrant count grew by one |
| `PaymentRoutes.RegisterPreservesConsistency` | Event-Management-System_Final_Review/backend/src/routes/paymentRoutes.js:45-91 | registration keeps every registrant list duplicate-free and within its limit, every completed payment dated, and at most one completed payment per (event, user) |
| `PaymentRoutes.PaidPairIsRejected` | Event-Management-System_Final_Review/backend/src/routes/paymentRoutes.js:55-64 | once a completed payment exists for (event, user), the check reports it and registration of that pair fails without writing |
| `PaymentRoutes.RegisterThenCheck` | Event-Management-System_Final_Review/backend/src/routes/paymentRoutes.js:72-91 | after a successful registration the pair counts as paid exactly when the method was not cash, and a further registration of the pair fails |
| `PaymentRoutes.ApplyUpdate` | Event-Management-System_Final_Review/backend/src/routes/paymentRoutes.js:129-139 | only status, transaction id and payment date can change; status and transaction id change only when supplied; an existing date is never changed; the date changes exactly on a move to completed while unset, and becomes `now` |
| `PaymentRoutes.ApplyUpdateIdempotent` | Event-Management-System_Final_Review/backend/src/routes/paymentRoutes.js:130-135 | repeating an update changes nothing; a second "completed" keeps the first payment date |
| `PaymentRoutes.UpdateStatus` | Event-Management-System_Final_Review/backend/src/routes/paymentRoutes.js:105-146 | 404 exactly for an unknown payment; 500 exactly when its event is missing; 403 exactly when the caller is neither the payer, the event's creator nor an admin; success exactly otherwise, and then only that payment changes, by `ApplyUpdate`; on failure nothing changes |
| `PaymentRoutes.UpdatePreservesConsistency` | Event-Management-System_Final_Review/backend/src/routes/paymentRoutes.js:129-141 | an update leaves the events untouched and keeps every completed payment dated |
| `PaymentRoutes.RegisterKeepsPaymentsOfRegistrants` | Event-Management-System_Final_Review/backend/src/routes/paymentRoutes.js:45-91 | if every payment belongs to a registrant of its event and no pair has two payments, registration keeps both, and so at most one completed payment per (event, user) |
| `PaymentRoutes.UpdateKeepsPaymentsOfRegistrants` | Event-Management-System_Final_Review/backend/src/routes/paymentRoutes.js:105-146 | under the same invariant an update keeps it, keeps at most one completed payment per (event, user), and never replies 500 |
| `PaymentRoutes.UpdateCanDuplicateCompleted` | Event-Management-System_Final_Review/backend/src/routes/paymentRoutes.js:123-139 | without that invariant, the organizer completing a pending payment of a pair that already has a completed one leaves two completed payments |
| `PaymentRoutes.Where` | Event-Management-System_Final_Review/backend/src/routes/paymentRoutes.js:184-194 | a query or filter keeps exactly the selected payments and is no longer than its input |
| `PaymentRoutes.WhereCounts` | Event-Management-System_Final_Review/backend/src/routes/paymentRoutes.js:184-194 | each selected payment occurs in the result as often as in the input, any other not at all |
| `PaymentRoutes.WhereAppend` | Event-Management-System_Final_Review/backend/src/routes/paymentRoutes.js:188-193 | filtering a concatenation is the concatenation of the filtered parts, so the input order is kept |
| `PaymentRoutes.StatsOf` | Event-Management-System_Final_Review/backend/src/routes/paymentRoutes.js:188-196 | total is the number of payments, each status count is at most the total, and revenue is 0 when nothing is completed |
| `PaymentRoutes.StatusCountsAtMostTotal` | Event-Management-System_Final_Review/backend/src/routes/paymentRoutes.js:188-192 | completed + pending + failed never exceeds total |
| `PaymentRoutes.StatusCountsCoverTotal` | Event-Management-System_Final_Review/backend/src/routes/paymentRoutes.js:188-192 | when every status is one of the three, the three counts sum to the total |
| `PaymentRoutes.StatsSnoc` | Event-Management-System_Final_Review/backend/src/routes/paymentRoutes.js:188-196 | one more payment adds one to the total and to its status's count, and its amount to the revenue only when completed |
| `PaymentRoutes.RegisterUpdatesEventStats` | Event-Management-System_Final_Review/backend/src/routes/paymentRoutes.js:72-91 | a successful registration adds one payment to the event's statistics: completed with the price as revenue, or pending (cash) with revenue unchanged |
| `PaymentRoutes.EventPayments` | Event-Management-System_Final_Review/backend/src/routes/paymentRoutes.js:167-198 | 404 exactly for a missing event, 403 exactly when the caller is neither its creator nor an admin; success exactly otherwise, with the payments selected by event id and the statistics `StatsOf` of exactly that list |
| `PaymentRoutes.MyPayments` | Event-Management-System_Final_Review/backend/src/routes/paymentRoutes.js:154-160 | exactly the caller's payments, each as often as stored |
| `PaymentRoutes.CheckPaid` | Event-Management-System_Final_Review/backend/src/routes/paymentRoutes.js:205-219 | hasPaid exactly when a completed payment exists for (event, user), and then the payment returned is one such |
| `PaymentRoutes.PaymentStore.RegisterPaidEvent` | Event-Management-System_Final_Review/backend/src/routes/paymentRoutes.js:23-102 | the imperative handler's reply and new state are those of `Register` on the old state |
| `PaymentRoutes.PaymentStore.UpdatePaymentStatus` | Event-Management-System_Final_Review/backend/src/routes/paymentRoutes.js:105-151 | the imperative handler's reply and new state are those of `UpdateStatus` on the old state |
| `Decimal.NatToString` | Event-Management-System_Final_Review/frontend/src/components/AnalyticsDashboard.js:49-52 | a rendered number is one or more digits with no leading zero |
| `Decimal.IntToString` | Event-Management-System_Final_Review/frontend/src/components/AnalyticsDashboard.js:49-57 | a rendered integer holds only digits and a leading minus for negatives, so never a comma or line break |
| `Decimal.ParseIntToString` | Event-Management-System_Final_Review/frontend/src/components/AnalyticsDashboard.js:49-57 | rendering an integer and parsing it back gives the integer |
| `AnalyticsDashboard.ReportText` | Event-Management-System_Final_Review/frontend/src/components/AnalyticsDashboard.js:44-61 | the report is empty exactly for null data, and otherwise begins with the title and the summary heading |
| `AnalyticsDashboard.GenerateCsvReport` | Event-Management-System_Final_Review/frontend/src/components/AnalyticsDashboard.js:44-61 | the accumulator built line by line equals the report text |
| `AnalyticsDashboard.ParseCategoryLinesOf` | Event-Management-System_Final_Review/frontend/src/components/AnalyticsDashboard.js:56-58 | the category lines read back to the category list, one `name,value` line per item in input order |
| `AnalyticsDashboard.ReportRoundTrip` | Event-Management-System_Final_Review/frontend/src/components/AnalyticsDashboard.js:47-58 | every report reads back to its four summary numbers (a missing one as 0) and its categories (none when absent), when names hold no comma or line break |
| `AnalyticsDashboard.Ranked` | Event-Management-System_Final_Review/frontend/src/components/AnalyticsDashboard.js:329-333 | every entry is paired with its rank, counted from the given start, in input order |
| `AnalyticsDashboard.TopEventsShown` | Event-Management-System_Final_Review/frontend/src/components/AnalyticsDashboard.js:329-333 | the list shows min(5, n) entries, the i-th numbered i+1 and equal to the i-th input |
| `AnalyticsDashboard.SliceColor` | Event-Management-System_Final_Review/frontend/src/components/AnalyticsDashboard.js:265-266 | every slice gets one of the palette's colours |
| `AnalyticsDashboard.SliceColorsRepeatEvery8` | Event-Management-System_Final_Review/frontend/src/components/AnalyticsDashboard.js:74 | two slices share a colour exactly when their positions agree modulo 8 |
| `PaymentPage.Set` | Event-Management-System_Final_Review/frontend/src/components/PaymentPage.js:140-172 | a field change replaces that one contact field and keeps the other three |
| `PaymentPage.Validate` | Event-Management-System_Final_Review/frontend/src/components/PaymentPage.js:31-58 | a body is sent only with all four contact fields filled and, unless paying cash, a transaction id; the body carries the chosen method, the whole contact info and the transaction id (empty = absent); a block shows one of the two alerts |
| `PaymentPage.EmptyFieldBlocks` | Event-Management-System_Final_Review/frontend/src/components/PaymentPage.js:32-36 | any empty contact field blocks with the contact alert, whatever the method and transaction id (so that alert takes precedence) |
| `PaymentPage.FilledFormBlockedOnlyForMissingTransaction` | Event-Management-System_Final_Review/frontend/src/components/PaymentPage.js:39-42 | with the contact filled, submission is blocked exactly for a non-cash method without a transaction id, and then with the transaction alert |
| `PaymentPage.SentBodyPassesBackendChecks` | Event-Management-System_Final_Review/frontend/src/components/PaymentPage.js:54-58 | a sent body always passes the backend's contact check, and a digital payment always carries its own transaction id |
| `PaymentPage.Classify` | Event-Management-System_Final_Review/frontend/src/components/PaymentPage.js:64-71 | success exactly when the reply has a `msg`; otherwise the alert is the reply's `error`, or "Payment failed" |
| `PaymentPage.ClassifyRegisterReply` | Event-Management-System_Final_Review/frontend/src/components/PaymentPage.js:64-71 | for a register reply with a non-empty error text, the form reports success exactly when the backend registered, and otherwise shows the backend's error |
| `PaymentPage.RegisterErrorsAreShown` | Event-Management-System_Final_Review/frontend/src/components/PaymentPage.js:64-71 | every register reply is classified as the backend decided, and its error text is shown rather than the fallback |
| `PaymentPage.PaymentPageState.constructor` | Event-Management-System_Final_Review/frontend/src/components/PaymentPage.js:10-20 | the page starts with empty contact fields, GPay as the method, no transaction id, and neither flag set |
| `PaymentPage.PaymentPageState.ChangePaymentMethod` | Event-Management-System_Final_Review/frontend/src/components/PaymentPage.js:189 | the method becomes the chosen one; contact, transaction id and flags stay |
| `PaymentPage.PaymentPageState.ChangeTransactionId` | Event-Management-System_Final_Review/frontend/src/components/PaymentPage.js:212 | the transaction id becomes the typed one; contact, method and flags stay |
| `PaymentPage.PaymentPageState.ChangeContact` | Event-Management-System_Final_Review/frontend/src/components/PaymentPage.js:140 | the state's contact info becomes `Set` of the old one; method, transaction id and flags stay |
| `PaymentPage.PaymentPageState.HandlePayment` | Event-Management-System_Final_Review/frontend/src/components/PaymentPage.js:28-78 | a blocked form sends nothing, shows the alert and keeps the flags; otherwise the validated body is sent, loading ends false, success is set exactly on a `msg` reply, and a failure or network error shows its alert |

## Left out

- Token handling (`authMiddleware`, `jwt.verify`, the 401 replies): the caller's id and role are given inputs.
- Persistence: `populate`, `save`, ObjectId `toString` comparisons and the schema validation in the Payment and Event models. The Payment and Event models are not part of this model; a value the schema would refuse is stored as given.
- `PaymentRoutes.MyPayments`: the newest-first sort by `createdAt` is not modelled; the list is in insertion order.
- `PaymentRoutes.EventPayments`: the same newest-first sort is not modelled either; the list is in insertion order (the statistics do not depend on it).
- The event routes (creating, deleting, registering and cancelling outside payment) are not part of this model. A route that removes a registrant or deletes an event can break the invariant of `PaymentRoutes.UpdateKeepsPaymentsOfRegistrants`, and then `PaymentRoutes.UpdateCanDuplicateCompleted` shows an update creating a second completed payment.
- The 500 replies carrying raw exception text: database errors are not modelled. These include a malformed id in `findById`/`findOne`, a schema failure in `save()` and a lost connection, in every handler. The one 500 the model keeps is a status update of a payment whose event no longer exists; it replies with a fixed placeholder text.
- Concurrency: each handler is one atomic step. The race between the duplicate/capacity checks and the writes is not modelled.
- Clock and randomness: `new Date()` and `Date.now()` are the integer `now`; dates are compared as integers.
- Prices, amounts and summary numbers are integers; floating-point values and locale formatting (`toLocaleString`, the pie label's percentage) are not modelled.
- `Decimal.IntToString`: JavaScript writes an integral number of magnitude 10^21 or more in exponent form (`1e+21`); the model always writes plain digits, so its report differs from the code's for such summary values or category counts.
- `AnalyticsDashboard.ReportRoundTrip`: holds only for category names without commas or line breaks, because the export writes fields unquoted.
- Frontend effects: React rendering, charts and animation, `fetch` (the reply is a parameter; `None` is a network failure), `alert`, `setTimeout`, navigation, and the Blob download with its date-stamped file name.
- `PaymentPage.PaymentPageState.HandlePayment`: the button is disabled while `loading` or `success` is set; the model does not forbid a call in that state.
