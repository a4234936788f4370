# Car-rental booking lifecycle, in Dafny

This project models the booking core of a small car-rental REST backend:
the booking record and its pre-save cost hook, the request-body schemas,
and the route handlers that create, read, summarise, update and cancel
bookings for the authenticated caller.

Without the HTTP and database plumbing, each handler is a deterministic
decision over three inputs: the stored record (or its absence), the
caller's user id, and the request body. The answer is either a typed
failure (`NotFound`, `Forbidden`, `Invalid`, each carrying the handler's
message) or a value, together with the new store.

- `common.dfy` (`Common`): `Option`.
- `booking_model.dfy` (`BookingModel`) covers the record. It has the
  `status` enum and its strings, the `Booking` datatype and `Draft`
  (a document whose paths may still be unset). It also has the
  `status` default, the pre-save hook and schema validation. The
  class `Document` holds a document whose `PreSave` and `Save` methods
  update its paths in place.
- `validators.dfy` (`Validators`) covers the request schemas
  `bookingCreate`, `bookingUpdate` and `userAuthSchema`. Each one is
  a function from a JSON body (a map from keys to values) to the data
  it extracts, or `None` when the body is rejected.
- `booking_routes.dfy` (`BookingRoutes`) covers the handlers. The check
  chains are pure functions (`GetOne`, `UpdateCheck`, `CancelCheck`).
  `Owned` is the query that finds the caller's bookings. The summary is
  specified by functions and computed by the loop `Tally`. The class
  `BookingStore` holds a map from id to `Booking` and the next fresh
  id. Its methods are the handlers. Its invariant `Valid()` says that
  every stored booking is within the create bounds and has
  `totalCost == rentPerDay * days`.

The model follows the code's status rule: the only refused change is
from `completed` or `cancelled` back to `booked`. So `cancelled` to
`completed` is accepted, as is any status to itself: the handler at
routes/booking.routes.js:211-219 refuses only a return to `booked`. A foreign owner
gets `Forbidden`, with the same message text as `NotFound` for single
reads and its own message for update and cancel. Cancelling checks
"already cancelled" before it checks ownership.

## Model

| member | source | states |
|---|---|---|
| `BookingModel.StatusFromName` | models/booking.model.js:21-24 | a string is a status iff it is one of `booked`, `completed`, `cancelled` |
| `BookingModel.StatusNameRoundTrip` | models/booking.model.js:21-24 | enum strings and statuses correspond one to one, in both directions |
| `BookingModel.ApplyDefaults` | models/booking.model.js:25 | a new document without a status gets `booked`, and nothing else changes |
| `BookingModel.PreSaveHook` | models/booking.model.js:33-35 | only `totalCost` changes; it is set iff days and rent are, and then equals `rentPerDay * days` |
| `BookingModel.PreSaveHookOnlyCost` | models/booking.model.js:33-35 | the hook leaves owner, car name, days, rent and status untouched |
| `BookingModel.PreSaveHookIdempotent` | models/booking.model.js:33-35 | running the hook twice gives what running it once gives |
| `BookingModel.Validate` | models/booking.model.js:3-31 | a document is accepted iff all six required paths are set and `carName` is not the empty string (which `required` treats as missing), and the record carries exactly those values |
| `BookingModel.SaveAsWritten` | models/booking.model.js:27-35 | with validation ahead of the hook, a document is saved iff it already validates (so it already had a `totalCost`), and the saved record is cost-consistent |
| `BookingModel.CreateRejectedAsWritten` | models/booking.model.js:27-35 | with validation ahead of the hook, a new document without `totalCost` is never saved (see Findings) |
| `BookingModel.Saved` | models/booking.model.js:33-35 | with the hook ahead of validation, a document is saved iff owner, a non-empty name, days, rent and status are set, and then `totalCost == rentPerDay * days` |
| `BookingModel.SavedFixesConsistentRecords` | models/booking.model.js:33-35 | saving a record with a non-empty name that already satisfies the cost invariant returns it unchanged |
| `BookingModel.HondaCityScenario` | models/booking.model.js:25-35 | the 3 x 1500 create is rejected as written and saved as `booked` at 4500 when corrected |
| `BookingModel.CreateScenarioTotals` | models/booking.model.js:34 | 5 x 1200 gives 6000, 2 x 2000 gives 4000, 3 x 1500 gives 4500 |
| `BookingModel.Document.constructor` | models/booking.model.js:21-25 | a new document holds the given paths with the status default applied |
| `BookingModel.Document.PreSave` | models/booking.model.js:33-35 | the in-place hook leaves the document equal to the hook applied to its old paths |
| `BookingModel.Document.Save` | models/booking.model.js:33-35 | saving runs the hook, then returns what validation of the hooked document accepts |
| `Validators.StatusOf` | utils/utils.js:43 | a value is accepted iff it is one of the strings `booked`, `completed`, `cancelled`, and then it is the enum string of the status it yields |
| `Validators.BookingCreate` | utils/utils.js:25-32 | a body is accepted iff `carName` is a 2-50 character string, `days` a number in 1..365 and `rentPerDay` a number in 100..2000; the data are the body's values |
| `Validators.CreateCostBounds` | utils/utils.js:25-32 | details within the create bounds cost between 100 and 730000 |
| `Validators.AcceptedCreateCost` | utils/utils.js:25-32 | every accepted create body yields a cost between 100 and 730000 |
| `Validators.BookingUpdate` | utils/utils.js:39-47 | a body is accepted iff every sent schema key passes its check and at least one is sent; the patch carries exactly the sent keys, within the create bounds, and no cost |
| `Validators.CreateBodyIsValidUpdate` | utils/utils.js:39-43 | a body `bookingCreate` accepts (with no bad status) is also an accepted update touching the car details |
| `Validators.NoRecognisedKeyRejected` | utils/utils.js:44-47 | a body with none of the four keys is rejected |
| `Validators.StatusOnlyBody` | utils/utils.js:39-47 | a body holding only `status` is accepted iff it names a status, and patches only the status |
| `Validators.UserAuth` | utils/utils.js:19-22 | credentials are accepted iff the username has at least 3 characters and the password at least 6 |
| `BookingRoutes.WellFormedCostBounds` | models/booking.model.js:33-35 | a stored booking's cost lies between 100 and 730000 |
| `BookingRoutes.Owned` | routes/booking.routes.js:119 | the caller's bookings, each as stored and owned by the caller, in strictly increasing id order |
| `BookingRoutes.OwnedComplete` | routes/booking.routes.js:119 | every booking of the caller is among those found |
| `BookingRoutes.OwnedExact` | routes/booking.routes.js:119 | the bookings found are exactly the caller's |
| `BookingRoutes.OwnedEmptyIffNoneOwned` | routes/booking.routes.js:62-68 | the caller's query is empty iff no stored booking belongs to the caller |
| `BookingRoutes.GetOne` | routes/booking.routes.js:96-116 | absent id gives NotFound, foreign owner Forbidden with the same message, otherwise the stored record unchanged |
| `BookingRoutes.WithStatus` | routes/booking.routes.js:83 | the filter keeps exactly the bookings whose status is wanted |
| `BookingRoutes.SummaryOf` | routes/booking.routes.js:61-93 | NotFound iff the caller's bookings are empty; otherwise the caller's id, a count no larger than the bookings, and as upcoming exactly the booked ones |
| `BookingRoutes.CostSplitsByStatus` | routes/booking.routes.js:76-81 | the total cost is what the summary counts plus what cancelled bookings cost |
| `BookingRoutes.CountSplitsByStatus` | routes/booking.routes.js:73-82 | every booking is either counted by the summary (booked or completed) or cancelled, so the two counts add up to the total |
| `BookingRoutes.SummaryExcludesCancelled` | routes/booking.routes.js:73-88 | the summary's count is the caller's bookings less the cancelled ones, and its spend is their total cost less what the cancelled ones cost |
| `BookingRoutes.SumCostAppend` | routes/booking.routes.js:80 | the cost of a concatenation is the sum of the costs |
| `BookingRoutes.WithStatusSnoc` | routes/booking.routes.js:83 | filtering one more booking appends it exactly when its status is wanted |
| `BookingRoutes.SummaryStep` | routes/booking.routes.js:73-82 | each loop step adds 1 and the booking's cost exactly when it is booked or completed |
| `BookingRoutes.Tally` | routes/booking.routes.js:70-82 | the loop yields the number of booked and completed bookings and the sum of their costs |
| `BookingRoutes.CancelledAddsNothing` | routes/booking.routes.js:76-81 | a cancelled booking changes neither count nor spend |
| `BookingRoutes.SummaryScenario` | routes/booking.routes.js:61-93 | booked 4500, completed 6000, cancelled 4000 gives 2 bookings, 10500 spent and the booked one upcoming |
| `BookingRoutes.StatusChangeAllowed` | routes/booking.routes.js:211-219 | a change is allowed iff it does not lead to `booked` from another status |
| `BookingRoutes.TransitionTable` | routes/booking.routes.js:211-219 | of the nine status pairs only completed to booked and cancelled to booked are refused |
| `BookingRoutes.UpdateCheck` | routes/booking.routes.js:182-219 | checks in order, each with its own failure: absent (NotFound), not owner (Forbidden), schema (Invalid), locked details of a closed booking, ahead of any status (Invalid), return of a closed booking to booked (Invalid); success iff all pass, with the validated patch |
| `BookingRoutes.Priced` | routes/booking.routes.js:221-225 | only the patch's cost changes: when days or rent is patched it becomes the merged days times the merged rent, else the patch is unchanged |
| `BookingRoutes.Merge` | routes/booking.routes.js:227 | each field the patch carries overwrites the record's; the owner never changes |
| `BookingRoutes.UpdateResult` | routes/booking.routes.js:179-232 | succeeds iff the check chain does, fails with the chain's failure, and a success keeps the stored owner, who is the caller |
| `BookingRoutes.UpdatedRecord` | routes/booking.routes.js:221-227 | a successful update overwrites patched fields, keeps the rest, recomputes cost iff days or rent is patched, else keeps it |
| `BookingRoutes.UpdatePreservesWellFormed` | routes/booking.routes.js:221-227 | an update keeps a booking within the bounds and `totalCost == rentPerDay * days` |
| `BookingRoutes.UpdateOwnershipIsolation` | routes/booking.routes.js:189-194 | an update by anyone but the owner fails Forbidden |
| `BookingRoutes.StatusOnlyUpdate` | routes/booking.routes.js:211-227 | a status-only update by the owner succeeds iff the status rule allows it, and then changes only the status |
| `BookingRoutes.UpdateScenario` | routes/booking.routes.js:221-227 | 3 x 1500 patched with 4 days at 1600 becomes 6400 |
| `BookingRoutes.CancelCheck` | routes/booking.routes.js:246-267 | absent gives NotFound, already cancelled gives Invalid before ownership, foreign owner Forbidden; otherwise only the status becomes cancelled |
| `BookingRoutes.CancelTwiceFails` | routes/booking.routes.js:255-260 | after a successful cancel, cancelling again fails Invalid for any caller |
| `BookingRoutes.CancelPreservesWellFormed` | routes/booking.routes.js:268 | cancelling keeps a booking well-formed |
| `BookingRoutes.BookingStore.Create` | routes/booking.routes.js:12-35 | a rejected body answers Invalid and changes nothing; otherwise one record is added under a fresh id, owned by the caller, `booked`, costing days x rent, and the id and cost are answered |
| `BookingRoutes.BookingStore.GetById` | routes/booking.routes.js:141-164 | the path form answers as the single lookup and changes nothing |
| `BookingRoutes.BookingStore.List` | routes/booking.routes.js:119-129 | answers exactly the caller's bookings, or NotFound iff the caller has none |
| `BookingRoutes.BookingStore.Summary` | routes/booking.routes.js:61-93 | NotFound iff no stored booking belongs to the caller; else count and spend over booked and completed ones, and the booked ones as upcoming |
| `BookingRoutes.BookingStore.Query` | routes/booking.routes.js:55-129 | `summary=true` wins over `bookingId`, which wins over the full list |
| `BookingRoutes.BookingStore.Update` | routes/booking.routes.js:179-232 | a failure leaves the store unchanged; a success stores exactly the updated record and keeps every booking well-formed |
| `BookingRoutes.BookingStore.Cancel` | routes/booking.routes.js:244-274 | a failure leaves the store unchanged; a success sets only that booking's status to cancelled |
| `BookingRoutes.LifecycleScenario` | routes/booking.routes.js:9-274 | create at 4500; a stranger's read is Forbidden; repricing to 4 x 1600 gives 6400; after completing, a car-name edit is refused; after cancelling, a return to booked is refused, and so is a second delete |

## Left out

- HTTP status codes, response envelopes and the `Internal` failure (500) are not modelled. Each handler answers a typed failure carrying its message, or a value.
- Store errors and malformed ids that make `findById` throw are not modelled. Ids are natural numbers handed out in sequence, so id order is insertion order.
- `BookingRoutes.Owned`: `Booking.find({userId})` has no sort, so the order of the list the source returns is the database's natural order and is not specified. The model fixes one order, increasing id; only the set of bookings returned is what the source promises.
- The authentication middleware (`middleware/auth.js`) is not part of this model. The caller's user id is a plain parameter.
- `routes/user.routes.js` (password hashing, token signing, the username lookup) and `index.js` are not part of this model. `userAuthSchema` is modelled as `Validators.UserAuth`.
- `connectDB` is left out because it only opens a database connection.
- The read-then-write gap between `findById` and `findByIdAndUpdate` is not modelled. Each handler runs atomically and one at a time.
- JavaScript numbers are modelled as integers. A fractional `days` or `rentPerDay`, which the schemas do not reject, is not modelled.
- String lengths are counted as `|s|` over `seq<char>`, that is in Unicode scalar values. The schemas measure JavaScript `.length`, in UTF-16 code units. So a car name, username or password with characters outside the Basic Multilingual Plane is measured shorter here than by the schema. For example, 25 emoji count 25 here and 50 there.
- JSON values other than strings and integers (booleans, null, arrays, objects) are one value, `JOther`, which every field rejects.
- Query strings are reduced to what the handler tests: `summary` equal to `"true"`, and `bookingId` present and non-empty.

## Findings

| source | as written | input that shows it | evidently intended | confidence | as-written member | corrected member |
|---|---|---|---|---|---|---|
| models/booking.model.js:27-35 | `totalCost` is a required path that only the `pre("save")` hook fills in. Mongoose runs schema validation as a built-in pre-save step ahead of user hooks, so validation sees `totalCost` unset and rejects the document. `Booking.create` in `POST /bookings` then throws, and the handler answers 500. | `POST /bookings` with `{carName: "Honda City", days: 3, rentPerDay: 1500}` | the hook fills in `totalCost` before validation checks it, so the create succeeds with `totalCost` 4500 | medium: rests on Mongoose's documented hook order; not executed | `BookingModel.SaveAsWritten`, `BookingModel.CreateRejectedAsWritten` | `BookingModel.Saved` (used by `Document.Save` and `BookingStore.Create`) |
