# Listing reservation workflow

A model of the reservation logic of the listing page of a short-term-rental
booking application (`src/components/card/ListingClient.tsx`). It has three parts:

- **Disabled dates** (module `Availability`). Every existing reservation of
  the listing is expanded into each calendar day it covers, both ends
  included. The results are concatenated in reservation order.
- **Total price** (module `Pricing`). Once both ends of the selected range are
  known, the total is the number of nights times the daily price. A
  same-day selection (or a zero price) leaves the total at the daily price.
- **Submission controller** (module `ListingClient`, class
  `ListingController`). It holds the component's `isLoading`, `dateRange` and
  `totalPrice` state. Every external effect goes into an ordered trace:
  opening the sign-in sheet, the POST to `/api/reservations/`, the toasts,
  `router.refresh()` and `router.push("/trips")`.

Calendar dates are integer day numbers (module `Days`).
`differenceInCalendarDays(end, start)` becomes `end - start`.
`eachDayOfInterval` becomes the ascending list `start, start + 1, …, end`.

Three behaviours of the code worth noting:

- The disabled dates form a list, not a set. A day booked by two
  overlapping reservations appears twice (`OverlapDuplicates`).
- The price rule tests that the day count is non-zero, not positive. So a
  reversed range gives a negative total (`ReversedRangeNegative`).
- The request body's key is `listingID`.

The POST settling is an input: `Resolve(success)`. The ghost field `pending`
counts requests sent and not yet settled. `Valid()` ties that count to the
effect trace: every settled request produced exactly one toast. `Valid()`
also says that a complete range's total is never stale.

The submit handler itself has no guard against a second call. The guard is
the `disabled={isLoading}` prop on the submit control. So
`OnCreateReservation` models the handler as written, and `Submit` models a
press on the control. Of the two submission entry points, only `Submit` keeps `SingleFlight()`: at most one
request in flight, with loading on exactly while it is in flight.

The total is recomputed whenever the selected range changes. That covers
`ChangeDate` and also the reset to the initial range after a success.

## Model

| member | source | states |
|---|---|---|
| `Days.EachDay` | src/components/card/ListingClient.tsx:102-105 | a reservation expands to `end - start + 1` days; the i-th is `start + i` (ascending, inclusive) |
| `Days.EachDayMembership` | src/components/card/ListingClient.tsx:102-105 | a day is in the expansion iff it lies between start and end inclusive |
| `Days.EachDayMultiplicity` | src/components/card/ListingClient.tsx:102-105 | each day of the interval occurs exactly once in its expansion, any other day never |
| `Availability.CollectDisabledDates` | src/components/card/ListingClient.tsx:98-111 | the loop that starts from `[]` and appends each reservation's days builds exactly the in-order concatenation `DisabledDates` |
| `Availability.DisabledDatesAppend` | src/components/card/ListingClient.tsx:101-108 | the disabled dates of two reservation lists joined are the two results joined, in order |
| `Availability.DisabledDatesLength` | src/components/card/ListingClient.tsx:99-110 | the list length is Σ (end − start + 1) over the reservations; with no reservations (the default at line 33) it is empty |
| `Availability.DisabledDatesMembership` | src/components/card/ListingClient.tsx:101-108 | a day is disabled iff some reservation covers it (both directions) |
| `Availability.DisabledDatesMultiplicity` | src/components/card/ListingClient.tsx:101-108 | each day occurs once per reservation covering it |
| `Availability.OverlapDuplicates` | src/components/card/ListingClient.tsx:107 | a day covered by two reservations occurs at least twice: duplicates are kept |
| `Availability.DisjointDisabledDates` | src/components/card/ListingClient.tsx:99-110 | for pairwise disjoint reservations no day repeats, and the set of disabled days has Σ (end − start + 1) members |
| `Availability.TwoBookingsExample` | src/components/card/ListingClient.tsx:99-110 | bookings d..d+2 and d+4 disable exactly d, d+1, d+2, d+4; d+3 stays selectable |
| `Pricing.TotalFor` | src/components/card/ListingClient.tsx:79-88 | same-day range costs the daily price; otherwise nights × price, including a zero price (the price test is redundant) |
| `Pricing.NextTotalStable` | src/components/card/ListingClient.tsx:77-92 | re-running the price effect on the same range changes nothing; for a complete range the result ignores the previous total (no stale totals) |
| `Pricing.StayCost` | src/components/card/ListingClient.tsx:84-85 | a stay of n ≥ 1 nights costs n × price |
| `Pricing.ThreeNightsExample` | src/components/card/ListingClient.tsx:84-85 | three nights at 100 cost 300 |
| `Pricing.MinimumCharge` | src/components/card/ListingClient.tsx:84-88 | for a positive price, a forward range costs at least one day's price |
| `Pricing.MonotoneInLength` | src/components/card/ListingClient.tsx:79-88 | for a positive price, a range with more nights never costs less, reversed ranges included |
| `Pricing.ShiftInvariant` | src/components/card/ListingClient.tsx:79-82 | the total depends only on the range's length, not its position |
| `Pricing.ReversedRangeNegative` | src/components/card/ListingClient.tsx:79-85 | a reversed range with positive price gives a negative total (no clamp) |
| `ListingClient.SuccessEffectsCounts` | src/components/card/ListingClient.tsx:55-61 | the success path fires no request and exactly one outcome toast |
| `ListingClient.ListingController.constructor` | src/components/card/ListingClient.tsx:24-37 | not loading, total is the daily price, range is today–today, no effects; invariants hold |
| `ListingClient.ListingController.OnCreateReservation` | src/components/card/ListingClient.tsx:41-54 | no user: only the sign-in sheet opens, state unchanged; user: loading on and exactly one POST of the current request, whose total matches the range |
| `ListingClient.ListingController.Submit` | src/components/card/ListingClient.tsx:142-145 | a press while loading changes nothing; otherwise the handler runs; at most one request stays in flight |
| `ListingClient.ListingController.Resolve` | src/components/card/ListingClient.tsx:55-67 | success: toast, range reset (total back to the price), refresh, push `/trips`; failure: one error toast, range and total unchanged; loading off either way |
| `ListingClient.ListingController.ChangeDate` | src/components/card/ListingClient.tsx:139-141 | the new range is stored; a complete range sets the total to `TotalFor` of it, an incomplete one leaves the total unchanged; no effect fires |
| `ListingClient.SignedOutSubmission` | src/components/card/ListingClient.tsx:42-44 | signed out: the only effect is opening the sign-in sheet; not loading, range and total untouched |
| `ListingClient.SuccessfulReservation` | src/components/card/ListingClient.tsx:46-67 | one POST with the range's total, then toast, refresh, push `/trips`; range reset, not loading |
| `ListingClient.FailedReservation` | src/components/card/ListingClient.tsx:62-67 | one POST, one error toast, no navigation; range and total kept, not loading |
| `ListingClient.DoublePress` | src/components/card/ListingClient.tsx:145 | two presses before the request settles send exactly one POST |

## Left out

- JSX rendering and layout (lines 113-151): presentation only. `ListingReservation` is not part of this model. Its submit control is taken to ignore presses while `disabled` is true.
- The `category` lookup (lines 94-96): the `categories` table is not part of this model.
- `src/actions/getCurrentUser.ts`: session and database lookup, I/O only. The model takes the current user as a constructor parameter. (Its `findUnique` result is not awaited, so the null check after it never fires. Its `catch` returns `undefined`.)
- axios, react-hot-toast, the Next.js router and the sign-in sheet store are recorded as effects in a trace. The POST's outcome is the `success` input to `Resolve`. The error value it may carry is not modelled. The external calls are taken never to throw: in the code, the `.catch` (lines 62-64) would also catch a throw from `router.refresh` or `router.push` inside the `.then` handler and show an error toast after the success toast; the model has no such path.
- JS `Date` values, times of day and time zones: dates are whole calendar days. The day of the initial range (fixed once, when the component's module is evaluated) is a constructor parameter.
- `eachDayOfInterval` on a reversed interval: reservations are required to have start ≤ end (`AllWellFormed`).
- React scheduling (when effects and memos re-run, stale closures): the total and the disabled dates are recomputed from the current inputs. The `key` of the date range is not modelled.
- The listing, and so its daily price, is fixed for a controller: the price effect's re-run on a change of `listing.price` (line 92) is not modelled.
- Prices are integers: fractional and `NaN` prices of a JS number are not modelled.
- Concurrency: a pending request settles as a later `Resolve` call. Several requests can be pending only through `OnCreateReservation`, never through `Submit`.
