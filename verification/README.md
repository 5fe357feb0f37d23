# Bookminton booking and package-purchase model

A Dafny model of two services of the Bookminton sports-court booking backend:

- **BookingService** (`Booking` module, `booking.dfy`): `createBooking` checks the
  date range, the court, and (except for FLEXIBLE_SCHEDULE bookings) whether an
  AVAILABLE schedule entry on the same court and date already holds one of the
  requested slots. It then stores a PENDING booking and materialises its schedule
  entries: one per matching weekday in the date range for PERMANENT_SCHEDULE,
  exactly one for SINGLE_SCHEDULE, none for FLEXIBLE_SCHEDULE. `updateTotalHours`
  decrements a booking's remaining hours. `getBookingByCustomer` lists a
  customer's bookings.
- **PackageCourtService** (`Packages` module, `packages.dfy`): the CUSTOM-package
  validation hook `beforeCreate` and the one-or-two-record `createPackage`.
  It also models a manager's purchase of a package through `buyPackageCourt` and
  `buyPackageFull`. A purchase passes the existence, 20-court and
  "no active package" gates. Its duration, court count and price come from the
  JavaScript `||` fallbacks. Its start and end dates are computed. The purchase
  record is stored, the manager's expiry and court quota are updated, and
  `buyPackageFull` also appends a billing transaction.

The persisted collections are an immutable `Store` value. Every operation is a
pure function that returns the store after its writes, or the error the source
throws (`Result`/`Outcome` in `common.dfy`). A failure carries no store, so a
failing call writes nothing. Every failure in the modelled code happens before
the first write.

Dates are integer day numbers counted from 1970-01-01, which is a Thursday.
`Weekly.Weekday` numbers weekdays like moment's `day()`, with 0 = Sunday.
`weekly.dfy` holds the day-by-day weekly recurrence.

The current day is a parameter (`now`). So is the host calendar's month
addition, `addMonths: (Day, int) -> Day`, which stands for JavaScript `setMonth`.
The lemmas that need the calendar to move forward take `MonthsMoveForward(addMonths)`
as an explicit hypothesis: adding `n >= 1` months gives a later day. This is an
assumption about the host calendar. Nothing in the services establishes it.

Numeric package fields are `Option<int>`. `Common.Truthy` is JavaScript truthiness:
absent or 0 is falsy. Two JavaScript NaN cases are modelled as the failure
`PurchaseNotStorable`:
- a price computed from an absent `priceEachCourt`;
- in `buyPackageFull`, an end date computed from an absent duration
  (`setMonth(NaN)` gives an Invalid Date).

In both cases the purchase document's Number or Date field cannot be cast, so the
awaited create rejects it before any other write.

Error classes follow the code:
- the date-range failure is a plain `Error`;
- the slot conflict is a `BadRequestError`;
- an unknown id makes the lookup return null (the generic `getById`, or
  `customerModel.findOne` in getBookingByCustomer), and reading a field of it
  throws a TypeError (`BookingMissing`, `CustomerMissing`, `ManagerUndefined`)
  wherever the code does not check for null first.

`buyPackageFull` has no manager-null check, no 20-court gate and no duration default.

## Model

| member | source | states |
|---|---|---|
| Weekly.MatchingDays | src/services/booking.service.ts:75-87 | the days visited from start to end inclusive that fall on the anchor weekday are exactly the range's occurrences of that weekday, strictly increasing, each one week after the previous |
| Weekly.JanuaryMondays | src/services/booking.service.ts:77-87 | Monday 2024-01-01 to Monday 2024-01-22 recurring on Mondays gives exactly 1, 8, 15 and 22 January |
| Booking.CreateBooking | src/services/booking.service.ts:30-121 | fails, in this order, on start after end, on an unknown court, and (non-FLEXIBLE only) on an AVAILABLE entry with the same court and anchor date sharing a slot; succeeds exactly otherwise; on success appends exactly one booking (PENDING, owned by the caller, request fields copied), keeps existing schedule entries, links every new entry to the new booking with the request's slots, times and court, AVAILABLE; FLEXIBLE adds no entry, SINGLE exactly one on the anchor date with the request's schedule type |
| Booking.PermanentDates | src/services/booking.service.ts:74-99 | the dates of a PERMANENT booking's entries are exactly the days of the booking's range on the anchor date's weekday |
| Booking.PermanentExpansion | src/services/booking.service.ts:74-104 | after a successful PERMANENT booking the added entries' dates are exactly the occurrences of the anchor weekday in the inclusive range, distinct and ascending, consecutive ones 7 days apart, each of type BOOKING |
| Booking.RepeatedRequestRejected | src/services/booking.service.ts:46-118 | after a successful SINGLE booking, or a PERMANENT one whose range contains the anchor date, repeating the same request with non-empty slots fails with the conflict error |
| Booking.NonPermanentKeepsConflictFree | src/services/booking.service.ts:46-118 | SINGLE and FLEXIBLE bookings preserve "no two AVAILABLE entries of one court and date share a slot" |
| Booking.PermanentMayDoubleBook | src/services/booking.service.ts:46-104 | the conflict query of a PERMANENT booking checks only the anchor date: a conflict-free store becomes conflicted when a weekly booking reaches an already-reserved later occurrence |
| Booking.UpdateTotalHours | src/services/booking.service.ts:123-129 | an unknown booking fails as a null dereference; otherwise that booking's remaining hours drop by exactly the duration with no lower bound, every other field of it and every other booking and entry unchanged |
| Booking.UpdateTotalHoursUndone | src/services/booking.service.ts:123-129 | decrementing a booking's hours by d and then by -d restores the store exactly |
| Booking.BookingsOf | src/services/booking.service.ts:135-141 | the result holds only bookings of the customer, each of them as many times as the store holds it |
| Booking.BookingsOfCustomer | src/services/booking.service.ts:130-142 | an unknown account fails as a null dereference, a non-CUSTOMER role fails with BadRequest, and a customer gets exactly the stored bookings whose customer is that id, with multiplicities |
| Packages.BeforeCreate | src/services/packageCourt.service.ts:44-55 | never refuses a STANDARD package; refuses a CUSTOM package exactly when its duration, court limit or total price is truthy, reporting the first of them in that order |
| Packages.CreatePackage | src/services/packageCourt.service.ts:24-42 | appends two records for STANDARD and one otherwise: a flat-price record (total price and court limit, no per-court price) first for STANDARD, then always a per-court record (per-court price, no total price or court limit); other collections unchanged |
| Packages.CreatedCustomPackagesValid | src/services/packageCourt.service.ts:24-42 | a CUSTOM request without a truthy duration adds only records that pass beforeCreate and never trip the 20-court purchase gate, although createPackage does not run the hook |
| Packages.StandardFlatRecordPricing | src/services/packageCourt.service.ts:24-34 | buying the flat-price record a STANDARD request adds is priced at the request's total price with its court limit, whatever court count the purchase asks for |
| Packages.ValidatedCustomWithinCourtLimit | src/services/packageCourt.service.ts:125-130 | a CUSTOM package that passes beforeCreate can never trip the 20-court purchase gate |
| Packages.BuyPackageCourt | src/services/packageCourt.service.ts:117-172 | fails, in this order, on a missing package, a missing manager, a CUSTOM package over 20 courts, and a manager expiry after today; fails with the record-cast error when the price is NaN; succeeds exactly when none of these applies; on success appends one purchase with duration = package duration or 1, courts = package limit or requested count, price = package total or per-court price times requested count, start = (expiry or today) + 1, end = start plus duration months, no status; sets the manager's expiry to the end and quota to the courts, other managers, packages and transactions unchanged |
| Packages.BuyPackageFull | src/services/packageCourt.service.ts:57-115 | fails on a missing package, a missing manager (dereferenced), an expiry after today, and then with the record-cast error on an absent duration or NaN price; succeeds exactly otherwise; on success appends one ACTIVE purchase with the package's own duration (0 kept), courts = package limit or requested count, price = package total or per-court price times requested count, start = (expiry or today) + 1, end = start plus duration months, the request's manager and package; sets the manager's expiry and quota like buyPackageCourt; appends one PACKAGE transaction of the purchase price from the manager to the admin account |
| Packages.SecondPurchaseRejected | src/services/packageCourt.service.ts:132-171 | for a manager with no earlier expiry and a package of at least a month, a second purchase on the same day fails, by the active-package gate whenever the earlier gates pass |
| Packages.LapsedExpiryPurchaseAlreadyOver | src/services/packageCourt.service.ts:145-171 | with an expiry on day 0, a one-month purchase on day 100 runs days 1 to 31, leaves the expiry in the past and lets a second purchase through the same day |
| Packages.LapsedExpiryAllowsSecondPurchase | src/services/packageCourt.service.ts:132-171 | for every store: when a purchase continuing from a recorded expiry ends no later than today, the manager's expiry stays in the past and the same purchase succeeds again that day |
| Packages.BuyPackageCourtFromToday | src/services/packageCourt.service.ts:145-150 | with a lapsed expiry ignored, a purchase succeeds exactly when buyPackageCourt does, starts the day after today, and leaves the manager's package active today |
| Packages.SecondPurchaseRejectedFromToday | src/services/packageCourt.service.ts:132-171 | with the start taken from today, a second same-day purchase fails whatever the earlier expiry |
| Packages.PackageValuesOverrideRequest | src/services/packageCourt.service.ts:139-143 | a package with truthy total price and court limit gives the same purchase whatever court count is requested |
| Packages.PriceFollowsRequestedCount | src/services/packageCourt.service.ts:139-143 | without a total price the price uses the requested count even where the package's court limit sets the courts: 5 courts at 10 requested as 3 records 5 courts for 30 |
| Packages.CustomCourtLimitIgnoresRequest | src/services/packageCourt.service.ts:125-130 | a CUSTOM package without a court limit is bought for 100 courts and the purchase records 100 courts: the 20-court gate never looks at the requested count |
| Packages.BuyPackageCourtRequestGated | src/services/packageCourt.service.ts:125-130 | with the 20-court gate also applied to the requested count of a CUSTOM package, a successful CUSTOM purchase never records more than 20 courts; every other request behaves exactly as buyPackageCourt |
| Packages.FullAgreesWithCourt | src/services/packageCourt.service.ts:57-172 | for a package with a truthy duration and no over-limit CUSTOM court count, both variants succeed together, store the same purchase apart from the ACTIVE status, leave the same managers, and only the full variant adds a transaction |
| Packages.FullSkipsCourtLimit | src/services/packageCourt.service.ts:57-69 | a CUSTOM package for 25 courts is refused by buyPackageCourt and bought by buyPackageFull |

## Findings

| source | as written | input that shows it | evidently intended | confidence | as-written member | corrected member |
|---|---|---|---|---|---|---|
| src/services/packageCourt.service.ts:145-150 | the new package starts the day after the recorded expiry even when that expiry has already passed | expiry day 0, one-month package bought on day 100: runs days 1 to 31, expiry stays in the past, a second purchase the same day is accepted | a lapsed expiry is ignored and the package starts the day after the purchase, so it is active once bought | medium (not executed) | Packages.LapsedExpiryPurchaseAlreadyOver | Packages.BuyPackageCourtFromToday |
| src/services/packageCourt.service.ts:125-130 | the CUSTOM 20-court gate tests the package's stored court limit, which beforeCreate forbids on CUSTOM packages and createPackage's per-court record drops | a CUSTOM package with no court limit bought for 100 courts: accepted, and 100 courts are recorded | the gate limits the requested court count of a CUSTOM purchase to 20, as its message says | medium (not executed) | Packages.CustomCourtLimitIgnoresRequest | Packages.BuyPackageCourtRequestGated |

The rest of the model follows the code as written. `ValidatedCustomWithinCourtLimit`
shows that the gate can never fire for a CUSTOM package that passed beforeCreate.
The corrected purchase of the first row is
`BuyPackageCourt` applied after forgetting a lapsed expiry.
`SecondPurchaseRejectedFromToday` proves the "at most one active package" rule for
it with no condition on the earlier expiry.

## Left out

- Packages.SecondPurchaseRejected: holds only for a manager with no recorded expiry. With a lapsed expiry the code starts the new package in the past, so the rule fails (see Findings). It also requires the purchase to last at least a month. A package with a negative duration is truthy, and neither beforeCreate nor buyPackageCourt refuses it. Its end date need not follow its start, so the guard is not guaranteed to refuse a second same-day purchase.
- Booking.CreateBooking: the PERMANENT entries are created in parallel with `Promise.all`. Here they are one sequential, all-or-nothing write. A failed schedule write, and the orphaned rows it would leave, are not modelled.
- Concurrency: the check-then-act races between the conflict query and the writes are not modelled. Neither are the un-awaited manager update and transaction create, which are modelled as sequential writes.
- Dates: moment/`Date` parsing, time zones and time of day are not modelled. Dates are day numbers, and `expiredDate > now` compares days.
- Calendar months: JavaScript `setMonth` and its day overflow are the `addMonths` parameter. Monotonicity is a stated hypothesis, not a proof.
- `populate` joins of court and branch in getBookingByCustomer: they decorate the returned bookings and do not change which bookings are returned.
- The admin account of `buyPackageFull` is the parameter `admin`. The `adminModel.findOne` lookup is not modelled.
- The transaction's content is the pair (manager first name, day). Its date rendering is not modelled.
- The generic repository (base.service.ts) is not part of this model. Its `getById` is taken to return null for an unknown id, as the null checks after it in both services assume.
- buyPackageCourt's purchase record leaves `status` unset (None). The schema default (packagePurchase.model.ts) is not part of this model.
- Persistence validation beyond the two NaN casts: required fields and ObjectId casts are not modelled. Request numbers are integers, and the requested court count is always present.
- Mail and QR code generation, controllers, routes, authentication, the staff service and the generic CRUD operations are not modelled. They map requests or call foreign libraries and hold no booking or purchase rule.
