/** PackageCourtService: validating and creating court packages, and a
    manager's purchase of a package, which records the purchase, extends the
    manager's subscription and (in the full variant) bills the manager.
    The persisted collections are a value of type Store; the current day and
    the host calendar's month arithmetic are parameters. */
module Packages {
  import opened Common

  /** A package is identified by its position in Store.packages. */
  type PackageId = nat
  type ManagerId = string
  type AccountId = string
  type PaymentId = string

  datatype PackageType = Standard | Custom

  /** A package offer; every numeric field is optional. */
  datatype PackageCourt = PackageCourt(
    name: string,
    kind: PackageType,
    totalPrice: Option<int>,
    priceEachCourt: Option<int>,
    maxCourt: Option<int>,
    duration: Option<int>,        // months
    description: Option<string>)

  /** The part of a manager account that purchases read and write. */
  datatype Manager = Manager(firstName: string, expiredDate: Option<Day>, maxCourt: Option<int>)

  datatype PurchaseStatus = Active | Expired

  /** A purchase record. `status` is None when the purchase does not set it. */
  datatype PackagePurchase = PackagePurchase(
    totalPrice: int,
    totalCourt: int,
    duration: int,
    priceEachCourt: Option<int>,
    startDate: Day,
    endDate: Day,
    manager: ManagerId,
    packageCourt: PackageId,
    status: Option<PurchaseStatus>)

  datatype TransactionType = PackageCharge
  datatype PaymentMethod = LinkedAccount

  /** The text "Manager <first name> orders package purchase on <date>"; the
      date's YYYY-MM-DD rendering is not modelled. */
  datatype PurchaseNote = PurchaseNote(managerFirstName: string, orderedOn: Day)

  datatype Transaction = Transaction(
    amount: int,
    from: ManagerId,
    to: AccountId,
    content: PurchaseNote,
    kind: TransactionType,
    paymentMethod: PaymentMethod,
    payment: Option<PaymentId>)

  /** A purchase request: which package, for which manager, how many courts. */
  datatype BuyRequest = BuyRequest(
    packageId: PackageId,
    managerId: ManagerId,
    totalCourt: int,
    paymentId: Option<PaymentId>)

  datatype Store = Store(
    packages: seq<PackageCourt>,
    managers: map<ManagerId, Manager>,
    purchases: seq<PackagePurchase>,
    transactions: seq<Transaction>)

  /** The host calendar's "same day, `n` months later" (JavaScript `setMonth`). */
  type MonthAdder = (Day, int) -> Day

  /** The one property of the host calendar the lemmas assume: adding at least
      one month moves a day strictly forward. It is an assumption about the
      calendar, not something the services establish. */
  ghost predicate MonthsMoveForward(addMonths: MonthAdder)
  {
    forall d, n :: n >= 1 ==> addMonths(d, n) > d
  }

  datatype PackageError =
    | CustomHasDuration       // BadRequestError 'Custom package can not have Duration info'
    | CustomHasMaxCourt       // BadRequestError 'Custom package can not have Max Court info'
    | CustomHasTotalPrice     // BadRequestError 'Custom package can not have Total Price info'
    | PackageNotFound         // NotFoundError 'Package not found'
    | ManagerNotFound         // NotFoundError 'Manager not found'
    | ManagerUndefined        // TypeError: reading `expiredDate` of a null lookup result
    | CustomOverCourtLimit    // BadRequestError 'Custom package can only be bought for maximum 20 courts'
    | PackageStillActive      // BadRequestError '... your current package is still active'
    | PurchaseNotStorable     // a NaN price or an Invalid Date end refused when the record is cast

  // ---------------------------------------------------------------------------
  // Package creation

  /** beforeCreate: a CUSTOM package may not carry a duration, a court limit or
      a total price; a truthy one is refused, checked in that order. */
  function BeforeCreate(p: PackageCourt): (r: Outcome<PackageError>)
    ensures p.kind == Standard ==> r == Pass
    ensures p.kind == Custom ==>
              (r == Pass <==> !Truthy(p.duration) && !Truthy(p.maxCourt) && !Truthy(p.totalPrice))
    ensures p.kind == Custom && Truthy(p.duration) ==> r == Fail(CustomHasDuration)
    ensures p.kind == Custom && !Truthy(p.duration) && Truthy(p.maxCourt) ==> r == Fail(CustomHasMaxCourt)
    ensures p.kind == Custom && !Truthy(p.duration) && !Truthy(p.maxCourt) && Truthy(p.totalPrice)
            ==> r == Fail(CustomHasTotalPrice)
  {
    if p.kind == Custom then
      if Truthy(p.duration) then Fail(CustomHasDuration)
      else if Truthy(p.maxCourt) then Fail(CustomHasMaxCourt)
      else if Truthy(p.totalPrice) then Fail(CustomHasTotalPrice)
      else Pass
    else Pass
  }

  /** createPackage: a STANDARD request first stores a flat-price record (total
      price and court limit, no per-court price); every request then stores a
      per-court record (per-court price, no total price or court limit). */
  function CreatePackage(st: Store, dto: PackageCourt): (r: Store)
    ensures r.managers == st.managers && r.purchases == st.purchases
            && r.transactions == st.transactions
    ensures |r.packages| == |st.packages| + (if dto.kind == Standard then 2 else 1)
    ensures r.packages[..|st.packages|] == st.packages
    ensures var q := r.packages[|r.packages| - 1];
            && q.priceEachCourt == dto.priceEachCourt && q.totalPrice.None? && q.maxCourt.None?
            && q.name == dto.name && q.kind == dto.kind && q.duration == dto.duration
            && q.description == dto.description
    ensures dto.kind == Standard ==>
              var q := r.packages[|st.packages|];
              && q.totalPrice == dto.totalPrice && q.maxCourt == dto.maxCourt
              && q.priceEachCourt.None?
              && q.name == dto.name && q.kind == Standard && q.duration == dto.duration
              && q.description == dto.description
  {
    var flat := PackageCourt(dto.name, dto.kind, dto.totalPrice, None, dto.maxCourt, dto.duration, dto.description);
    var perCourt := PackageCourt(dto.name, dto.kind, None, dto.priceEachCourt, None, dto.duration, dto.description);
    var added := if dto.kind == Standard then [flat, perCourt] else [perCourt];
    st.(packages := st.packages + added)
  }

  /** createPackage writes through the model, without the beforeCreate hook,
      yet for a CUSTOM request without a truthy duration every record it adds
      passes beforeCreate and stays within the 20-court purchase gate, because
      the per-court record drops the total price and the court limit. */
  lemma CreatedCustomPackagesValid(st: Store, dto: PackageCourt)
    requires dto.kind == Custom && !Truthy(dto.duration)
    ensures var r := CreatePackage(st, dto);
            forall k :: |st.packages| <= k < |r.packages| ==>
              BeforeCreate(r.packages[k]) == Pass && !OverCourtLimit(r.packages[k])
  {
  }

  /** The flat-price record a STANDARD request adds is bought at its own total
      price and court limit, whatever court count the purchase requests. */
  lemma StandardFlatRecordPricing(st: Store, dto: PackageCourt, buy: BuyRequest, courts: int,
                                  now: Day, addMonths: MonthAdder)
    requires dto.kind == Standard && Truthy(dto.totalPrice) && Truthy(dto.maxCourt)
    requires buy.packageId == |st.packages|
    ensures var st' := CreatePackage(st, dto);
            var r := BuyPackageCourt(st', buy, now, addMonths);
            && r == BuyPackageCourt(st', buy.(totalCourt := courts), now, addMonths)
            && (r.Success? ==>
                  && r.value.purchases[|st'.purchases|].totalPrice == dto.totalPrice.value
                  && r.value.purchases[|st'.purchases|].totalCourt == dto.maxCourt.value)
  {
  }

  /** A CUSTOM package that passed beforeCreate carries no truthy court limit,
      so the 20-court purchase gate can never refuse it. */
  lemma ValidatedCustomWithinCourtLimit(p: PackageCourt)
    requires p.kind == Custom && BeforeCreate(p) == Pass
    ensures !OverCourtLimit(p)
  {
  }

  // ---------------------------------------------------------------------------
  // Purchase: gates and computed fields shared by both variants

  /** The 20-court purchase gate: a CUSTOM package whose stored court limit
      exceeds 20. An absent limit never trips it. */
  predicate OverCourtLimit(p: PackageCourt)
  {
    p.kind == Custom && p.maxCourt.Some? && p.maxCourt.value > 20
  }

  /** The manager has a recorded expiry that is after today. */
  predicate StillActive(m: Manager, now: Day)
  {
    m.expiredDate.Some? && m.expiredDate.value > now
  }

  /** The number of courts a purchase records: the package's court limit when
      truthy, otherwise the requested count. */
  function PurchaseCourts(p: PackageCourt, dto: BuyRequest): int
  {
    OrElse(p.maxCourt, dto.totalCourt)
  }

  /** The price a purchase records: the package's total price when truthy,
      otherwise its per-court price times the requested count; None when there
      is no per-court price, so the price is not a number. */
  function PurchasePrice(p: PackageCourt, dto: BuyRequest): Option<int>
  {
    if Truthy(p.totalPrice) then Some(p.totalPrice.value)
    else if p.priceEachCourt.Some? then Some(p.priceEachCourt.value * dto.totalCourt)
    else None
  }

  /** The first day of a purchase: the day after the manager's recorded expiry,
      or the day after today when none is recorded. */
  function StartDay(m: Manager, now: Day): Day
  {
    (if m.expiredDate.Some? then m.expiredDate.value else now) + 1
  }

  /** The purchase record for `dto` with the given duration, price and status. */
  function PurchaseRecord(dto: BuyRequest, p: PackageCourt, m: Manager, now: Day, addMonths: MonthAdder,
                          duration: int, price: int, status: Option<PurchaseStatus>): PackagePurchase
  {
    var start := StartDay(m, now);
    PackagePurchase(price, PurchaseCourts(p, dto), duration, p.priceEachCourt,
                    start, addMonths(start, duration), dto.managerId, dto.packageId, status)
  }

  /** Appends the purchase record and moves the manager's expiry and court
      quota to the purchase's end date and court count. */
  function Commit(st: Store, m: Manager, rec: PackagePurchase): Store
  {
    st.(purchases := st.purchases + [rec],
        managers := st.managers[rec.manager := m.(expiredDate := Some(rec.endDate), maxCourt := Some(rec.totalCourt))])
  }

  /** buyPackageCourt. Checks in order: the package exists, the manager exists,
      a CUSTOM package is within 20 courts, the manager's package is not still
      active; then stores the purchase and updates the manager. */
  function BuyPackageCourt(st: Store, dto: BuyRequest, now: Day, addMonths: MonthAdder)
    : (r: Result<Store, PackageError>)
    // the failures, in the order they are checked
    ensures dto.packageId >= |st.packages| ==> r == Failure(PackageNotFound)
    ensures dto.packageId < |st.packages| && dto.managerId !in st.managers ==> r == Failure(ManagerNotFound)
    ensures dto.packageId < |st.packages| && dto.managerId in st.managers ==>
              var p := st.packages[dto.packageId];
              var m := st.managers[dto.managerId];
              && (p.kind == Custom && p.maxCourt.Some? && p.maxCourt.value > 20
                  ==> r == Failure(CustomOverCourtLimit))
              && (!OverCourtLimit(p) && m.expiredDate.Some? && m.expiredDate.value > now
                  ==> r == Failure(PackageStillActive))
              && (!OverCourtLimit(p) && !StillActive(m, now) && !(Truthy(p.totalPrice) || p.priceEachCourt.Some?)
                  ==> r == Failure(PurchaseNotStorable))
              && (r.Success? <==> !OverCourtLimit(p) && !StillActive(m, now)
                                  && (Truthy(p.totalPrice) || p.priceEachCourt.Some?))
    // on success: exactly one purchase record with the fallback-computed fields
    ensures r.Success? ==>
              && dto.packageId < |st.packages| && dto.managerId in st.managers
              && var p := st.packages[dto.packageId];
                 var m := st.managers[dto.managerId];
                 var s := r.value;
                 && |s.purchases| == |st.purchases| + 1
                 && s.purchases[..|st.purchases|] == st.purchases
                 && var rec := s.purchases[|st.purchases|];
                    && rec.duration == (if Truthy(p.duration) then p.duration.value else 1)
                    && rec.totalCourt == (if Truthy(p.maxCourt) then p.maxCourt.value else dto.totalCourt)
                    && rec.totalPrice == (if Truthy(p.totalPrice) then p.totalPrice.value
                                          else p.priceEachCourt.value * dto.totalCourt)
                    && rec.priceEachCourt == p.priceEachCourt
                    && rec.startDate == (if m.expiredDate.Some? then m.expiredDate.value else now) + 1
                    && rec.endDate == addMonths(rec.startDate, rec.duration)
                    && rec.manager == dto.managerId && rec.packageCourt == dto.packageId
                    && rec.status == None
                    // the manager's expiry and quota follow the purchase; nothing else changes
                    && s.managers.Keys == st.managers.Keys
                    && s.managers[dto.managerId].expiredDate == Some(rec.endDate)
                    && s.managers[dto.managerId].maxCourt == Some(rec.totalCourt)
                    && s.managers[dto.managerId].firstName == m.firstName
                    && (forall id :: id in st.managers && id != dto.managerId ==> s.managers[id] == st.managers[id])
                    && s.packages == st.packages && s.transactions == st.transactions
  {
    if dto.packageId >= |st.packages| then Failure(PackageNotFound)
    else if dto.managerId !in st.managers then Failure(ManagerNotFound)
    else
      var p := st.packages[dto.packageId];
      var m := st.managers[dto.managerId];
      if OverCourtLimit(p) then Failure(CustomOverCourtLimit)
      else if StillActive(m, now) then Failure(PackageStillActive)
      else match PurchasePrice(p, dto)
        case None => Failure(PurchaseNotStorable)
        case Some(price) =>
          Success(Commit(st, m, PurchaseRecord(dto, p, m, now, addMonths, OrElse(p.duration, 1), price, None)))
  }

  /** buyPackageFull. Checks only that the package exists and the manager's
      package is not still active (a missing manager is dereferenced); uses the
      package's duration as is; stores an ACTIVE purchase, updates the manager
      and appends a PACKAGE transaction from the manager to the admin account. */
  function BuyPackageFull(st: Store, dto: BuyRequest, now: Day, addMonths: MonthAdder, admin: AccountId)
    : (r: Result<Store, PackageError>)
    ensures dto.packageId >= |st.packages| ==> r == Failure(PackageNotFound)
    ensures dto.packageId < |st.packages| && dto.managerId !in st.managers ==> r == Failure(ManagerUndefined)
    ensures dto.packageId < |st.packages| && dto.managerId in st.managers ==>
              var p := st.packages[dto.packageId];
              var m := st.managers[dto.managerId];
              && (m.expiredDate.Some? && m.expiredDate.value > now ==> r == Failure(PackageStillActive))
              && (!StillActive(m, now) && (p.duration.None? || !(Truthy(p.totalPrice) || p.priceEachCourt.Some?))
                  ==> r == Failure(PurchaseNotStorable))
              && (r.Success? <==> !StillActive(m, now) && p.duration.Some?
                                  && (Truthy(p.totalPrice) || p.priceEachCourt.Some?))
    ensures r.Success? ==>
              && dto.packageId < |st.packages| && dto.managerId in st.managers
              && var p := st.packages[dto.packageId];
                 var m := st.managers[dto.managerId];
                 var s := r.value;
                 && |s.purchases| == |st.purchases| + 1
                 && s.purchases[..|st.purchases|] == st.purchases
                 && var rec := s.purchases[|st.purchases|];
                    && p.duration == Some(rec.duration)
                    && rec.totalCourt == (if Truthy(p.maxCourt) then p.maxCourt.value else dto.totalCourt)
                    && rec.totalPrice == (if Truthy(p.totalPrice) then p.totalPrice.value
                                          else p.priceEachCourt.value * dto.totalCourt)
                    && rec.priceEachCourt == p.priceEachCourt
                    && rec.startDate == (if m.expiredDate.Some? then m.expiredDate.value else now) + 1
                    && rec.endDate == addMonths(rec.startDate, rec.duration)
                    && rec.manager == dto.managerId && rec.packageCourt == dto.packageId
                    && rec.status == Some(Active)
                    && s.managers == st.managers[dto.managerId := m.(expiredDate := Some(rec.endDate),
                                                                     maxCourt := Some(rec.totalCourt))]
                    && s.packages == st.packages
                    // one PACKAGE transaction billing the purchase price to the admin
                    && s.transactions == st.transactions
                         + [Transaction(rec.totalPrice, dto.managerId, admin, PurchaseNote(m.firstName, now),
                                        PackageCharge, LinkedAccount, dto.paymentId)]
  {
    if dto.packageId >= |st.packages| then Failure(PackageNotFound)
    else if dto.managerId !in st.managers then Failure(ManagerUndefined)
    else
      var p := st.packages[dto.packageId];
      var m := st.managers[dto.managerId];
      if StillActive(m, now) then Failure(PackageStillActive)
      else match (p.duration, PurchasePrice(p, dto))
        case (Some(duration), Some(price)) =>
          var rec := PurchaseRecord(dto, p, m, now, addMonths, duration, price, Some(Active));
          var bill := Transaction(price, dto.managerId, admin, PurchaseNote(m.firstName, now),
                                  PackageCharge, LinkedAccount, dto.paymentId);
          var s := Commit(st, m, rec);
          Success(s.(transactions := s.transactions + [bill]))
        case _ => Failure(PurchaseNotStorable)
  }

  // ---------------------------------------------------------------------------
  // Properties of purchases

  /** The number of months a buyPackageCourt purchase of `p` lasts. */
  function PurchaseMonths(p: PackageCourt): int
  {
    OrElse(p.duration, 1)
  }

  /** At most one active package: once a manager with no earlier subscription
      has bought a package lasting at least a month, a second purchase on the
      same day is refused; by the active-package gate unless an earlier gate
      refuses the second package first. */
  lemma SecondPurchaseRejected(st: Store, dto: BuyRequest, dto': BuyRequest, now: Day, addMonths: MonthAdder)
    requires MonthsMoveForward(addMonths)
    requires BuyPackageCourt(st, dto, now, addMonths).Success?
    requires st.managers[dto.managerId].expiredDate.None?
    requires PurchaseMonths(st.packages[dto.packageId]) >= 1
    requires dto'.managerId == dto.managerId
    ensures var st' := BuyPackageCourt(st, dto, now, addMonths).value;
            && BuyPackageCourt(st', dto', now, addMonths).Failure?
            && (dto'.packageId < |st'.packages| && !OverCourtLimit(st'.packages[dto'.packageId])
                ==> BuyPackageCourt(st', dto', now, addMonths) == Failure(PackageStillActive))
  {
  }

  /** The start date continues from the recorded expiry even when that expiry
      has lapsed: a manager whose package ended on day 0 buys a one-month
      package on day 100 and gets days 1..31, already over; the manager's
      expiry stays in the past and a second purchase the same day is accepted. */
  lemma LapsedExpiryPurchaseAlreadyOver()
    ensures var addMonths: MonthAdder := (d: Day, n: int) => d + 30 * n;
            var p := PackageCourt("Basic", Standard, Some(100), None, Some(5), Some(1), None);
            var st := Store([p], map["m" := Manager("Lan", Some(0), Some(5))], [], []);
            var dto := BuyRequest(0, "m", 5, None);
            && MonthsMoveForward(addMonths)
            && BuyPackageCourt(st, dto, 100, addMonths).Success?
            && var st' := BuyPackageCourt(st, dto, 100, addMonths).value;
               && st'.purchases[0].startDate == 1 && st'.purchases[0].endDate == 31
               && st'.managers["m"].expiredDate == Some(31)
               && BuyPackageCourt(st', dto, 100, addMonths).Success?
  {
  }

  /** In general: when the package bought continuing from a recorded expiry
      ends no later than today, the manager's expiry stays in the past and
      the same purchase is accepted again the same day. */
  lemma LapsedExpiryAllowsSecondPurchase(st: Store, dto: BuyRequest, now: Day, addMonths: MonthAdder)
    requires BuyPackageCourt(st, dto, now, addMonths).Success?
    requires st.managers[dto.managerId].expiredDate.Some?
    requires addMonths(st.managers[dto.managerId].expiredDate.value + 1,
                       PurchaseMonths(st.packages[dto.packageId])) <= now
    ensures var st' := BuyPackageCourt(st, dto, now, addMonths).value;
            && !StillActive(st'.managers[dto.managerId], now)
            && BuyPackageCourt(st', dto, now, addMonths).Success?
  {
  }

  /** The manager store with `id`'s expiry forgotten when it is not after `now`. */
  function ForgetLapsedExpiry(st: Store, id: ManagerId, now: Day): (r: Store)
    ensures r.packages == st.packages && r.purchases == st.purchases && r.transactions == st.transactions
    ensures r.managers.Keys == st.managers.Keys
    ensures id in st.managers ==>
              && r.managers[id].(expiredDate := None) == st.managers[id].(expiredDate := None)
              && (StillActive(st.managers[id], now) <==> r.managers[id].expiredDate.Some?)
  {
    if id in st.managers && st.managers[id].expiredDate.Some? && !StillActive(st.managers[id], now)
    then st.(managers := st.managers[id := st.managers[id].(expiredDate := None)])
    else st
  }

  /** buyPackageCourt with the start date the day after `now` when the recorded
      expiry has lapsed (the later of the expiry and today, plus one day). */
  function BuyPackageCourtFromToday(st: Store, dto: BuyRequest, now: Day, addMonths: MonthAdder)
    : (r: Result<Store, PackageError>)
    ensures r.Success? <==> BuyPackageCourt(st, dto, now, addMonths).Success?
    ensures r.Success? ==>
              && dto.packageId < |st.packages| && dto.managerId in st.managers
              && dto.managerId in r.value.managers
              && |r.value.purchases| == |st.purchases| + 1
              && r.value.purchases[..|st.purchases|] == st.purchases
              && r.value.purchases[|st.purchases|].startDate == now + 1
    // the purchase leaves the manager's package active today
    ensures r.Success? && MonthsMoveForward(addMonths) && PurchaseMonths(st.packages[dto.packageId]) >= 1 ==>
              StillActive(r.value.managers[dto.managerId], now)
  {
    BuyPackageCourt(ForgetLapsedExpiry(st, dto.managerId, now), dto, now, addMonths)
  }

  /** With the start date taken from today, a second purchase on the same day
      is refused whatever the manager's earlier expiry. */
  lemma SecondPurchaseRejectedFromToday(st: Store, dto: BuyRequest, dto': BuyRequest, now: Day, addMonths: MonthAdder)
    requires MonthsMoveForward(addMonths)
    requires BuyPackageCourtFromToday(st, dto, now, addMonths).Success?
    requires PurchaseMonths(st.packages[dto.packageId]) >= 1
    requires dto'.managerId == dto.managerId
    ensures var st' := BuyPackageCourtFromToday(st, dto, now, addMonths).value;
            BuyPackageCourtFromToday(st', dto', now, addMonths).Failure?
  {
  }

  /** A package with a truthy total price and court limit ignores the court
      count requested: the purchase does not depend on it. */
  lemma PackageValuesOverrideRequest(st: Store, dto: BuyRequest, courts: int, now: Day, addMonths: MonthAdder)
    requires dto.packageId < |st.packages|
    requires Truthy(st.packages[dto.packageId].totalPrice) && Truthy(st.packages[dto.packageId].maxCourt)
    ensures BuyPackageCourt(st, dto, now, addMonths) == BuyPackageCourt(st, dto.(totalCourt := courts), now, addMonths)
  {
  }

  /** Without a truthy total price the price follows the requested court
      count, even when the package's court limit sets the number of courts: a package of 5 courts at 10 each,
      bought with a request for 3 courts, records 5 courts for a price of 30. */
  lemma PriceFollowsRequestedCount()
    ensures var p := PackageCourt("Flex", Standard, None, Some(10), Some(5), None, None);
            var st := Store([p], map["m" := Manager("Lan", None, None)], [], []);
            var r := BuyPackageCourt(st, BuyRequest(0, "m", 3, None), 0, (d: Day, n: int) => d + 30 * n);
            && r.Success?
            && r.value.purchases[0].totalCourt == 5
            && r.value.purchases[0].totalPrice == 30
  {
  }

  /** The 20-court gate reads the package's court limit, which a CUSTOM
      package is meant not to carry: a CUSTOM package without a limit is bought
      for 100 courts and the purchase records 100 courts. */
  lemma CustomCourtLimitIgnoresRequest()
    ensures var p := PackageCourt("Custom", Custom, None, Some(10), None, None, None);
            var st := Store([p], map["m" := Manager("Lan", None, None)], [], []);
            var r := BuyPackageCourt(st, BuyRequest(0, "m", 100, None), 0, (d: Day, n: int) => d + 30 * n);
            && r.Success?
            && r.value.purchases[0].totalCourt == 100
  {
  }

  /** buyPackageCourt with the 20-court gate of a CUSTOM package also applied to
      the requested court count, checked where the source checks its gate. */
  function BuyPackageCourtRequestGated(st: Store, dto: BuyRequest, now: Day, addMonths: MonthAdder)
    : (r: Result<Store, PackageError>)
    // a CUSTOM purchase never records more than 20 courts
    ensures r.Success? ==>
              && dto.packageId < |st.packages|
              && |r.value.purchases| == |st.purchases| + 1
              && (st.packages[dto.packageId].kind == Custom ==> r.value.purchases[|st.purchases|].totalCourt <= 20)
    // otherwise it behaves as buyPackageCourt
    ensures !(dto.packageId < |st.packages| && dto.managerId in st.managers
              && st.packages[dto.packageId].kind == Custom && dto.totalCourt > 20)
            ==> r == BuyPackageCourt(st, dto, now, addMonths)
    ensures dto.packageId < |st.packages| && dto.managerId in st.managers
            && st.packages[dto.packageId].kind == Custom && dto.totalCourt > 20
            ==> r == Failure(CustomOverCourtLimit)
  {
    if dto.packageId < |st.packages| && dto.managerId in st.managers
       && st.packages[dto.packageId].kind == Custom && dto.totalCourt > 20
    then Failure(CustomOverCourtLimit)
    else BuyPackageCourt(st, dto, now, addMonths)
  }

  /** buyPackageFull agrees with buyPackageCourt wherever the latter's extra gate
      and duration default do not apply: both succeed or fail together, store the
      same purchase apart from its ACTIVE status, leave the managers alike, and
      the full variant alone appends a transaction. */
  lemma FullAgreesWithCourt(st: Store, dto: BuyRequest, now: Day, addMonths: MonthAdder, admin: AccountId)
    requires dto.packageId < |st.packages|
    requires Truthy(st.packages[dto.packageId].duration)
    requires !OverCourtLimit(st.packages[dto.packageId])
    ensures var c := BuyPackageCourt(st, dto, now, addMonths);
            var f := BuyPackageFull(st, dto, now, addMonths, admin);
            && (c.Success? <==> f.Success?)
            && (c.Success? ==>
                  && f.value.purchases == c.value.purchases[|st.purchases| := c.value.purchases[|st.purchases|].(status := Some(Active))]
                  && f.value.managers == c.value.managers
                  && f.value.packages == c.value.packages
                  && |f.value.transactions| == |c.value.transactions| + 1)
  {
  }

  /** buyPackageFull has no 20-court gate: a CUSTOM package for 25 courts that
      buyPackageCourt refuses is bought by the full variant. */
  lemma FullSkipsCourtLimit()
    ensures var p := PackageCourt("Big", Custom, None, Some(10), Some(25), Some(1), None);
            var st := Store([p], map["m" := Manager("Lan", None, None)], [], []);
            var dto := BuyRequest(0, "m", 25, None);
            var addMonths: MonthAdder := (d: Day, n: int) => d + 30 * n;
            && BuyPackageCourt(st, dto, 0, addMonths) == Failure(CustomOverCourtLimit)
            && BuyPackageFull(st, dto, 0, addMonths, "admin").Success?
  {
  }
}
