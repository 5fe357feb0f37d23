/** BookingService: creating a booking and materialising the schedule entries
    it occupies, decrementing a booking's remaining hours, and listing a
    customer's bookings. The persisted collections are a value of type Store;
    every operation returns the store after its writes, or the error it throws. */
module Booking {
  import opened Common
  import opened Weekly

  type UserId = string
  type CourtId = string
  type SlotId = string

  /** A booking is identified by its position in Store.bookings. */
  type BookingId = nat

  datatype BookingType = SingleSchedule | PermanentSchedule | FlexibleSchedule
  datatype BookingStatus = Pending | Confirmed | Cancelled
  datatype Role = Customer | Manager | Staff | Operator | Admin

  /** Only BOOKING and AVAILABLE are named by the service; other values of
      these enumerations are carried by their name. */
  datatype ScheduleType = BookingEntry | OtherScheduleType(name: string)
  datatype ScheduleStatus = Available | OtherScheduleStatus(name: string)

  /** The booking fields a customer submits. */
  datatype BookingRequest = BookingRequest(
    kind: BookingType,
    paymentType: string,
    paymentMethod: string,
    totalPrice: int,
    totalHour: int,
    startDate: Day,
    endDate: Day,
    court: CourtId)

  datatype Booking = Booking(
    kind: BookingType,
    paymentType: string,
    paymentMethod: string,
    totalPrice: int,
    totalHour: int,
    startDate: Day,
    endDate: Day,
    court: CourtId,
    status: BookingStatus,
    customer: UserId)

  /** The schedule fields submitted with a booking: the slots wanted, on which
      court, and the date they are wanted (the anchor date of a recurrence). */
  datatype ScheduleRequest = ScheduleRequest(
    kind: ScheduleType,
    slots: set<SlotId>,
    startTime: string,
    endTime: string,
    date: Day,
    court: CourtId)

  /** One calendar date's occupation of some slots of a court. */
  datatype Schedule = Schedule(
    kind: ScheduleType,
    slots: set<SlotId>,
    startTime: string,
    endTime: string,
    date: Day,
    booking: Option<BookingId>,
    court: CourtId,
    status: ScheduleStatus)

  /** The collections the service reads and writes. `customers` maps an
      account id to its role. */
  datatype Store = Store(
    courts: set<CourtId>,
    customers: map<UserId, Role>,
    bookings: seq<Booking>,
    schedules: seq<Schedule>)

  datatype BookingError =
    | DateRangeInvalid        // plain Error 'Start date must be before or equal to end date'
    | CourtNotFound           // NotFoundError 'Court not found'
    | ScheduleAlreadyBooked   // BadRequestError 'Schedule is already booking'
    | BookingMissing          // TypeError: reading `totalHour` of a null lookup result
    | CustomerMissing         // TypeError: reading `role` of a null lookup result
    | NotCustomer             // BadRequestError 'Only customer can get booking'

  /** Whether schedule `s` matches the conflict query of createBooking: same
      court and date as the request, AVAILABLE, and at least one slot in common. */
  predicate Blocks(s: Schedule, req: ScheduleRequest)
  {
    && s.court == req.court
    && s.date == req.date
    && s.status == Available
    && s.slots * req.slots != {}
  }

  /** Two AVAILABLE schedule entries that occupy a common slot of one court on one date. */
  predicate Clash(a: Schedule, b: Schedule)
  {
    && a.court == b.court
    && a.date == b.date
    && a.status == Available
    && b.status == Available
    && a.slots * b.slots != {}
  }

  /** No two entries of `ss` clash: the double-booking invariant. */
  predicate ConflictFree(ss: seq<Schedule>)
  {
    forall i, j :: 0 <= i < j < |ss| ==> !Clash(ss[i], ss[j])
  }

  /** The booking persisted for a request: PENDING, owned by the logged-in user. */
  function NewBooking(req: BookingRequest, loginUser: UserId): Booking
  {
    Booking(req.kind, req.paymentType, req.paymentMethod, req.totalPrice,
            req.totalHour, req.startDate, req.endDate, req.court,
            Pending, loginUser)
  }

  /** One AVAILABLE entry of type `kind` for `date`, copying the request's
      slots, times and court, linked to booking `id`. */
  function Entry(sch: ScheduleRequest, kind: ScheduleType, date: Day, id: BookingId): Schedule
  {
    Schedule(kind, sch.slots, sch.startTime, sch.endTime, date, Some(id), sch.court, Available)
  }

  /** The schedule entries a new booking `id` materialises. */
  function Materialise(req: BookingRequest, sch: ScheduleRequest, id: BookingId): seq<Schedule>
  {
    match req.kind
    case PermanentSchedule =>
      var dates := MatchingDays(req.startDate, req.endDate, Weekday(sch.date));
      seq(|dates|, i requires 0 <= i < |dates| => Entry(sch, BookingEntry, dates[i], id))
    case SingleSchedule => [Entry(sch, sch.kind, sch.date, id)]
    case FlexibleSchedule => []
  }

  /** createBooking. Checks in order: the date range, the court, and (unless
      FLEXIBLE) the conflict query on the anchor date; then appends the PENDING
      booking and the schedule entries it materialises. */
  function CreateBooking(st: Store, req: BookingRequest, sch: ScheduleRequest, loginUser: UserId)
    : (r: Result<Store, BookingError>)
    // the failures, in the order they are checked
    ensures req.startDate > req.endDate ==> r == Failure(DateRangeInvalid)
    ensures req.startDate <= req.endDate && req.court !in st.courts ==> r == Failure(CourtNotFound)
    ensures req.startDate <= req.endDate && req.court in st.courts && req.kind != FlexibleSchedule
            && (exists i :: 0 <= i < |st.schedules|
                  && st.schedules[i].court == sch.court && st.schedules[i].date == sch.date
                  && st.schedules[i].status == Available && st.schedules[i].slots * sch.slots != {})
            ==> r == Failure(ScheduleAlreadyBooked)
    ensures r.Success? <==>
              && req.startDate <= req.endDate
              && req.court in st.courts
              && (req.kind == FlexibleSchedule || forall i :: 0 <= i < |st.schedules| ==> !Blocks(st.schedules[i], sch))
    // exactly one booking is appended, PENDING and owned by the caller
    ensures r.Success? ==>
              && r.value.courts == st.courts && r.value.customers == st.customers
              && |r.value.bookings| == |st.bookings| + 1
              && r.value.bookings[..|st.bookings|] == st.bookings
              && var b := r.value.bookings[|st.bookings|];
                 && b.status == Pending && b.customer == loginUser
                 && b.kind == req.kind && b.court == req.court
                 && b.startDate == req.startDate && b.endDate == req.endDate
                 && b.totalPrice == req.totalPrice && b.totalHour == req.totalHour
                 && b.paymentType == req.paymentType && b.paymentMethod == req.paymentMethod
    // existing schedule entries are kept, new ones follow them, all linked to the new booking
    ensures r.Success? ==>
              && |st.schedules| <= |r.value.schedules|
              && r.value.schedules[..|st.schedules|] == st.schedules
              && forall k :: |st.schedules| <= k < |r.value.schedules| ==>
                   var e := r.value.schedules[k];
                   && e.booking == Some(|st.bookings|) && e.status == Available
                   && e.court == sch.court && e.slots == sch.slots
                   && e.startTime == sch.startTime && e.endTime == sch.endTime
    ensures r.Success? && req.kind == FlexibleSchedule ==> r.value.schedules == st.schedules
    ensures r.Success? && req.kind == SingleSchedule ==>
              && |r.value.schedules| == |st.schedules| + 1
              && r.value.schedules[|st.schedules|].date == sch.date
              && r.value.schedules[|st.schedules|].kind == sch.kind
  {
    if req.startDate > req.endDate then Failure(DateRangeInvalid)
    else if req.court !in st.courts then Failure(CourtNotFound)
    else if req.kind != FlexibleSchedule && exists i :: 0 <= i < |st.schedules| && Blocks(st.schedules[i], sch) then
      Failure(ScheduleAlreadyBooked)
    else
      var id := |st.bookings|;
      Success(st.(bookings := st.bookings + [NewBooking(req, loginUser)],
                  schedules := st.schedules + Materialise(req, sch, id)))
  }

  /** The dates of the entries a PERMANENT booking materialises are exactly the
      occurrences of the anchor weekday in the booking's range. */
  lemma PermanentDates(req: BookingRequest, sch: ScheduleRequest, id: BookingId)
    requires req.kind == PermanentSchedule
    ensures var added := Materialise(req, sch, id);
            forall d :: (exists k :: 0 <= k < |added| && added[k].date == d)
                          <==> Occurs(d, req.startDate, req.endDate, Weekday(sch.date))
  {
    var dates := MatchingDays(req.startDate, req.endDate, Weekday(sch.date));
    var added := Materialise(req, sch, id);
    forall d | Occurs(d, req.startDate, req.endDate, Weekday(sch.date))
      ensures exists k :: 0 <= k < |added| && added[k].date == d
    {
      var k :| 0 <= k < |dates| && dates[k] == d;
      assert added[k].date == d;
    }
    forall d | exists k :: 0 <= k < |added| && added[k].date == d
      ensures Occurs(d, req.startDate, req.endDate, Weekday(sch.date))
    {
      var k :| 0 <= k < |added| && added[k].date == d;
      assert dates[k] in dates;
    }
  }

  /** The entries a PERMANENT_SCHEDULE booking creates fall exactly on the days
      of its inclusive date range that share the anchor date's weekday: one
      BOOKING entry per such day, in increasing date order, one week apart. */
  lemma PermanentExpansion(st: Store, req: BookingRequest, sch: ScheduleRequest, loginUser: UserId)
    requires req.kind == PermanentSchedule
    requires CreateBooking(st, req, sch, loginUser).Success?
    ensures var added := CreateBooking(st, req, sch, loginUser).value.schedules[|st.schedules|..];
            && (forall d :: (exists k :: 0 <= k < |added| && added[k].date == d)
                              <==> Occurs(d, req.startDate, req.endDate, Weekday(sch.date)))
            && (forall i, j :: 0 <= i < j < |added| ==> added[i].date < added[j].date)
            && (forall i :: 0 < i < |added| ==> added[i].date == added[i - 1].date + 7)
            && (forall k :: 0 <= k < |added| ==> added[k].kind == BookingEntry)
  {
    var st' := CreateBooking(st, req, sch, loginUser).value;
    assert st'.schedules[|st.schedules|..] == Materialise(req, sch, |st.bookings|);
    PermanentDates(req, sch, |st.bookings|);
  }

  /** Booking the same slots twice is refused: after a successful SINGLE or
      PERMANENT booking that occupies its anchor date, repeating the request
      fails with the conflict error. */
  lemma RepeatedRequestRejected(st: Store, req: BookingRequest, sch: ScheduleRequest, u: UserId, u': UserId)
    requires req.kind == SingleSchedule
             || (req.kind == PermanentSchedule && req.startDate <= sch.date <= req.endDate)
    requires sch.slots != {}
    requires CreateBooking(st, req, sch, u).Success?
    ensures CreateBooking(CreateBooking(st, req, sch, u).value, req, sch, u') == Failure(ScheduleAlreadyBooked)
  {
    var st' := CreateBooking(st, req, sch, u).value;
    var k: int;
    if req.kind == SingleSchedule {
      k := |st.schedules|;
    } else {
      PermanentExpansion(st, req, sch, u);
      var added := st'.schedules[|st.schedules|..];
      assert Occurs(sch.date, req.startDate, req.endDate, Weekday(sch.date));
      var j :| 0 <= j < |added| && added[j].date == sch.date;
      k := |st.schedules| + j;
    }
    assert Blocks(st'.schedules[k], sch);
  }

  /** SINGLE and FLEXIBLE bookings preserve the double-booking invariant: the
      conflict query covers the only date they occupy. */
  lemma NonPermanentKeepsConflictFree(st: Store, req: BookingRequest, sch: ScheduleRequest, u: UserId)
    requires req.kind != PermanentSchedule
    requires ConflictFree(st.schedules)
    requires CreateBooking(st, req, sch, u).Success?
    ensures ConflictFree(CreateBooking(st, req, sch, u).value.schedules)
  {
  }

  /** The conflict query of a PERMANENT booking looks only at the anchor date,
      so the booking can occupy slots already AVAILABLE-reserved on a later
      occurrence: a conflict-free store with one entry on day 7 becomes
      conflicted by a weekly booking for days 0..7 anchored on day 0. */
  lemma PermanentMayDoubleBook()
    ensures var existing := Schedule(BookingEntry, {"s1"}, "08:00", "09:00", 7, None, "c", Available);
            var st := Store({"c"}, map[], [], [existing]);
            var req := BookingRequest(PermanentSchedule, "full", "cash", 0, 0, 0, 7, "c");
            var sch := ScheduleRequest(BookingEntry, {"s1"}, "08:00", "09:00", 0, "c");
            && ConflictFree(st.schedules)
            && CreateBooking(st, req, sch, "u").Success?
            && !ConflictFree(CreateBooking(st, req, sch, "u").value.schedules)
  {
    var existing := Schedule(BookingEntry, {"s1"}, "08:00", "09:00", 7, None, "c", Available);
    var st := Store({"c"}, map[], [], [existing]);
    var req := BookingRequest(PermanentSchedule, "full", "cash", 0, 0, 0, 7, "c");
    var sch := ScheduleRequest(BookingEntry, {"s1"}, "08:00", "09:00", 0, "c");
    assert !Blocks(existing, sch);
    PermanentExpansion(st, req, sch, "u");
    var ss := CreateBooking(st, req, sch, "u").value.schedules;
    var added := ss[1..];
    assert Occurs(7, 0, 7, Weekday(0));
    var j :| 0 <= j < |added| && added[j].date == 7;
    assert "s1" in ss[0].slots * ss[1 + j].slots;
    assert Clash(ss[0], ss[1 + j]);
  }

  /** updateTotalHours: the booking's remaining hours drop by `duration`, with
      no lower bound; nothing else changes. */
  function UpdateTotalHours(st: Store, id: BookingId, duration: int): (r: Result<Store, BookingError>)
    ensures id >= |st.bookings| ==> r == Failure(BookingMissing)
    ensures id < |st.bookings| ==>
              && r.Success?
              && r.value.courts == st.courts && r.value.customers == st.customers
              && r.value.schedules == st.schedules
              && |r.value.bookings| == |st.bookings|
              && r.value.bookings[id].totalHour + duration == st.bookings[id].totalHour
              && r.value.bookings[id].(totalHour := 0) == st.bookings[id].(totalHour := 0)
              && forall k :: 0 <= k < |st.bookings| && k != id ==> r.value.bookings[k] == st.bookings[k]
  {
    if id >= |st.bookings| then Failure(BookingMissing)
    else
      var b := st.bookings[id];
      Success(st.(bookings := st.bookings[id := b.(totalHour := b.totalHour - duration)]))
  }

  /** Giving the hours back undoes updateTotalHours: the decrement by `d`
      followed by a decrement by `-d` restores the store. */
  lemma UpdateTotalHoursUndone(st: Store, id: BookingId, d: int)
    requires id < |st.bookings|
    ensures UpdateTotalHours(UpdateTotalHours(st, id, d).value, id, -d) == Success(st)
  {
    var back := UpdateTotalHours(UpdateTotalHours(st, id, d).value, id, -d).value;
    assert back.bookings[id] == st.bookings[id];
    assert back.bookings == st.bookings;
  }

  /** The bookings of `bs` owned by customer `c`, in store order. */
  function BookingsOf(bs: seq<Booking>, c: UserId): (r: seq<Booking>)
    ensures forall b :: b in r ==> b.customer == c
    ensures forall b: Booking :: b.customer == c ==> multiset(r)[b] == multiset(bs)[b]
    ensures |r| <= |bs|
  {
    if bs == [] then []
    else
      var rest := BookingsOf(bs[1..], c);
      assert bs == [bs[0]] + bs[1..];
      if bs[0].customer == c then [bs[0]] + rest else rest
  }

  /** getBookingByCustomer: refuses an account whose role is not CUSTOMER,
      otherwise returns exactly that customer's bookings. */
  function BookingsOfCustomer(st: Store, customerId: UserId): (r: Result<seq<Booking>, BookingError>)
    ensures customerId !in st.customers ==> r == Failure(CustomerMissing)
    ensures customerId in st.customers && st.customers[customerId] != Customer ==> r == Failure(NotCustomer)
    ensures r.Success? <==> customerId in st.customers && st.customers[customerId] == Customer
    ensures r.Success? ==>
              && (forall b :: b in r.value <==> b in st.bookings && b.customer == customerId)
              && forall b: Booking :: b.customer == customerId ==> multiset(r.value)[b] == multiset(st.bookings)[b]
  {
    if customerId !in st.customers then Failure(CustomerMissing)
    else if st.customers[customerId] != Customer then Failure(NotCustomer)
    else Success(BookingsOf(st.bookings, customerId))
  }
}
