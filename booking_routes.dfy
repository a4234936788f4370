/**
 * The booking handlers: create, the three read forms, update and cancel,
 * over a store of bookings keyed by id. The caller id is what the
 * authentication middleware resolved; it is a plain parameter here.
 */
module BookingRoutes {
  import opened Common
  import opened BookingModel
  import opened Validators

  /** The typed failures a handler answers with, each with the handler's message. */
  datatype Failure = NotFound(message: string) | Forbidden(message: string) | Invalid(message: string)

  /** A handler's answer: a value, or a failure. */
  datatype Outcome<+T> = Ok(value: T) | Fail(failure: Failure)

  const InvalidSchema := "Invalid Request Schema"
  const NoBookingsForUser := "No bookings found for this user."
  const NoBookingForId := "No Booking Found for Given Id"
  const UpdateNotFound := "Booking Not Found for Given Id"
  const UpdateNotOwner := "Not Authorized to update Booking with Given Id"
  const DetailsLocked := "Cannot modify car details for a completed or cancelled booking"
  const NoReopen := "Cannot change status from completed/cancelled to booked"
  const CancelNotFound := "Booking for Given Id not Found"
  const AlreadyCancelled := "Cannot Delete Already Cancelled Booking"
  const CancelNotOwner := "Not Authorized to Update Status of Given Booking Id"

  /** A stored booking: details within the create bounds and a consistent cost. */
  predicate WellFormed(b: Booking) {
    InCreateBounds(b.carName, b.days, b.rentPerDay) && CostConsistent(b)
  }

  /** A stored booking's cost lies between 100 and 730000. */
  lemma WellFormedCostBounds(b: Booking)
    requires WellFormed(b)
    ensures 100 <= b.totalCost <= 730000
  {
    CreateCostBounds(b.days, b.rentPerDay);
  }

  /** `findById`. */
  function Find(m: map<nat, Booking>, id: nat): Option<Booking> {
    if id in m then Some(m[id]) else None
  }

  /** A booking together with its id, as a query returns it. */
  datatype Entry = Entry(id: nat, booking: Booking)

  /**
   * `find({userId})` over the ids below `n`: the caller's bookings in id
   * (that is, insertion) order.
   */
  function Owned(m: map<nat, Booking>, caller: nat, n: nat): (r: seq<Entry>)
    ensures forall k :: 0 <= k < |r| ==>
      r[k].id < n && r[k].id in m && m[r[k].id] == r[k].booking && r[k].booking.userId == caller
    ensures forall i, j :: 0 <= i < j < |r| ==> r[i].id < r[j].id
    decreases n
  {
    if n == 0 then []
    else
      var prefix := Owned(m, caller, n - 1);
      if n - 1 in m && m[n - 1].userId == caller then prefix + [Entry(n - 1, m[n - 1])] else prefix
  }

  /** Every booking of the caller below `n` is found. */
  lemma {:induction false} OwnedComplete(m: map<nat, Booking>, caller: nat, n: nat, id: nat)
    requires id < n && id in m && m[id].userId == caller
    ensures Entry(id, m[id]) in Owned(m, caller, n)
  {
    if id < n - 1 {
      OwnedComplete(m, caller, n - 1, id);
    }
  }

  /** `find({userId})` returns exactly the caller's bookings. */
  lemma OwnedExact(m: map<nat, Booking>, caller: nat, n: nat)
    ensures forall e :: e in Owned(m, caller, n) <==>
      e.id < n && e.id in m && m[e.id] == e.booking && e.booking.userId == caller
  {
    forall e: Entry | e.id < n && e.id in m && m[e.id] == e.booking && e.booking.userId == caller
      ensures e in Owned(m, caller, n)
    {
      OwnedComplete(m, caller, n, e.id);
    }
  }

  /** The caller's query comes back empty exactly when the caller owns no stored booking. */
  lemma OwnedEmptyIffNoneOwned(m: map<nat, Booking>, caller: nat, n: nat)
    requires forall id :: id in m ==> id < n
    ensures Owned(m, caller, n) == [] <==> forall id :: id in m ==> m[id].userId != caller
  {
    var own := Owned(m, caller, n);
    forall id | id in m && m[id].userId == caller
      ensures Entry(id, m[id]) in own
    {
      OwnedComplete(m, caller, n, id);
    }
    if own != [] {
      assert own[0] in own;
    }
  }

  /** The single-booking lookup shared by `GET /bookings?bookingId=` and `GET /bookings/:bookingId`. */
  function GetOne(m: map<nat, Booking>, id: nat, caller: nat): (r: Outcome<Booking>)
    ensures r.Ok? <==> id in m && m[id].userId == caller
    ensures r.Ok? ==> r.value == m[id]
    ensures r == Fail(NotFound(NoBookingForId)) <==> id !in m
    ensures r == Fail(Forbidden(NoBookingForId)) <==> id in m && m[id].userId != caller
    ensures r.Fail? ==> r.failure.message == NoBookingForId
  {
    if id !in m then Fail(NotFound(NoBookingForId))
    else if m[id].userId != caller then Fail(Forbidden(NoBookingForId))
    else Ok(m[id])
  }

  /** The bookings among `s` whose status is one of `wanted`, in their order (`filter`). */
  function WithStatus(s: seq<Entry>, wanted: set<Status>): (r: seq<Entry>)
    ensures forall e :: e in r <==> e in s && e.booking.status in wanted
    ensures |r| <= |s|
    decreases |s|
  {
    if s == [] then []
    else
      var last := s[|s| - 1];
      WithStatus(s[..|s| - 1], wanted) + (if last.booking.status in wanted then [last] else [])
  }

  /** The statuses the summary counts: `booked` and `completed`. */
  const Counted: set<Status> := {Booked, Completed}

  /** The sum of the bookings' costs. */
  function SumCost(s: seq<Entry>): int
    decreases |s|
  {
    if s == [] then 0 else SumCost(s[..|s| - 1]) + s[|s| - 1].booking.totalCost
  }

  /** The summary's answer. */
  datatype SummaryData = SummaryData(
    userId: nat,
    totalBookings: nat,
    totalAmountSpent: int,
    upcomingBookings: seq<Entry>)

  /** What the summary promises for the caller's bookings `own`. */
  function SummaryOf(own: seq<Entry>, caller: nat): (r: Outcome<SummaryData>)
    ensures r.Fail? <==> own == []
    ensures r.Fail? ==> r.failure == NotFound(NoBookingsForUser)
    ensures r.Ok? ==> r.value.userId == caller && r.value.totalBookings <= |own|
    ensures r.Ok? ==> forall e :: e in r.value.upcomingBookings <==> e in own && e.booking.status == Booked
  {
    if own == [] then Fail(NotFound(NoBookingsForUser))
    else Ok(SummaryData(caller, |WithStatus(own, Counted)|, SumCost(WithStatus(own, Counted)),
                        WithStatus(own, {Booked})))
  }

  /** Total cost splits into what the summary counts and what cancelled bookings cost. */
  lemma {:induction false} CostSplitsByStatus(s: seq<Entry>)
    ensures SumCost(s) == SumCost(WithStatus(s, Counted)) + SumCost(WithStatus(s, {Cancelled}))
    decreases |s|
  {
    if s != [] {
      var init, last := s[..|s| - 1], s[|s| - 1];
      CostSplitsByStatus(init);
      SumCostAppend(WithStatus(init, Counted), if last.booking.status in Counted then [last] else []);
      SumCostAppend(WithStatus(init, {Cancelled}), if last.booking.status == Cancelled then [last] else []);
    }
  }

  /** Every booking is either counted by the summary or cancelled. */
  lemma {:induction false} CountSplitsByStatus(s: seq<Entry>)
    ensures |WithStatus(s, Counted)| + |WithStatus(s, {Cancelled})| == |s|
    decreases |s|
  {
    if s != [] {
      var last := s[|s| - 1];
      CountSplitsByStatus(s[..|s| - 1]);
      match last.booking.status {
        case Booked => assert Booked in Counted;
        case Completed => assert Completed in Counted;
        case Cancelled => assert Cancelled !in Counted;
      }
    }
  }

  /**
   * The summary's count is the number of the caller's bookings that are not
   * cancelled, and its spend is their total cost less what cancelled ones cost.
   */
  lemma SummaryExcludesCancelled(own: seq<Entry>, caller: nat)
    requires own != []
    ensures SummaryOf(own, caller).value.totalBookings == |own| - |WithStatus(own, {Cancelled})|
    ensures SummaryOf(own, caller).value.totalAmountSpent == SumCost(own) - SumCost(WithStatus(own, {Cancelled}))
  {
    CountSplitsByStatus(own);
    CostSplitsByStatus(own);
  }

  /** The sum of a concatenation. */
  lemma {:induction false} SumCostAppend(s: seq<Entry>, t: seq<Entry>)
    ensures SumCost(s + t) == SumCost(s) + SumCost(t)
    decreases |t|
  {
    if t == [] {
      assert s + t == s;
    } else {
      var u := t[..|t| - 1];
      assert (s + t)[..|s + t| - 1] == s + u;
      assert (s + t)[|s + t| - 1] == t[|t| - 1];
      SumCostAppend(s, u);
    }
  }

  /** Filtering one more booking appends it when its status is wanted. */
  lemma WithStatusSnoc(s: seq<Entry>, e: Entry, wanted: set<Status>)
    ensures WithStatus(s + [e], wanted) == WithStatus(s, wanted) + (if e.booking.status in wanted then [e] else [])
  {
    assert (s + [e])[..|s + [e]| - 1] == s;
  }

  /** One step of the summary loop: the count and the spend grow by the next booking when it counts. */
  lemma SummaryStep(s: seq<Entry>, i: nat)
    requires i < |s|
    ensures |WithStatus(s[..i + 1], Counted)| ==
      |WithStatus(s[..i], Counted)| + (if s[i].booking.status in Counted then 1 else 0)
    ensures SumCost(WithStatus(s[..i + 1], Counted)) ==
      SumCost(WithStatus(s[..i], Counted)) + (if s[i].booking.status in Counted then s[i].booking.totalCost else 0)
  {
    assert s[..i + 1] == s[..i] + [s[i]];
    WithStatusSnoc(s[..i], s[i], Counted);
    SumCostAppend(WithStatus(s[..i], Counted), if s[i].booking.status in Counted then [s[i]] else []);
    assert SumCost([s[i]]) == s[i].booking.totalCost by { SumCostAppend([], [s[i]]); }
  }

  /** The summary loop: counts the booked and completed bookings and adds up their costs. */
  method Tally(bookings: seq<Entry>) returns (totalBookings: nat, totalAmountSpent: int)
    ensures totalBookings == |WithStatus(bookings, Counted)|
    ensures totalAmountSpent == SumCost(WithStatus(bookings, Counted))
  {
    totalBookings, totalAmountSpent := 0, 0;
    for i := 0 to |bookings|
      invariant totalBookings == |WithStatus(bookings[..i], Counted)|
      invariant totalAmountSpent == SumCost(WithStatus(bookings[..i], Counted))
    {
      var booking := bookings[i].booking;
      SummaryStep(bookings, i);
      if booking.status == Booked || booking.status == Completed {
        totalBookings := totalBookings + 1;
        totalAmountSpent := totalAmountSpent + booking.totalCost;
      }
    }
    assert bookings[..|bookings|] == bookings;
  }

  /** A cancelled booking changes neither the count nor the amount spent. */
  lemma CancelledAddsNothing(s: seq<Entry>, e: Entry)
    requires e.booking.status == Cancelled
    ensures WithStatus(s + [e], Counted) == WithStatus(s, Counted)
    ensures SumCost(WithStatus(s + [e], Counted)) == SumCost(WithStatus(s, Counted))
  {
    assert (s + [e])[..|s + [e]| - 1] == s;
  }

  /** The summary example: booked 4500, completed 6000, cancelled 4000. */
  lemma SummaryScenario(caller: nat)
    ensures
      var b1 := Entry(0, Booking(caller, "Honda City", 3, 1500, Booked, 4500));
      var b2 := Entry(1, Booking(caller, "Toyota Camry", 5, 1200, Completed, 6000));
      var b3 := Entry(2, Booking(caller, "BMW X5", 2, 2000, Cancelled, 4000));
      SummaryOf([b1, b2, b3], caller) == Ok(SummaryData(caller, 2, 10500, [b1]))
  {
    var b1 := Entry(0, Booking(caller, "Honda City", 3, 1500, Booked, 4500));
    var b2 := Entry(1, Booking(caller, "Toyota Camry", 5, 1200, Completed, 6000));
    var b3 := Entry(2, Booking(caller, "BMW X5", 2, 2000, Cancelled, 4000));
    WithStatusSnoc([], b1, Counted);
    WithStatusSnoc([b1], b2, Counted);
    WithStatusSnoc([b1, b2], b3, Counted);
    WithStatusSnoc([], b1, {Booked});
    WithStatusSnoc([b1], b2, {Booked});
    WithStatusSnoc([b1, b2], b3, {Booked});
    assert [b1] == [] + [b1] && [b1, b2] == [b1] + [b2] && [b1, b2, b3] == [b1, b2] + [b3];
    assert WithStatus([b1, b2, b3], Counted) == [b1, b2];
    assert WithStatus([b1, b2, b3], {Booked}) == [b1];
    SumCostAppend([b1], [b2]);
    assert SumCost([b1]) == 4500 by { SumCostAppend([], [b1]); }
    assert SumCost([b2]) == 6000 by { SumCostAppend([], [b2]); }
    assert SumCost([b1, b2]) == 10500;
  }

  /** A completed or cancelled booking: its car details are locked and it cannot return to `booked`. */
  predicate IsClosed(s: Status) {
    s == Completed || s == Cancelled
  }

  /** The status rule the update handler applies: only a return from a closed status to `booked` is refused. */
  predicate StatusChangeAllowed(from: Status, to: Status): (r: bool)
    ensures r <==> (to == Booked ==> from == Booked)
  {
    !(IsClosed(from) && to == Booked)
  }

  /** All nine (from, to) pairs: seven are accepted, including `cancelled` to `completed`. */
  lemma TransitionTable()
    ensures StatusChangeAllowed(Booked, Booked) && StatusChangeAllowed(Booked, Completed)
      && StatusChangeAllowed(Booked, Cancelled)
    ensures StatusChangeAllowed(Completed, Completed) && StatusChangeAllowed(Completed, Cancelled)
      && !StatusChangeAllowed(Completed, Booked)
    ensures StatusChangeAllowed(Cancelled, Cancelled) && StatusChangeAllowed(Cancelled, Completed)
      && !StatusChangeAllowed(Cancelled, Booked)
  {
  }

  /** The update handler's checks, in their order; on success, the validated patch. */
  function UpdateCheck(current: Option<Booking>, caller: nat, body: Body): (r: Outcome<Patch>)
    ensures current.None? ==> r == Fail(NotFound(UpdateNotFound))
    ensures current.Some? && current.value.userId != caller ==> r == Fail(Forbidden(UpdateNotOwner))
    ensures current.Some? && current.value.userId == caller && BookingUpdate(body).None? ==>
      r == Fail(Invalid(InvalidSchema))
    ensures (current.Some? && current.value.userId == caller && BookingUpdate(body).Some?
             && IsClosed(current.value.status) && TouchesDetails(BookingUpdate(body).value)) ==>
      r == Fail(Invalid(DetailsLocked))
    ensures (current.Some? && current.value.userId == caller && BookingUpdate(body).Some?
             && IsClosed(current.value.status) && !TouchesDetails(BookingUpdate(body).value)
             && BookingUpdate(body).value.status == Some(Booked)) ==>
      r == Fail(Invalid(NoReopen))
    ensures r.Ok? <==>
      && current.Some? && current.value.userId == caller && BookingUpdate(body).Some?
      && !(IsClosed(current.value.status) && TouchesDetails(BookingUpdate(body).value))
      && (BookingUpdate(body).value.status.Some? ==>
            StatusChangeAllowed(current.value.status, BookingUpdate(body).value.status.value))
    ensures r.Ok? ==> r.value == BookingUpdate(body).value
  {
    if current.None? then Fail(NotFound(UpdateNotFound))
    else if current.value.userId != caller then Fail(Forbidden(UpdateNotOwner))
    else
      match BookingUpdate(body)
      case None => Fail(Invalid(InvalidSchema))
      case Some(data) =>
        var status := current.value.status;
        if IsClosed(status) && TouchesDetails(data) then Fail(Invalid(DetailsLocked))
        else if data.status.Some? && IsClosed(status) && data.status.value == Booked then Fail(Invalid(NoReopen))
        else Ok(data)
  }

  /** The cost the handler writes into the patch when `days` or `rentPerDay` is patched. */
  function Priced(b: Booking, p: Patch): (q: Patch)
    ensures q.(totalCost := p.totalCost) == p
    ensures (p.days.Some? || p.rentPerDay.Some?) ==>
      q.totalCost == Some(Merge(b, q).days * Merge(b, q).rentPerDay)
    ensures (p.days.None? && p.rentPerDay.None?) ==> q == p
  {
    if p.days.Some? || p.rentPerDay.Some? then
      p.(totalCost := Some(p.days.GetOr(b.days) * p.rentPerDay.GetOr(b.rentPerDay)))
    else p
  }

  /** `findByIdAndUpdate(id, {...data})`: each field the patch carries overwrites the record's. */
  function Merge(b: Booking, p: Patch): (r: Booking)
    ensures r.userId == b.userId
    ensures r.carName == p.carName.GetOr(b.carName) && r.days == p.days.GetOr(b.days)
    ensures r.rentPerDay == p.rentPerDay.GetOr(b.rentPerDay) && r.status == p.status.GetOr(b.status)
    ensures r.totalCost == p.totalCost.GetOr(b.totalCost)
  {
    Booking(b.userId, p.carName.GetOr(b.carName), p.days.GetOr(b.days), p.rentPerDay.GetOr(b.rentPerDay),
            p.status.GetOr(b.status), p.totalCost.GetOr(b.totalCost))
  }

  /** What a `PUT /bookings/:bookingId` answers, given the store before it. */
  function UpdateResult(m: map<nat, Booking>, id: nat, caller: nat, body: Body): (r: Outcome<Booking>)
    ensures r.Ok? <==> UpdateCheck(Find(m, id), caller, body).Ok?
    ensures r.Fail? ==> r.failure == UpdateCheck(Find(m, id), caller, body).failure
    ensures r.Ok? ==> id in m && r.value.userId == m[id].userId == caller
  {
    match UpdateCheck(Find(m, id), caller, body)
    case Fail(f) => Fail(f)
    case Ok(data) => Ok(Merge(m[id], Priced(m[id], data)))
  }

  /**
   * A successful update overwrites the patched fields, keeps the others
   * (the owner included), and recomputes the cost exactly when `days` or
   * `rentPerDay` is patched.
   */
  lemma UpdatedRecord(m: map<nat, Booking>, id: nat, caller: nat, body: Body)
    requires UpdateResult(m, id, caller, body).Ok?
    ensures id in m && m[id].userId == caller && BookingUpdate(body).Some?
    ensures var b, p, r := m[id], BookingUpdate(body).value, UpdateResult(m, id, caller, body).value;
      && r.userId == b.userId
      && r.carName == p.carName.GetOr(b.carName)
      && r.days == p.days.GetOr(b.days)
      && r.rentPerDay == p.rentPerDay.GetOr(b.rentPerDay)
      && r.status == p.status.GetOr(b.status)
      && ((p.days.Some? || p.rentPerDay.Some?) ==> r.totalCost == r.days * r.rentPerDay)
      && ((p.days.None? && p.rentPerDay.None?) ==> r.totalCost == b.totalCost)
  {
  }

  /** An update keeps a well-formed booking well-formed: bounds and cost invariant alike. */
  lemma UpdatePreservesWellFormed(m: map<nat, Booking>, id: nat, caller: nat, body: Body)
    requires id in m && WellFormed(m[id])
    requires UpdateResult(m, id, caller, body).Ok?
    ensures WellFormed(UpdateResult(m, id, caller, body).value)
  {
    UpdatedRecord(m, id, caller, body);
  }

  /** Nobody but the owner can update a booking. */
  lemma UpdateOwnershipIsolation(m: map<nat, Booking>, id: nat, caller: nat, body: Body)
    requires id in m && m[id].userId != caller
    ensures UpdateResult(m, id, caller, body) == Fail(Forbidden(UpdateNotOwner))
  {
  }

  /** A status-only update by the owner succeeds exactly when the status rule allows it, and changes only the status. */
  lemma StatusOnlyUpdate(m: map<nat, Booking>, id: nat, to: Status)
    requires id in m
    ensures var r := UpdateResult(m, id, m[id].userId, map["status" := JString(StatusName(to))]);
      (r.Ok? <==> StatusChangeAllowed(m[id].status, to))
      && (r.Ok? ==> r.value == m[id].(status := to))
      && (r.Fail? ==> r.failure == Invalid(NoReopen))
  {
    StatusOnlyBody(JString(StatusName(to)));
    StatusNameRoundTrip(to, StatusName(to));
  }

  /** The update example: 3 days at 1500 patched with 4 days at 1600 costs 6400. */
  lemma UpdateScenario(caller: nat)
    ensures
      var m := map[0 := Booking(caller, "Honda City", 3, 1500, Booked, 4500)];
      UpdateResult(m, 0, caller, map["days" := JNumber(4), "rentPerDay" := JNumber(1600)])
        == Ok(Booking(caller, "Honda City", 4, 1600, Booked, 6400))
  {
    var body := map["days" := JNumber(4), "rentPerDay" := JNumber(1600)];
    assert "carName" !in body && "status" !in body;
  }

  /** The delete handler's checks, in their order; on success, the cancelled record. */
  function CancelCheck(current: Option<Booking>, caller: nat): (r: Outcome<Booking>)
    ensures current.None? ==> r == Fail(NotFound(CancelNotFound))
    ensures current.Some? && current.value.status == Cancelled ==> r == Fail(Invalid(AlreadyCancelled))
    ensures current.Some? && current.value.status != Cancelled && current.value.userId != caller ==>
      r == Fail(Forbidden(CancelNotOwner))
    ensures r.Ok? <==> current.Some? && current.value.status != Cancelled && current.value.userId == caller
    ensures r.Ok? ==> r.value == current.value.(status := Cancelled)
  {
    if current.None? then Fail(NotFound(CancelNotFound))
    else if current.value.status == Cancelled then Fail(Invalid(AlreadyCancelled))
    else if current.value.userId != caller then Fail(Forbidden(CancelNotOwner))
    else Ok(current.value.(status := Cancelled))
  }

  /** Cancelling a booking a second time fails, whoever asks. */
  lemma CancelTwiceFails(b: Booking, caller: nat, other: nat)
    requires CancelCheck(Some(b), caller).Ok?
    ensures CancelCheck(Some(CancelCheck(Some(b), caller).value), other) == Fail(Invalid(AlreadyCancelled))
  {
  }

  /** Cancelling keeps a well-formed booking well-formed. */
  lemma CancelPreservesWellFormed(b: Booking, caller: nat)
    requires WellFormed(b) && CancelCheck(Some(b), caller).Ok?
    ensures WellFormed(CancelCheck(Some(b), caller).value)
  {
  }

  /** The id and cost `POST /bookings` answers with. */
  datatype Created = Created(bookingId: nat, totalCost: int)

  /** What `GET /bookings` answers with, by branch. */
  datatype Reply = SummaryReply(summary: SummaryData) | Single(booking: Booking) | Listing(entries: seq<Entry>)

  /** The booking collection. */
  class BookingStore {
    var bookings: map<nat, Booking>
    var nextId: nat

    /** Ids are below the next fresh id, and every stored booking is well-formed. */
    ghost predicate Valid()
      reads this
    {
      && (forall id :: id in bookings ==> id < nextId)
      && (forall id :: id in bookings ==> WellFormed(bookings[id]))
    }

    /** An empty collection. */
    constructor ()
      ensures Valid() && bookings == map[] && nextId == 0
    {
      bookings := map[];
      nextId := 0;
    }

    /** `POST /bookings`. */
    method Create(caller: nat, body: Body) returns (r: Outcome<Created>)
      requires Valid()
      modifies this
      ensures Valid()
      ensures BookingCreate(body).None? ==>
        r == Fail(Invalid(InvalidSchema)) && bookings == old(bookings) && nextId == old(nextId)
      ensures BookingCreate(body).Some? ==>
        var n := BookingCreate(body).value;
        && old(nextId) !in old(bookings)
        && r == Ok(Created(old(nextId), n.days * n.rentPerDay))
        && bookings == old(bookings)[old(nextId) := Booking(caller, n.carName, n.days, n.rentPerDay, Booked, n.days * n.rentPerDay)]
        && nextId == old(nextId) + 1
    {
      var parsed := BookingCreate(body);
      if parsed.None? {
        return Fail(Invalid(InvalidSchema));
      }
      var data := parsed.value;
      var doc := new Document(Draft(Some(caller), Some(data.carName), Some(data.days), Some(data.rentPerDay), None, None));
      var saved := doc.Save();
      var booking := saved.value;
      bookings := bookings[nextId := booking];
      r := Ok(Created(nextId, booking.totalCost));
      nextId := nextId + 1;
    }

    /** `GET /bookings/:bookingId`. */
    method GetById(caller: nat, id: nat) returns (r: Outcome<Booking>)
      ensures r == GetOne(bookings, id, caller)
    {
      r := GetOne(bookings, id, caller);
    }

    /** `GET /bookings` without query: every booking of the caller, or NotFound when there is none. */
    method List(caller: nat) returns (r: Outcome<seq<Entry>>)
      requires Valid()
      ensures r.Fail? <==> forall id :: id in bookings ==> bookings[id].userId != caller
      ensures r.Fail? ==> r.failure == NotFound(NoBookingsForUser)
      ensures r.Fail? <==> Owned(bookings, caller, nextId) == []
      ensures r.Ok? ==> r.value == Owned(bookings, caller, nextId)
      ensures r.Ok? ==> forall e :: e in r.value <==>
        e.id in bookings && bookings[e.id] == e.booking && e.booking.userId == caller
    {
      var own := Owned(bookings, caller, nextId);
      OwnedExact(bookings, caller, nextId);
      OwnedEmptyIffNoneOwned(bookings, caller, nextId);
      if own == [] {
        return Fail(NotFound(NoBookingsForUser));
      }
      r := Ok(own);
    }

    /** `GET /bookings?summary=true`: count and spend over booked and completed bookings, and the upcoming ones. */
    method Summary(caller: nat) returns (r: Outcome<SummaryData>)
      requires Valid()
      ensures r.Fail? <==> forall id :: id in bookings ==> bookings[id].userId != caller
      ensures r == SummaryOf(Owned(bookings, caller, nextId), caller)
    {
      var own := Owned(bookings, caller, nextId);
      OwnedEmptyIffNoneOwned(bookings, caller, nextId);
      if own == [] {
        return Fail(NotFound(NoBookingsForUser));
      }
      var totalBookings, totalAmountSpent := Tally(own);
      var upcomingBookings := WithStatus(own, {Booked});
      r := Ok(SummaryData(caller, totalBookings, totalAmountSpent, upcomingBookings));
    }

    /** `GET /bookings`: `summary=true` first, then `bookingId`, else the full list. */
    method Query(caller: nat, summary: Option<string>, bookingId: Option<nat>) returns (r: Outcome<Reply>)
      requires Valid()
      ensures summary == Some("true") ==>
        var s := SummaryOf(Owned(bookings, caller, nextId), caller);
        r == if s.Ok? then Ok(SummaryReply(s.value)) else Fail(s.failure)
      ensures summary != Some("true") && bookingId.Some? ==>
        var g := GetOne(bookings, bookingId.value, caller);
        r == if g.Ok? then Ok(Single(g.value)) else Fail(g.failure)
      ensures summary != Some("true") && bookingId.None? ==>
        var own := Owned(bookings, caller, nextId);
        r == if own == [] then Fail(NotFound(NoBookingsForUser)) else Ok(Listing(own))
    {
      if summary == Some("true") {
        var s := Summary(caller);
        r := if s.Ok? then Ok(SummaryReply(s.value)) else Fail(s.failure);
        return;
      }
      if bookingId.Some? {
        var g := GetOne(bookings, bookingId.value, caller);
        r := if g.Ok? then Ok(Single(g.value)) else Fail(g.failure);
        return;
      }
      var l := List(caller);
      r := if l.Ok? then Ok(Listing(l.value)) else Fail(l.failure);
    }

    /** `PUT /bookings/:bookingId`: the check chain, the cost recompute, then the merge. */
    method Update(caller: nat, id: nat, body: Body) returns (r: Outcome<Booking>)
      requires Valid()
      modifies this
      ensures Valid() && nextId == old(nextId)
      ensures r == UpdateResult(old(bookings), id, caller, body)
      ensures r.Fail? ==> bookings == old(bookings)
      ensures r.Ok? ==> bookings == old(bookings)[id := r.value]
    {
      var current := Find(bookings, id);
      var check := UpdateCheck(current, caller, body);
      if check.Fail? {
        return Fail(check.failure);
      }
      var booking := current.value;
      var data := check.value;
      if data.days.Some? || data.rentPerDay.Some? {
        var updatedDays := data.days.GetOr(booking.days);
        var updatedRent := data.rentPerDay.GetOr(booking.rentPerDay);
        data := data.(totalCost := Some(updatedDays * updatedRent));
      }
      var updated := Merge(booking, data);
      UpdatePreservesWellFormed(bookings, id, caller, body);
      bookings := bookings[id := updated];
      r := Ok(updated);
    }

    /** `DELETE /bookings/:bookingId`: sets the status to `cancelled` and changes nothing else. */
    method Cancel(caller: nat, id: nat) returns (r: Outcome<nat>)
      requires Valid()
      modifies this
      ensures Valid() && nextId == old(nextId)
      ensures var c := CancelCheck(Find(old(bookings), id), caller);
        && (c.Fail? ==> r == Fail(c.failure) && bookings == old(bookings))
        && (c.Ok? ==> r == Ok(id) && bookings == old(bookings)[id := old(bookings)[id].(status := Cancelled)])
    {
      var check := CancelCheck(Find(bookings, id), caller);
      if check.Fail? {
        return Fail(check.failure);
      }
      CancelPreservesWellFormed(bookings[id], caller);
      bookings := bookings[id := check.value];
      r := Ok(id);
    }
  }

  /** The lifecycle of one booking, end to end. */
  method LifecycleScenario(owner: nat, stranger: nat)
    returns (created: Outcome<Created>, peek: Outcome<Booking>, repriced: Outcome<Booking>,
             renamed: Outcome<Booking>, reopened: Outcome<Booking>, deleted: Outcome<nat>)
    requires owner != stranger
    ensures created == Ok(Created(0, 4500))
    ensures peek == Fail(Forbidden(NoBookingForId))
    ensures repriced == Ok(Booking(owner, "Honda City", 4, 1600, Booked, 6400))
    ensures renamed == Fail(Invalid(DetailsLocked))
    ensures reopened == Fail(Invalid(NoReopen))
    ensures deleted == Fail(Invalid(AlreadyCancelled))
  {
    var store := new BookingStore();
    created := store.Create(owner, map["carName" := JString("Honda City"), "days" := JNumber(3), "rentPerDay" := JNumber(1500)]);
    assert created == Ok(Created(0, 4500));
    var id := created.value.bookingId;
    assert store.bookings[id] == Booking(owner, "Honda City", 3, 1500, Booked, 4500);

    peek := store.GetById(stranger, id);
    assert peek == Fail(Forbidden(NoBookingForId));

    UpdateScenario(owner);
    repriced := store.Update(owner, id, map["days" := JNumber(4), "rentPerDay" := JNumber(1600)]);
    assert repriced.Ok? && store.bookings[id] == Booking(owner, "Honda City", 4, 1600, Booked, 6400);

    StatusOnlyUpdate(store.bookings, id, Completed);
    var completed := store.Update(owner, id, map["status" := JString("completed")]);
    assert completed.Ok? && store.bookings[id].status == Completed;

    renamed := store.Update(owner, id, map["carName" := JString("XY")]);
    assert renamed == Fail(Invalid(DetailsLocked));

    StatusOnlyUpdate(store.bookings, id, Cancelled);
    var cancelled := store.Update(owner, id, map["status" := JString("cancelled")]);
    assert cancelled.Ok? && store.bookings[id].status == Cancelled;

    StatusOnlyUpdate(store.bookings, id, Booked);
    reopened := store.Update(owner, id, map["status" := JString("booked")]);
    assert reopened == Fail(Invalid(NoReopen));

    deleted := store.Cancel(owner, id);
    assert deleted == Fail(Invalid(AlreadyCancelled));
  }
}
