/**
 * The request-body schemas: what a create body, an update body and a
 * credentials body must look like to be accepted.
 */
module Validators {
  import opened Common
  import opened BookingModel

  /**
   * A JSON value as a schema sees it: a string, an integral number, or
   * anything else (booleans, null, arrays, objects), which every field here rejects.
   */
  datatype Json = JString(str: string) | JNumber(num: int) | JOther

  /** A parsed request body: its keys and their values. */
  type Body = map<string, Json>

  /** `carName`: a string of 2 to 50 characters. */
  predicate IsCarName(v: Json) {
    v.JString? && 2 <= |v.str| <= 50
  }

  /** `days`: a number from 1 to 365 (the extra non-negativity check adds nothing). */
  predicate IsDays(v: Json) {
    v.JNumber? && 1 <= v.num <= 365 && v.num >= 0
  }

  /** `rentPerDay`: a number from 100 to 2000. */
  predicate IsRentPerDay(v: Json) {
    v.JNumber? && 100 <= v.num <= 2000
  }

  /** `status`: one of the enum's strings. */
  function StatusOf(v: Json): (r: Option<Status>)
    ensures r.Some? <==> v.JString? && (v.str == "booked" || v.str == "completed" || v.str == "cancelled")
    ensures r.Some? ==> v == JString(StatusName(r.value))
  {
    StatusNameRoundTrip(Booked, if v.JString? then v.str else "");
    StatusNameRoundTrip(Completed, if v.JString? then v.str else "");
    StatusNameRoundTrip(Cancelled, if v.JString? then v.str else "");
    if v.JString? then StatusFromName(v.str) else None
  }

  /** The bounds `bookingCreate` puts on a booking's details. */
  predicate InCreateBounds(carName: string, days: int, rentPerDay: int) {
    2 <= |carName| <= 50 && 1 <= days <= 365 && 100 <= rentPerDay <= 2000
  }

  /** The data `bookingCreate` extracts; any other key of the body is dropped. */
  datatype NewBooking = NewBooking(carName: string, days: int, rentPerDay: int)

  /** `bookingCreate`: all three fields are required and each must be in range. */
  function BookingCreate(body: Body): (r: Option<NewBooking>)
    ensures r.Some? <==>
      && "carName" in body && IsCarName(body["carName"])
      && "days" in body && IsDays(body["days"])
      && "rentPerDay" in body && IsRentPerDay(body["rentPerDay"])
    ensures r.Some? ==>
      && body["carName"] == JString(r.value.carName)
      && body["days"] == JNumber(r.value.days)
      && body["rentPerDay"] == JNumber(r.value.rentPerDay)
      && InCreateBounds(r.value.carName, r.value.days, r.value.rentPerDay)
  {
    if && "carName" in body && IsCarName(body["carName"])
       && "days" in body && IsDays(body["days"])
       && "rentPerDay" in body && IsRentPerDay(body["rentPerDay"])
    then Some(NewBooking(body["carName"].str, body["days"].num, body["rentPerDay"].num))
    else None
  }

  /** `a * c <= b * c` for `a <= b` and non-negative `c`. */
  lemma MulMonotonic(a: int, b: int, c: int)
    requires a <= b && 0 <= c
    ensures a * c <= b * c
  {
    assert b * c - a * c == (b - a) * c;
  }

  /** Any cost of details within the create bounds lies between 100 and 730000. */
  lemma CreateCostBounds(days: int, rentPerDay: int)
    requires 1 <= days <= 365 && 100 <= rentPerDay <= 2000
    ensures 100 <= rentPerDay * days <= 730000
  {
    MulMonotonic(1, days, rentPerDay);
    MulMonotonic(days, 365, rentPerDay);
    MulMonotonic(rentPerDay, 2000, 365);
    assert rentPerDay * days == days * rentPerDay;
  }

  /** The cost of every booking `bookingCreate` accepts lies between 100 and 730000. */
  lemma AcceptedCreateCost(body: Body)
    requires BookingCreate(body).Some?
    ensures var n := BookingCreate(body).value; 100 <= n.rentPerDay * n.days <= 730000
  {
    var n := BookingCreate(body).value;
    CreateCostBounds(n.days, n.rentPerDay);
  }

  /**
   * The data `bookingUpdate` extracts: each recognised key that was sent.
   * `totalCost` is never part of a body; the update handler adds it to this
   * object after validation.
   */
  datatype Patch = Patch(
    carName: Option<string>,
    days: Option<int>,
    rentPerDay: Option<int>,
    status: Option<Status>,
    totalCost: Option<int>)

  /** The patch touches one of the car details. */
  predicate TouchesDetails(p: Patch) {
    p.carName.Some? || p.days.Some? || p.rentPerDay.Some?
  }

  /** Every detail a patch carries is within the create bounds. */
  predicate PatchInBounds(p: Patch) {
    && (p.carName.Some? ==> 2 <= |p.carName.value| <= 50)
    && (p.days.Some? ==> 1 <= p.days.value <= 365)
    && (p.rentPerDay.Some? ==> 100 <= p.rentPerDay.value <= 2000)
  }

  /** Every key of the update schema that was sent passes its check. */
  predicate SentKeysValid(body: Body) {
    && ("carName" in body ==> IsCarName(body["carName"]))
    && ("days" in body ==> IsDays(body["days"]))
    && ("rentPerDay" in body ==> IsRentPerDay(body["rentPerDay"]))
    && ("status" in body ==> StatusOf(body["status"]).Some?)
  }

  /** At least one key of the update schema was sent. */
  predicate SomeKeySent(body: Body) {
    "carName" in body || "days" in body || "rentPerDay" in body || "status" in body
  }

  /**
   * `bookingUpdate`: every field optional, each field that is sent checked
   * as in `bookingCreate` (and `status` against the enum), and at least one
   * recognised field required.
   */
  function BookingUpdate(body: Body): (r: Option<Patch>)
    ensures r.Some? <==> SentKeysValid(body) && SomeKeySent(body)
    ensures r.Some? ==>
      && PatchInBounds(r.value)
      && r.value.totalCost.None?
      && (r.value.carName.Some? <==> "carName" in body)
      && (r.value.days.Some? <==> "days" in body)
      && (r.value.rentPerDay.Some? <==> "rentPerDay" in body)
      && (r.value.status.Some? <==> "status" in body)
      && (r.value.carName.Some? ==> body["carName"] == JString(r.value.carName.value))
      && (r.value.days.Some? ==> body["days"] == JNumber(r.value.days.value))
      && (r.value.rentPerDay.Some? ==> body["rentPerDay"] == JNumber(r.value.rentPerDay.value))
      && (r.value.status.Some? ==> body["status"] == JString(StatusName(r.value.status.value)))
  {
    if SentKeysValid(body) && SomeKeySent(body) then
      Some(Patch(
        if "carName" in body then Some(body["carName"].str) else None,
        if "days" in body then Some(body["days"].num) else None,
        if "rentPerDay" in body then Some(body["rentPerDay"].num) else None,
        if "status" in body then StatusOf(body["status"]) else None,
        None))
    else None
  }

  /** A body `bookingCreate` accepts is also a valid update, unless it carries a bad `status`. */
  lemma CreateBodyIsValidUpdate(body: Body)
    requires BookingCreate(body).Some?
    requires "status" in body ==> StatusOf(body["status"]).Some?
    ensures BookingUpdate(body).Some?
    ensures TouchesDetails(BookingUpdate(body).value)
  {
  }

  /** A body with no recognised key is rejected, whatever else it carries. */
  lemma NoRecognisedKeyRejected(body: Body)
    requires "carName" !in body && "days" !in body && "rentPerDay" !in body && "status" !in body
    ensures BookingUpdate(body) == None
  {
  }

  /** A status-only body is accepted exactly when it names a status, and then patches nothing else. */
  lemma StatusOnlyBody(v: Json)
    ensures var r := BookingUpdate(map["status" := v]);
      (r.Some? <==> StatusOf(v).Some?)
      && (r.Some? ==> r.value == Patch(None, None, None, StatusOf(v), None))
  {
    assert "carName" != "status" && "days" != "status" && "rentPerDay" != "status";
  }

  /** The credentials `userAuthSchema` extracts. */
  datatype Credentials = Credentials(username: string, password: string)

  /** `userAuthSchema`: a username of at least 3 characters and a password of at least 6. */
  function UserAuth(body: Body): (r: Option<Credentials>)
    ensures r.Some? <==>
      && "username" in body && body["username"].JString? && |body["username"].str| >= 3
      && "password" in body && body["password"].JString? && |body["password"].str| >= 6
    ensures r.Some? ==>
      body["username"] == JString(r.value.username) && body["password"] == JString(r.value.password)
  {
    if && "username" in body && body["username"].JString? && |body["username"].str| >= 3
       && "password" in body && body["password"].JString? && |body["password"].str| >= 6
    then Some(Credentials(body["username"].str, body["password"].str))
    else None
  }
}
