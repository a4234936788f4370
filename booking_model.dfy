/**
 * The booking record: its fields, the `status` enum with its default,
 * and the pre-save hook that derives `totalCost`.
 */
module BookingModel {
  import opened Common

  /** The `status` enum. */
  datatype Status = Booked | Completed | Cancelled

  /** The string the enum stores for each status. */
  function StatusName(s: Status): string {
    match s
    case Booked => "booked"
    case Completed => "completed"
    case Cancelled => "cancelled"
  }

  /** Reads an enum string back; any other string is not a status. */
  function StatusFromName(name: string): (r: Option<Status>)
    ensures r.Some? <==> name == "booked" || name == "completed" || name == "cancelled"
  {
    if name == "booked" then Some(Booked)
    else if name == "completed" then Some(Completed)
    else if name == "cancelled" then Some(Cancelled)
    else None
  }

  /** The enum strings and the statuses are in one-to-one correspondence. */
  lemma StatusNameRoundTrip(s: Status, name: string)
    ensures StatusFromName(StatusName(s)) == Some(s)
    ensures StatusFromName(name) == Some(s) ==> name == StatusName(s)
  {
  }

  /** A saved booking: every path of the schema is required, so every field is present. */
  datatype Booking = Booking(
    userId: nat,
    carName: string,
    days: int,
    rentPerDay: int,
    status: Status,
    totalCost: int)

  /** The derived-cost invariant the pre-save hook establishes. */
  predicate CostConsistent(b: Booking) {
    b.totalCost == b.rentPerDay * b.days
  }

  /** A document before it is saved: any path may still be unset. */
  datatype Draft = Draft(
    userId: Option<nat>,
    carName: Option<string>,
    days: Option<int>,
    rentPerDay: Option<int>,
    status: Option<Status>,
    totalCost: Option<int>)

  /** The default of the `status` path. */
  const DefaultStatus: Status := Booked

  /** Constructing a document fills an unset `status` with its default and touches nothing else. */
  function ApplyDefaults(d: Draft): (r: Draft)
    ensures r.status.Some?
    ensures d.status.Some? ==> r == d
    ensures d.status.None? ==> r.status == Some(Booked)
    ensures r.(status := d.status) == d
  {
    if d.status.None? then d.(status := Some(DefaultStatus)) else d
  }

  /**
   * The pre-save hook: `totalCost` becomes `rentPerDay * days`. When either
   * operand is unset the product is not a number, which the model writes as
   * an unset `totalCost` (validation then rejects the missing operand anyway).
   */
  function PreSaveHook(d: Draft): (r: Draft)
    ensures r.(totalCost := d.totalCost) == d
    ensures r.totalCost.Some? <==> d.days.Some? && d.rentPerDay.Some?
    ensures r.totalCost.Some? ==> r.totalCost.value == r.rentPerDay.value * r.days.value
  {
    d.(totalCost := if d.days.Some? && d.rentPerDay.Some? then Some(d.rentPerDay.value * d.days.value) else None)
  }

  /** The hook changes `totalCost` only. */
  lemma PreSaveHookOnlyCost(d: Draft)
    ensures var r := PreSaveHook(d);
      r.userId == d.userId && r.carName == d.carName && r.days == d.days
      && r.rentPerDay == d.rentPerDay && r.status == d.status
  {
  }

  /** Running the hook twice gives the same document as running it once. */
  lemma PreSaveHookIdempotent(d: Draft)
    ensures PreSaveHook(PreSaveHook(d)) == PreSaveHook(d)
  {
  }

  /** Schema validation: a document is accepted only when every required path is set. */
  function Validate(d: Draft): (r: Option<Booking>)
    ensures r.Some? <==>
      d.userId.Some? && d.carName.Some? && d.carName.value != "" && d.days.Some?
      && d.rentPerDay.Some? && d.status.Some? && d.totalCost.Some?
    ensures r.Some? ==>
      r.value.userId == d.userId.value && r.value.carName == d.carName.value
      && r.value.days == d.days.value && r.value.rentPerDay == d.rentPerDay.value
      && r.value.status == d.status.value && r.value.totalCost == d.totalCost.value
  {
    if d.userId.Some? && d.carName.Some? && d.carName.value != "" && d.days.Some?
       && d.rentPerDay.Some? && d.status.Some? && d.totalCost.Some?
    then Some(Booking(d.userId.value, d.carName.value, d.days.value, d.rentPerDay.value,
                      d.status.value, d.totalCost.value))
    else None
  }

  /**
   * `save()` as the schema is written: validation is the first pre-save step,
   * so it runs before the hook that would fill in the required `totalCost`.
   */
  function SaveAsWritten(d: Draft): (r: Option<Booking>)
    ensures r.Some? ==> d.totalCost.Some? && CostConsistent(r.value)
    ensures r.Some? <==> Validate(d).Some?
  {
    if Validate(d).None? then None else Validate(PreSaveHook(d))
  }

  /** As written, a new document without `totalCost` is never saved. */
  lemma CreateRejectedAsWritten(d: Draft)
    requires d.totalCost.None?
    ensures SaveAsWritten(d) == None
  {
  }

  /**
   * `save()` with the hook in front of validation, which is what the schema
   * evidently intends: the derived path is filled in before it is checked.
   */
  function Saved(d: Draft): (r: Option<Booking>)
    ensures r.Some? <==>
      d.userId.Some? && d.carName.Some? && d.carName.value != "" && d.days.Some?
      && d.rentPerDay.Some? && d.status.Some?
    ensures r.Some? ==>
      CostConsistent(r.value)
      && r.value.userId == d.userId.value && r.value.carName == d.carName.value
      && r.value.days == d.days.value && r.value.rentPerDay == d.rentPerDay.value
      && r.value.status == d.status.value
  {
    Validate(PreSaveHook(d))
  }

  /** Saving a record that already satisfies the cost invariant leaves it as it is. */
  lemma SavedFixesConsistentRecords(b: Booking)
    requires CostConsistent(b) && b.carName != ""
    ensures Saved(Draft(Some(b.userId), Some(b.carName), Some(b.days), Some(b.rentPerDay),
                        Some(b.status), Some(b.totalCost))) == Some(b)
  {
  }

  /** The create request of the Honda City scenario: rejected as written, saved at 4500 when corrected. */
  lemma HondaCityScenario(user: nat)
    ensures var d := ApplyDefaults(Draft(Some(user), Some("Honda City"), Some(3), Some(1500), None, None));
      SaveAsWritten(d) == None
      && Saved(d) == Some(Booking(user, "Honda City", 3, 1500, Booked, 4500))
  {
  }

  /** The three create scenarios' totals. */
  lemma CreateScenarioTotals(user: nat)
    ensures Saved(ApplyDefaults(Draft(Some(user), Some("Toyota Camry"), Some(5), Some(1200), None, None))).value.totalCost == 6000
    ensures Saved(ApplyDefaults(Draft(Some(user), Some("BMW X5"), Some(2), Some(2000), None, None))).value.totalCost == 4000
    ensures Saved(ApplyDefaults(Draft(Some(user), Some("Honda City"), Some(3), Some(1500), None, None))).value.totalCost == 4500
  {
  }

  /** A booking document, whose paths the pre-save hook updates in place. */
  class Document {
    var userId: Option<nat>
    var carName: Option<string>
    var days: Option<int>
    var rentPerDay: Option<int>
    var status: Option<Status>
    var totalCost: Option<int>

    /** The document's current paths as a value. */
    function Fields(): Draft
      reads this
    {
      Draft(userId, carName, days, rentPerDay, status, totalCost)
    }

    /** A new document from the given paths, with the schema's defaults applied. */
    constructor (init: Draft)
      ensures Fields() == ApplyDefaults(init)
    {
      userId := init.userId;
      carName := init.carName;
      days := init.days;
      rentPerDay := init.rentPerDay;
      status := if init.status.None? then Some(DefaultStatus) else init.status;
      totalCost := init.totalCost;
    }

    /** The pre-save hook: overwrites `totalCost` and nothing else. */
    method PreSave()
      modifies this
      ensures Fields() == PreSaveHook(old(Fields()))
    {
      if days.Some? && rentPerDay.Some? {
        totalCost := Some(rentPerDay.value * days.value);
      } else {
        totalCost := None;
      }
    }

    /** Runs the hook, then validates; the saved record is what validation accepts. */
    method Save() returns (r: Option<Booking>)
      modifies this
      ensures Fields() == PreSaveHook(old(Fields()))
      ensures r == Saved(old(Fields()))
    {
      PreSave();
      r := Validate(Fields());
    }
  }
}
