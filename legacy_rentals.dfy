/**
 * The second copy of the rental CRUD layer, used by the priced rental
 * endpoint: statuses are plain strings, the stored cost is `total_cost`, the
 * start location is kept, and updates are applied with no transition check.
 */
module LegacyRentals {
  import opened Wrappers
  import opened Query
  import Scooters
  import opened RentalPeriods

  const ActiveStatus: string := "active"

  /** A row of this copy's `rentals` table. */
  datatype LegacyRental = LegacyRental(
    id: nat,
    userId: nat,
    scooterId: nat,
    startTime: int,
    endTime: Option<int>,
    status: string,
    totalCost: real,
    startLocation: string,
    endLocation: Option<string>)

  /** A `RentalCreate` body; `status` defaults to "active". */
  datatype LegacyRentalCreate = LegacyRentalCreate(
    scooterId: nat,
    userId: nat,
    startTime: int,
    startLocation: string,
    rentalPeriod: RentalPeriod,
    endTime: Option<int>,
    status: string)

  /** A `RentalUpdate` body restricted to the columns of the row; `None` is unset. */
  datatype LegacyPatch = LegacyPatch(
    scooterId: Option<nat>,
    userId: Option<nat>,
    startTime: Option<int>,
    endTime: Option<int>,
    status: Option<string>,
    startLocation: Option<string>,
    endLocation: Option<string>)

  function LegacyId(r: LegacyRental): nat { r.id }

  /** The partial update: each field the patch sets replaces the column, whatever the status. */
  function ApplyPatch(r: LegacyRental, p: LegacyPatch): (s: LegacyRental)
    ensures s.id == r.id && s.totalCost == r.totalCost
    ensures s.userId == p.userId.GetOr(r.userId) && s.scooterId == p.scooterId.GetOr(r.scooterId)
    ensures s.startTime == p.startTime.GetOr(r.startTime) && s.status == p.status.GetOr(r.status)
    ensures s.startLocation == p.startLocation.GetOr(r.startLocation)
    ensures s.endTime == (if p.endTime.Some? then p.endTime else r.endTime)
    ensures s.endLocation == (if p.endLocation.Some? then p.endLocation else r.endLocation)
    ensures p == LegacyPatch(None, None, None, None, None, None, None) ==> s == r
  {
    LegacyRental(r.id,
      p.userId.GetOr(r.userId), p.scooterId.GetOr(r.scooterId), p.startTime.GetOr(r.startTime),
      if p.endTime.Some? then p.endTime else r.endTime,
      p.status.GetOr(r.status), r.totalCost, p.startLocation.GetOr(r.startLocation),
      if p.endLocation.Some? then p.endLocation else r.endLocation)
  }

  function ReplaceById(rs: seq<LegacyRental>, id: nat, row: LegacyRental): (r: seq<LegacyRental>)
    ensures |r| == |rs|
    ensures forall j :: 0 <= j < |rs| ==> r[j] == (if rs[j].id == id then row else rs[j])
  {
    seq(|rs|, j requires 0 <= j < |rs| => if rs[j].id == id then row else rs[j])
  }

  function NotId(id: nat): LegacyRental -> bool {
    (r: LegacyRental) => r.id != id
  }

  class LegacyRentalStore {
    var rentals: seq<LegacyRental>
    var nextId: nat

    ghost predicate Valid()
      reads this
    {
      DistinctBy(rentals, LegacyId) && forall j :: 0 <= j < |rentals| ==> rentals[j].id < nextId
    }

    constructor ()
      ensures Valid() && rentals == [] && nextId == 1
    {
      rentals := [];
      nextId := 1;
    }

    /** `get_by_id`. */
    function GetById(id: nat): (r: Option<LegacyRental>)
      reads this
      ensures r.None? <==> forall j :: 0 <= j < |rentals| ==> rentals[j].id != id
      ensures r.Some? ==> r.value in rentals && r.value.id == id
    {
      First(rentals, (x: LegacyRental) => x.id == id)
    }

    /** `get_user_rentals`: exactly the rows of user `u`, in order. */
    function GetUserRentals(u: nat): (r: seq<LegacyRental>)
      reads this
      ensures forall k :: 0 <= k < |r| ==> r[k] in rentals && r[k].userId == u
      ensures forall j :: 0 <= j < |rentals| && rentals[j].userId == u ==> rentals[j] in r
    {
      Filter(rentals, (x: LegacyRental) => x.userId == u)
    }

    /** `get_active_rentals`: exactly the rows whose status is the string "active". */
    function GetActiveRentals(): (r: seq<LegacyRental>)
      reads this
      ensures forall k :: 0 <= k < |r| ==> r[k] in rentals && r[k].status == ActiveStatus
      ensures forall j :: 0 <= j < |rentals| && rentals[j].status == ActiveStatus ==> rentals[j] in r
    {
      Filter(rentals, (x: LegacyRental) => x.status == ActiveStatus)
    }

    /**
     * `create_with_scooter`: marks the scooter "in_use" when it exists, then
     * inserts a rental copying the body's scooter, times, status and start
     * location with the caller's user id and total cost.
     */
    method CreateWithScooter(input: LegacyRentalCreate, userId: nat, totalCost: real,
                             scooters: Scooters.ScooterStore) returns (rental: LegacyRental)
      requires Valid() && scooters.Valid()
      modifies this, scooters
      ensures Valid() && scooters.Valid()
      ensures rental == LegacyRental(old(nextId), userId, input.scooterId, input.startTime, input.endTime,
                                     input.status, totalCost, input.startLocation, None)
      ensures rentals == old(rentals) + [rental] && nextId == old(nextId) + 1
      ensures scooters.scooters == Scooters.SetStatusById(old(scooters.scooters), input.scooterId, Scooters.InUse)
      ensures GetById(rental.id) == Some(rental)
    {
      scooters.SetStatusIfFound(input.scooterId, Scooters.InUse);
      rental := LegacyRental(nextId, userId, input.scooterId, input.startTime, input.endTime,
                             input.status, totalCost, input.startLocation, None);
      rentals := rentals + [rental];
      nextId := nextId + 1;
      FirstIs(rentals, (x: LegacyRental) => x.id == rental.id, |rentals| - 1);
    }

    /** `update_rental`: applies the set fields, with no check on the status. */
    method UpdateRental(rental: LegacyRental, p: LegacyPatch) returns (updated: LegacyRental)
      requires Valid() && rental in rentals
      modifies this
      ensures Valid() && nextId == old(nextId)
      ensures updated == ApplyPatch(rental, p)
      ensures rentals == ReplaceById(old(rentals), rental.id, updated)
      ensures GetById(rental.id) == Some(updated)
    {
      ghost var k :| 0 <= k < |rentals| && rentals[k] == rental;
      updated := ApplyPatch(rental, p);
      rentals := ReplaceById(rentals, rental.id, updated);
      FirstIs(rentals, (x: LegacyRental) => x.id == rental.id, k);
    }

    /** `delete_rental`: removes the row with id `id` and returns it, or returns `None`. */
    method DeleteRental(id: nat) returns (r: Option<LegacyRental>)
      requires Valid()
      modifies this
      ensures Valid() && nextId == old(nextId)
      ensures r == old(GetById(id))
      ensures r.None? ==> rentals == old(rentals)
      ensures r.Some? ==> rentals == Filter(old(rentals), NotId(id))
      ensures GetById(id).None?
    {
      r := GetById(id);
      if r.Some? {
        FilterKeepsDistinct(rentals, NotId(id), LegacyId);
        rentals := Filter(rentals, NotId(id));
      }
    }
  }
}
