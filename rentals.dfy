/**
 * The `rentals` table and its CRUD layer: the expiry sweep, creation with a
 * scooter reservation, the guarded status transition, the unguarded status
 * setter, deletion and the two list queries.
 */
module Rentals {
  import opened Wrappers
  import opened Query
  import opened Http
  import Scooters

  /** Seconds in the hour after which an active rental is swept. */
  const OneHour: int := 3600

  datatype RentalStatus = Active | Completed | Cancelled | Paid

  /** A row of `rentals`; `status` defaults to `Active`, `endTime` and `cost` are nullable. */
  datatype Rental = Rental(
    id: nat,
    userId: nat,
    scooterId: nat,
    startTime: int,
    endTime: Option<int>,
    status: RentalStatus,
    cost: Option<real>)

  /** A `RentalCreate` body as `create_with_scooter` reads it. */
  datatype RentalCreate = RentalCreate(
    scooterId: nat,
    userId: nat,
    startTime: int,
    startLocation: string,
    endTime: Option<int>,
    status: RentalStatus)

  /**
   * A `RentalUpdate` body: `None` is a field the request did not set. The
   * location fields have no column on the row and are left out.
   */
  datatype RentalPatch = RentalPatch(
    scooterId: Option<nat>,
    userId: Option<nat>,
    startTime: Option<int>,
    endTime: Option<int>,
    status: Option<RentalStatus>,
    cost: Option<real>)

  function RentalId(r: Rental): nat { r.id }

  /** Caught by the sweep: still active and started at least an hour before `now`. */
  predicate Expired(r: Rental, now: int) {
    r.status == Active && r.startTime <= now - OneHour
  }

  /** What the sweep does to one row. */
  function SweepRow(r: Rental, now: int): (s: Rental)
    ensures s.id == r.id && s.userId == r.userId && s.scooterId == r.scooterId
    ensures s.startTime == r.startTime && s.cost == r.cost
    ensures Expired(r, now) ==> s.status == Completed && s.endTime == Some(now)
    ensures !Expired(r, now) ==> s == r
  {
    if Expired(r, now) then r.(status := Completed, endTime := Some(now)) else r
  }

  /** The table after `check_expired_rentals` at time `now`. */
  function Swept(rs: seq<Rental>, now: int): (r: seq<Rental>)
    ensures |r| == |rs|
  {
    seq(|rs|, j requires 0 <= j < |rs| => SweepRow(rs[j], now))
  }

  /** The scooters of the rows among the first `n` that the sweep catches. */
  ghost function ReleasedIds(rs: seq<Rental>, n: nat, now: int): (ids: set<nat>)
    requires n <= |rs|
    ensures forall j :: 0 <= j < n && Expired(rs[j], now) ==> rs[j].scooterId in ids
  {
    set j | 0 <= j < n && Expired(rs[j], now) :: rs[j].scooterId
  }

  /** Every scooter whose id is in `ids` made available. */
  function Released(ss: seq<Scooters.Scooter>, ids: set<nat>): (r: seq<Scooters.Scooter>)
    ensures |r| == |ss|
  {
    seq(|ss|, k requires 0 <= k < |ss| =>
      if ss[k].id in ids then ss[k].(status := Scooters.Available) else ss[k])
  }

  /** `update_rental`'s table of allowed transitions; `Paid` has no entry. */
  function AllowedTransitions(from: RentalStatus): (r: Option<seq<RentalStatus>>)
    ensures r.None? <==> from == Paid
    ensures r.Some? ==> forall k :: 0 <= k < |r.value| ==> from == Active && r.value[k] == Completed
  {
    match from
    case Active => Some([Completed])
    case Completed => Some([])
    case Cancelled => Some([])
    case Paid => None
  }

  /** The partial update: each field the patch sets replaces the column. */
  function ApplyPatch(r: Rental, p: RentalPatch): (s: Rental)
    ensures s.id == r.id
    ensures s.userId == p.userId.GetOr(r.userId) && s.scooterId == p.scooterId.GetOr(r.scooterId)
    ensures s.startTime == p.startTime.GetOr(r.startTime) && s.status == p.status.GetOr(r.status)
    ensures s.endTime == (if p.endTime.Some? then p.endTime else r.endTime)
    ensures s.cost == (if p.cost.Some? then p.cost else r.cost)
    ensures p == RentalPatch(None, None, None, None, None, None) ==> s == r
  {
    Rental(r.id,
      p.userId.GetOr(r.userId), p.scooterId.GetOr(r.scooterId), p.startTime.GetOr(r.startTime),
      if p.endTime.Some? then p.endTime else r.endTime,
      p.status.GetOr(r.status),
      if p.cost.Some? then p.cost else r.cost)
  }

  /**
   * The outcome of `update_rental`: a requested status must be listed for the
   * current one (400 otherwise); a `Paid` rental has no entry and fails the
   * lookup (500).
   */
  function UpdateOutcome(r: Rental, p: RentalPatch): (o: Result<Rental, ApiError>)
    ensures p.status.None? ==> o == Ok(ApplyPatch(r, p))
    ensures p.status.Some? && r.status == Paid ==> o == Err(ServerError)
    ensures p.status.Some? && r.status != Paid ==>
      (o.Ok? <==> r.status == Active && p.status.value == Completed)
    ensures p.status.Some? && r.status != Paid && o.Err? ==> o == Err(BadRequest)
    ensures o.Ok? ==> o.value == ApplyPatch(r, p)
  {
    if p.status.Some? then
      match AllowedTransitions(r.status)
      case None => Err(ServerError)
      case Some(allowed) =>
        if p.status.value in allowed then Ok(ApplyPatch(r, p)) else Err(BadRequest)
    else Ok(ApplyPatch(r, p))
  }

  /** Replaces the row with id `id` by `row`. */
  function ReplaceById(rs: seq<Rental>, id: nat, row: Rental): (r: seq<Rental>)
    ensures |r| == |rs|
    ensures forall j :: 0 <= j < |rs| ==> r[j] == (if rs[j].id == id then row else rs[j])
  {
    seq(|rs|, j requires 0 <= j < |rs| => if rs[j].id == id then row else rs[j])
  }

  lemma SweptStep(rs: seq<Rental>, i: nat, now: int, cur: seq<Rental>)
    requires i < |rs| && cur == Swept(rs[..i], now) + rs[i..]
    ensures cur[i] == rs[i]
    ensures cur[i := SweepRow(rs[i], now)] == Swept(rs[..i + 1], now) + rs[i + 1..]
    ensures !Expired(rs[i], now) ==> cur == Swept(rs[..i + 1], now) + rs[i + 1..]
    ensures Expired(rs[i], now) ==> ReleasedIds(rs, i + 1, now) == ReleasedIds(rs, i, now) + {rs[i].scooterId}
    ensures !Expired(rs[i], now) ==> ReleasedIds(rs, i + 1, now) == ReleasedIds(rs, i, now)
  {
  }

  /** Releasing one more id is the single status update of that id. */
  lemma ReleaseStep(ss: seq<Scooters.Scooter>, ids: set<nat>, id: nat)
    ensures Scooters.SetStatusById(Released(ss, ids), id, Scooters.Available) == Released(ss, ids + {id})
    ensures (forall k :: 0 <= k < |ss| ==> Released(ss, ids)[k].id != id) ==> Released(ss, ids + {id}) == Released(ss, ids)
  {
  }

  /** The sweep's scooter update: the scooter, when it exists, becomes available. */
  method ReleaseScooter(scooters: Scooters.ScooterStore, id: nat, ghost ss0: seq<Scooters.Scooter>, ghost ids: set<nat>)
    requires scooters.Valid() && scooters.scooters == Released(ss0, ids)
    modifies scooters
    ensures scooters.Valid() && scooters.scooters == Released(ss0, ids + {id})
  {
    ReleaseStep(ss0, ids, id);
    if scooters.Get(id).Some? {
      scooters.SetStatus(id, Scooters.Available);
    }
  }

  lemma SweptKeepsIds(rs: seq<Rental>, now: int)
    requires DistinctBy(rs, RentalId)
    ensures DistinctBy(Swept(rs, now), RentalId)
    ensures Swept(rs[..|rs|], now) == Swept(rs, now)
  {
    assert rs[..|rs|] == rs;
  }

  /** After a sweep no row is still expired at the same `now`. */
  lemma SweepLeavesNoExpired(rs: seq<Rental>, now: int)
    ensures forall j :: 0 <= j < |rs| ==> !Expired(Swept(rs, now)[j], now)
  {
  }

  /** A second sweep at the same `now` changes nothing. */
  lemma SweepIdempotent(rs: seq<Rental>, now: int)
    ensures Swept(Swept(rs, now), now) == Swept(rs, now)
    ensures ReleasedIds(Swept(rs, now), |rs|, now) == {}
  {
    SweepLeavesNoExpired(rs, now);
  }

  function IsActive(r: Rental): bool { r.status == Active }

  function ActiveSince(now: int): Rental -> bool {
    (r: Rental) => r.status == Active && r.startTime > now - OneHour
  }

  /** The active rentals after a sweep are exactly the ones started within the last hour. */
  lemma {:induction false} ActiveAfterSweep(rs: seq<Rental>, now: int)
    ensures Filter(Swept(rs, now), IsActive) == Filter(rs, ActiveSince(now))
  {
    if rs != [] {
      ActiveAfterSweep(rs[1..], now);
      assert Swept(rs, now)[1..] == Swept(rs[1..], now);
    }
  }

  /** Completed and cancelled rentals cannot change status through `update_rental`. */
  lemma TerminalStatusesAreFinal(r: Rental, p: RentalPatch)
    requires r.status == Completed || r.status == Cancelled
    requires p.status.Some?
    ensures UpdateOutcome(r, p) == Err(BadRequest)
  {
  }

  function NotId(id: nat): Rental -> bool {
    (r: Rental) => r.id != id
  }

  class RentalStore {
    var rentals: seq<Rental>
    var nextId: nat

    ghost predicate Valid()
      reads this
    {
      DistinctBy(rentals, RentalId) && forall j :: 0 <= j < |rentals| ==> rentals[j].id < nextId
    }

    constructor ()
      ensures Valid() && rentals == [] && nextId == 1
    {
      rentals := [];
      nextId := 1;
    }

    /** `get_by_id`. */
    function GetById(id: nat): (r: Option<Rental>)
      reads this
      ensures r.None? <==> forall j :: 0 <= j < |rentals| ==> rentals[j].id != id
      ensures r.Some? ==> r.value in rentals && r.value.id == id
    {
      First(rentals, (x: Rental) => x.id == id)
    }

    /** `get_user_rentals`: exactly the rows of user `u`, in order. */
    function GetUserRentals(u: nat): (r: seq<Rental>)
      reads this
      ensures forall k :: 0 <= k < |r| ==> r[k] in rentals && r[k].userId == u
      ensures forall j :: 0 <= j < |rentals| && rentals[j].userId == u ==> rentals[j] in r
    {
      Filter(rentals, (x: Rental) => x.userId == u)
    }

    /** `get_active_rentals`: exactly the active rows, in order. */
    function GetActiveRentals(): (r: seq<Rental>)
      reads this
      ensures forall k :: 0 <= k < |r| ==> r[k] in rentals && r[k].status == Active
      ensures forall j :: 0 <= j < |rentals| && rentals[j].status == Active ==> rentals[j] in r
    {
      Filter(rentals, (x: Rental) => x.status == Active)
    }

    /**
     * `create_with_scooter`: marks the scooter in use when it exists, without
     * looking at its status, then inserts the rental with the given start
     * time, user and cost and the body's scooter, end time and status.
     */
    method CreateWithScooter(input: RentalCreate, startTime: int, userId: nat, cost: real,
                             scooters: Scooters.ScooterStore) returns (rental: Rental)
      requires Valid() && scooters.Valid()
      modifies this, scooters
      ensures Valid() && scooters.Valid()
      ensures rental == Rental(old(nextId), userId, input.scooterId, startTime, input.endTime, input.status, Some(cost))
      ensures rentals == old(rentals) + [rental] && nextId == old(nextId) + 1
      ensures scooters.scooters == Scooters.SetStatusById(old(scooters.scooters), input.scooterId, Scooters.InUse)
      ensures GetById(rental.id) == Some(rental)
    {
      scooters.SetStatusIfFound(input.scooterId, Scooters.InUse);
      rental := Rental(nextId, userId, input.scooterId, startTime, input.endTime, input.status, Some(cost));
      rentals := rentals + [rental];
      nextId := nextId + 1;
      FirstIs(rentals, (x: Rental) => x.id == rental.id, |rentals| - 1);
    }

    /**
     * `update_rental`: checks a requested status against the transition
     * table, then applies the set fields; on an error nothing changes.
     */
    method UpdateRental(rental: Rental, p: RentalPatch) returns (r: Result<Rental, ApiError>)
      requires Valid() && rental in rentals
      modifies this
      ensures Valid() && nextId == old(nextId)
      ensures r == UpdateOutcome(rental, p)
      ensures r.Err? ==> rentals == old(rentals)
      ensures r.Ok? ==> rentals == ReplaceById(old(rentals), rental.id, r.value)
    {
      if p.status.Some? {
        var allowed := AllowedTransitions(rental.status);
        if allowed.None? {
          return Err(ServerError);
        }
        if p.status.value !in allowed.value {
          return Err(BadRequest);
        }
      }
      var updated := ApplyPatch(rental, p);
      rentals := ReplaceById(rentals, rental.id, updated);
      return Ok(updated);
    }

    /** `update_rental_status`: sets any status, with no transition check. */
    method UpdateRentalStatus(rental: Rental, status: RentalStatus)
      requires Valid() && rental in rentals
      modifies this
      ensures Valid() && nextId == old(nextId)
      ensures rentals == ReplaceById(old(rentals), rental.id, rental.(status := status))
      ensures GetById(rental.id) == Some(rental.(status := status))
    {
      ghost var k :| 0 <= k < |rentals| && rentals[k] == rental;
      rentals := ReplaceById(rentals, rental.id, rental.(status := status));
      FirstIs(rentals, (x: Rental) => x.id == rental.id, k);
    }

    /** `delete_rental`: removes the row with id `id` and returns it, or returns `None`. */
    method DeleteRental(id: nat) returns (r: Option<Rental>)
      requires Valid()
      modifies this
      ensures Valid() && nextId == old(nextId)
      ensures r == old(GetById(id))
      ensures r.None? ==> rentals == old(rentals)
      ensures r.Some? ==> rentals == Filter(old(rentals), NotId(id))
      ensures GetById(id).None?
    {
      r := GetById(id);
      if r.Some? {
        FilterKeepsDistinct(rentals, NotId(id), RentalId);
        rentals := Filter(rentals, NotId(id));
      }
    }

    /** One pass of the sweep loop: row `i` is swept and, when it expired, its scooter released. */
    method SweepAt(i: nat, now: int, scooters: Scooters.ScooterStore, ghost rs0: seq<Rental>,
                   ghost ss0: seq<Scooters.Scooter>)
      requires i < |rs0| && rentals == Swept(rs0[..i], now) + rs0[i..]
      requires scooters.Valid() && scooters.scooters == Released(ss0, ReleasedIds(rs0, i, now))
      modifies this, scooters
      ensures rentals == Swept(rs0[..i + 1], now) + rs0[i + 1..] && nextId == old(nextId)
      ensures scooters.Valid() && scooters.scooters == Released(ss0, ReleasedIds(rs0, i + 1, now))
    {
      SweptStep(rs0, i, now, rentals);
      if Expired(rentals[i], now) {
        var scooterId := rentals[i].scooterId;
        assert rentals[i].(status := Completed, endTime := Some(now)) == SweepRow(rs0[i], now);
        rentals := rentals[i := rentals[i].(status := Completed, endTime := Some(now))];
        ReleaseScooter(scooters, scooterId, ss0, ReleasedIds(rs0, i, now));
      }
    }

    /**
     * `check_expired_rentals`: every expired row becomes completed at `now`
     * and its scooter, when it exists, becomes available.
     */
    method CheckExpiredRentals(now: int, scooters: Scooters.ScooterStore)
      requires Valid() && scooters.Valid()
      modifies this, scooters
      ensures Valid() && scooters.Valid()
      ensures rentals == Swept(old(rentals), now) && nextId == old(nextId)
      ensures scooters.scooters == Released(old(scooters.scooters), ReleasedIds(old(rentals), |old(rentals)|, now))
    {
      ghost var rs0 := rentals;
      ghost var ss0 := scooters.scooters;
      var i := 0;
      while i < |rentals|
        invariant 0 <= i <= |rentals| == |rs0|
        invariant rentals == Swept(rs0[..i], now) + rs0[i..]
        invariant scooters.Valid() && scooters.scooters == Released(ss0, ReleasedIds(rs0, i, now))
        invariant nextId == old(nextId)
      {
        SweepAt(i, now, scooters, rs0, ss0);
        i := i + 1;
      }
      assert rs0[i..] == [];
      assert rentals == Swept(rs0[..|rs0|], now);
      SweptKeepsIds(rs0, now);
    }
  }
}
