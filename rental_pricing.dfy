/**
 * The priced rental endpoint: the tier-to-hours table, the tiered cost at a
 * base rate of 20 per hour, and `create_rental`, which checks the scooter,
 * prices the rental, fixes its end time and stores it.
 */
module RentalPricing {
  import opened Wrappers
  import opened Http
  import Scooters
  import opened RentalPeriods
  import opened LegacyRentals

  const BaseHourlyRate: real := 20.0
  const SecondsPerHour: int := 3600

  /** `RENTAL_PERIOD_HOURS`. */
  function TierHours(p: RentalPeriod): (h: nat)
    ensures h in {1, 4, 24, 168}
    ensures p == OneHour <==> h == 1
  {
    match p
    case OneHour => 1
    case FourHours => 4
    case OneDay => 24
    case OneWeek => 168
  }

  /** The discount factor of each tier: none for an hour, down to 70% for a week. */
  function Discount(p: RentalPeriod): (d: real)
    ensures 0.0 < d <= 1.0
    ensures d == 1.0 <==> p == OneHour
  {
    match p
    case OneWeek => 0.7
    case OneDay => 0.8
    case FourHours => 0.9
    case OneHour => 1.0
  }

  /** `calculate_rental_cost`: hours times the base rate times the tier's discount. */
  function RentalCost(p: RentalPeriod): (c: real)
    ensures 0.0 < c <= TierHours(p) as real * BaseHourlyRate
    ensures c == TierHours(p) as real * BaseHourlyRate <==> p == OneHour
  {
    TierHours(p) as real * BaseHourlyRate * Discount(p)
  }

  /** The four tiers cost exactly 20, 72, 384 and 2352. */
  lemma TierCosts()
    ensures RentalCost(OneHour) == 20.0 && RentalCost(FourHours) == 72.0
    ensures RentalCost(OneDay) == 384.0 && RentalCost(OneWeek) == 2352.0
  {
  }

  /** A longer tier costs strictly more but never more per hour. */
  lemma LongerTierCostsMoreButNotPerHour(p: RentalPeriod, q: RentalPeriod)
    requires TierHours(p) < TierHours(q)
    ensures RentalCost(p) < RentalCost(q)
    ensures RentalCost(q) / TierHours(q) as real <= RentalCost(p) / TierHours(p) as real
  {
  }

  /** The end time `create_rental` fixes: start plus the tier's hours. */
  function EndTime(startTime: int, p: RentalPeriod): (e: int)
    ensures e - startTime == TierHours(p) * SecondsPerHour
    ensures e > startTime
  {
    startTime + TierHours(p) * SecondsPerHour
  }

  /**
   * `create_rental`: 404 for an unknown scooter and 400 for one that is not
   * "available", with nothing written; otherwise the rental is stored for the
   * current user with the tier's cost and end time and the scooter is marked
   * in use.
   */
  method CreateRental(store: LegacyRentalStore, scooters: Scooters.ScooterStore,
                      input: LegacyRentalCreate, currentUser: nat)
    returns (r: Result<LegacyRental, ApiError>)
    requires store.Valid() && scooters.Valid()
    modifies store, scooters
    ensures store.Valid() && scooters.Valid()
    ensures old(scooters.Get(input.scooterId)).None? ==> r == Err(NotFound)
    ensures old(scooters.Get(input.scooterId)).Some? && old(scooters.Get(input.scooterId)).value.status != Scooters.Available
      ==> r == Err(BadRequest)
    ensures r.Ok? <==>
      old(scooters.Get(input.scooterId)).Some? && old(scooters.Get(input.scooterId)).value.status == Scooters.Available
    ensures r.Err? ==>
      store.rentals == old(store.rentals) && scooters.scooters == old(scooters.scooters)
      && store.nextId == old(store.nextId)
    ensures r.Ok? ==>
      r.value.id == old(store.nextId) && store.nextId == old(store.nextId) + 1
      && r.value.userId == currentUser && r.value.scooterId == input.scooterId
      && r.value.startTime == input.startTime && r.value.status == input.status
      && r.value.startLocation == input.startLocation && r.value.endLocation.None?
      && r.value.totalCost == RentalCost(input.rentalPeriod)
      && r.value.endTime == Some(EndTime(input.startTime, input.rentalPeriod))
      && store.rentals == old(store.rentals) + [r.value]
      && scooters.scooters == Scooters.SetStatusById(old(scooters.scooters), input.scooterId, Scooters.InUse)
  {
    var scooter := scooters.Get(input.scooterId);
    if scooter.None? {
      return Err(NotFound);
    }
    if scooter.value.status != Scooters.Available {
      return Err(BadRequest);
    }
    var cost := RentalCost(input.rentalPeriod);
    var priced := input.(endTime := Some(EndTime(input.startTime, input.rentalPeriod)));
    var rental := store.CreateWithScooter(priced, currentUser, cost, scooters);
    return Ok(rental);
  }
}
