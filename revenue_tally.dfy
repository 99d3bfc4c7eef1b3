/**
 * The daily revenue tally: which payments of a day count, how a counted
 * rental is put in one of the four duration buckets, and the running totals
 * the tally keeps.
 */
module RevenueTally {
  import opened Wrappers
  import opened Query
  import opened PaymentModel
  import Payments
  import Rentals
  import opened RentalPeriods

  const SecondsPerDay: int := 86400

  /** Day `day` runs from its first second to its last. */
  predicate OnDay(t: int, day: int) {
    day * SecondsPerDay <= t <= day * SecondsPerDay + SecondsPerDay - 1
  }

  /** Every instant lies on exactly one day: the one that divides it. */
  lemma OnDayIsDivision(t: int, day: int)
    ensures OnDay(t, day) <==> t / SecondsPerDay == day
  {
    var q := t / SecondsPerDay;
    assert q * SecondsPerDay <= t < q * SecondsPerDay + SecondsPerDay;
    if day < q {
      assert day * SecondsPerDay + SecondsPerDay <= q * SecondsPerDay;
    } else if day > q {
      assert q * SecondsPerDay + SecondsPerDay <= day * SecondsPerDay;
    }
  }

  /** One value per rental tier (the four keys of `revenue_by_period`). */
  datatype PerPeriod<T> = PerPeriod(oneHour: T, fourHours: T, oneDay: T, oneWeek: T)
  {
    function Get(p: RentalPeriod): T {
      match p
      case OneHour => oneHour
      case FourHours => fourHours
      case OneDay => oneDay
      case OneWeek => oneWeek
    }
  }

  datatype PeriodStats = PeriodStats(count: nat, revenue: real)

  type Breakdown = PerPeriod<PeriodStats>

  const EmptyBreakdown: Breakdown :=
    PerPeriod(PeriodStats(0, 0.0), PeriodStats(0, 0.0), PeriodStats(0, 0.0), PeriodStats(0, 0.0))

  /** One more rental of `amount` in bucket `p`; the other buckets are kept. */
  function AddTo(b: Breakdown, p: RentalPeriod, amount: real): (r: Breakdown)
    ensures r.Get(p) == PeriodStats(b.Get(p).count + 1, b.Get(p).revenue + amount)
    ensures forall q :: q != p ==> r.Get(q) == b.Get(q)
  {
    var s := PeriodStats(b.Get(p).count + 1, b.Get(p).revenue + amount);
    match p
    case OneHour => b.(oneHour := s)
    case FourHours => b.(fourHours := s)
    case OneDay => b.(oneDay := s)
    case OneWeek => b.(oneWeek := s)
  }

  function BucketCount(b: Breakdown): nat {
    b.oneHour.count + b.fourHours.count + b.oneDay.count + b.oneWeek.count
  }

  function BucketRevenue(b: Breakdown): real {
    b.oneHour.revenue + b.fourHours.revenue + b.oneDay.revenue + b.oneWeek.revenue
  }

  /**
   * The bucket of a rental that lasted `d` seconds: up to 1.5 hours, up to 5,
   * up to 25, and beyond.
   */
  function Bucket(d: int): (p: RentalPeriod)
    ensures p == OneHour <==> d <= 5400
    ensures p == FourHours <==> 5400 < d <= 18000
    ensures p == OneDay <==> 18000 < d <= 90000
    ensures p == OneWeek <==> 90000 < d
  {
    if d <= 5400 then OneHour
    else if d <= 18000 then FourHours
    else if d <= 90000 then OneDay
    else OneWeek
  }

  /** The second thresholds are the hour thresholds 1.5, 5 and 25. */
  lemma BucketByHours(d: int)
    ensures Bucket(d) == OneHour <==> d as real / 3600.0 <= 1.5
    ensures Bucket(d) == FourHours <==> 1.5 < d as real / 3600.0 <= 5.0
    ensures Bucket(d) == OneDay <==> 5.0 < d as real / 3600.0 <= 25.0
    ensures Bucket(d) == OneWeek <==> 25.0 < d as real / 3600.0
  {
  }

  /** The payments a day's tally reads: completed ones created on that day. */
  function DayPayments(ps: seq<Payments.Payment>, day: int): (r: seq<Payments.Payment>)
    ensures forall k :: 0 <= k < |r| ==> r[k] in ps && r[k].status == Completed && OnDay(r[k].createdAt, day)
    ensures forall j :: 0 <= j < |ps| && ps[j].status == Completed && OnDay(ps[j].createdAt, day) ==> ps[j] in r
  {
    Filter(ps, (p: Payments.Payment) => p.status == Completed && OnDay(p.createdAt, day))
  }

  /** The rental a payment counts for: it exists and is completed or paid. */
  function CountedRental(p: Payments.Payment, rs: seq<Rentals.Rental>): (r: Option<Rentals.Rental>)
    ensures r.Some? ==>
      r.value in rs && r.value.id == p.rentalId
      && (r.value.status == Rentals.Completed || r.value.status == Rentals.Paid)
    ensures r.Some? <==> exists j ::
      0 <= j < |rs| && rs[j].id == p.rentalId && (rs[j].status == Rentals.Completed || rs[j].status == Rentals.Paid)
      && forall i :: 0 <= i < j ==> rs[i].id != p.rentalId
  {
    match First(rs, (x: Rentals.Rental) => x.id == p.rentalId)
    case None => None
    case Some(r) => if r.status == Rentals.Completed || r.status == Rentals.Paid then Some(r) else None
  }

  /** The running totals: revenue, counted rentals and the per-bucket split. */
  datatype Tally = Tally(total: real, count: nat, byPeriod: Breakdown)

  const EmptyTally: Tally := Tally(0.0, 0, EmptyBreakdown)

  /** One payment added to the totals. */
  function TallyStep(t: Tally, p: Payments.Payment, rs: seq<Rentals.Rental>): Tally {
    match CountedRental(p, rs)
    case None => t
    case Some(r) =>
      Tally(t.total + p.amount, t.count + 1,
        if r.endTime.Some? then AddTo(t.byPeriod, Bucket(r.endTime.value - r.startTime), p.amount)
        else t.byPeriod)
  }

  /** The totals of a day's payments, in order. */
  function TallyOf(ps: seq<Payments.Payment>, rs: seq<Rentals.Rental>): (t: Tally)
    ensures t.count <= |ps|
  {
    if ps == [] then EmptyTally
    else TallyStep(TallyOf(ps[..|ps| - 1], rs), ps[|ps| - 1], rs)
  }

  /** How many counted payments have a rental with no end time, and what they brought in. */
  function Unbucketed(ps: seq<Payments.Payment>, rs: seq<Rentals.Rental>): (t: (nat, real))
    ensures t.0 <= |ps|
  {
    if ps == [] then (0, 0.0)
    else
      var prev := Unbucketed(ps[..|ps| - 1], rs);
      var p := ps[|ps| - 1];
      match CountedRental(p, rs)
      case Some(r) => if r.endTime.None? then (prev.0 + 1, prev.1 + p.amount) else prev
      case None => prev
  }

  /**
   * Every counted payment is in exactly one bucket or has no end time: the
   * count and the revenue are the bucket sums plus the unbucketed ones.
   */
  lemma {:induction false} TallyBalances(ps: seq<Payments.Payment>, rs: seq<Rentals.Rental>)
    ensures TallyOf(ps, rs).count == BucketCount(TallyOf(ps, rs).byPeriod) + Unbucketed(ps, rs).0
    ensures TallyOf(ps, rs).total == BucketRevenue(TallyOf(ps, rs).byPeriod) + Unbucketed(ps, rs).1
  {
    if ps != [] {
      TallyBalances(ps[..|ps| - 1], rs);
    }
  }
}
