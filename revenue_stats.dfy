/**
 * The `revenue_stats` table: one row per date holding that day's tally,
 * recomputed in place, and the weekly and custom summaries, which first
 * compute every missing day of the range and then add the rows up.
 */
module RevenueStats {
  import opened Wrappers
  import opened Query
  import Payments
  import Rentals
  import opened RentalPeriods
  import opened RevenueTally

  /** A row of `revenue_stats`; `date` is a day number and is unique. */
  datatype DailyStats = DailyStats(
    id: nat,
    date: int,
    totalRevenue: real,
    rentalCount: nat,
    revenueByPeriod: Breakdown)

  datatype PeriodSummary = PeriodSummary(count: nat, revenue: real, averageDaily: real)

  /** `RevenueSummary`. */
  datatype RevenueSummary = RevenueSummary(
    startDate: int,
    endDate: int,
    totalRevenue: real,
    totalRentals: nat,
    dailyAverage: real,
    revenueByPeriod: PerPeriod<PeriodSummary>,
    dailyStats: seq<DailyStats>)

  function DateOf(s: DailyStats): int { s.date }
  function StatsId(s: DailyStats): nat { s.id }

  /** The row of date `d`, if any. */
  function RowOf(rows: seq<DailyStats>, d: int): (r: Option<DailyStats>)
    ensures r.None? <==> forall j :: 0 <= j < |rows| ==> rows[j].date != d
    ensures r.Some? ==> r.value in rows && r.value.date == d
  {
    First(rows, (s: DailyStats) => s.date == d)
  }

  /**
   * `get_date_range`: the rows dated from `start` to `end`, ordered by date.
   * With one row per date, every row in the range is listed exactly once.
   */
  function DateRange(rows: seq<DailyStats>, start: int, end: int): (r: seq<DailyStats>)
    ensures forall k :: 0 <= k < |r| ==> r[k] in rows && start <= r[k].date <= end
    ensures forall k, l :: 0 <= k < l < |r| ==> r[k].date < r[l].date
    ensures DistinctBy(rows, DateOf) ==>
      forall j :: 0 <= j < |rows| && start <= rows[j].date <= end ==> rows[j] in r
    decreases if start <= end then end - start + 1 else 0
  {
    if start > end then []
    else
      var rest := DateRange(rows, start + 1, end);
      match RowOf(rows, start)
      case None => rest
      case Some(s) => [s] + rest
  }

  /** When every date of the range has a row, the range lists one row per day, in order. */
  lemma {:induction false} DateRangeFull(rows: seq<DailyStats>, start: int, end: int)
    requires start <= end + 1
    requires forall d :: start <= d <= end ==> RowOf(rows, d).Some?
    ensures |DateRange(rows, start, end)| == end - start + 1
    ensures forall k :: 0 <= k < |DateRange(rows, start, end)| ==>
      DateRange(rows, start, end)[k] == RowOf(rows, start + k).value
    decreases end - start + 1
  {
    if start <= end {
      DateRangeFull(rows, start + 1, end);
      var rest := DateRange(rows, start + 1, end);
      assert DateRange(rows, start, end) == [RowOf(rows, start).value] + rest;
      forall k | 0 < k < |DateRange(rows, start, end)|
        ensures DateRange(rows, start, end)[k] == RowOf(rows, start + k).value
      {
        assert DateRange(rows, start, end)[k] == rest[k - 1];
      }
    }
  }

  /** The row of `day` after a recomputation: updated in place, or appended with id `newId`. */
  function Upserted(rows: seq<DailyStats>, day: int, t: Tally, newId: nat): (r: seq<DailyStats>)
    ensures RowOf(rows, day).None? ==> r == rows + [DailyStats(newId, day, t.total, t.count, t.byPeriod)]
    ensures RowOf(rows, day).Some? ==> |r| == |rows|
  {
    match RowOf(rows, day)
    case None => rows + [DailyStats(newId, day, t.total, t.count, t.byPeriod)]
    case Some(old_) =>
      seq(|rows|, j requires 0 <= j < |rows| =>
        if rows[j].id == old_.id then old_.(totalRevenue := t.total, rentalCount := t.count, revenueByPeriod := t.byPeriod)
        else rows[j])
  }

  /** The row `.first()` finds for `d`, found again in a table that keeps every row's date at its position. */
  lemma SameDatesSameFirst(rows: seq<DailyStats>, u: seq<DailyStats>, d: int)
    requires |u| == |rows|
    requires forall j :: 0 <= j < |rows| ==> u[j].date == rows[j].date
    requires forall j :: 0 <= j < |rows| && rows[j].date == d ==> u[j] == rows[j]
    ensures RowOf(u, d) == RowOf(rows, d)
  {
    match RowOf(rows, d)
    case None =>
    case Some(s) =>
      var i :| 0 <= i < |rows| && rows[i] == s && forall j :: 0 <= j < i ==> rows[j].date != d;
      FirstIs(u, (x: DailyStats) => x.date == d, i);
  }

  /** Appending the row of a new date: dates and ids stay unique and other dates keep their rows. */
  lemma AppendedRow(rows: seq<DailyStats>, day: int, t: Tally, newId: nat)
    requires DistinctBy(rows, DateOf) && DistinctBy(rows, StatsId)
    requires forall j :: 0 <= j < |rows| ==> rows[j].id < newId
    requires RowOf(rows, day).None?
    ensures var u := Upserted(rows, day, t, newId);
      DistinctBy(u, DateOf) && DistinctBy(u, StatsId)
      && RowOf(u, day) == Some(DailyStats(newId, day, t.total, t.count, t.byPeriod))
      && (forall d :: d != day ==> RowOf(u, d) == RowOf(rows, d))
      && forall j :: 0 <= j < |u| ==> u[j].id < newId + 1
  {
    var x := DailyStats(newId, day, t.total, t.count, t.byPeriod);
    var u := rows + [x];
    assert Upserted(rows, day, t, newId) == u;
    forall i, j | 0 <= i < j < |u| ensures u[i].date != u[j].date && u[i].id != u[j].id {
      if j < |rows| {
        assert DateOf(rows[i]) != DateOf(rows[j]) && StatsId(rows[i]) != StatsId(rows[j]);
      }
    }
    FirstOfAppend(rows, x, (s: DailyStats) => s.date == day);
    forall d | d != day ensures RowOf(u, d) == RowOf(rows, d) {
      FirstOfAppend(rows, x, (s: DailyStats) => s.date == d);
    }
  }

  /** With unique ids, the rewrite touches only the row `.first()` found for `day`. */
  lemma UpsertedAt(rows: seq<DailyStats>, day: int, t: Tally, newId: nat, i: nat)
    requires DistinctBy(rows, StatsId)
    requires i < |rows| && RowOf(rows, day) == Some(rows[i])
    ensures Upserted(rows, day, t, newId)
         == rows[i := rows[i].(totalRevenue := t.total, rentalCount := t.count, revenueByPeriod := t.byPeriod)]
  {
    var u := Upserted(rows, day, t, newId);
    forall j | 0 <= j < |rows| && j != i ensures u[j] == rows[j] {
      if j < i { assert StatsId(rows[j]) != StatsId(rows[i]); }
      else { assert StatsId(rows[i]) != StatsId(rows[j]); }
    }
  }

  /** A table with the same dates and ids at every position keeps both columns unique. */
  lemma SameKeysDistinct(rows: seq<DailyStats>, u: seq<DailyStats>)
    requires DistinctBy(rows, DateOf) && DistinctBy(rows, StatsId)
    requires |u| == |rows| && forall j :: 0 <= j < |rows| ==> u[j].date == rows[j].date && u[j].id == rows[j].id
    ensures DistinctBy(u, DateOf) && DistinctBy(u, StatsId)
  {
    forall i, j | 0 <= i < j < |u| ensures u[i].date != u[j].date && u[i].id != u[j].id {
      assert DateOf(rows[i]) != DateOf(rows[j]) && StatsId(rows[i]) != StatsId(rows[j]);
    }
  }

  /** Rewriting the row at `i` in place, date kept, leaves every other date's row where it was. */
  lemma RewriteKeepsOtherDates(rows: seq<DailyStats>, i: nat, x: DailyStats, d: int)
    requires i < |rows| && x.date == rows[i].date && d != x.date
    ensures RowOf(rows[i := x], d) == RowOf(rows, d)
  {
    SameDatesSameFirst(rows, rows[i := x], d);
  }

  /** Rewriting the row of an existing date: dates and ids stay unique and other dates keep their rows. */
  lemma RewrittenRow(rows: seq<DailyStats>, day: int, t: Tally, newId: nat)
    requires DistinctBy(rows, DateOf) && DistinctBy(rows, StatsId)
    requires RowOf(rows, day).Some?
    ensures var u := Upserted(rows, day, t, newId);
      var o := RowOf(rows, day).value;
      DistinctBy(u, DateOf) && DistinctBy(u, StatsId)
      && RowOf(u, day) == Some(o.(totalRevenue := t.total, rentalCount := t.count, revenueByPeriod := t.byPeriod))
      && (forall d :: d != day ==> RowOf(u, d) == RowOf(rows, d))
      && |u| == |rows| && forall j :: 0 <= j < |u| ==> u[j].id == rows[j].id
  {
    var o := RowOf(rows, day).value;
    var i :| 0 <= i < |rows| && rows[i] == o && forall j :: 0 <= j < i ==> rows[j].date != day;
    UpsertedAt(rows, day, t, newId, i);
    var x := o.(totalRevenue := t.total, rentalCount := t.count, revenueByPeriod := t.byPeriod);
    SameKeysDistinct(rows, rows[i := x]);
    FirstIs(rows[i := x], (s: DailyStats) => s.date == day, i);
    forall d | d != day ensures RowOf(rows[i := x], d) == RowOf(rows, d) {
      RewriteKeepsOtherDates(rows, i, x, d);
    }
  }

  /** Recomputing a day from unchanged data leaves the table as it was. */
  lemma UpsertIdempotent(rows: seq<DailyStats>, day: int, t: Tally, newId: nat, laterId: nat)
    requires DistinctBy(rows, DateOf) && DistinctBy(rows, StatsId)
    requires forall j :: 0 <= j < |rows| ==> rows[j].id < newId
    ensures Upserted(Upserted(rows, day, t, newId), day, t, laterId) == Upserted(rows, day, t, newId)
  {
    var u := Upserted(rows, day, t, newId);
    if RowOf(rows, day).None? {
      AppendedRow(rows, day, t, newId);
    } else {
      RewrittenRow(rows, day, t, newId);
    }
    var s := RowOf(u, day).value;
    assert s.totalRevenue == t.total && s.rentalCount == t.count && s.revenueByPeriod == t.byPeriod;
    forall j | 0 <= j < |u| ensures Upserted(u, day, t, laterId)[j] == u[j] {
      if u[j].id == s.id {
        var i :| 0 <= i < |u| && u[i] == s;
      }
    }
  }

  function SumRevenue(ds: seq<DailyStats>): real {
    if ds == [] then 0.0 else SumRevenue(ds[..|ds| - 1]) + ds[|ds| - 1].totalRevenue
  }

  function SumRentals(ds: seq<DailyStats>): nat {
    if ds == [] then 0 else SumRentals(ds[..|ds| - 1]) + ds[|ds| - 1].rentalCount
  }

  /** The per-bucket sums of a run of rows. */
  function SumPeriods(ds: seq<DailyStats>): Breakdown {
    if ds == [] then EmptyBreakdown
    else
      var b := SumPeriods(ds[..|ds| - 1]);
      var d := ds[|ds| - 1].revenueByPeriod;
      PerPeriod(
        PeriodStats(b.oneHour.count + d.oneHour.count, b.oneHour.revenue + d.oneHour.revenue),
        PeriodStats(b.fourHours.count + d.fourHours.count, b.fourHours.revenue + d.fourHours.revenue),
        PeriodStats(b.oneDay.count + d.oneDay.count, b.oneDay.revenue + d.oneDay.revenue),
        PeriodStats(b.oneWeek.count + d.oneWeek.count, b.oneWeek.revenue + d.oneWeek.revenue))
  }

  /** A bucket's revenue and its average over `days` days. */
  function Averaged(s: PeriodStats, days: nat): (r: PeriodSummary)
    requires days > 0
    ensures r.count == s.count && r.revenue == s.revenue
    ensures r.averageDaily * days as real == s.revenue
  {
    PeriodSummary(s.count, s.revenue, s.revenue / days as real)
  }

  lemma TallyPrefixStep(ps: seq<Payments.Payment>, i: nat, rs: seq<Rentals.Rental>)
    requires i < |ps|
    ensures TallyOf(ps[..i + 1], rs) == TallyStep(TallyOf(ps[..i], rs), ps[i], rs)
  {
    assert ps[..i + 1][..i] == ps[..i];
  }

  /** One pass of the accumulation loop: a payment whose rental is completed or paid is counted. */
  method CountPayment(total: real, count: nat, byPeriod: Breakdown, payment: Payments.Payment,
                      rentals: seq<Rentals.Rental>)
    returns (total': real, count': nat, byPeriod': Breakdown)
    ensures Tally(total', count', byPeriod') == TallyStep(Tally(total, count, byPeriod), payment, rentals)
  {
    total', count', byPeriod' := total, count, byPeriod;
    var rental := First(rentals, (x: Rentals.Rental) => x.id == payment.rentalId);
    if rental.Some? && (rental.value.status == Rentals.Completed || rental.value.status == Rentals.Paid) {
      total' := total + payment.amount;
      count' := count + 1;
      if rental.value.endTime.Some? {
        var period := Bucket(rental.value.endTime.value - rental.value.startTime);
        byPeriod' := AddTo(byPeriod, period, payment.amount);
      }
    }
  }

  /**
   * The accumulation loop of `create_or_update_daily_stats`: revenue, count
   * and bucket split of the completed payments of `day`.
   */
  method TallyDay(day: int, payments: seq<Payments.Payment>, rentals: seq<Rentals.Rental>) returns (t: Tally)
    ensures t == TallyOf(DayPayments(payments, day), rentals)
  {
    var dayPayments := DayPayments(payments, day);
    var total := 0.0;
    var rentalCount := 0;
    var byPeriod := EmptyBreakdown;
    var i := 0;
    while i < |dayPayments|
      invariant 0 <= i <= |dayPayments|
      invariant Tally(total, rentalCount, byPeriod) == TallyOf(dayPayments[..i], rentals)
    {
      TallyPrefixStep(dayPayments, i, rentals);
      total, rentalCount, byPeriod := CountPayment(total, rentalCount, byPeriod, dayPayments[i], rentals);
      i := i + 1;
    }
    assert dayPayments[..i] == dayPayments;
    t := Tally(total, rentalCount, byPeriod);
  }

  /** The inner search of the fill loop: is there a row dated `d`? */
  method FindDate(daily: seq<DailyStats>, d: int) returns (found: bool)
    ensures found <==> exists k :: 0 <= k < |daily| && daily[k].date == d
  {
    found := false;
    var k := 0;
    while k < |daily|
      invariant 0 <= k <= |daily|
      invariant !(exists j :: 0 <= j < k && daily[j].date == d)
    {
      if daily[k].date == d {
        found := true;
        break;
      }
      k := k + 1;
    }
  }

  /**
   * The summation loop: totals, per-bucket sums and the daily list of a run
   * of rows, with averages over `days` days.
   */
  method Summarise(daily: seq<DailyStats>, start: int, end: int) returns (summary: RevenueSummary)
    requires start <= end
    ensures summary.startDate == start && summary.endDate == end && summary.dailyStats == daily
    ensures summary.totalRevenue == SumRevenue(daily) && summary.totalRentals == SumRentals(daily)
    ensures summary.dailyAverage == summary.totalRevenue / (end - start + 1) as real
    ensures forall p :: summary.revenueByPeriod.Get(p) == Averaged(SumPeriods(daily).Get(p), end - start + 1)
  {
    var totalRevenue := 0.0;
    var totalRentals := 0;
    var sums := EmptyBreakdown;
    var dailyData: seq<DailyStats> := [];
    var k := 0;
    while k < |daily|
      invariant 0 <= k <= |daily|
      invariant totalRevenue == SumRevenue(daily[..k]) && totalRentals == SumRentals(daily[..k])
      invariant sums == SumPeriods(daily[..k]) && dailyData == daily[..k]
    {
      assert daily[..k + 1][..k] == daily[..k];
      var row := daily[k];
      totalRevenue := totalRevenue + row.totalRevenue;
      totalRentals := totalRentals + row.rentalCount;
      var d := row.revenueByPeriod;
      sums := PerPeriod(
        PeriodStats(sums.oneHour.count + d.oneHour.count, sums.oneHour.revenue + d.oneHour.revenue),
        PeriodStats(sums.fourHours.count + d.fourHours.count, sums.fourHours.revenue + d.fourHours.revenue),
        PeriodStats(sums.oneDay.count + d.oneDay.count, sums.oneDay.revenue + d.oneDay.revenue),
        PeriodStats(sums.oneWeek.count + d.oneWeek.count, sums.oneWeek.revenue + d.oneWeek.revenue));
      dailyData := dailyData + [row];
      k := k + 1;
    }
    assert daily[..k] == daily;
    var days := end - start + 1;
    summary := RevenueSummary(start, end, totalRevenue, totalRentals, totalRevenue / days as real,
      PerPeriod(Averaged(sums.oneHour, days), Averaged(sums.fourHours, days),
                Averaged(sums.oneDay, days), Averaged(sums.oneWeek, days)),
      dailyData);
  }

  /** A row holding the tally of its own date. */
  ghost predicate Computed(s: DailyStats, payments: seq<Payments.Payment>, rentals: seq<Rentals.Rental>) {
    var t := TallyOf(DayPayments(payments, s.date), rentals);
    s.totalRevenue == t.total && s.rentalCount == t.count && s.revenueByPeriod == t.byPeriod
  }

  /** A date of the range has a row exactly when the range lists one for it. */
  lemma InRange(rows: seq<DailyStats>, start: int, end: int, d: int)
    requires DistinctBy(rows, DateOf) && start <= d <= end
    ensures (exists k :: 0 <= k < |DateRange(rows, start, end)| && DateRange(rows, start, end)[k].date == d)
      <==> RowOf(rows, d).Some?
  {
    var r := DateRange(rows, start, end);
    if RowOf(rows, d).Some? {
      var i :| 0 <= i < |rows| && rows[i] == RowOf(rows, d).value;
      assert rows[i] in r;
    }
  }

  /**
   * The fill loop's progress over `rows0`: the dates from `start` up to
   * `upto` all have rows, those that had one keep it, the others hold their
   * tally, and no other date has changed.
   */
  ghost predicate Filled(rows0: seq<DailyStats>, rows: seq<DailyStats>, start: int, upto: int,
                         payments: seq<Payments.Payment>, rentals: seq<Rentals.Rental>) {
    (forall d :: start <= d < upto ==> RowOf(rows, d).Some?)
    && (forall d :: start <= d < upto && RowOf(rows0, d).Some? ==> RowOf(rows, d) == RowOf(rows0, d))
    && (forall d :: start <= d < upto && RowOf(rows0, d).None? ==>
          RowOf(rows, d).Some? && Computed(RowOf(rows, d).value, payments, rentals))
    && (forall d :: d < start || upto <= d ==> RowOf(rows, d) == RowOf(rows0, d))
  }

  /** Filling date `current` extends the filled range by one day. */
  lemma FilledStep(rows0: seq<DailyStats>, before: seq<DailyStats>, after: seq<DailyStats>, start: int, current: int,
                   payments: seq<Payments.Payment>, rentals: seq<Rentals.Rental>)
    requires start <= current
    requires Filled(rows0, before, start, current, payments, rentals)
    requires RowOf(after, current).Some?
    requires RowOf(before, current).Some? ==> RowOf(after, current) == RowOf(before, current)
    requires RowOf(before, current).None? ==> Computed(RowOf(after, current).value, payments, rentals)
    requires forall d :: d != current ==> RowOf(after, d) == RowOf(before, d)
    ensures Filled(rows0, after, start, current + 1, payments, rentals)
  {
  }

  function Min(a: int, b: int): int { if a <= b then a else b }
  function Max(a: int, b: int): int { if a <= b then b else a }

  class RevenueStore {
    var rows: seq<DailyStats>
    var nextId: nat

    ghost predicate Valid()
      reads this
    {
      DistinctBy(rows, DateOf) && DistinctBy(rows, StatsId)
      && forall j :: 0 <= j < |rows| ==> rows[j].id < nextId
    }

    constructor ()
      ensures Valid() && rows == []
    {
      rows := [];
      nextId := 1;
    }

    /** `get_by_date`. */
    function GetByDate(d: int): (r: Option<DailyStats>)
      reads this
      ensures r.None? <==> forall j :: 0 <= j < |rows| ==> rows[j].date != d
      ensures r.Some? ==> r.value in rows && r.value.date == d
    {
      RowOf(rows, d)
    }

    /** `get_date_range`. */
    function GetDateRange(start: int, end: int): (r: seq<DailyStats>)
      reads this
      ensures forall k :: 0 <= k < |r| ==> r[k] in rows && start <= r[k].date <= end
      ensures forall k, l :: 0 <= k < l < |r| ==> r[k].date < r[l].date
      ensures Valid() ==> forall j :: 0 <= j < |rows| && start <= rows[j].date <= end ==> rows[j] in r
    {
      DateRange(rows, start, end)
    }

    /**
     * `create_or_update_daily_stats`: tallies the completed payments of `day`
     * against `rentals` and writes the totals into that day's row, creating it
     * when missing. No other date's row changes.
     */
    method CreateOrUpdateDailyStats(day: int, payments: seq<Payments.Payment>, rentals: seq<Rentals.Rental>)
      returns (stats: DailyStats)
      requires Valid()
      modifies this
      ensures Valid()
      ensures rows == Upserted(old(rows), day, TallyOf(DayPayments(payments, day), rentals), old(nextId))
      ensures GetByDate(day) == Some(stats)
      ensures var t := TallyOf(DayPayments(payments, day), rentals);
        stats.totalRevenue == t.total && stats.rentalCount == t.count && stats.revenueByPeriod == t.byPeriod
      ensures forall d :: d != day ==> RowOf(rows, d) == RowOf(old(rows), d)
    {
      var existing := GetByDate(day);
      var t := TallyDay(day, payments, rentals);
      if existing.None? {
        AppendedRow(rows, day, t, nextId);
        stats := DailyStats(nextId, day, t.total, t.count, t.byPeriod);
        rows := rows + [stats];
        nextId := nextId + 1;
      } else {
        RewrittenRow(rows, day, t, nextId);
        stats := existing.value.(totalRevenue := t.total, rentalCount := t.count, revenueByPeriod := t.byPeriod);
        rows := Upserted(rows, day, t, nextId);
      }
    }
    /** One step of the fill loop: computes day `current` unless the range read before the loop has it. */
    method FillDay(current: int, daily: seq<DailyStats>, payments: seq<Payments.Payment>, rentals: seq<Rentals.Rental>)
      requires Valid()
      requires (exists k :: 0 <= k < |daily| && daily[k].date == current) <==> GetByDate(current).Some?
      modifies this
      ensures Valid()
      ensures RowOf(rows, current).Some?
      ensures RowOf(old(rows), current).Some? ==> RowOf(rows, current) == RowOf(old(rows), current)
      ensures RowOf(old(rows), current).None? ==> Computed(RowOf(rows, current).value, payments, rentals)
      ensures forall d :: d != current ==> RowOf(rows, d) == RowOf(old(rows), d)
    {
      var found := FindDate(daily, current);
      if !found {
        var _ := CreateOrUpdateDailyStats(current, payments, rentals);
      }
    }

    /**
     * The fill loop shared by the weekly and custom summaries: every date from
     * `start` to `end` without a row gets one computed, rows already there are
     * kept, and dates outside the range are not touched.
     */
    method FillMissingDays(start: int, end: int, payments: seq<Payments.Payment>, rentals: seq<Rentals.Rental>)
      requires Valid() && start <= end
      modifies this
      ensures Valid()
      ensures forall d :: start <= d <= end ==> GetByDate(d).Some?
      ensures forall d :: start <= d <= end && old(GetByDate(d)).Some? ==> GetByDate(d) == old(GetByDate(d))
      ensures forall d :: start <= d <= end && old(GetByDate(d)).None? ==>
        GetByDate(d).Some? && Computed(GetByDate(d).value, payments, rentals)
      ensures forall d :: d < start || end < d ==> GetByDate(d) == old(GetByDate(d))
    {
      var daily := GetDateRange(start, end);
      ghost var rows0 := rows;
      var current := start;
      while current <= end
        invariant start <= current <= end + 1
        invariant Valid() && Filled(rows0, rows, start, current, payments, rentals)
        decreases end - current + 1
      {
        assert GetByDate(current) == RowOf(rows0, current);
        InRange(rows0, start, end, current);
        ghost var before := rows;
        FillDay(current, daily, payments, rentals);
        FilledStep(rows0, before, rows, start, current, payments, rentals);
        current := current + 1;
      }
    }

    /**
     * `summary` is the `RevenueSummary` of the dates `start` to `end` in the
     * current table: one stored row per day, in date order, with its totals
     * the sums of those rows and every average over the days of the range.
     */
    ghost predicate IsSummaryOf(summary: RevenueSummary, start: int, end: int)
      reads this
    {
      start <= end
      && summary.startDate == start && summary.endDate == end
      && summary.dailyStats == GetDateRange(start, end) && |summary.dailyStats| == end - start + 1
      && summary.totalRevenue == SumRevenue(summary.dailyStats)
      && summary.totalRentals == SumRentals(summary.dailyStats)
      && summary.dailyAverage == summary.totalRevenue / (end - start + 1) as real
      && forall p :: summary.revenueByPeriod.Get(p) == Averaged(SumPeriods(summary.dailyStats).Get(p), end - start + 1)
    }

    /** The summary of a range after its missing days are filled: one row per day, added up. */
    method SummariseRange(start: int, end: int, payments: seq<Payments.Payment>, rentals: seq<Rentals.Rental>)
      returns (summary: RevenueSummary)
      requires Valid() && start <= end
      modifies this
      ensures Valid()
      ensures forall d :: start <= d <= end ==> GetByDate(d).Some?
      ensures forall d :: start <= d <= end && old(GetByDate(d)).Some? ==> GetByDate(d) == old(GetByDate(d))
      ensures forall d :: start <= d <= end && old(GetByDate(d)).None? ==>
        GetByDate(d).Some? && Computed(GetByDate(d).value, payments, rentals)
      ensures forall d :: d < start || end < d ==> GetByDate(d) == old(GetByDate(d))
      ensures IsSummaryOf(summary, start, end)
    {
      FillMissingDays(start, end, payments, rentals);
      var daily := GetDateRange(start, end);
      forall d | start <= d <= end ensures RowOf(rows, d).Some? {
        assert GetByDate(d).Some?;
      }
      DateRangeFull(rows, start, end);
      summary := Summarise(daily, start, end);
    }

    /** `generate_weekly_stats`: the seven days ending at `endDate`, today when absent. */
    method GenerateWeeklyStats(endDate: Option<int>, today: int, payments: seq<Payments.Payment>,
                               rentals: seq<Rentals.Rental>)
      returns (summary: RevenueSummary)
      requires Valid()
      modifies this
      ensures Valid()
      ensures var end := endDate.GetOr(today);
        IsSummaryOf(summary, end - 6, end) && |summary.dailyStats| == 7
      ensures var end := endDate.GetOr(today);
        forall d :: end - 6 <= d <= end ==> GetByDate(d).Some?
      ensures var end := endDate.GetOr(today);
        forall d :: end - 6 <= d <= end && old(GetByDate(d)).Some? ==> GetByDate(d) == old(GetByDate(d))
      ensures var end := endDate.GetOr(today);
        forall d :: end - 6 <= d <= end && old(GetByDate(d)).None? ==>
          GetByDate(d).Some? && Computed(GetByDate(d).value, payments, rentals)
      ensures var end := endDate.GetOr(today);
        forall d :: d < end - 6 || end < d ==> GetByDate(d) == old(GetByDate(d))
    {
      var end := endDate.GetOr(today);
      var start := end - 6;
      summary := SummariseRange(start, end, payments, rentals);
    }

    /** `generate_custom_period_stats`: a reversed range is swapped first. */
    method GenerateCustomPeriodStats(startDate: int, endDate: int, payments: seq<Payments.Payment>,
                                     rentals: seq<Rentals.Rental>)
      returns (summary: RevenueSummary)
      requires Valid()
      modifies this
      ensures Valid()
      ensures var lo, hi := Min(startDate, endDate), Max(startDate, endDate);
        IsSummaryOf(summary, lo, hi)
      ensures var lo, hi := Min(startDate, endDate), Max(startDate, endDate);
        forall d :: lo <= d <= hi ==> GetByDate(d).Some?
      ensures var lo, hi := Min(startDate, endDate), Max(startDate, endDate);
        forall d :: lo <= d <= hi && old(GetByDate(d)).Some? ==> GetByDate(d) == old(GetByDate(d))
      ensures var lo, hi := Min(startDate, endDate), Max(startDate, endDate);
        forall d :: lo <= d <= hi && old(GetByDate(d)).None? ==>
          GetByDate(d).Some? && Computed(GetByDate(d).value, payments, rentals)
      ensures var lo, hi := Min(startDate, endDate), Max(startDate, endDate);
        forall d :: d < lo || hi < d ==> GetByDate(d) == old(GetByDate(d))
    {
      var start, end := startDate, endDate;
      if start > end {
        start, end := end, start;
      }
      summary := SummariseRange(start, end, payments, rentals);
    }
  }
}
