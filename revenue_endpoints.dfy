/**
 * The revenue statistics endpoints: no date may lie after `today`; the daily
 * view computes a day only when its row is missing, refresh always
 * recomputes, and the custom range must not be reversed.
 */
module RevenueEndpoints {
  import opened Wrappers
  import opened Http
  import Payments
  import Rentals
  import opened RevenueTally
  import opened RevenueStats

  /** `GET /daily/{stats_date}`: the stored row, or a freshly computed one when missing. */
  method GetDailyStats(store: RevenueStore, statsDate: int, today: int,
                       payments: seq<Payments.Payment>, rentals: seq<Rentals.Rental>)
    returns (r: Result<DailyStats, ApiError>)
    requires store.Valid()
    modifies store
    ensures store.Valid()
    ensures statsDate > today ==> r == Err(BadRequest) && store.rows == old(store.rows)
    ensures statsDate <= today ==> r.Ok? && store.GetByDate(statsDate) == Some(r.value)
    ensures statsDate <= today && old(store.GetByDate(statsDate)).Some? ==>
      r == Ok(old(store.GetByDate(statsDate)).value) && store.rows == old(store.rows)
    ensures statsDate <= today && old(store.GetByDate(statsDate)).None? ==> Computed(r.value, payments, rentals)
  {
    if statsDate > today {
      return Err(BadRequest);
    }
    var stats := store.GetByDate(statsDate);
    if stats.None? {
      var computed := store.CreateOrUpdateDailyStats(statsDate, payments, rentals);
      return Ok(computed);
    }
    return Ok(stats.value);
  }

  /** `GET /weekly`: the week ending at `endDate` (today when absent), which may not be in the future. */
  method GetWeeklyStats(store: RevenueStore, endDate: Option<int>, today: int,
                        payments: seq<Payments.Payment>, rentals: seq<Rentals.Rental>)
    returns (r: Result<RevenueSummary, ApiError>)
    requires store.Valid()
    modifies store
    ensures store.Valid()
    ensures r.Err? <==> endDate.GetOr(today) > today
    ensures r.Err? ==> r.error == BadRequest && store.rows == old(store.rows)
    ensures r.Ok? ==> var end := endDate.GetOr(today);
      store.IsSummaryOf(r.value, end - 6, end) && |r.value.dailyStats| == 7
      && (forall d :: end - 6 <= d <= end && old(store.GetByDate(d)).Some? ==> store.GetByDate(d) == old(store.GetByDate(d)))
      && (forall d :: end - 6 <= d <= end && old(store.GetByDate(d)).None? ==>
            store.GetByDate(d).Some? && Computed(store.GetByDate(d).value, payments, rentals))
      && (forall d :: d < end - 6 || end < d ==> store.GetByDate(d) == old(store.GetByDate(d)))
  {
    var end := endDate.GetOr(today);
    if end > today {
      return Err(BadRequest);
    }
    var summary := store.GenerateWeeklyStats(Some(end), today, payments, rentals);
    return Ok(summary);
  }

  /** `GET /custom`: both dates no later than today and in order, else 400. */
  method GetCustomPeriodStats(store: RevenueStore, startDate: int, endDate: int, today: int,
                              payments: seq<Payments.Payment>, rentals: seq<Rentals.Rental>)
    returns (r: Result<RevenueSummary, ApiError>)
    requires store.Valid()
    modifies store
    ensures store.Valid()
    ensures r.Err? <==> startDate > today || endDate > today || startDate > endDate
    ensures r.Err? ==> r.error == BadRequest && store.rows == old(store.rows)
    ensures r.Ok? ==>
      store.IsSummaryOf(r.value, startDate, endDate)
      && (forall d :: startDate <= d <= endDate && old(store.GetByDate(d)).Some? ==>
            store.GetByDate(d) == old(store.GetByDate(d)))
      && (forall d :: startDate <= d <= endDate && old(store.GetByDate(d)).None? ==>
            store.GetByDate(d).Some? && Computed(store.GetByDate(d).value, payments, rentals))
      && (forall d :: d < startDate || endDate < d ==> store.GetByDate(d) == old(store.GetByDate(d)))
  {
    if startDate > today || endDate > today {
      return Err(BadRequest);
    }
    if startDate > endDate {
      return Err(BadRequest);
    }
    var summary := store.GenerateCustomPeriodStats(startDate, endDate, payments, rentals);
    return Ok(summary);
  }

  /** `POST /refresh/{stats_date}`: recomputes the day whether or not it has a row. */
  method RefreshDailyStats(store: RevenueStore, statsDate: int, today: int,
                           payments: seq<Payments.Payment>, rentals: seq<Rentals.Rental>)
    returns (r: Result<DailyStats, ApiError>)
    requires store.Valid()
    modifies store
    ensures store.Valid()
    ensures statsDate > today ==> r == Err(BadRequest) && store.rows == old(store.rows)
    ensures statsDate <= today ==>
      r.Ok? && store.GetByDate(statsDate) == Some(r.value) && Computed(r.value, payments, rentals)
      && store.rows == Upserted(old(store.rows), statsDate, TallyOf(DayPayments(payments, statsDate), rentals),
                                old(store.nextId))
  {
    if statsDate > today {
      return Err(BadRequest);
    }
    var stats := store.CreateOrUpdateDailyStats(statsDate, payments, rentals);
    return Ok(stats);
  }
}
