/**
 * `RentalPeriod`, the four rental tiers ("1hr", "4hrs", "1day", "1week") that
 * the pricing endpoint charges for and the revenue statistics bucket by.
 */
module RentalPeriods {
  datatype RentalPeriod = OneHour | FourHours | OneDay | OneWeek
}
