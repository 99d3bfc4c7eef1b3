/**
 * The request schema of a pricing configuration: a positive base hourly rate
 * and a map from period key to discount factor.
 */
module RentalConfigSchema {
  import opened Wrappers

  /** The four period keys a discount map may use. */
  const PeriodKeys: set<string> := {"1hr", "4hrs", "1day", "1week"}

  /** The discounts a configuration gets when the request gives none. */
  function DefaultDiscounts(): (m: map<string, real>)
    ensures m.Keys == PeriodKeys
  {
    map["1hr" := 1.0, "4hrs" := 0.9, "1day" := 0.8, "1week" := 0.7]
  }

  /** Why a configuration request is rejected (422). */
  datatype ConfigError = InvalidDiscounts | RateNotPositive

  /**
   * `validate_period_discounts`: every key is a period key and every factor
   * lies in [0, 1]; the first offending entry raises, whichever it is.
   */
  function ValidatePeriodDiscounts(v: map<string, real>): (r: Result<map<string, real>, ConfigError>)
    ensures r.Ok? ==> r.value == v && r.value.Keys <= PeriodKeys
    ensures r.Ok? ==> forall k :: k in r.value ==> 0.0 <= r.value[k] <= 1.0
    ensures r.Err? ==>
      r.error == InvalidDiscounts
      && exists k :: k in v && (k !in PeriodKeys || v[k] < 0.0 || v[k] > 1.0)
  {
    if forall k :: k in v ==> k in PeriodKeys && 0.0 <= v[k] <= 1.0 then Ok(v)
    else Err(InvalidDiscounts)
  }

  /** A validated `RentalConfigCreate`. */
  datatype ConfigCreate = ConfigCreate(
    baseHourlyRate: real,
    periodDiscounts: map<string, real>,
    description: Option<string>)

  /** `RentalConfigCreate`: the rate is required and positive; absent discounts take the defaults. */
  function MakeConfigCreate(rate: real, discounts: Option<map<string, real>>, description: Option<string>)
    : (r: Result<ConfigCreate, ConfigError>)
    ensures r.Ok? <==> rate > 0.0 && (discounts.Some? ==> ValidatePeriodDiscounts(discounts.value).Ok?)
    ensures r.Ok? ==>
      r.value.baseHourlyRate == rate && r.value.description == description
      && r.value.periodDiscounts == discounts.GetOr(DefaultDiscounts())
  {
    if rate <= 0.0 then Err(RateNotPositive)
    else
      match discounts
      case None => Ok(ConfigCreate(rate, DefaultDiscounts(), description))
      case Some(m) =>
        match ValidatePeriodDiscounts(m)
        case Err(e) => Err(e)
        case Ok(v) => Ok(ConfigCreate(rate, v, description))
  }

  /** A validated `RentalConfigUpdate`; `None` is a field the request left unset. */
  datatype ConfigPatch = ConfigPatch(
    baseHourlyRate: Option<real>,
    periodDiscounts: Option<map<string, real>>,
    description: Option<string>)

  /** `RentalConfigUpdate`: every field is optional, but a given rate or map must still be valid. */
  function MakeConfigPatch(p: ConfigPatch): (r: Result<ConfigPatch, ConfigError>)
    ensures r.Ok? <==>
      (p.baseHourlyRate.Some? ==> p.baseHourlyRate.value > 0.0)
      && (p.periodDiscounts.Some? ==> ValidatePeriodDiscounts(p.periodDiscounts.value).Ok?)
    ensures r.Ok? ==> r.value == p
  {
    if p.baseHourlyRate.Some? && p.baseHourlyRate.value <= 0.0 then Err(RateNotPositive)
    else if p.periodDiscounts.Some? && ValidatePeriodDiscounts(p.periodDiscounts.value).Err? then
      Err(ValidatePeriodDiscounts(p.periodDiscounts.value).error)
    else Ok(p)
  }

  /** The default map, the empty map and a zero discount are accepted; 2.0 and an unknown key are not. */
  lemma DiscountExamples()
    ensures ValidatePeriodDiscounts(DefaultDiscounts()).Ok?
    ensures ValidatePeriodDiscounts(map[]).Ok?
    ensures ValidatePeriodDiscounts(map["1hr" := 0.0]).Ok?
    ensures ValidatePeriodDiscounts(map["1hr" := 2.0]).Err?
    ensures ValidatePeriodDiscounts(map["2hrs" := 0.5]).Err?
    ensures MakeConfigCreate(-20.0, None, None).Err?
  {
    assert "2hrs" !in PeriodKeys;
  }
}
