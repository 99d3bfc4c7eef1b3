/**
 * The `scooter_prices` table and its endpoints: one hourly price per scooter
 * model. The table's unique constraint on `model` rejects a clashing write
 * (an integrity error, answered with 500); the endpoints check for a clash
 * first and answer 400, so through them the table keeps one row per model.
 */
module ScooterPrices {
  import opened Wrappers
  import opened Query
  import opened Http

  /** A row of `scooter_prices`. */
  datatype ScooterPrice = ScooterPrice(id: nat, model: string, pricePerHour: real)

  /** A `ScooterPriceCreate` body: both fields required. */
  datatype ScooterPriceCreate = ScooterPriceCreate(model: string, pricePerHour: real)

  /** A `ScooterPriceUpdate` body: `None` is a field the request did not set. */
  datatype ScooterPricePatch = ScooterPricePatch(model: Option<string>, pricePerHour: Option<real>)

  function PriceId(p: ScooterPrice): nat { p.id }
  function PriceModel(p: ScooterPrice): string { p.model }

  /** The schema's `gt=0` on a price that is present. */
  predicate PriceAccepted(price: Option<real>) {
    price.None? || price.value > 0.0
  }

  /** `get` by primary key. */
  function FindById(ps: seq<ScooterPrice>, id: nat): (r: Option<ScooterPrice>)
    ensures r.None? <==> forall j :: 0 <= j < |ps| ==> ps[j].id != id
    ensures r.Some? ==> r.value in ps && r.value.id == id
  {
    First(ps, (x: ScooterPrice) => x.id == id)
  }

  /** `get_by_model`. */
  function FindByModel(ps: seq<ScooterPrice>, model: string): (r: Option<ScooterPrice>)
    ensures r.None? <==> forall j :: 0 <= j < |ps| ==> ps[j].model != model
    ensures r.Some? ==> r.value in ps && r.value.model == model
  {
    First(ps, (x: ScooterPrice) => x.model == model)
  }

  /** Some row other than `id` already has `model`: what the unique constraint refuses. */
  predicate ModelTakenByOther(ps: seq<ScooterPrice>, id: nat, model: string) {
    exists j :: 0 <= j < |ps| && ps[j].id != id && ps[j].model == model
  }

  /** The partial update: each field the patch sets replaces the column. */
  function ApplyPatch(row: ScooterPrice, p: ScooterPricePatch): (r: ScooterPrice)
    ensures r.id == row.id
    ensures r.model == p.model.GetOr(row.model) && r.pricePerHour == p.pricePerHour.GetOr(row.pricePerHour)
  {
    ScooterPrice(row.id, p.model.GetOr(row.model), p.pricePerHour.GetOr(row.pricePerHour))
  }

  function ReplaceById(ps: seq<ScooterPrice>, id: nat, row: ScooterPrice): (r: seq<ScooterPrice>)
    ensures |r| == |ps|
    ensures forall j :: 0 <= j < |ps| ==> r[j] == (if ps[j].id == id then row else ps[j])
  {
    seq(|ps|, j requires 0 <= j < |ps| => if ps[j].id == id then row else ps[j])
  }

  function NotId(id: nat): ScooterPrice -> bool {
    (x: ScooterPrice) => x.id != id
  }

  /** Every stored price is positive. */
  predicate AllPositive(ps: seq<ScooterPrice>) {
    forall j :: 0 <= j < |ps| ==> ps[j].pricePerHour > 0.0
  }

  /**
   * `update_scooter_price` as written: the clash check is skipped when the
   * requested model is empty (`if scooter_price_in.model` is false for ""),
   * so an empty model held by another row reaches the unique constraint.
   */
  function UpdateOutcomeAsWritten(ps: seq<ScooterPrice>, id: nat, p: ScooterPricePatch): (r: Result<ScooterPrice, ApiError>)
    ensures r.Ok? ==> FindById(ps, id).Some? && r.value == ApplyPatch(FindById(ps, id).value, p)
    ensures r.Ok? ==> p.model.None? || !ModelTakenByOther(ps, id, p.model.value)
  {
    if !PriceAccepted(p.pricePerHour) then Err(Unprocessable)
    else match FindById(ps, id)
      case None => Err(NotFound)
      case Some(row) =>
        if p.model.Some? && p.model.value != "" && p.model.value != row.model
           && FindByModel(ps, p.model.value).Some? && FindByModel(ps, p.model.value).value.id != id
        then Err(BadRequest)
        else if p.model.Some? && ModelTakenByOther(ps, id, p.model.value) then Err(ServerError)
        else Ok(ApplyPatch(row, p))
  }

  /**
   * `update_scooter_price` with the clash check applied to every requested
   * model that differs from the row's own, the empty one included.
   */
  function UpdateOutcome(ps: seq<ScooterPrice>, id: nat, p: ScooterPricePatch): (r: Result<ScooterPrice, ApiError>)
    ensures !PriceAccepted(p.pricePerHour) ==> r == Err(Unprocessable)
    ensures PriceAccepted(p.pricePerHour) && FindById(ps, id).None? ==> r == Err(NotFound)
    ensures r.Ok? ==> FindById(ps, id).Some? && r.value == ApplyPatch(FindById(ps, id).value, p)
  {
    if !PriceAccepted(p.pricePerHour) then Err(Unprocessable)
    else match FindById(ps, id)
      case None => Err(NotFound)
      case Some(row) =>
        if p.model.Some? && p.model.value != row.model
           && FindByModel(ps, p.model.value).Some? && FindByModel(ps, p.model.value).value.id != id
        then Err(BadRequest)
        else if p.model.Some? && ModelTakenByOther(ps, id, p.model.value) then Err(ServerError)
        else Ok(ApplyPatch(row, p))
  }

  /**
   * With one row per id and per model, the checked update never reaches the
   * unique constraint: a clash is a 400, and an accepted update keeps one row
   * per model.
   */
  lemma UpdateNeverConflicts(ps: seq<ScooterPrice>, id: nat, p: ScooterPricePatch)
    requires DistinctBy(ps, PriceId) && DistinctBy(ps, PriceModel)
    ensures UpdateOutcome(ps, id, p) != Err(ServerError)
    ensures p.model.Some? && PriceAccepted(p.pricePerHour) && FindById(ps, id).Some? ==>
      (UpdateOutcome(ps, id, p) == Err(BadRequest) <==> ModelTakenByOther(ps, id, p.model.value))
  {
    if PriceAccepted(p.pricePerHour) && FindById(ps, id).Some? && p.model.Some? {
      var row := FindById(ps, id).value;
      var m := p.model.value;
      if ModelTakenByOther(ps, id, m) {
        var j :| 0 <= j < |ps| && ps[j].id != id && ps[j].model == m;
        var i :| 0 <= i < |ps| && ps[i] == row;
        assert m != row.model by {
          assert i != j;
          if i < j { assert PriceModel(ps[i]) != PriceModel(ps[j]); }
          else { assert PriceModel(ps[j]) != PriceModel(ps[i]); }
        }
        var other := FindByModel(ps, m).value;
        var k :| 0 <= k < |ps| && ps[k] == other;
        assert other.id != id by {
          assert other.model != row.model;
          assert k != i;
          if i < k { assert PriceId(ps[i]) != PriceId(ps[k]); }
          else { assert PriceId(ps[k]) != PriceId(ps[i]); }
        }
      }
    }
  }

  /** Replacing one row by a row with the same id and an unclaimed model keeps both columns unique. */
  lemma ReplaceKeepsUnique(ps: seq<ScooterPrice>, id: nat, row: ScooterPrice)
    requires DistinctBy(ps, PriceId) && DistinctBy(ps, PriceModel)
    requires row.id == id && !ModelTakenByOther(ps, id, row.model)
    ensures DistinctBy(ReplaceById(ps, id, row), PriceId) && DistinctBy(ReplaceById(ps, id, row), PriceModel)
  {
    var qs := ReplaceById(ps, id, row);
    forall i, j | 0 <= i < j < |qs| ensures qs[i].id != qs[j].id && qs[i].model != qs[j].model {
      assert ps[i].id != ps[j].id && ps[i].model != ps[j].model;
    }
  }

  /**
   * The discrepancy: with a row whose model is "" and another row, renaming
   * the other row to "" passes the endpoint's check and fails on the unique
   * constraint (500); the checked update answers 400.
   */
  lemma EmptyModelSkipsCheck()
    ensures var ps := [ScooterPrice(1, "", 10.0), ScooterPrice(2, "x", 5.0)];
      var p := ScooterPricePatch(Some(""), None);
      UpdateOutcomeAsWritten(ps, 2, p) == Err(ServerError) && UpdateOutcome(ps, 2, p) == Err(BadRequest)
  {
    var ps := [ScooterPrice(1, "", 10.0), ScooterPrice(2, "x", 5.0)];
    FirstIs(ps, (x: ScooterPrice) => x.id == 2, 1);
    FirstIs(ps, (x: ScooterPrice) => x.model == "", 0);
    assert ps[0].id != 2 && ps[0].model == "";
  }

  class PriceStore {
    var prices: seq<ScooterPrice>
    var nextId: nat

    /** One row per id and, by `uq_scooter_model`, one row per model. */
    ghost predicate Valid()
      reads this
    {
      DistinctBy(prices, PriceId) && DistinctBy(prices, PriceModel)
      && forall j :: 0 <= j < |prices| ==> prices[j].id < nextId
    }

    constructor ()
      ensures Valid() && prices == [] && nextId == 1
    {
      prices := [];
      nextId := 1;
    }

    /** `get_multi`: a window of the table. */
    function GetMulti(skip: nat, limit: nat): (r: seq<ScooterPrice>)
      reads this
      ensures |r| <= limit
      ensures forall k :: 0 <= k < |r| ==> skip + k < |prices| && r[k] == prices[skip + k]
      ensures IsWindow(r, prices, skip, limit)
    {
      Window(prices, skip, limit)
    }

    /** `create`: inserts the row, unless the unique constraint refuses the model. */
    method Create(input: ScooterPriceCreate) returns (r: Result<ScooterPrice, ApiError>)
      requires Valid()
      modifies this
      ensures Valid()
      ensures r.Err? <==> old(FindByModel(prices, input.model)).Some?
      ensures r.Err? ==> r.error == ServerError && prices == old(prices) && nextId == old(nextId)
      ensures r.Ok? ==>
        r.value == ScooterPrice(old(nextId), input.model, input.pricePerHour)
        && prices == old(prices) + [r.value] && nextId == old(nextId) + 1
    {
      if FindByModel(prices, input.model).Some? {
        return Err(ServerError);
      }
      var row := ScooterPrice(nextId, input.model, input.pricePerHour);
      prices := prices + [row];
      nextId := nextId + 1;
      return Ok(row);
    }

    /** `update`: writes the patched row, unless its model belongs to another row. */
    method Update(row: ScooterPrice, p: ScooterPricePatch) returns (r: Result<ScooterPrice, ApiError>)
      requires Valid() && row in prices
      modifies this
      ensures Valid() && nextId == old(nextId)
      ensures r.Err? <==> p.model.Some? && ModelTakenByOther(old(prices), row.id, p.model.value)
      ensures r.Err? ==> r.error == ServerError && prices == old(prices)
      ensures r.Ok? ==> r.value == ApplyPatch(row, p) && prices == ReplaceById(old(prices), row.id, r.value)
    {
      if p.model.Some? && ModelTakenByOther(prices, row.id, p.model.value) {
        return Err(ServerError);
      }
      var updated := ApplyPatch(row, p);
      assert !ModelTakenByOther(prices, row.id, updated.model) by {
        if p.model.None? {
          var i :| 0 <= i < |prices| && prices[i] == row;
          forall j | 0 <= j < |prices| && prices[j].id != row.id ensures prices[j].model != row.model {
            if i < j { assert PriceModel(prices[i]) != PriceModel(prices[j]); }
            else if j < i { assert PriceModel(prices[j]) != PriceModel(prices[i]); }
          }
        }
      }
      ReplaceKeepsUnique(prices, row.id, updated);
      prices := ReplaceById(prices, row.id, updated);
      return Ok(updated);
    }

    /** `remove`: deletes the row with id `id` and returns it. */
    method Remove(id: nat) returns (r: Option<ScooterPrice>)
      requires Valid()
      modifies this
      ensures Valid() && nextId == old(nextId)
      ensures r == old(FindById(prices, id))
      ensures r.None? ==> prices == old(prices)
      ensures r.Some? ==> prices == Filter(old(prices), NotId(id))
      ensures FindById(prices, id).None?
    {
      r := FindById(prices, id);
      if r.Some? {
        FilterKeepsDistinct(prices, NotId(id), PriceId);
        FilterKeepsDistinct(prices, NotId(id), PriceModel);
        prices := Filter(prices, NotId(id));
      }
    }
  }

  /**
   * `create_scooter_price`: 422 for a price that is not positive, 400 for a
   * model that already has a price, otherwise the new row.
   */
  method CreateScooterPrice(store: PriceStore, input: ScooterPriceCreate) returns (r: Result<ScooterPrice, ApiError>)
    requires store.Valid()
    modifies store
    ensures store.Valid()
    ensures input.pricePerHour <= 0.0 ==> r == Err(Unprocessable)
    ensures input.pricePerHour > 0.0 && old(FindByModel(store.prices, input.model)).Some? ==> r == Err(BadRequest)
    ensures r.Ok? <==> input.pricePerHour > 0.0 && old(FindByModel(store.prices, input.model)).None?
    ensures r.Err? ==> store.prices == old(store.prices)
    ensures r.Ok? ==>
      r.value.model == input.model && r.value.pricePerHour == input.pricePerHour
      && store.prices == old(store.prices) + [r.value]
    ensures AllPositive(old(store.prices)) ==> AllPositive(store.prices)
  {
    if !(input.pricePerHour > 0.0) {
      return Err(Unprocessable);
    }
    if FindByModel(store.prices, input.model).Some? {
      return Err(BadRequest);
    }
    r := store.Create(input);
  }

  /** `read_scooter_price_by_model`: the model's price, or 404. */
  function ReadScooterPriceByModel(store: PriceStore, model: string): (r: Result<ScooterPrice, ApiError>)
    reads store
    ensures r.Err? <==> forall j :: 0 <= j < |store.prices| ==> store.prices[j].model != model
    ensures r.Err? ==> r.error == NotFound
    ensures r.Ok? ==> r.value in store.prices && r.value.model == model
  {
    match FindByModel(store.prices, model)
    case None => Err(NotFound)
    case Some(row) => Ok(row)
  }

  /** `update_scooter_price`, with the clash check applied to an empty model too. */
  method UpdateScooterPrice(store: PriceStore, id: nat, p: ScooterPricePatch) returns (r: Result<ScooterPrice, ApiError>)
    requires store.Valid()
    modifies store
    ensures store.Valid() && store.nextId == old(store.nextId)
    ensures r == UpdateOutcome(old(store.prices), id, p) && r != Err(ServerError)
    ensures r.Err? ==> store.prices == old(store.prices)
    ensures r.Ok? ==> store.prices == ReplaceById(old(store.prices), id, r.value)
    ensures AllPositive(old(store.prices)) ==> AllPositive(store.prices)
  {
    UpdateNeverConflicts(store.prices, id, p);
    if !PriceAccepted(p.pricePerHour) {
      return Err(Unprocessable);
    }
    var found := FindById(store.prices, id);
    if found.None? {
      return Err(NotFound);
    }
    var row := found.value;
    if p.model.Some? && p.model.value != row.model {
      var existing := FindByModel(store.prices, p.model.value);
      if existing.Some? && existing.value.id != id {
        return Err(BadRequest);
      }
    }
    r := store.Update(row, p);
  }

  /** `delete_scooter_price`: the removed row, or 404 and nothing changes. */
  method DeleteScooterPrice(store: PriceStore, id: nat) returns (r: Result<ScooterPrice, ApiError>)
    requires store.Valid()
    modifies store
    ensures store.Valid() && store.nextId == old(store.nextId)
    ensures r.Err? <==> old(FindById(store.prices, id)).None?
    ensures r.Err? ==> r.error == NotFound && store.prices == old(store.prices)
    ensures r.Ok? ==>
      r.value == old(FindById(store.prices, id)).value
      && store.prices == Filter(old(store.prices), NotId(id))
    ensures FindById(store.prices, id).None?
  {
    var removed := store.Remove(id);
    if removed.None? {
      return Err(NotFound);
    }
    return Ok(removed.value);
  }
}
