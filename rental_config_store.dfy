/**
 * The `rental_configs` table (`CRUDRentalConfig`): the active configuration is
 * the first row whose `is_active` is 1, and creating a configuration through
 * `create_with_deactivate_others` leaves exactly that new row active.
 */
module RentalConfigStore {
  import opened Wrappers
  import opened Query
  import opened RentalConfigSchema

  /** A row of `rental_configs`; `is_active` is an integer column, 1 meaning active. */
  datatype Config = Config(
    id: nat,
    baseHourlyRate: real,
    periodDiscounts: map<string, real>,
    description: Option<string>,
    isActive: int)

  predicate IsActive(c: Config) { c.isActive == 1 }

  /** Exactly one row is active, and it is the last one inserted. */
  predicate OnlyLastActive(cs: seq<Config>) {
    |cs| > 0 && forall i :: 0 <= i < |cs| ==> (IsActive(cs[i]) <==> i == |cs| - 1)
  }

  /** The bulk `UPDATE ... SET is_active = 0` over every row. */
  function DeactivateAll(cs: seq<Config>): (r: seq<Config>)
    ensures |r| == |cs|
    ensures forall i :: 0 <= i < |cs| ==> r[i] == cs[i].(isActive := 0)
  {
    seq(|cs|, i requires 0 <= i < |cs| => cs[i].(isActive := 0))
  }

  /** The columns a `RentalConfigUpdate` names; `is_active` is not among them. */
  function ApplyPatch(c: Config, p: ConfigPatch): Config {
    c.(baseHourlyRate := p.baseHourlyRate.GetOr(c.baseHourlyRate),
       periodDiscounts := p.periodDiscounts.GetOr(c.periodDiscounts),
       description := if p.description.Some? then p.description else c.description)
  }

  /**
   * A plain insert (the generic `create`, whose `is_active` column defaults
   * to 1) does not deactivate the earlier rows: when an active row exists, it
   * is still the one `get_active_config` returns, and a second active row now
   * exists.
   */
  lemma PlainInsertKeepsEarlierActive(cs: seq<Config>, c: Config)
    requires exists i :: 0 <= i < |cs| && IsActive(cs[i])
    ensures First(cs + [c], IsActive) == First(cs, IsActive)
    ensures IsActive(c) ==> exists i, j :: 0 <= i < j < |cs + [c]| && IsActive((cs + [c])[i]) && IsActive((cs + [c])[j])
  {
    var i :| 0 <= i < |cs| && IsActive(cs[i]);
    var k := FirstIndex(cs, IsActive).value;
    var all := cs + [c];
    assert all[k] == cs[k];
    assert forall j :: 0 <= j < k ==> all[j] == cs[j];
    FirstIs(all, IsActive, k);
    FirstIs(cs, IsActive, k);
    if IsActive(c) {
      assert IsActive(all[i]) && IsActive(all[|cs|]);
    }
  }

  /** The `rental_configs` table. */
  class ConfigStore {
    var configs: seq<Config>
    var nextId: nat

    ghost predicate Valid()
      reads this
    {
      forall i :: 0 <= i < |configs| ==> configs[i].id < nextId
    }

    constructor ()
      ensures Valid() && configs == []
    {
      configs := [];
      nextId := 1;
    }

    /** `get_active_config`: the first row whose `is_active` is 1. */
    function GetActiveConfig(): (r: Option<Config>)
      reads this
      ensures r.None? <==> forall i :: 0 <= i < |configs| ==> !IsActive(configs[i])
      ensures r.Some? ==> r.value in configs && IsActive(r.value)
      ensures OnlyLastActive(configs) ==> r == Some(configs[|configs| - 1])
    {
      if OnlyLastActive(configs) then
        FirstIs(configs, IsActive, |configs| - 1);
        First(configs, IsActive)
      else
        First(configs, IsActive)
    }

    /** `get_all_configs`: `skip` rows in, at most `limit` of them. */
    function GetAllConfigs(skip: nat, limit: nat): (r: seq<Config>)
      reads this
      ensures |r| <= limit
      ensures forall k :: 0 <= k < |r| ==> skip + k < |configs| && r[k] == configs[skip + k]
      ensures IsWindow(r, configs, skip, limit)
    {
      Window(configs, skip, limit)
    }

    /**
     * `create_with_deactivate_others`: every existing row becomes inactive,
     * then the new row is inserted active with the given rate, discounts and
     * description.
     */
    method CreateWithDeactivateOthers(input: ConfigCreate) returns (c: Config)
      requires Valid()
      modifies this
      ensures Valid()
      ensures c == Config(old(nextId), input.baseHourlyRate, input.periodDiscounts, input.description, 1)
      ensures configs == DeactivateAll(old(configs)) + [c]
      ensures OnlyLastActive(configs) && GetActiveConfig() == Some(c)
    {
      configs := DeactivateAll(configs);
      c := Config(nextId, input.baseHourlyRate, input.periodDiscounts, input.description, 1);
      configs := configs + [c];
      nextId := nextId + 1;
    }

    /** The generic `create`: the row is inserted with `is_active` at its column default 1. */
    method Create(input: ConfigCreate) returns (c: Config)
      requires Valid()
      modifies this
      ensures Valid()
      ensures c == Config(old(nextId), input.baseHourlyRate, input.periodDiscounts, input.description, 1)
      ensures configs == old(configs) + [c]
    {
      c := Config(nextId, input.baseHourlyRate, input.periodDiscounts, input.description, 1);
      configs := configs + [c];
      nextId := nextId + 1;
    }

    /** `update_config`: writes the fields the patch names and never `is_active`. */
    method UpdateConfig(k: nat, p: ConfigPatch) returns (updated: Config)
      requires Valid() && k < |configs|
      modifies this
      ensures Valid() && nextId == old(nextId)
      ensures updated == ApplyPatch(old(configs)[k], p)
      ensures updated.id == old(configs)[k].id && updated.isActive == old(configs)[k].isActive
      ensures configs == old(configs)[k := updated]
    {
      updated := ApplyPatch(configs[k], p);
      configs := configs[k := updated];
    }
  }
}
