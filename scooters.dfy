/**
 * The `scooters` table as the rental and payment code sees it: rows found by
 * id whose string `status` column is set to "in_use" when rented and back to
 * "available" when the rental ends or is paid.
 */
module Scooters {
  import opened Wrappers
  import opened Query

  const Available: string := "available"
  const InUse: string := "in_use"

  /** A row of `scooters`; `status` is a free string column. */
  datatype Scooter = Scooter(id: nat, model: string, status: string, batteryLevel: int)

  function ScooterId(s: Scooter): nat { s.id }

  /** Sets the status of every row with id `id`: with unique ids, the row `.first()` finds. */
  function SetStatusById(ss: seq<Scooter>, id: nat, status: string): (r: seq<Scooter>)
    ensures |r| == |ss|
    ensures forall j :: 0 <= j < |ss| ==> r[j].id == ss[j].id && r[j].model == ss[j].model && r[j].batteryLevel == ss[j].batteryLevel
    ensures forall j :: 0 <= j < |ss| && ss[j].id == id ==> r[j].status == status
    ensures forall j :: 0 <= j < |ss| && ss[j].id != id ==> r[j] == ss[j]
  {
    seq(|ss|, j requires 0 <= j < |ss| => if ss[j].id == id then ss[j].(status := status) else ss[j])
  }

  class ScooterStore {
    var scooters: seq<Scooter>

    ghost predicate Valid()
      reads this
    {
      DistinctBy(scooters, ScooterId)
    }

    constructor (initial: seq<Scooter>)
      requires DistinctBy(initial, ScooterId)
      ensures Valid() && scooters == initial
    {
      scooters := initial;
    }

    /** `get` by primary key. */
    function Get(id: nat): (r: Option<Scooter>)
      reads this
      ensures r.None? <==> forall j :: 0 <= j < |scooters| ==> scooters[j].id != id
      ensures r.Some? ==> r.value in scooters && r.value.id == id
    {
      First(scooters, (s: Scooter) => s.id == id)
    }

    /** Sets the status of the scooter with id `id`, when there is one. */
    method SetStatus(id: nat, status: string)
      requires Valid()
      modifies this
      ensures Valid()
      ensures scooters == SetStatusById(old(scooters), id, status)
    {
      scooters := SetStatusById(scooters, id, status);
      assert forall i, j :: 0 <= i < j < |scooters| ==> scooters[i].id == old(scooters)[i].id && scooters[j].id == old(scooters)[j].id;
    }

    /** The lookup the rental code does first: a scooter that is not there is left alone. */
    method SetStatusIfFound(id: nat, status: string)
      requires Valid()
      modifies this
      ensures Valid()
      ensures scooters == SetStatusById(old(scooters), id, status)
      ensures Get(id).None? ==> scooters == old(scooters)
    {
      if Get(id).Some? {
        SetStatus(id, status);
      } else {
        assert SetStatusById(scooters, id, status) == scooters;
      }
    }
  }
}
