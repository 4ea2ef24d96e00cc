/**
 * The landlord's house table: the initial load and the confirmed delete,
 * which drops the deleted house from the list held by the page.
 */
module HouseManagementTable {
  import opened Json
  import opened Outcomes
  import opened ListUpdates

  class HouseTable {
    var houses: Value
    var loading: bool

    constructor ()
      ensures houses == Arr([]) && loading
    {
      houses := Arr([]);
      loading := true;
    }

    /** `fetchHouses`: `houses || []`; `loading` ends false either way. */
    method Load(response: Outcome<Value>)
      modifies this
      ensures response.Success? ==> houses == Or(Get(response.data, "houses"), Arr([]))
      ensures response.Failure? ==> houses == old(houses)
      ensures !loading
    {
      if response.Success? {
        houses := Or(Get(response.data, "houses"), Arr([]));
      }
      loading := false;
    }

    /**
     * `handleDelete(id)`: without the confirmation nothing is sent. After a
     * successful delete the list loses exactly the houses with that `_id`,
     * in the same order; a failed delete changes nothing. A list that is
     * not an array makes `filter` throw, which the page reports as a failed
     * delete.
     */
    method Delete(id: string, confirmed: bool, response: Outcome<()>) returns (sent: bool)
      modifies this
      ensures sent <==> confirmed
      ensures sent && response.Success? && old(houses).Arr? ==> houses == Arr(RemoveWhere(old(houses).items, id))
      ensures !sent || response.Failure? || !old(houses).Arr? ==> houses == old(houses)
      ensures loading == old(loading)
    {
      if !confirmed {
        return false;
      }
      sent := true;
      if response.Success? && houses.Arr? {
        houses := Arr(RemoveWhere(houses.items, id));
      }
    }
  }

  /**
   * What a successful delete leaves: no house with the id, every other
   * house in its old order, and the length down by the number of matches.
   */
  lemma DeleteLeaves(list: seq<Value>, id: string)
    ensures forall h :: h in RemoveWhere(list, id) ==> !HasId(h, id)
    ensures forall h :: h in list && !HasId(h, id) ==> h in RemoveWhere(list, id)
    ensures |RemoveWhere(list, id)| == |list| - CountId(list, id)
    ensures RemoveWhere(RemoveWhere(list, id), id) == RemoveWhere(list, id)
  {
    RemoveWhereLength(list, id);
    RemoveWhereIdempotent(list, id);
  }
}
