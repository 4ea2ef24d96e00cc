/**
 * The caretaker's relocation requests: the query built from the filters,
 * the Approve / "Maintenance incomplete" / Decline cell of each row, and
 * the decline modal with its reason.
 */
module CaretakerRelocations {
  import opened Json
  import opened Outcomes

  /**
   * The query of `fetchRelocations`: `{ page, limit, status, houseId:
   * houseFilter || undefined }`. The page number itself is sent, not a
   * skip, and an undefined parameter is dropped from the query string.
   */
  function Params(page: int, limit: nat, status: string, house: string): (p: map<string, Value>)
    ensures "page" in p && p["page"] == Num(page) && "limit" in p && p["limit"] == Num(limit)
    ensures "status" in p && p["status"] == Str(status)
    ensures "houseId" in p <==> house != ""
    ensures "houseId" in p ==> p["houseId"] == Str(house)
    ensures "skip" !in p && |p.Keys| == (if house == "" then 3 else 4)
  {
    var base := map["page" := Num(page), "limit" := Num(limit), "status" := Str(status)];
    assert base.Keys == {"page", "limit", "status"};
    if house == "" then base
    else
      assert (base["houseId" := Str(house)]).Keys == {"page", "limit", "status", "houseId"};
      base["houseId" := Str(house)]
  }

  /** The actions cell of one row. */
  datatype RowActions = RowActions(approve: bool, incomplete: bool, decline: bool)

  /**
   * Approve for a pending request whose maintenance is completed, the
   * "Maintenance incomplete" note for any other pending request, Decline
   * for every pending request, and nothing for the rest.
   */
  function ActionsFor(status: Value, maintenanceStatus: Value): (a: RowActions)
    ensures a.approve <==> status == Str("pending") && maintenanceStatus == Str("completed")
    ensures a.incomplete <==> status == Str("pending") && maintenanceStatus != Str("completed")
    ensures a.decline <==> status == Str("pending")
  {
    if status == Str("pending") && maintenanceStatus == Str("completed") then RowActions(true, false, true)
    else if status == Str("pending") then RowActions(false, true, true)
    else RowActions(false, false, false)
  }

  /**
   * A pending row shows exactly one of Approve and the note, always next to
   * Decline; any other row shows nothing. Decline never depends on the
   * maintenance status.
   */
  lemma ActionsPartition(status: Value, ms: Value, ms': Value)
    ensures var a := ActionsFor(status, ms); a.decline ==> a.approve != a.incomplete
    ensures var a := ActionsFor(status, ms); !a.decline ==> !a.approve && !a.incomplete
    ensures ActionsFor(status, ms).decline == ActionsFor(status, ms').decline
  {
  }

  class RelocationsBoard {
    var relocations: Value
    var statusFilter: string
    var houseFilter: string
    var page: int
    const limit: nat
    var loading: bool
    /** The request being declined; the modal is shown while it is truthy. */
    var declineId: Value
    var declineReason: string

    constructor ()
      ensures relocations == Arr([]) && statusFilter == "" && houseFilter == "" && page == 1 && limit == 8
      ensures !loading && declineId == Null && declineReason == ""
    {
      relocations := Arr([]);
      statusFilter := "";
      houseFilter := "";
      page := 1;
      limit := 8;
      loading := false;
      declineId := Null;
      declineReason := "";
    }

    /** Whether the decline modal is on screen. */
    predicate ModalShown()
      reads this
    {
      Truthy(declineId)
    }

    /** The query of the next fetch. */
    function Query(): (p: map<string, Value>)
      reads this
      ensures p == Params(page, limit, statusFilter, houseFilter)
      ensures "houseId" in p <==> houseFilter != ""
    {
      Params(page, limit, statusFilter, houseFilter)
    }

    /** The status select: back to page 1. */
    method SetStatusFilter(s: string)
      modifies this
      ensures statusFilter == s && page == 1 && houseFilter == old(houseFilter)
      ensures declineId == old(declineId) && declineReason == old(declineReason) && relocations == old(relocations)
    {
      page := 1;
      statusFilter := s;
    }

    /** The house select: back to page 1. */
    method SetHouseFilter(h: string)
      modifies this
      ensures houseFilter == h && page == 1 && statusFilter == old(statusFilter)
      ensures declineId == old(declineId) && declineReason == old(declineReason) && relocations == old(relocations)
    {
      page := 1;
      houseFilter := h;
    }

    /** `fetchRelocations`: `relocations || []`; `loading` ends false either way. */
    method Load(response: Outcome<Value>)
      modifies this
      ensures response.Success? ==> relocations == Or(Get(response.data, "relocations"), Arr([]))
      ensures response.Failure? ==> relocations == old(relocations)
      ensures !loading
      ensures page == old(page) && statusFilter == old(statusFilter) && houseFilter == old(houseFilter)
      ensures declineId == old(declineId) && declineReason == old(declineReason)
    {
      loading := true;
      if response.Success? {
        relocations := Or(Get(response.data, "relocations"), Arr([]));
      }
      loading := false;
    }

    /** A row's Decline button: `setDeclineId(r._id)`; the reason typed earlier stays. */
    method OpenDecline(r: Value)
      modifies this
      ensures declineId == Get(r, "_id") && declineReason == old(declineReason)
      ensures relocations == old(relocations) && page == old(page)
    {
      declineId := Get(r, "_id");
    }

    /** The modal's text area. */
    method EditReason(reason: string)
      modifies this
      ensures declineReason == reason && declineId == old(declineId) && relocations == old(relocations)
    {
      declineReason := reason;
    }

    /** The modal's Cancel: the modal closes, the reason is kept for the next row. */
    method CancelDecline()
      modifies this
      ensures declineId == Null && !ModalShown() && declineReason == old(declineReason)
      ensures relocations == old(relocations) && page == old(page)
    {
      declineId := Null;
    }

    /**
     * `declineRelocation`: the patch names `declineId` and carries `{ reason }`.
     * A success clears both and closes the modal; a failure keeps both.
     */
    method Decline(response: Outcome<()>) returns (target: Value, body: Value)
      modifies this
      ensures target == old(declineId) && body == Obj(map["reason" := Str(old(declineReason))])
      ensures response.Success? ==> declineId == Null && declineReason == "" && !ModalShown()
      ensures response.Failure? ==> declineId == old(declineId) && declineReason == old(declineReason)
      ensures relocations == old(relocations) && page == old(page)
      ensures statusFilter == old(statusFilter) && houseFilter == old(houseFilter)
    {
      target := declineId;
      body := Obj(map["reason" := Str(declineReason)]);
      if response.Success? {
        declineId := Null;
        declineReason := "";
      }
    }
  }
}
