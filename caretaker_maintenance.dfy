/**
 * The caretaker's maintenance page: the filtered, paged request list, the
 * create modal, the per-row status buttons and the CSV export.
 */
module CaretakerMaintenance {
  import opened Json
  import opened Outcomes
  import opened Pagination
  import Csv
  import MaintenanceStatus

  // ---------------------------------------------------------------------
  // Row actions.

  /** The buttons of one row. */
  datatype RowActions = RowActions(markInProgress: bool, markCompleted: bool, delete: bool)

  /**
   * "Mark In Progress" unless the request is in progress, "Mark Completed"
   * unless it is completed, and "Delete" always.
   */
  function ActionsFor(status: Value): (a: RowActions)
    ensures a.markInProgress <==> !MaintenanceStatus.IsStatus(Obj(map["status" := status]), "in-progress")
    ensures a.markCompleted <==> !MaintenanceStatus.IsStatus(Obj(map["status" := status]), "completed")
    ensures a.delete
  {
    RowActions(status != Str("in-progress"), status != Str("completed"), true)
  }

  /**
   * Every row offers at least one status button, a pending or unknown
   * status offers both, and pressing one leads to a status where that
   * same button is gone while the other one is offered.
   */
  lemma ActionsMoveForward(status: Value)
    ensures ActionsFor(status).markInProgress || ActionsFor(status).markCompleted
    ensures status != Str("in-progress") && status != Str("completed") ==> ActionsFor(status).markInProgress && ActionsFor(status).markCompleted
    ensures !ActionsFor(Str("in-progress")).markInProgress && ActionsFor(Str("in-progress")).markCompleted
    ensures !ActionsFor(Str("completed")).markCompleted && ActionsFor(Str("completed")).markInProgress
  {
  }

  // ---------------------------------------------------------------------
  // The export.

  const RequestHeader: seq<string> := ["House", "Tenant", "Issue", "Status", "CreatedAt", "UpdatedAt"]

  /** `r.createdAt ? new Date(r.createdAt).toLocaleString() : ""`, with the formatter as a parameter. */
  function DateCell(v: Value, fmt: Value -> string): (c: string)
    ensures !Truthy(v) ==> c == ""
    ensures Truthy(v) ==> c == fmt(v)
  {
    if Truthy(v) then fmt(v) else ""
  }

  /** The six cells of one request, each `String(x ?? "")` or a date. */
  function RequestCells(r: Value, fmt: Value -> string): (cells: seq<string>)
    ensures |cells| == |RequestHeader|
    ensures Nullish(Get(Get(r, "houseId"), "title")) ==> cells[0] == ""
    ensures Get(Get(r, "houseId"), "title").Str? ==> cells[0] == Get(Get(r, "houseId"), "title").s
    ensures Nullish(Get(Get(r, "tenantId"), "fullName")) ==> cells[1] == ""
    ensures Get(Get(r, "tenantId"), "fullName").Str? ==> cells[1] == Get(Get(r, "tenantId"), "fullName").s
    ensures Get(r, "issue").Str? ==> cells[2] == Get(r, "issue").s
    ensures Nullish(Get(r, "status")) ==> cells[3] == ""
    ensures Get(r, "status").Str? ==> cells[3] == Get(r, "status").s
    ensures cells[4] == DateCell(Get(r, "createdAt"), fmt) && cells[5] == DateCell(Get(r, "updatedAt"), fmt)
  {
    [ToStr(Coalesce(Get(Get(r, "houseId"), "title"), Str(""))),
     ToStr(Coalesce(Get(Get(r, "tenantId"), "fullName"), Str(""))),
     ToStr(Coalesce(Get(r, "issue"), Str(""))),
     ToStr(Coalesce(Get(r, "status"), Str(""))),
     DateCell(Get(r, "createdAt"), fmt),
     DateCell(Get(r, "updatedAt"), fmt)]
  }

  /** `requests.map(...)`: one row per request, in list order. */
  function RequestRows(requests: seq<Value>, fmt: Value -> string): (rows: seq<seq<string>>)
    ensures |rows| == |requests|
    ensures forall i :: 0 <= i < |requests| ==> rows[i] == RequestCells(requests[i], fmt)
  {
    if requests == [] then []
    else
      var rest := RequestRows(requests[1..], fmt);
      assert forall i :: 1 <= i < |requests| ==> requests[i] == requests[1..][i - 1];
      [RequestCells(requests[0], fmt)] + rest
  }

  /** The header row, then one row per request in list order. */
  function RequestTable(requests: seq<Value>, fmt: Value -> string): (rows: seq<seq<string>>)
    ensures |rows| == |requests| + 1 && rows[0] == RequestHeader
    ensures forall i :: 0 <= i < |requests| ==> rows[i + 1] == RequestCells(requests[i], fmt)
  {
    var body := RequestRows(requests, fmt);
    Csv.HeaderThenBody(RequestHeader, body);
    [RequestHeader] + body
  }

  /** `exportCSV`: every cell quoted with inner quotes doubled, lines joined by '\n'. */
  function ExportCsv(requests: seq<Value>, fmt: Value -> string): string {
    Csv.QuotedDocument(RequestTable(requests, fmt))
  }

  /** A reader of the file gets back the header and one six-cell row per request. */
  lemma ExportReadsBack(requests: seq<Value>, fmt: Value -> string)
    ensures Csv.ParseDocument(ExportCsv(requests, fmt)) == Some(RequestTable(requests, fmt))
    ensures forall row :: row in RequestTable(requests, fmt) ==> |row| == 6
  {
    Csv.DocumentRoundTrip(RequestTable(requests, fmt));
  }

  // ---------------------------------------------------------------------
  // The page.

  /** The keys of the `filters` object. */
  datatype FilterKey = Status | HouseId | StartDate | EndDate

  function KeyName(k: FilterKey): (n: string)
    ensures n != "skip" && n != "limit"
  {
    match k
    case Status => "status"
    case HouseId => "houseId"
    case StartDate => "startDate"
    case EndDate => "endDate"
  }

  /** The new-request form: `{ houseId, issue }`. */
  datatype NewRequest = NewRequest(houseId: string, issue: string)

  /**
   * `total` after a load, for a list sent under `key`: `data.total ??
   * (data[key] ? data.total : (data.length || 0))`. The agreements page
   * of the caretaker computes its total the same way.
   */
  function LoadedTotal(data: Value, key: string): (t: Value)
    ensures !Nullish(Get(data, "total")) ==> t == Get(data, "total")
  {
    Coalesce(Get(data, "total"), if Truthy(Get(data, key)) then Get(data, "total") else Or(Get(data, "length"), Num(0)))
  }

  /**
   * An array answer counts its own items; an object with the list but no
   * `total` leaves the total undefined, not the length of the list.
   */
  lemma LoadedTotalShapes(data: Value, key: string)
    requires key != "length" && key != "total"
    ensures data.Arr? ==> LoadedTotal(data, key) == Num(|data.items|)
    ensures data.Obj? && "total" !in data.fields && Truthy(Get(data, key)) ==> LoadedTotal(data, key) == Undefined
  {
  }

  class MaintenancePage {
    var filters: map<FilterKey, string>
    var page: int
    const limit: nat
    var creating: bool
    var newReq: NewRequest
    var requests: Value
    var total: Value

    /** Every filter key is present. */
    predicate Valid()
      reads this
    {
      forall k: FilterKey :: k in filters
    }

    constructor ()
      ensures Valid() && forall k: FilterKey :: filters[k] == ""
      ensures page == 1 && limit == 8 && !creating && newReq == NewRequest("", "")
      ensures requests == Arr([]) && total == Num(0)
    {
      filters := map[Status := "", HouseId := "", StartDate := "", EndDate := ""];
      page := 1;
      limit := 8;
      creating := false;
      newReq := NewRequest("", "");
      requests := Arr([]);
      total := Num(0);
      new;
      forall k: FilterKey ensures k in filters && filters[k] == "" {
        match k
        case Status =>
        case HouseId =>
        case StartDate =>
        case EndDate =>
      }
    }

    /** The query of `fetchRequests`: `{ skip, limit, ...filters }`. */
    function Params(): (p: map<string, Value>)
      requires Valid()
      reads this
      ensures "skip" in p && "limit" in p && p["limit"] == Num(limit)
      ensures p["skip"].Num? && p["skip"].n + limit == page * limit
      ensures forall k: FilterKey :: KeyName(k) in p && p[KeyName(k)] == Str(filters[k])
      ensures forall n :: n in p ==> n == "skip" || n == "limit" || exists k: FilterKey :: n == KeyName(k)
    {
      map["skip" := Num(Skip(page, limit)), "limit" := Num(limit),
          "status" := Str(filters[Status]), "houseId" := Str(filters[HouseId]),
          "startDate" := Str(filters[StartDate]), "endDate" := Str(filters[EndDate])]
    }

    /** A filter control: back to page 1, only its own key replaced. */
    method SetFilter(k: FilterKey, value: string)
      requires Valid()
      modifies this
      ensures Valid() && filters == old(filters)[k := value] && page == 1
      ensures newReq == old(newReq) && creating == old(creating) && requests == old(requests) && total == old(total)
    {
      page := 1;
      filters := filters[k := value];
    }

    /** Prev: never below 1. */
    method Prev()
      modifies this
      ensures page == PrevPage(old(page)) && page >= 1
      ensures filters == old(filters) && requests == old(requests) && total == old(total)
    {
      page := PrevPage(page);
    }

    /** Next: `setPage(p => p + 1)`, with no check against the total. */
    method Next()
      modifies this
      ensures page == UnboundedNext(old(page)) && page == old(page) + 1
      ensures filters == old(filters) && requests == old(requests) && total == old(total)
    {
      page := UnboundedNext(page);
    }

    /** "New Request" opens the modal; "Cancel" closes it and keeps what was typed. */
    method SetCreating(open: bool)
      modifies this
      ensures creating == open && newReq == old(newReq) && filters == old(filters) && page == old(page)
    {
      creating := open;
    }

    /** The modal's select and text area. */
    method EditNewRequest(r: NewRequest)
      modifies this
      ensures newReq == r && creating == old(creating) && filters == old(filters) && page == old(page)
    {
      newReq := r;
    }

    /**
     * `createRequest`: without a house or an issue nothing is sent; a
     * successful post closes the modal and empties the form; a failed one
     * keeps both.
     */
    method CreateRequest(response: Outcome<()>) returns (sent: Option<NewRequest>)
      modifies this
      ensures old(newReq).houseId == "" || old(newReq).issue == "" ==>
        sent == None && newReq == old(newReq) && creating == old(creating)
      ensures old(newReq).houseId != "" && old(newReq).issue != "" ==> sent == Some(old(newReq))
      ensures sent.Some? && response.Success? ==> !creating && newReq == NewRequest("", "")
      ensures sent.Some? && response.Failure? ==> creating == old(creating) && newReq == old(newReq)
      ensures filters == old(filters) && page == old(page) && requests == old(requests) && total == old(total)
    {
      if newReq.houseId == "" || newReq.issue == "" {
        return None;
      }
      sent := Some(newReq);
      if response.Success? {
        creating := false;
        newReq := NewRequest("", "");
      }
    }

    /** `fetchRequests`: `requests || data || []` and `LoadedTotal`; a failure changes nothing. */
    method Load(response: Outcome<Value>)
      modifies this
      ensures response.Success? ==> requests == Or(Or(Get(response.data, "requests"), response.data), Arr([]))
      ensures response.Success? ==> total == LoadedTotal(response.data, "requests")
      ensures response.Failure? ==> requests == old(requests) && total == old(total)
      ensures filters == old(filters) && page == old(page) && newReq == old(newReq) && creating == old(creating)
    {
      if response.Success? {
        requests := Or(Or(Get(response.data, "requests"), response.data), Arr([]));
        total := LoadedTotal(response.data, "requests");
      }
    }
  }
}
