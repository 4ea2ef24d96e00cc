/**
 * The caretaker's visit requests: server paging with a client-side
 * fallback that filters and slices the full list, the approve/decline
 * guard, the filters and pager, and the CSV export.
 */
module CaretakerVisits {
  import opened Json
  import opened Outcomes
  import opened Pagination
  import opened JsNumber
  import Seqs
  import Csv
  import MaintenanceStatus

  // ---------------------------------------------------------------------
  // The query and the client-side fallback.

  /**
   * `{ skip, limit, status, houseId: houseFilter || undefined }` as it goes
   * on the wire: a parameter whose value is undefined is not sent.
   */
  function Params(page: int, limit: nat, status: string, house: string): (p: map<string, Value>)
    ensures "skip" in p && p["skip"].Num? && p["skip"].n + limit == page * limit
    ensures "limit" in p && p["limit"] == Num(limit)
    ensures "status" in p && p["status"] == Str(status)
    ensures "houseId" in p <==> house != ""
    ensures house != "" ==> p["houseId"] == Str(house)
    ensures forall k :: k in p ==> k in {"skip", "limit", "status", "houseId"}
  {
    var base := map["skip" := Num(Skip(page, limit)), "limit" := Num(limit), "status" := Str(status)];
    if house == "" then base else base["houseId" := Str(house)]
  }

  /** `v.houseId && v.houseId._id === houseFilter`. */
  predicate InHouse(v: Value, house: string) {
    Truthy(Get(v, "houseId")) && Get(Get(v, "houseId"), "_id") == Str(house)
  }

  /** A visit passes the filters that are set; an empty filter lets everything through. */
  predicate Matches(v: Value, status: string, house: string) {
    (status == "" || MaintenanceStatus.IsStatus(v, status)) && (house == "" || InHouse(v, house))
  }

  /** The visits the fallback keeps, as one filter over both conditions. */
  function Filtered(all: seq<Value>, status: string, house: string): (r: seq<Value>)
    ensures |r| <= |all|
    ensures forall v :: v in r ==> v in all && Matches(v, status, house)
    ensures forall v :: v in all && Matches(v, status, house) ==> v in r
  {
    Seqs.Filter(all, (v: Value) => Matches(v, status, house))
  }

  /** With both filters set, the two narrowing steps keep exactly `Filtered`. */
  lemma NarrowBoth(all: seq<Value>, status: string, house: string, byStatus: Value -> bool, byHouse: Value -> bool)
    requires status != "" && house != ""
    requires forall v :: byStatus(v) == MaintenanceStatus.IsStatus(v, status)
    requires forall v :: byHouse(v) == InHouse(v, house)
    ensures Seqs.Filter(Seqs.Filter(all, byStatus), byHouse) == Filtered(all, status, house)
  {
    var both := (v: Value) => Matches(v, status, house);
    Seqs.FilterFuse(all, byStatus, byHouse, both);
  }

  /** With only one filter set, its single narrowing step keeps exactly `Filtered`. */
  lemma NarrowOne(all: seq<Value>, status: string, house: string, narrow: Value -> bool)
    requires (status != "") != (house != "")
    requires forall v :: narrow(v) == if status != "" then MaintenanceStatus.IsStatus(v, status) else InHouse(v, house)
    ensures Seqs.Filter(all, narrow) == Filtered(all, status, house)
  {
    var both := (v: Value) => Matches(v, status, house);
    assert forall v :: narrow(v) == both(v);
    Seqs.FilterExt(all, narrow, both);
  }

  /** With no filter set, `all` is `Filtered`. */
  lemma NarrowNone(all: seq<Value>)
    ensures all == Filtered(all, "", "")
  {
    var both := (v: Value) => Matches(v, "", "");
    assert forall v :: both(v);
    Seqs.FilterAll(all, both);
  }

  /** Every visit of a window of the filtered list is a visit of `all` that passes the filters. */
  lemma WindowMatches(all: seq<Value>, status: string, house: string, page: int, limit: nat)
    requires page >= 1
    ensures forall v :: v in Window(Filtered(all, status, house), page, limit) ==> v in all && Matches(v, status, house)
  {
    var xs := Filtered(all, status, house);
    var w := Window(xs, page, limit);
    forall v | v in w ensures v in all && Matches(v, status, house) {
      var i :| 0 <= i < |w| && w[i] == v;
      assert v == xs[Skip(page, limit) + i];
    }
  }

  /**
   * The fallback of `fetchVisits`: `all` is narrowed by the status filter
   * when it is set, then by the house filter when it is set; the total is
   * what is left and the page is the window `[skip, skip + limit)` of it.
   */
  method ClientPage(all: seq<Value>, status: string, house: string, page: int, limit: nat) returns (visits: seq<Value>, total: nat)
    requires page >= 1
    ensures total == |Filtered(all, status, house)|
    ensures visits == Window(Filtered(all, status, house), page, limit)
    ensures |visits| <= limit
    ensures forall v :: v in visits ==> v in all && Matches(v, status, house)
  {
    var byStatus := (v: Value) => MaintenanceStatus.IsStatus(v, status);
    var byHouse := (v: Value) => InHouse(v, house);
    var xs := all;
    if status != "" {
      xs := Seqs.Filter(xs, byStatus);
    }
    if house != "" {
      xs := Seqs.Filter(xs, byHouse);
    }
    if status != "" && house != "" {
      NarrowBoth(all, status, house, byStatus, byHouse);
    } else if status != "" {
      NarrowOne(all, status, house, byStatus);
    } else if house != "" {
      NarrowOne(all, status, house, byHouse);
    } else {
      NarrowNone(all);
    }
    total := |xs|;
    visits := Window(xs, page, limit);
    WindowMatches(all, status, house, page, limit);
  }

  /**
   * The server answer carries paging information: it is truthy and has a
   * defined `total` or an array `visits`.
   */
  predicate HasPaging(data: Value) {
    Truthy(data) && (!Get(data, "total").Undefined? || Get(data, "visits").Arr?)
  }

  // ---------------------------------------------------------------------
  // Row actions.

  /** `["approve", "decline"].includes(action)`: the only actions `respondToVisit` sends. */
  predicate Respondable(action: string) {
    action == "approve" || action == "decline"
  }

  /** Approve and Decline are offered iff the visit is pending. */
  predicate OffersResponse(v: Value) {
    MaintenanceStatus.IsStatus(v, "pending")
  }

  /** The id the Decline button passes: `v._1d || v._id`. */
  function DeclineTarget(v: Value): (id: Value)
    ensures !Truthy(Get(v, "_1d")) ==> id == Get(v, "_id")
  {
    Or(Get(v, "_1d"), Get(v, "_id"))
  }

  /**
   * The two buttons send actions the guard accepts, and both aim at the
   * row's own `_id` for every record that has no `_1d` property.
   */
  lemma ButtonsReachBackend(v: Value)
    requires v.Obj? && "_1d" !in v.fields
    ensures Respondable("approve") && Respondable("decline")
    ensures DeclineTarget(v) == Get(v, "_id")
    ensures !Respondable("approved") && !Respondable("")
  {
  }

  // ---------------------------------------------------------------------
  // The export.

  const VisitHeader: seq<string> := ["Tenant", "Phone", "Email", "House", "Location", "Status", "RequestedAt"]

  /** `typeof h?.location === "string" ? h.location : h?.location?.address ?? ""`. */
  function LocationOf(house: Value): (r: Value)
    ensures Get(house, "location").Str? ==> r == Get(house, "location")
    ensures !Get(house, "location").Str? && Nullish(Get(Get(house, "location"), "address")) ==> r == Str("")
    ensures !Get(house, "location").Str? && !Nullish(Get(Get(house, "location"), "address")) ==> r == Get(Get(house, "location"), "address")
  {
    var loc := Get(house, "location");
    if loc.Str? then loc else Coalesce(Get(loc, "address"), Str(""))
  }

  /** The seven cells of one visit; `stamp` formats its request time. */
  function VisitCells(v: Value, stamp: Value -> string): (cells: seq<string>)
    ensures |cells| == |VisitHeader|
    ensures Nullish(Get(Get(v, "tenantId"), "fullName")) ==> cells[0] == ""
    ensures Get(Get(v, "tenantId"), "fullName").Str? ==> cells[0] == Get(Get(v, "tenantId"), "fullName").s
    ensures cells[1] == ToStr(Coalesce(Get(Get(v, "tenantId"), "phone"), Str("")))
    ensures cells[2] == ToStr(Coalesce(Get(Get(v, "tenantId"), "email"), Str("")))
    ensures cells[3] == ToStr(Coalesce(Get(Get(v, "houseId"), "title"), Str("")))
    ensures cells[4] == ToStr(LocationOf(Get(v, "houseId")))
    ensures cells[5] == ToStr(Get(v, "status")) && cells[6] == stamp(v)
  {
    var tenant := Get(v, "tenantId");
    [ToStr(Coalesce(Get(tenant, "fullName"), Str(""))),
     ToStr(Coalesce(Get(tenant, "phone"), Str(""))),
     ToStr(Coalesce(Get(tenant, "email"), Str(""))),
     ToStr(Coalesce(Get(Get(v, "houseId"), "title"), Str(""))),
     ToStr(LocationOf(Get(v, "houseId"))),
     ToStr(Get(v, "status")),
     stamp(v)]
  }

  /** `visits.map(...)`: one row per visit, in order. */
  function VisitRows(visits: seq<Value>, stamp: Value -> string): (rows: seq<seq<string>>)
    ensures |rows| == |visits|
    ensures forall i :: 0 <= i < |visits| ==> rows[i] == VisitCells(visits[i], stamp)
  {
    if visits == [] then []
    else
      var rest := VisitRows(visits[1..], stamp);
      assert forall i :: 1 <= i < |visits| ==> visits[i] == visits[1..][i - 1];
      [VisitCells(visits[0], stamp)] + rest
  }

  /** The header, then one row per visit on the page. */
  function VisitTable(visits: seq<Value>, stamp: Value -> string): (rows: seq<seq<string>>)
    ensures |rows| == |visits| + 1 && rows[0] == VisitHeader
    ensures forall i :: 0 <= i < |visits| ==> rows[i + 1] == VisitCells(visits[i], stamp)
  {
    var body := VisitRows(visits, stamp);
    Csv.HeaderThenBody(VisitHeader, body);
    [VisitHeader] + body
  }

  function ExportCsv(visits: seq<Value>, stamp: Value -> string): string {
    Csv.QuotedDocument(VisitTable(visits, stamp))
  }

  /**
   * The file reads back as the header and one seven-cell row per visit; a
   * visit without a status exports the word "undefined", unlike the other
   * cells, which fall back to "".
   */
  lemma ExportReadsBack(visits: seq<Value>, stamp: Value -> string)
    ensures Csv.ParseDocument(ExportCsv(visits, stamp)) == Some(VisitTable(visits, stamp))
    ensures forall row :: row in VisitTable(visits, stamp) ==> |row| == 7
    ensures forall i :: 0 <= i < |visits| && Get(visits[i], "status") == Undefined ==> VisitTable(visits, stamp)[i + 1][5] == "undefined"
  {
    Csv.DocumentRoundTrip(VisitTable(visits, stamp));
  }

  // ---------------------------------------------------------------------
  // The page.

  class VisitsPage {
    var statusFilter: string
    var houseFilter: string
    var page: int
    const limit: nat := 8
    var total: Value
    var visits: Value
    var serverPaging: bool
    var loading: bool

    constructor ()
      ensures statusFilter == "" && houseFilter == "" && page == 1 && limit == 8
      ensures total == Num(0) && visits == Arr([]) && serverPaging && !loading
    {
      statusFilter, houseFilter := "", "";
      page := 1;
      total, visits := Num(0), Arr([]);
      serverPaging, loading := true, false;
    }

    /**
     * `fetchVisits`: `first` answers the paged query. With paging
     * information its page and total are taken as sent; otherwise `second`,
     * the unpaged query, feeds the client-side fallback. When both fail,
     * the list and total stay. `loading` ends false.
     */
    method FetchVisits(first: Outcome<Value>, second: Outcome<Value>)
      requires page >= 1
      modifies this
      ensures page == old(page) && statusFilter == old(statusFilter) && houseFilter == old(houseFilter) && !loading
      ensures first.Success? && HasPaging(first.data) ==>
        serverPaging && visits == Or(Get(first.data, "visits"), first.data)
        && total == Coalesce(Get(first.data, "total"), Get(visits, "length"))
      ensures !(first.Success? && HasPaging(first.data)) && second.Success? ==>
        var all := ItemsOr(Or(Or(Get(second.data, "visits"), second.data), Arr([])), []);
        !serverPaging && total == Num(|Filtered(all, statusFilter, houseFilter)|)
        && visits == Arr(Window(Filtered(all, statusFilter, houseFilter), page, limit))
      ensures !(first.Success? && HasPaging(first.data)) && second.Failure? ==>
        visits == old(visits) && total == old(total) && serverPaging == old(serverPaging)
    {
      loading := true;
      if first.Success? && HasPaging(first.data) {
        serverPaging := true;
        visits := Or(Get(first.data, "visits"), first.data);
        total := Coalesce(Get(first.data, "total"), Get(visits, "length"));
      } else if second.Success? {
        serverPaging := false;
        var all := ItemsOr(Or(Or(Get(second.data, "visits"), second.data), Arr([])), []);
        var shown, count := ClientPage(all, statusFilter, houseFilter, page, limit);
        total := Num(count);
        visits := Arr(shown);
      }
      loading := false;
    }

    /** The status select: back to page 1. */
    method SetStatusFilter(value: string)
      modifies this
      ensures statusFilter == value && page == 1 && houseFilter == old(houseFilter)
      ensures visits == old(visits) && total == old(total)
    {
      page := 1;
      statusFilter := value;
    }

    /** The house select: back to page 1. */
    method SetHouseFilter(value: string)
      modifies this
      ensures houseFilter == value && page == 1 && statusFilter == old(statusFilter)
      ensures visits == old(visits) && total == old(total)
    {
      page := 1;
      houseFilter := value;
    }

    method Prev()
      modifies this
      ensures page == PrevPage(old(page)) && page >= 1
      ensures statusFilter == old(statusFilter) && houseFilter == old(houseFilter) && total == old(total)
    {
      page := PrevPage(page);
    }

    /** Next, in either paging mode: `if (page * limit < total) setPage(p => p + 1)`. */
    method Next()
      modifies this
      ensures page == if LessThan(old(page) * limit, total) then old(page) + 1 else old(page)
      ensures total.Num? && total.n >= 0 ==> page == GuardedNext(old(page), limit, total.n)
      ensures statusFilter == old(statusFilter) && houseFilter == old(houseFilter) && total == old(total)
    {
      if total.Num? {
        LessThanNumber(page * limit, total.n);
      }
      if LessThan(page * limit, total) {
        page := page + 1;
      }
    }

    /** After a fallback load, Next never leads to a page past the filtered visits. */
    lemma NextAfterFallbackShowsVisits(all: seq<Value>)
      requires page >= 1 && total == Num(|Filtered(all, statusFilter, houseFilter)|)
      requires LessThan(page * limit, total)
      ensures Window(Filtered(all, statusFilter, houseFilter), page + 1, limit) != []
    {
      var xs := Filtered(all, statusFilter, houseFilter);
      LessThanNumber(page * limit, |xs|);
      assert Skip(page + 1, limit) < |xs|;
    }
  }

  /** `respondToVisit`: only "approve" and "decline" are ever sent. */
  method RespondToVisit(id: Value, action: string) returns (sent: Option<Value>)
    ensures sent.Some? <==> Respondable(action)
    ensures sent.Some? ==> sent.value == Obj(map["action" := Str(action)])
  {
    if !Respondable(action) {
      return None;
    }
    sent := Some(Obj(map["action" := Str(action)]));
  }
}
