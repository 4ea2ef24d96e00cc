/**
 * The landlord dashboard's summary object: how a response is turned into
 * `stats` (with defaults for missing parts), how a failed fetch fills the
 * gaps of what is already known, and the defaulter and house counts that
 * later requests write into it. Shared by UnifiedLandlordDashboard.jsx,
 * LandlordDashboardPage.jsx and landlordDash.jsx, which repeat the same
 * expressions.
 */
module LandlordStats {
  import opened Json
  import opened Outcomes

  /** `{ total: 0, occupied: 0, vacant: 0 }`. */
  const NoHouses: Value := Obj(map["total" := Num(0), "occupied" := Num(0), "vacant" := Num(0)])

  /** `{ pending: 0, inProgress: 0, completed: 0, thisMonthCount: 0, monthlyData: {} }`. */
  const NoMaintenance: Value := Obj(map["pending" := Num(0), "inProgress" := Num(0), "completed" := Num(0),
                                        "thisMonthCount" := Num(0), "monthlyData" := Obj(map[])])

  /** The top-level counters, each defaulted with `?? 0`. */
  const Counters: set<string> := {"tenants", "caretakers", "visits", "relocations", "defaulters", "monthlyEarnings", "activeAgreements"}

  /** The maintenance counters, each defaulted with `|| 0`. */
  const MaintenanceCounters: set<string> := {"pending", "inProgress", "completed", "thisMonthCount"}

  /** The maintenance part of a fresh summary: every counter `m?.k || 0`, `monthlyData || {}`. */
  function MaintenanceSummary(m: Value): (r: Value)
    ensures r.Obj? && r.fields.Keys == MaintenanceCounters + {"monthlyData"}
    ensures forall k :: k in MaintenanceCounters ==> r.fields[k] == (if Truthy(Get(m, k)) then Get(m, k) else Num(0))
    ensures Truthy(r.fields["monthlyData"])
  {
    Obj(map k | k in MaintenanceCounters + {"monthlyData"} ::
      if k == "monthlyData" then Or(Get(m, k), Obj(map[])) else Or(Get(m, k), Num(0)))
  }

  /**
   * The summary built from `base = res.data || {}` (landlordDash.jsx):
   * `houses` and `rentDue` defaulted with `||`, the counters with `??`.
   */
  function Summary(base: Value): (r: map<string, Value>)
    ensures r.Keys == Counters + {"houses", "maintenance", "rentDue"}
    ensures forall k :: k in Counters ==> r[k] == (if Nullish(Get(base, k)) then Num(0) else Get(base, k))
    ensures r["houses"] == (if Truthy(Get(base, "houses")) then Get(base, "houses") else NoHouses)
    ensures r["maintenance"] == MaintenanceSummary(Get(base, "maintenance"))
    ensures r["rentDue"] == (if Truthy(Get(base, "rentDue")) then Get(base, "rentDue") else Arr([]))
  {
    var r := map k | k in Counters + {"houses", "maintenance", "rentDue"} :: SummaryField(base, k);
    NonCounters();
    r
  }

  /** One field of the summary. */
  function SummaryField(base: Value, k: string): Value {
    if k in Counters then Coalesce(Get(base, k), Num(0))
    else if k == "houses" then Or(Get(base, k), NoHouses)
    else if k == "maintenance" then MaintenanceSummary(Get(base, k))
    else Or(Get(base, k), Arr([]))
  }

  /** The object-valued keys are not counters. */
  lemma NonCounters()
    ensures "houses" !in Counters && "maintenance" !in Counters && "rentDue" !in Counters && "pendingMaintenance" !in Counters
    ensures "pendingMaintenance" !in {"houses", "maintenance", "rentDue"}
  {
  }

  /** The same summary plus `pendingMaintenance: base?.maintenance?.pending ?? 0` (the two other dashboards). */
  function SummaryWithPending(base: Value): (r: map<string, Value>)
    ensures r.Keys == Summary(base).Keys + {"pendingMaintenance"}
    ensures forall k :: k in Summary(base) ==> r[k] == Summary(base)[k]
    ensures r["pendingMaintenance"] == Coalesce(Get(Get(base, "maintenance"), "pending"), Num(0))
  {
    Summary(base)["pendingMaintenance" := Coalesce(Get(Get(base, "maintenance"), "pending"), Num(0))]
  }

  /** `res.data || {}`. */
  function Base(data: Value): Value {
    Or(data, Obj(map[]))
  }

  /** `setStats({...})` on success in UnifiedLandlordDashboard.jsx: the summary alone. */
  function FreshStats(data: Value): (r: Value)
    ensures r.Obj? && r.fields == SummaryWithPending(Base(data))
  {
    Obj(SummaryWithPending(Base(data)))
  }

  /** `setStats({...})` on success in landlordDash.jsx, which has no `pendingMaintenance`. */
  function FreshStatsNoPending(data: Value): (r: Value)
    ensures r.Obj? && r.fields == Summary(Base(data)) && "pendingMaintenance" !in r.fields
  {
    NonCounters();
    Obj(Summary(Base(data)))
  }

  /**
   * `setStats(prev => ({...prev, ...base, <summary>}))` on success in
   * LandlordDashboardPage.jsx: the summary wins, then the response, then
   * whatever was there before.
   */
  function MergeSuccess(prev: Value, data: Value): (r: Value)
    ensures r.Obj?
    ensures forall k :: k in SummaryWithPending(Base(data)) ==> k in r.fields && r.fields[k] == SummaryWithPending(Base(data))[k]
    ensures forall k :: k !in SummaryWithPending(Base(data)) && k in Fields(Base(data)) ==> k in r.fields && r.fields[k] == Fields(Base(data))[k]
    ensures forall k :: k !in SummaryWithPending(Base(data)) && k !in Fields(Base(data)) ==> (k in r.fields <==> k in Fields(prev))
    ensures forall k :: k !in SummaryWithPending(Base(data)) && k !in Fields(Base(data)) && k in Fields(prev) ==> r.fields[k] == Fields(prev)[k]
  {
    Spread(Spread(prev, Base(data)), Obj(SummaryWithPending(Base(data))))
  }

  /** Every key a summary holds, which the failure path also fills. */
  const SummaryKeys: set<string> := Counters + {"houses", "maintenance", "rentDue", "pendingMaintenance"}

  /** The keys the failure path defaults with `||`; the rest of `SummaryKeys` use `?? 0`. */
  const ObjectKeys: set<string> := {"houses", "maintenance", "rentDue"}

  /** The `||` fallback of an object-valued key. */
  function OrDefault(k: string): (r: Value)
    ensures Truthy(r)
  {
    if k == "houses" then NoHouses else if k == "maintenance" then NoMaintenance else Arr([])
  }

  /** One field written by the failure path. */
  function FailureField(prev: Value, k: string): (r: Value)
    ensures k in ObjectKeys ==> Truthy(r)
    ensures k !in ObjectKeys ==> !Nullish(r)
  {
    if k in ObjectKeys then Or(Get(prev, k), OrDefault(k)) else Coalesce(Get(prev, k), Num(0))
  }

  /**
   * The failure path of LandlordDashboardPage.jsx: `{...prev, houses:
   * prev?.houses || …, maintenance: prev?.maintenance || …, <counter>:
   * prev?.<counter> ?? 0, pendingMaintenance: … ?? 0, rentDue: prev?.rentDue || []}`.
   */
  function MergeFailure(prev: Value): (r: Value)
    ensures r.Obj? && r.fields.Keys == Fields(prev).Keys + SummaryKeys
    ensures forall k :: k in SummaryKeys ==> r.fields[k] == FailureField(prev, k)
    ensures forall k :: k in Fields(prev) && k !in SummaryKeys ==> r.fields[k] == Fields(prev)[k]
  {
    Spread(prev, Obj(map k | k in SummaryKeys :: FailureField(prev, k)))
  }

  /**
   * A failed fetch keeps every value that was already known: a truthy
   * `houses`, `maintenance` or `rentDue`, any non-nullish counter, and every
   * other field; only the gaps are filled.
   */
  lemma FailureKeepsKnown(prev: Value, k: string)
    requires k in Fields(prev)
    requires k in ObjectKeys ==> Truthy(Fields(prev)[k])
    requires k in SummaryKeys && k !in ObjectKeys ==> !Nullish(Fields(prev)[k])
    ensures MergeFailure(prev).fields[k] == Fields(prev)[k]
  {
  }

  /** A gap in a counter becomes 0 and a gap in the objects becomes its empty default. */
  lemma FailureFillsGaps(prev: Value, k: string)
    requires k in SummaryKeys
    requires k !in Fields(prev)
    ensures MergeFailure(prev).fields[k] == if k in ObjectKeys then OrDefault(k) else Num(0)
  {
    assert Get(prev, k) == Undefined;
    assert MergeFailure(prev).fields[k] == FailureField(prev, k);
  }

  /** Failing twice is the same as failing once. */
  lemma FailureIdempotent(prev: Value)
    ensures MergeFailure(MergeFailure(prev)) == MergeFailure(prev)
  {
    var once := MergeFailure(prev);
    var twice := MergeFailure(once);
    assert Fields(once) == once.fields;
    assert SummaryKeys <= once.fields.Keys;
    assert twice.fields.Keys == once.fields.Keys;
    forall k | k in twice.fields ensures twice.fields[k] == once.fields[k] {
      if k in SummaryKeys {
        FailureFieldStable(prev, k);
      } else {
        assert twice.fields[k] == Fields(once)[k];
      }
    }
    assert twice.fields == once.fields;
  }

  /** A field the failure path wrote is already filled, so a second failure keeps it. */
  lemma FailureFieldStable(prev: Value, k: string)
    requires k in SummaryKeys
    ensures FailureField(MergeFailure(prev), k) == MergeFailure(prev).fields[k]
  {
    var v := MergeFailure(prev).fields[k];
    assert Get(MergeFailure(prev), k) == v;
  }

  /**
   * The two defaults differ: a maintenance `pending` of "" becomes 0 in the
   * maintenance block (`||`) but is copied as "" into `pendingMaintenance` (`??`).
   */
  lemma PendingDefaultsDiffer(base: Value)
    requires Get(Get(base, "maintenance"), "pending") == Str("")
    ensures SummaryWithPending(base)["maintenance"].fields["pending"] == Num(0)
    ensures SummaryWithPending(base)["pendingMaintenance"] == Str("")
  {
  }

  /** `res.data?.count ?? list.length ?? 0` with `list = res.data?.defaulters || []` (LandlordDashboardPage.jsx). */
  function DefaulterCount(data: Value): (r: Value)
    ensures !Nullish(Get(data, "count")) ==> r == Get(data, "count")
    ensures Nullish(Get(data, "count")) && Get(data, "defaulters").Arr? ==> r == Num(|Get(data, "defaulters").items|)
    ensures Nullish(Get(data, "count")) && !Truthy(Get(data, "defaulters")) ==> r == Num(0)
  {
    var list := Or(Get(data, "defaulters"), Arr([]));
    Coalesce(Coalesce(Get(data, "count"), Get(list, "length")), Num(0))
  }

  /** `res.data?.count ?? res.data?.defaulters?.length ?? 0` (the other two dashboards). */
  function DefaulterCountDirect(data: Value): Value {
    Coalesce(Coalesce(Get(data, "count"), Get(Get(data, "defaulters"), "length")), Num(0))
  }

  /** The `|| []` makes no difference: every falsy list has no length either. */
  lemma DefaulterCountsAgree(data: Value)
    ensures DefaulterCount(data) == DefaulterCountDirect(data)
  {
  }

  /** `setStats(prev => ({...(prev || {}), defaulters: count}))`. */
  function WithDefaulters(prev: Value, count: Value): (r: Value)
    ensures r.Obj? && r.fields == Fields(prev)["defaulters" := count]
  {
    Spread(Or(prev, Obj(map[])), Obj(map["defaulters" := count]))
  }

  /** `Array.isArray(res.data) ? res.data.length : (res.data?.length ?? 0)`. */
  function HouseCount(data: Value): (r: Value)
    ensures data.Arr? ==> r == Num(|data.items|)
    ensures Nullish(Get(data, "length")) ==> r == Num(0)
  {
    if data.Arr? then Num(|data.items|) else Coalesce(Get(data, "length"), Num(0))
  }

  /** Whether `fetchHouseCount` asks at all: only when `stats?.houses?.total` is falsy. */
  predicate NeedsHouseCount(stats: Value) {
    !Truthy(Get(Get(stats, "houses"), "total"))
  }

  /** `{...(houses || {}), total: count, occupied: houses?.occupied ?? 0, vacant: houses?.vacant ?? 0}`. */
  function HousesWithTotal(houses: Value, count: Value): (h: Value)
    ensures h.Obj? && h.fields.Keys == Fields(houses).Keys + {"total", "occupied", "vacant"}
    ensures h.fields["total"] == count
    ensures h.fields["occupied"] == Coalesce(Get(houses, "occupied"), Num(0))
    ensures h.fields["vacant"] == Coalesce(Get(houses, "vacant"), Num(0))
    ensures forall k :: k in Fields(houses) && k !in {"total", "occupied", "vacant"} ==> h.fields[k] == Fields(houses)[k]
  {
    Spread(Or(houses, Obj(map[])), Obj(map["total" := count,
      "occupied" := Coalesce(Get(houses, "occupied"), Num(0)), "vacant" := Coalesce(Get(houses, "vacant"), Num(0))]))
  }

  /** `fetchHouseCount`'s update: only `houses` changes, to the old houses object with the new total. */
  function WithHouseCount(prev: Value, data: Value): (r: Value)
    ensures r.Obj? && r.fields.Keys == Fields(prev).Keys + {"houses"}
    ensures forall k :: k in Fields(prev) && k != "houses" ==> r.fields[k] == Fields(prev)[k]
    ensures r.fields["houses"] == HousesWithTotal(Get(prev, "houses"), HouseCount(data))
  {
    Spread(Or(prev, Obj(map[])), Obj(map["houses" := HousesWithTotal(Get(prev, "houses"), HouseCount(data))]))
  }

  /** `fetchHouseCount` as a whole: skipped when the total is known, unchanged on failure. */
  function FetchHouseCount(stats: Value, response: Outcome<Value>): (r: Value)
    ensures !NeedsHouseCount(stats) || response.Failure? ==> r == stats
  {
    if !NeedsHouseCount(stats) then stats
    else match response
      case Success(data) => WithHouseCount(stats, data)
      case Failure => stats
  }

  /** After a successful count the total is the count, which is never re-fetched once truthy. */
  lemma HouseCountSettles(stats: Value, data: Value, again: Outcome<Value>)
    requires NeedsHouseCount(stats) && data.Arr? && |data.items| > 0
    ensures var s := FetchHouseCount(stats, Success(data));
      Get(Get(s, "houses"), "total") == Num(|data.items|) && FetchHouseCount(s, again) == s
  {
  }

  /** The summary state of a landlord dashboard and the defaulter list beside it. */
  class StatsCell {
    var stats: Value
    var defaulters: Value

    constructor ()
      ensures stats == Null && defaulters == Arr([])
    {
      stats := Null;
      defaulters := Arr([]);
    }

    /** `fetchDashboardStats` of UnifiedLandlordDashboard.jsx: replace on success, keep on failure. */
    method RefreshFresh(response: Outcome<Value>)
      modifies this
      ensures stats == (if response.Success? then FreshStats(response.data) else old(stats))
      ensures defaulters == old(defaulters)
    {
      if response.Success? {
        stats := FreshStats(response.data);
      }
    }

    /** `fetchDashboardStats` of landlordDash.jsx: the same without `pendingMaintenance`. */
    method RefreshFreshNoPending(response: Outcome<Value>)
      modifies this
      ensures stats == (if response.Success? then FreshStatsNoPending(response.data) else old(stats))
      ensures defaulters == old(defaulters)
    {
      if response.Success? {
        stats := FreshStatsNoPending(response.data);
      }
    }

    /** `fetchDashboardStats` of LandlordDashboardPage.jsx: merge on success, fill gaps on failure. */
    method RefreshMerging(response: Outcome<Value>)
      modifies this
      ensures stats == (if response.Success? then MergeSuccess(old(stats), response.data) else MergeFailure(old(stats)))
      ensures defaulters == old(defaulters)
    {
      match response {
        case Success(data) => stats := MergeSuccess(stats, data);
        case Failure => stats := MergeFailure(stats);
      }
    }

    /**
     * `fetchDefaulters`: on success the list is `res.data?.defaulters || []`
     * and `stats.defaulters` the count; a failure changes nothing.
     */
    method LoadDefaulters(response: Outcome<Value>)
      modifies this
      ensures response.Success? ==> defaulters == Or(Get(response.data, "defaulters"), Arr([]))
      ensures response.Success? ==> stats == WithDefaulters(old(stats), DefaulterCount(response.data))
      ensures response.Failure? ==> stats == old(stats) && defaulters == old(defaulters)
    {
      if response.Success? {
        defaulters := Or(Get(response.data, "defaulters"), Arr([]));
        stats := WithDefaulters(stats, DefaulterCount(response.data));
      }
    }

    /** `fetchHouseCount`. */
    method LoadHouseCount(response: Outcome<Value>)
      modifies this
      ensures stats == FetchHouseCount(old(stats), response) && defaulters == old(defaulters)
    {
      stats := FetchHouseCount(stats, response);
    }
  }

  /** The per-row "remind" button. */
  class ReminderButton {
    var loadingNotifyId: Value

    constructor ()
      ensures loadingNotifyId == Null
    {
      loadingNotifyId := Null;
    }

    /**
     * `sendReminder`: a falsy tenant id does nothing; otherwise the primary
     * endpoint is tried, then the fallback one, and `loadingNotifyId` ends
     * `null` whatever happened.
     */
    method SendReminder(tenantId: Value, primary: Outcome<()>, fallback: Outcome<()>) returns (attempted: bool, delivered: bool)
      modifies this
      ensures attempted <==> Truthy(tenantId)
      ensures !attempted ==> loadingNotifyId == old(loadingNotifyId) && !delivered
      ensures attempted ==> loadingNotifyId == Null && (delivered <==> primary.Success? || fallback.Success?)
    {
      if !Truthy(tenantId) {
        return false, false;
      }
      attempted := true;
      loadingNotifyId := tenantId;
      delivered := primary.Success? || fallback.Success?;
      loadingNotifyId := Null;
    }
  }
}
