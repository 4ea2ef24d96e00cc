/**
 * The "Recent Activity" panel that five dashboards repeat: a page of logs
 * fetched with `{ type, skip, limit }`, a type filter, Prev/Next buttons,
 * the CSV export of the page and the last-six-months chart.
 *
 * The panels differ only in which of the handlers below they wire up:
 * UnifiedLandlordDashboard.jsx and LandlordDashboardPage.jsx use
 * `SelectTypeFromStart`, `Next` and `LoadWithDefaults` and the quoted
 * export; landlordDash.jsx uses `SelectTypeFromStart`, `NextClamped` and
 * `LoadWithDefaults`; LandlordDashboard.jsx, ActivityLog.jsx and
 * CaretakerDashboardHome.jsx use `SelectType`, `Next` and `LoadRaw`, and
 * the first and last of them the unquoted export.
 */
module ActivityFeed {
  import opened Json
  import opened Outcomes
  import opened Text
  import Csv
  import Seqs
  import opened Pagination
  import opened JsNumber

  // ---------------------------------------------------------------------
  // The quoted export.

  /** `["Type", "House", "Tenant", "Status", "Date"]`. */
  const LogHeader: seq<string> := ["Type", "House", "Tenant", "Status", "Date"]

  /** `typeof v === "string" ? v : v?.<field> || ""`. */
  function NameOr(v: Value, field: string): (r: Value)
    ensures v.Str? ==> r == v
    ensures !v.Str? && Truthy(Get(v, field)) ==> r == Get(v, field)
    ensures !v.Str? && !Truthy(Get(v, field)) ==> r == Str("")
  {
    if v.Str? then v else Or(Get(v, field), Str(""))
  }

  /** The five cells of one log before quoting; `date` is `fmtDate(l.date)`. */
  function LogCells(l: Value, date: string): (r: seq<string>)
    ensures |r| == |LogHeader|
    ensures r[0] == ToStr(Or(Get(l, "type"), Str("")))
    ensures Get(l, "house").Str? ==> r[1] == Get(l, "house").s
    ensures !Get(l, "house").Str? && Truthy(Get(Get(l, "house"), "title")) ==> r[1] == ToStr(Get(Get(l, "house"), "title"))
    ensures !Get(l, "house").Str? && !Truthy(Get(Get(l, "house"), "title")) ==> r[1] == ""
    ensures Get(l, "tenant").Str? ==> r[2] == Get(l, "tenant").s
    ensures !Get(l, "tenant").Str? && Truthy(Get(Get(l, "tenant"), "fullName")) ==> r[2] == ToStr(Get(Get(l, "tenant"), "fullName"))
    ensures !Get(l, "tenant").Str? && !Truthy(Get(Get(l, "tenant"), "fullName")) ==> r[2] == ""
    ensures r[3] == ToStr(Or(Get(l, "status"), Str(""))) && r[4] == date
  {
    [ToStr(Or(Get(l, "type"), Str(""))),
     ToStr(NameOr(Get(l, "house"), "title")),
     ToStr(NameOr(Get(l, "tenant"), "fullName")),
     ToStr(Or(Get(l, "status"), Str(""))),
     date]
  }

  /** `logs.map(...)`: one row per log, in order. */
  function LogRows(logs: seq<Value>, fmtDate: Value -> string): (rows: seq<seq<string>>)
    ensures |rows| == |logs|
    ensures forall i :: 0 <= i < |logs| ==> rows[i] == LogCells(logs[i], fmtDate(Get(logs[i], "date")))
  {
    if logs == [] then []
    else
      var rest := LogRows(logs[1..], fmtDate);
      assert forall i :: 1 <= i < |logs| ==> logs[i] == logs[1..][i - 1];
      [LogCells(logs[0], fmtDate(Get(logs[0], "date")))] + rest
  }

  /** The header followed by one row per log, in order. */
  function LogTable(logs: seq<Value>, fmtDate: Value -> string): (rows: seq<seq<string>>)
    ensures |rows| == |logs| + 1 && rows[0] == LogHeader
    ensures forall i :: 0 <= i < |logs| ==> rows[i + 1] == LogCells(logs[i], fmtDate(Get(logs[i], "date")))
  {
    var body := LogRows(logs, fmtDate);
    Csv.HeaderThenBody(LogHeader, body);
    [LogHeader] + body
  }

  /** `exportLogs` of UnifiedLandlordDashboard.jsx and LandlordDashboardPage.jsx: every cell quoted. */
  function ExportQuoted(logs: Value, fmtDate: Value -> string): string {
    Csv.QuotedDocument(LogTable(ItemsOr(Or(logs, Arr([])), []), fmtDate))
  }

  /**
   * Whatever the logs contain, an RFC 4180 reader gets back the header and
   * one five-cell row per log, cell for cell.
   */
  lemma QuotedExportReadsBack(logs: Value, fmtDate: Value -> string)
    ensures Csv.ParseDocument(ExportQuoted(logs, fmtDate)) == Some(LogTable(ItemsOr(Or(logs, Arr([])), []), fmtDate))
    ensures forall row :: row in LogTable(ItemsOr(Or(logs, Arr([])), []), fmtDate) ==> |row| == 5
  {
    var t := LogTable(ItemsOr(Or(logs, Arr([])), []), fmtDate);
    forall k | 0 <= k < |t| ensures |t[k]| == 5 {
      if k > 0 {
        assert |t[k]| == |LogHeader|;
      }
    }
    Csv.DocumentRoundTrip(t);
  }

  // ---------------------------------------------------------------------
  // The unquoted export.

  /** `[l.type, l.house, l.<person>, l.status, date]` as `join` renders it. */
  function PlainCells(l: Value, person: string, date: string): (r: seq<string>)
    ensures |r| == 5
    ensures r[0] == JoinCell(Get(l, "type")) && r[1] == JoinCell(Get(l, "house"))
    ensures r[2] == JoinCell(Get(l, person)) && r[3] == JoinCell(Get(l, "status")) && r[4] == date
  {
    [JoinCell(Get(l, "type")), JoinCell(Get(l, "house")), JoinCell(Get(l, person)), JoinCell(Get(l, "status")), date]
  }

  /** The rows of the unquoted export: the given header, then one row per log. */
  function PlainTable(header: seq<string>, person: string, logs: seq<Value>, fmtDate: Value -> string): (rows: seq<seq<string>>)
    ensures |rows| == |logs| + 1 && rows[0] == header
    ensures forall i :: 0 <= i < |logs| ==> rows[i + 1] == PlainCells(logs[i], person, fmtDate(Get(logs[i], "date")))
  {
    var body := seq(|logs|, i requires 0 <= i < |logs| => PlainCells(logs[i], person, fmtDate(Get(logs[i], "date"))));
    assert forall i :: 0 <= i < |logs| ==> ([header] + body)[i + 1] == body[i];
    [header] + body
  }

  /**
   * `exportLogs` of LandlordDashboard.jsx (header "Tenant", key `tenant`)
   * and CaretakerDashboardHome.jsx (header "Tenant/Landlord", key `person`).
   */
  function ExportPlain(header: seq<string>, person: string, logs: seq<Value>, fmtDate: Value -> string): string {
    Csv.UnquotedDocument(PlainTable(header, person, logs, fmtDate))
  }

  /** Each record of the unquoted export has five columns plus one per comma in its cells. */
  lemma PlainRecordColumns(header: seq<string>, person: string, logs: seq<Value>, fmtDate: Value -> string, i: nat)
    requires i < |logs|
    ensures var rows := PlainTable(header, person, logs, fmtDate);
      Csv.ColumnCount(Csv.UnquotedRecords(rows)[i + 1]) == 5 + CountAll(rows[i + 1], ',')
  {
    Csv.UnquotedColumns(PlainTable(header, person, logs, fmtDate)[i + 1]);
  }

  /** A house named "A, B" turns a five-column row into a six-column one. */
  lemma CommaInHouseShiftsColumns(l: Value, person: string, date: string)
    requires Get(l, "house") == Str("A, B")
    requires forall k :: 0 <= k < 5 && k != 1 ==> ',' !in PlainCells(l, person, date)[k]
    ensures Csv.ColumnCount(Csv.UnquotedRecord(PlainCells(l, person, date))) == 6
  {
    var cells := PlainCells(l, person, date);
    Csv.UnquotedColumns(cells);
    assert cells[1] == "A, B";
    assert Count("A, B", ',') == 1;
    Text.CountZeroIffAbsent(cells[0], ',');
    Text.CountZeroIffAbsent(cells[2], ',');
    Text.CountZeroIffAbsent(cells[3], ',');
    Text.CountZeroIffAbsent(cells[4], ',');
    assert CountAll(cells, ',') == Count(cells[0], ',') + CountAll(cells[1..], ',');
    assert CountAll(cells[1..], ',') == Count(cells[1], ',') + CountAll(cells[2..], ',');
    assert CountAll(cells[2..], ',') == Count(cells[2], ',') + CountAll(cells[3..], ',');
    assert CountAll(cells[3..], ',') == Count(cells[3], ',') + CountAll(cells[4..], ',');
    assert CountAll(cells[4..], ',') == Count(cells[4], ',') + CountAll(cells[5..], ',');
    assert cells[5..] == [];
  }

  // ---------------------------------------------------------------------
  // The chart.

  /**
   * `Object.entries(monthlyData).map(...).slice(-6)`: the last six entries
   * (all of them when there are fewer), in their original order. `entries`
   * is `Object.entries(monthlyData)`.
   */
  function ChartData(entries: seq<(string, Value)>): (r: seq<(string, Value)>)
    ensures |r| == if |entries| < 6 then |entries| else 6
    ensures forall i :: 0 <= i < |r| ==> r[i] == entries[|entries| - |r| + i]
  {
    var r := Seqs.LastN(entries, 6);
    assert entries == entries[..|entries| - |r|] + r;
    assert forall i :: 0 <= i < |r| ==> r[i] == (entries[..|entries| - |r|] + r)[|entries| - |r| + i];
    r
  }

  // ---------------------------------------------------------------------
  // The panel's state.

  /** `Math.ceil(x)` of an exact value: the least integer not below it. */
  function Ceil(x: real): (c: int)
    ensures (c - 1) as real < x <= c as real
  {
    if x.Floor as real == x then x.Floor else x.Floor + 1
  }

  /** An integer strictly below `x` and one at or above it pin `Ceil(x)`. */
  lemma CeilUnique(x: real, q: int)
    requires (q - 1) as real < x <= q as real
    ensures Ceil(x) == q
  {
  }

  /**
   * `totalPages = Math.ceil(total / limit)`, `total` converted as the
   * division does: NaN and the infinities pass through.
   */
  function PagesOf(total: Value, limit: nat): (r: Number)
    requires limit > 0
    ensures !ToNumber(total).Finite? ==> r == ToNumber(total)
    ensures ToNumber(total).Finite? ==> r.Finite? && r.value == Ceil(ToNumber(total).value / (limit as real)) as real
  {
    match ToNumber(total)
    case Finite(v) => Finite(Ceil(v / (limit as real)) as real)
    case other => other
  }

  /** For a count of records, `totalPages` is the least number of pages that hold them. */
  lemma PagesOfCount(n: nat, limit: nat)
    requires limit > 0
    ensures PagesOf(Num(n), limit) == Finite(TotalPages(n, limit) as real)
  {
    var q := TotalPages(n, limit);
    assert q == CeilDiv(n, limit);
    CeilOfRatio(n, limit, q);
  }

  /** `q` with `(q - 1) * limit < n <= q * limit` is `Math.ceil(n / limit)`. */
  lemma CeilOfRatio(n: nat, limit: nat, q: int)
    requires limit > 0
    requires (n == 0 && q == 0) || (q - 1) * limit < n <= q * limit
    ensures Ceil((n as real) / (limit as real)) == q
  {
    var x := (n as real) / (limit as real);
    if n == 0 {
      CeilUnique(x, 0);
    } else {
      RatioAbove(q - 1, n, limit);
      RatioAtMost(q, n, limit);
      CeilUnique(x, q);
    }
  }

  /** `a * limit < n` puts `a` below `n / limit`. */
  lemma RatioAbove(a: int, n: int, limit: nat)
    requires limit > 0 && a * limit < n
    ensures (a as real) < (n as real) / (limit as real)
  {
    var c := limit as real;
    var x := (n as real) / c;
    assert x * c == n as real;
    MulAsReal(a, limit);
    if x <= a as real {
      MulMonoReal(x, a as real, c);
    }
  }

  /** `n <= b * limit` puts `n / limit` at or below `b`. */
  lemma RatioAtMost(b: int, n: int, limit: nat)
    requires limit > 0 && n <= b * limit
    ensures (n as real) / (limit as real) <= b as real
  {
    var c := limit as real;
    var x := (n as real) / c;
    assert x * c == n as real;
    MulAsReal(b, limit);
    if x > b as real {
      MulStrictReal(b as real, x, c);
    }
  }

  lemma MulAsReal(a: int, b: int)
    ensures (a * b) as real == (a as real) * (b as real)
  {
  }

  lemma MulMonoReal(a: real, b: real, c: real)
    requires a <= b && c > 0.0
    ensures a * c <= b * c
  {
  }

  lemma MulStrictReal(a: real, b: real, c: real)
    requires a < b && c > 0.0
    ensures a * c < b * c
  {
  }

  /** A count sent as its decimal string, "20" for 20, gives the same number of pages. */
  lemma PagesOfNumeral(n: nat, limit: nat)
    requires limit > 0
    ensures PagesOf(Str(NumToStr(n)), limit) == PagesOf(Num(n), limit)
  {
    NumberOfNumToStr(n);
    assert ToNumber(Str(NumToStr(n))) == Finite(n as real);
  }

  /** `totalPages > 1`: the Prev/Next controls of landlordDash.jsx are rendered. */
  predicate MoreThanOnePage(pages: Number) {
    match pages
    case NaN => false
    case Infinite(negative) => !negative
    case Finite(v) => v > 1.0
  }

  /** Whether `res.data.<field>` throws: a body of `null` or `undefined`. */
  predicate NoBody(response: Outcome<Value>) {
    response.Success? && Nullish(response.data)
  }

  class LogFeed {
    var page: int
    var logType: string
    var logs: Value
    var total: Value
    const limit: nat

    constructor (limit: nat)
      requires limit > 0
      ensures this.limit == limit && page == 1 && logType == "" && logs == Arr([]) && total == Num(0)
    {
      this.limit := limit;
      page := 1;
      logType := "";
      logs := Arr([]);
      total := Num(0);
    }

    /** The query of `fetchLogs`: `{ type, skip, limit }`. */
    function Query(): (q: (string, int, nat))
      reads this
      ensures q.0 == logType && q.1 + limit == page * limit && q.2 == limit
    {
      (logType, Skip(page, limit), limit)
    }

    /** Prev: `setPage(p => Math.max(p - 1, 1))`. */
    method Prev()
      modifies this
      ensures page == PrevPage(old(page)) && page >= 1
      ensures logType == old(logType) && logs == old(logs) && total == old(total)
    {
      page := PrevPage(page);
    }

    /**
     * Next: `if (page * limit < total) setPage(p => p + 1)`. The comparison
     * converts `total` with `Number`: "20" counts as 20, `undefined` as NaN.
     */
    method Next()
      modifies this
      ensures page == if LessThan(old(page) * limit, old(total)) then old(page) + 1 else old(page)
      ensures old(total).Num? && old(total).n >= 0 ==> page == GuardedNext(old(page), limit, old(total).n)
      ensures logType == old(logType) && logs == old(logs) && total == old(total)
    {
      if total.Num? {
        LessThanNumber(page * limit, total.n);
      }
      if LessThan(page * limit, total) {
        page := page + 1;
      }
    }

    /**
     * Next in landlordDash.jsx: `setPage(p => Math.min(p + 1, totalPages))`.
     * The button is rendered only while `totalPages > 1`.
     */
    method NextClamped()
      requires limit > 0 && MoreThanOnePage(PagesOf(total, limit))
      modifies this
      ensures PagesOf(total, limit).Finite? ==> page == ClampedNext(old(page), PagesOf(total, limit).value.Floor)
      ensures PagesOf(total, limit).Infinite? ==> page == old(page) + 1
      ensures total.Num? && total.n >= 0 ==> page == ClampedNext(old(page), TotalPages(total.n, limit))
      ensures logType == old(logType) && logs == old(logs) && total == old(total)
    {
      if total.Num? && total.n >= 0 {
        PagesOfCount(total.n, limit);
      }
      var pages := PagesOf(total, limit);
      if pages.Finite? {
        page := ClampedNext(page, pages.value.Floor);
      } else {
        page := page + 1;
      }
    }

    /** A type button that only sets the type: the page number stays. */
    method SelectType(t: string)
      modifies this
      ensures logType == t && page == old(page) && logs == old(logs) && total == old(total)
    {
      logType := t;
    }

    /** A type button or select that also goes back to the first page. */
    method SelectTypeFromStart(t: string)
      modifies this
      ensures logType == t && page == 1 && logs == old(logs) && total == old(total)
    {
      logType := t;
      page := 1;
    }

    /**
     * `fetchLogs` with fallbacks: `logs || []` and `total || 0` on success,
     * so a string or negative total is kept; an empty page on failure and
     * when a missing body makes `res.data.logs` throw.
     */
    method LoadWithDefaults(response: Outcome<Value>)
      modifies this
      ensures response.Success? && !NoBody(response) ==>
        logs == Or(Get(response.data, "logs"), Arr([])) && total == Or(Get(response.data, "total"), Num(0))
      ensures response.Failure? || NoBody(response) ==> logs == Arr([]) && total == Num(0)
      ensures Truthy(logs) && page == old(page) && logType == old(logType)
    {
      if response.Success? && !Nullish(response.data) {
        logs := Or(Get(response.data, "logs"), Arr([]));
        total := Or(Get(response.data, "total"), Num(0));
      } else {
        logs := Arr([]);
        total := Num(0);
      }
    }

    /**
     * `fetchLogs` without fallbacks: the fields as sent, `undefined`
     * included; a failure, or a missing body that makes `res.data.logs`
     * throw, changes nothing.
     */
    method LoadRaw(response: Outcome<Value>)
      modifies this
      ensures response.Success? && !NoBody(response) ==> logs == Get(response.data, "logs") && total == Get(response.data, "total")
      ensures response.Failure? || NoBody(response) ==> logs == old(logs) && total == old(total)
      ensures page == old(page) && logType == old(logType)
    {
      if response.Success? && !Nullish(response.data) {
        logs := Get(response.data, "logs");
        total := Get(response.data, "total");
      }
    }
  }
}
