/**
 * The landlord's tenant table: the name search, the add-tenant form, the
 * Expired/Active status of a lease and the unquoted CSV export.
 */
module TenantManagement {
  import opened Json
  import opened Outcomes
  import opened Text
  import Seqs
  import Csv

  // ---------------------------------------------------------------------
  // The search.

  /** `t.tenantId?.fullName`. */
  function NameOf(t: Value): Value {
    Get(Get(t, "tenantId"), "fullName")
  }

  /**
   * `t.tenantId?.fullName?.toLowerCase().includes(search.toLowerCase())`:
   * a tenant without a name gives `undefined`, which the filter drops.
   */
  predicate Keep(t: Value, search: string) {
    NameOf(t).Str? && Contains(Lower(NameOf(t).s), Lower(search))
  }

  /** `filteredTenants`. */
  function Filtered(tenants: seq<Value>, search: string): (r: seq<Value>)
    ensures |r| <= |tenants|
    ensures forall t :: t in r <==> t in tenants && Keep(t, search)
  {
    Seqs.Filter(tenants, (t: Value) => Keep(t, search))
  }

  /** The search keeps the table's order: it only leaves rows out. */
  lemma FilteredKeepsOrder(tenants: seq<Value>, search: string)
    ensures Seqs.IsSublist(Filtered(tenants, search), tenants)
  {
    Seqs.FilterIsSublist(tenants, (t: Value) => Keep(t, search));
  }

  /**
   * An empty search keeps exactly the tenants that have a name; a tenant
   * without one is hidden whatever is typed.
   */
  lemma EmptySearch(tenants: seq<Value>)
    ensures forall t :: t in Filtered(tenants, "") <==> t in tenants && NameOf(t).Str?
  {
    forall t | t in tenants && NameOf(t).Str? ensures Keep(t, "") {
      ContainsEmptyAndSelf(Lower(NameOf(t).s));
    }
  }

  lemma LowerTwice(s: string)
    ensures Lower(Lower(s)) == Lower(s)
  {
    forall i | 0 <= i < |s| ensures Lower(Lower(s))[i] == Lower(s)[i] {
      assert !IsUpper(LowerChar(s[i]));
    }
  }

  /** The search ignores the case of what is typed. */
  lemma SearchIgnoresCase(tenants: seq<Value>, search: string)
    ensures Filtered(tenants, Lower(search)) == Filtered(tenants, search)
  {
    LowerTwice(search);
    Seqs.FilterExt(tenants, (t: Value) => Keep(t, Lower(search)), (t: Value) => Keep(t, search));
  }

  /** Lower-casing works character by character, so it splits over concatenation. */
  lemma LowerConcat(a: string, b: string)
    ensures Lower(a + b) == Lower(a) + Lower(b)
  {
    assert forall i :: 0 <= i < |a + b| ==> Lower(a + b)[i] == (Lower(a) + Lower(b))[i];
  }

  /** Typing more characters never brings back a tenant the shorter search hid. */
  lemma LongerSearchNarrows(tenants: seq<Value>, search: string, more: string)
    ensures forall t :: t in Filtered(tenants, search + more) ==> t in Filtered(tenants, search)
  {
    LowerConcat(search, more);
    forall t | t in tenants && Keep(t, search + more) ensures Keep(t, search) {
      var name := Lower(NameOf(t).s);
      var i :| 0 <= i <= |name| - |Lower(search) + Lower(more)| && OccursAt(name, Lower(search) + Lower(more), i);
      assert name[i..i + |Lower(search)|] == (Lower(search) + Lower(more))[..|Lower(search)|];
      assert OccursAt(name, Lower(search), i);
    }
  }

  // ---------------------------------------------------------------------
  // Lease status and the export.

  datatype LeaseStatus = Active | Expired

  /**
   * `new Date(ag.leaseEnd) < new Date()`: `end` is the parsed lease end in
   * milliseconds, `None` for an invalid date, which never compares below
   * anything and so reads as Active. In the table and the export the same
   * date is first passed to `format`, which throws on an invalid date, so
   * there an invalid lease end yields no row at all (TenantCells).
   */
  function StatusOf(end: Option<int>, now: int): (s: LeaseStatus)
    ensures s == Expired <==> end.Some? && end.value < now
  {
    if end.Some? && end.value < now then Expired else Active
  }

  /** A lease that has expired stays expired at every later instant. */
  lemma ExpiryIsFinal(end: Option<int>, earlier: int, now: int)
    requires earlier <= now
    ensures StatusOf(end, earlier) == Expired ==> StatusOf(end, now) == Expired
  {
  }

  function StatusText(s: LeaseStatus): string {
    match s
    case Active => "Active"
    case Expired => "Expired"
  }

  const TenantHeader: seq<string> := ["Name", "Email", "Phone", "House", "Lease Start", "Lease End", "Status"]

  /**
   * The seven cells of one tenant, as `Array.prototype.join` renders them:
   * a missing name, email or phone becomes "", a missing house "N/A".
   * `fmt` is date-fns `format(new Date(v), "dd MMM yyyy")`, `None` where it
   * throws on an invalid date; `parse` reads the lease end.
   */
  function TenantCells(t: Value, fmt: Value -> Option<string>, parse: Value -> Option<int>, now: int): (cells: Option<seq<string>>)
    ensures cells.Some? <==> fmt(Get(t, "leaseStart")).Some? && fmt(Get(t, "leaseEnd")).Some?
    ensures cells.Some? ==> |cells.value| == |TenantHeader|
    ensures cells.Some? && Nullish(NameOf(t)) ==> cells.value[0] == ""
    ensures cells.Some? && NameOf(t).Str? ==> cells.value[0] == NameOf(t).s
    ensures cells.Some? ==> cells.value[1] == JoinCell(Get(Get(t, "tenantId"), "email"))
    ensures cells.Some? ==> cells.value[2] == JoinCell(Get(Get(t, "tenantId"), "phone"))
    ensures cells.Some? && !Truthy(Get(Get(t, "houseId"), "title")) ==> cells.value[3] == "N/A"
    ensures cells.Some? && Truthy(Get(Get(t, "houseId"), "title")) ==> cells.value[3] == JoinCell(Get(Get(t, "houseId"), "title"))
    ensures cells.Some? ==> cells.value[4] == fmt(Get(t, "leaseStart")).value && cells.value[5] == fmt(Get(t, "leaseEnd")).value
    ensures cells.Some? ==> cells.value[6] == StatusText(StatusOf(parse(Get(t, "leaseEnd")), now))
    ensures cells.Some? ==> (cells.value[6] == "Expired" <==> StatusOf(parse(Get(t, "leaseEnd")), now) == Expired)
  {
    match (fmt(Get(t, "leaseStart")), fmt(Get(t, "leaseEnd")))
    case (Some(start), Some(end)) =>
      Some([JoinCell(NameOf(t)),
            JoinCell(Get(Get(t, "tenantId"), "email")),
            JoinCell(Get(Get(t, "tenantId"), "phone")),
            JoinCell(Or(Get(Get(t, "houseId"), "title"), Str("N/A"))),
            start,
            end,
            StatusText(StatusOf(parse(Get(t, "leaseEnd")), now))])
    case _ => None
  }

  /**
   * `tenants.map(...)`: the first tenant whose dates do not format throws,
   * so there are rows for all tenants or for none.
   */
  function TenantRows(tenants: seq<Value>, fmt: Value -> Option<string>, parse: Value -> Option<int>, now: int): (rows: Option<seq<seq<string>>>)
    ensures rows.Some? <==> forall i :: 0 <= i < |tenants| ==> TenantCells(tenants[i], fmt, parse, now).Some?
    ensures rows.Some? ==> |rows.value| == |tenants|
    ensures rows.Some? ==> forall i :: 0 <= i < |tenants| ==> rows.value[i] == TenantCells(tenants[i], fmt, parse, now).value
  {
    if tenants == [] then Some([])
    else
      match TenantCells(tenants[0], fmt, parse, now)
      case None => None
      case Some(first) =>
        match TenantRows(tenants[1..], fmt, parse, now)
        case None =>
          assert forall i :: 0 <= i < |tenants| - 1 ==> tenants[1..][i] == tenants[i + 1];
          None
        case Some(rest) =>
          assert forall i :: 1 <= i < |tenants| ==> tenants[i] == tenants[1..][i - 1];
          Some([first] + rest)
  }

  /** The header, then one row per tenant of the whole list, not only the searched ones. */
  function TenantTable(tenants: seq<Value>, fmt: Value -> Option<string>, parse: Value -> Option<int>, now: int): (rows: Option<seq<seq<string>>>)
    ensures rows.Some? <==> forall i :: 0 <= i < |tenants| ==> TenantCells(tenants[i], fmt, parse, now).Some?
    ensures rows.Some? ==> |rows.value| == |tenants| + 1 && rows.value[0] == TenantHeader
    ensures rows.Some? ==> forall i :: 0 <= i < |tenants| ==> rows.value[i + 1] == TenantCells(tenants[i], fmt, parse, now).value
  {
    match TenantRows(tenants, fmt, parse, now)
    case None => None
    case Some(body) =>
      Csv.HeaderThenBody(TenantHeader, body);
      Some([TenantHeader] + body)
  }

  /**
   * `exportCSV`: `[header, ...rows].map(r => r.join(",")).join("\n")`, with
   * no quoting; `None` where a lease date fails to format and no file is made.
   */
  function ExportCsv(tenants: seq<Value>, fmt: Value -> Option<string>, parse: Value -> Option<int>, now: int): (csv: Option<string>)
    ensures csv.Some? <==> forall i :: 0 <= i < |tenants| ==> TenantCells(tenants[i], fmt, parse, now).Some?
  {
    match TenantTable(tenants, fmt, parse, now)
    case None => None
    case Some(rows) => Some(Csv.UnquotedDocument(rows))
  }

  /**
   * A tenant's line splits into the seven columns exactly when none of its
   * cells holds a comma; a house title such as "Block A, Room 4" shifts
   * the status into an eighth column.
   */
  lemma TenantLineColumns(t: Value, fmt: Value -> Option<string>, parse: Value -> Option<int>, now: int)
    ensures TenantCells(t, fmt, parse, now).Some? ==>
      (Csv.ColumnCount(Csv.UnquotedRecord(TenantCells(t, fmt, parse, now).value)) == 7 <==>
       forall i :: 0 <= i < 7 ==> ',' !in TenantCells(t, fmt, parse, now).value[i])
  {
    if TenantCells(t, fmt, parse, now).Some? {
      Csv.UnquotedColumnsExact(TenantCells(t, fmt, parse, now).value);
    }
  }

  // ---------------------------------------------------------------------
  // The page.

  /** The add-tenant form. */
  datatype NewTenant = NewTenant(fullName: string, email: string, phone: string)

  class TenantsPage {
    var tenants: Value
    var loading: bool
    var newTenant: NewTenant
    var search: string

    constructor ()
      ensures tenants == Arr([]) && loading && newTenant == NewTenant("", "", "") && search == ""
    {
      tenants := Arr([]);
      loading := true;
      newTenant := NewTenant("", "", "");
      search := "";
    }

    /** The rows on screen: the search applied to the loaded list. */
    function Visible(): (r: seq<Value>)
      reads this
      ensures forall t :: t in r <==> t in ItemsOr(tenants, []) && Keep(t, search)
    {
      Filtered(ItemsOr(tenants, []), search)
    }

    /** The search box: nothing is fetched, only the visible rows change. */
    method SetSearch(s: string)
      modifies this
      ensures search == s && tenants == old(tenants) && newTenant == old(newTenant) && loading == old(loading)
    {
      search := s;
    }

    /** The form's inputs. */
    method EditNewTenant(f: NewTenant)
      modifies this
      ensures newTenant == f && tenants == old(tenants) && search == old(search) && loading == old(loading)
    {
      newTenant := f;
    }

    /** `fetchTenants`: `tenants || []`; `loading` ends false either way. */
    method Load(response: Outcome<Value>)
      modifies this
      ensures response.Success? ==> tenants == Or(Get(response.data, "tenants"), Arr([]))
      ensures response.Failure? ==> tenants == old(tenants)
      ensures !loading && newTenant == old(newTenant) && search == old(search)
    {
      loading := true;
      if response.Success? {
        tenants := Or(Get(response.data, "tenants"), Arr([]));
      }
      loading := false;
    }

    /**
     * `addTenant`: all three fields are needed, or nothing is sent. The
     * form goes out with role "tenant"; a success empties it, a failure
     * keeps it.
     */
    method AddTenant(response: Outcome<()>) returns (sent: Option<Value>)
      modifies this
      ensures old(newTenant).fullName == "" || old(newTenant).email == "" || old(newTenant).phone == "" ==>
        sent == None && newTenant == old(newTenant)
      ensures old(newTenant).fullName != "" && old(newTenant).email != "" && old(newTenant).phone != "" ==>
        sent == Some(Obj(map["fullName" := Str(old(newTenant).fullName), "email" := Str(old(newTenant).email),
                             "phone" := Str(old(newTenant).phone), "role" := Str("tenant")]))
      ensures sent.Some? && response.Success? ==> newTenant == NewTenant("", "", "")
      ensures response.Failure? ==> newTenant == old(newTenant)
      ensures tenants == old(tenants) && search == old(search) && loading == old(loading)
    {
      if newTenant.fullName == "" || newTenant.email == "" || newTenant.phone == "" {
        return None;
      }
      sent := Some(Obj(map["fullName" := Str(newTenant.fullName), "email" := Str(newTenant.email),
                           "phone" := Str(newTenant.phone), "role" := Str("tenant")]));
      if response.Success? {
        newTenant := NewTenant("", "", "");
      }
    }
  }
}
