/**
 * The caretaker's tenant registration page: the registration form, the
 * paged agreements table with its Sign button, the agreements CSV export
 * and the create-agreement modal, which nothing in the page ever opens.
 */
module CaretakerTenantRegistration {
  import opened Json
  import opened Outcomes
  import opened Pagination
  import Csv
  import CaretakerMaintenance

  /** The registration form: `{ fullName, email, phone }`. */
  datatype TenantForm = TenantForm(fullName: string, email: string, phone: string)

  /** The agreement form, whose five fields are all strings. */
  datatype AgreementForm = AgreementForm(tenantId: string, houseId: string, leaseStart: string, leaseEnd: string, monthlyRent: string)

  /** The fields the modal's inputs write; none of them writes `tenantId`. */
  datatype AgreementInput = House | LeaseStart | LeaseEnd | Rent

  /** The guard of `createAgreement`: every one of the five fields is non-empty. */
  predicate Complete(a: AgreementForm) {
    a.tenantId != "" && a.houseId != "" && a.leaseStart != "" && a.leaseEnd != "" && a.monthlyRent != ""
  }

  /** One input of the modal: `{ ...agreementData, [field]: value }`. */
  function Edit(a: AgreementForm, k: AgreementInput, value: string): (r: AgreementForm)
    ensures r.tenantId == a.tenantId
    ensures k == House ==> r == a.(houseId := value)
    ensures k == LeaseStart ==> r == a.(leaseStart := value)
    ensures k == LeaseEnd ==> r == a.(leaseEnd := value)
    ensures k == Rent ==> r == a.(monthlyRent := value)
  {
    match k
    case House => a.(houseId := value)
    case LeaseStart => a.(leaseStart := value)
    case LeaseEnd => a.(leaseEnd := value)
    case Rent => a.(monthlyRent := value)
  }

  /**
   * With `tenantId` empty, no sequence of edits through the modal's
   * inputs ever makes the form complete.
   */
  lemma {:induction false} EditsNeverComplete(a: AgreementForm, edits: seq<(AgreementInput, string)>)
    requires a.tenantId == ""
    ensures !Complete(Replay(a, edits))
    ensures Replay(a, edits).tenantId == ""
    decreases |edits|
  {
    if edits != [] {
      EditsNeverComplete(Edit(a, edits[0].0, edits[0].1), edits[1..]);
    }
  }

  /** The form after the given edits, in order. */
  function Replay(a: AgreementForm, edits: seq<(AgreementInput, string)>): AgreementForm
    decreases |edits|
  {
    if edits == [] then a else Replay(Edit(a, edits[0].0, edits[0].1), edits[1..])
  }

  // ---------------------------------------------------------------------
  // The table and the export.

  /** The Sign button: only for an agreement that is not signed. */
  predicate OffersSign(a: Value) {
    !Truthy(Get(a, "isSigned"))
  }

  /** The CSV's Signed column: `a.isSigned ? "Yes" : "No"`. */
  function SignedCell(a: Value): (c: string)
    ensures c == "Yes" || c == "No"
    ensures c == "Yes" <==> Truthy(Get(a, "isSigned"))
  {
    if Truthy(Get(a, "isSigned")) then "Yes" else "No"
  }

  /** A row offers Sign exactly when its exported Signed cell reads "No". */
  lemma SignIffUnsignedInCsv(a: Value)
    ensures OffersSign(a) <==> SignedCell(a) == "No"
  {
  }

  const AgreementHeader: seq<string> := ["Tenant", "House", "Lease Start", "Lease End", "Rent", "Signed"]

  /** The six cells of one agreement; dates go through the given formatter. */
  function AgreementCells(a: Value, fmt: Value -> string): (cells: seq<string>)
    ensures |cells| == |AgreementHeader|
    ensures Nullish(Get(Get(a, "tenantId"), "fullName")) ==> cells[0] == ""
    ensures Get(Get(a, "tenantId"), "fullName").Str? ==> cells[0] == Get(Get(a, "tenantId"), "fullName").s
    ensures Nullish(Get(Get(a, "houseId"), "title")) ==> cells[1] == ""
    ensures Get(Get(a, "houseId"), "title").Str? ==> cells[1] == Get(Get(a, "houseId"), "title").s
    ensures cells[2] == CaretakerMaintenance.DateCell(Get(a, "leaseStart"), fmt)
    ensures cells[3] == CaretakerMaintenance.DateCell(Get(a, "leaseEnd"), fmt)
    ensures Nullish(Get(a, "monthlyRent")) ==> cells[4] == ""
    ensures Get(a, "monthlyRent").Str? ==> cells[4] == Get(a, "monthlyRent").s
    ensures cells[5] == SignedCell(a)
  {
    [ToStr(Coalesce(Get(Get(a, "tenantId"), "fullName"), Str(""))),
     ToStr(Coalesce(Get(Get(a, "houseId"), "title"), Str(""))),
     CaretakerMaintenance.DateCell(Get(a, "leaseStart"), fmt),
     CaretakerMaintenance.DateCell(Get(a, "leaseEnd"), fmt),
     ToStr(Coalesce(Get(a, "monthlyRent"), Str(""))),
     SignedCell(a)]
  }

  /** `agreements.map(...)`: one row per agreement, in list order. */
  function AgreementBody(agreements: seq<Value>, fmt: Value -> string): (rows: seq<seq<string>>)
    ensures |rows| == |agreements|
    ensures forall i :: 0 <= i < |agreements| ==> rows[i] == AgreementCells(agreements[i], fmt)
  {
    if agreements == [] then []
    else
      var rest := AgreementBody(agreements[1..], fmt);
      assert forall i :: 1 <= i < |agreements| ==> agreements[i] == agreements[1..][i - 1];
      [AgreementCells(agreements[0], fmt)] + rest
  }

  /** The header row, then one row per agreement in list order. */
  function AgreementTable(agreements: seq<Value>, fmt: Value -> string): (rows: seq<seq<string>>)
    ensures |rows| == |agreements| + 1 && rows[0] == AgreementHeader
    ensures forall i :: 0 <= i < |agreements| ==> rows[i + 1] == AgreementCells(agreements[i], fmt)
  {
    var body := AgreementBody(agreements, fmt);
    Csv.HeaderThenBody(AgreementHeader, body);
    [AgreementHeader] + body
  }

  /** `exportAgreementsCSV`: every cell quoted with inner quotes doubled, lines joined by '\n'. */
  function ExportCsv(agreements: seq<Value>, fmt: Value -> string): string {
    Csv.QuotedDocument(AgreementTable(agreements, fmt))
  }

  /**
   * A reader of the file gets back the header and one six-cell row per
   * agreement.
   */
  lemma ExportReadsBack(agreements: seq<Value>, fmt: Value -> string)
    ensures Csv.ParseDocument(ExportCsv(agreements, fmt)) == Some(AgreementTable(agreements, fmt))
  {
    var t := AgreementTable(agreements, fmt);
    AgreementRows(agreements, fmt);
    Csv.DocumentRoundTrip(t);
  }

  /**
   * Every row of the table has six cells, and an agreement's Signed cell
   * is "No" exactly when its row offers Sign.
   */
  lemma AgreementRows(agreements: seq<Value>, fmt: Value -> string)
    ensures forall k :: 0 <= k < |AgreementTable(agreements, fmt)| ==> |AgreementTable(agreements, fmt)[k]| == 6
    ensures forall i :: 0 <= i < |agreements| ==>
      (AgreementTable(agreements, fmt)[i + 1][5] == "No" <==> OffersSign(agreements[i]))
  {
    var t := AgreementTable(agreements, fmt);
    forall k | 0 <= k < |t| ensures |t[k]| == 6 {
      if k > 0 {
        assert t[k] == AgreementCells(agreements[k - 1], fmt);
      }
    }
  }

  // ---------------------------------------------------------------------
  // The page.

  class RegistrationPage {
    var form: TenantForm
    var loading: bool
    var agreements: Value
    var page: int
    const limit: nat
    var total: Value
    /** `creatingAgreementFor`: the modal is shown while this is truthy. */
    var creatingAgreementFor: Value
    var agreementData: AgreementForm

    /**
     * What holds from the first render on: the modal is closed and the
     * agreement form has no tenant, because no handler writes either one
     * to anything else.
     */
    predicate ModalNeverOpens()
      reads this
    {
      !Truthy(creatingAgreementFor) && agreementData.tenantId == ""
    }

    constructor ()
      ensures ModalNeverOpens()
      ensures form == TenantForm("", "", "") && !loading && page == 1 && limit == 8
      ensures agreements == Arr([]) && total == Num(0) && creatingAgreementFor == Null
      ensures agreementData == AgreementForm("", "", "", "", "")
    {
      form := TenantForm("", "", "");
      loading := false;
      agreements := Arr([]);
      page := 1;
      limit := 8;
      total := Num(0);
      creatingAgreementFor := Null;
      agreementData := AgreementForm("", "", "", "", "");
    }

    /** The query of `fetchAgreements`: `{ skip, limit }`. */
    function Params(): (p: map<string, Value>)
      reads this
      ensures p.Keys == {"skip", "limit"}
      ensures p["limit"] == Num(limit) && p["skip"].Num? && p["skip"].n + limit == page * limit
    {
      map["skip" := Num(Skip(page, limit)), "limit" := Num(limit)]
    }

    /** A keystroke in the registration form. */
    method EditForm(f: TenantForm)
      modifies this
      ensures form == f && agreementData == old(agreementData) && creatingAgreementFor == old(creatingAgreementFor)
      ensures page == old(page) && agreements == old(agreements) && total == old(total) && loading == old(loading)
    {
      form := f;
    }

    /**
     * `registerTenant`: without a name or an email nothing is sent (the
     * phone may be empty); otherwise the form goes out with role "tenant",
     * a success empties the form, a failure keeps it, and `loading` ends false.
     */
    method RegisterTenant(response: Outcome<()>) returns (sent: Option<Value>)
      modifies this
      ensures old(form).fullName == "" || old(form).email == "" ==>
        sent == None && form == old(form) && loading == old(loading)
      ensures old(form).fullName != "" && old(form).email != "" ==>
        sent == Some(Obj(map["fullName" := Str(old(form).fullName), "email" := Str(old(form).email),
                             "phone" := Str(old(form).phone), "role" := Str("tenant")])) && !loading
      ensures sent.Some? && response.Success? ==> form == TenantForm("", "", "")
      ensures sent.Some? && response.Failure? ==> form == old(form)
      ensures agreementData == old(agreementData) && creatingAgreementFor == old(creatingAgreementFor)
      ensures page == old(page) && agreements == old(agreements) && total == old(total)
    {
      if form.fullName == "" || form.email == "" {
        return None;
      }
      loading := true;
      sent := Some(Obj(map["fullName" := Str(form.fullName), "email" := Str(form.email),
                           "phone" := Str(form.phone), "role" := Str("tenant")]));
      if response.Success? {
        form := TenantForm("", "", "");
      }
      loading := false;
    }

    /** One of the modal's four inputs. */
    method EditAgreement(k: AgreementInput, value: string)
      modifies this
      ensures agreementData == Edit(old(agreementData), k, value)
      ensures creatingAgreementFor == old(creatingAgreementFor) && form == old(form) && page == old(page)
      ensures old(ModalNeverOpens()) ==> ModalNeverOpens()
    {
      agreementData := Edit(agreementData, k, value);
    }

    /** The modal's Cancel: `setCreatingAgreementFor(null)`. */
    method CancelAgreement()
      modifies this
      ensures creatingAgreementFor == Null && agreementData == old(agreementData) && form == old(form) && page == old(page)
      ensures old(ModalNeverOpens()) ==> ModalNeverOpens()
    {
      creatingAgreementFor := Null;
    }

    /**
     * `createAgreement`: the five fields go out only when all are
     * non-empty; a success closes the modal, a failure leaves it. From
     * any state the page can reach, it never sends.
     */
    method CreateAgreement(response: Outcome<()>) returns (sent: Option<AgreementForm>)
      modifies this
      ensures !Complete(old(agreementData)) ==> sent == None && creatingAgreementFor == old(creatingAgreementFor)
      ensures Complete(old(agreementData)) ==> sent == Some(old(agreementData))
      ensures sent.Some? && response.Success? ==> creatingAgreementFor == Null
      ensures response.Failure? ==> creatingAgreementFor == old(creatingAgreementFor)
      ensures agreementData == old(agreementData) && form == old(form) && page == old(page)
      ensures old(ModalNeverOpens()) ==> ModalNeverOpens() && sent == None
    {
      if !Complete(agreementData) {
        return None;
      }
      sent := Some(agreementData);
      if response.Success? {
        creatingAgreementFor := Null;
      }
    }

    /** `fetchAgreements`: `agreements || data` and the same total rule as the maintenance page. */
    method Load(response: Outcome<Value>)
      modifies this
      ensures response.Success? ==> agreements == Or(Get(response.data, "agreements"), response.data)
      ensures response.Success? ==> total == CaretakerMaintenance.LoadedTotal(response.data, "agreements")
      ensures response.Failure? ==> agreements == old(agreements) && total == old(total)
      ensures page == old(page) && form == old(form) && agreementData == old(agreementData)
      ensures creatingAgreementFor == old(creatingAgreementFor)
    {
      if response.Success? {
        agreements := Or(Get(response.data, "agreements"), response.data);
        total := CaretakerMaintenance.LoadedTotal(response.data, "agreements");
      }
    }

    /** Prev: never below 1. */
    method Prev()
      modifies this
      ensures page == PrevPage(old(page)) && page >= 1
      ensures agreements == old(agreements) && form == old(form) && agreementData == old(agreementData)
      ensures creatingAgreementFor == old(creatingAgreementFor)
    {
      page := PrevPage(page);
    }

    /** Next: `setPage(p => p + 1)`, with no check against the total. */
    method Next()
      modifies this
      ensures page == old(page) + 1
      ensures agreements == old(agreements) && form == old(form) && agreementData == old(agreementData)
      ensures creatingAgreementFor == old(creatingAgreementFor)
    {
      page := UnboundedNext(page);
    }
  }
}
