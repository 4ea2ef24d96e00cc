/**
 * The admin's staff table: a successful suspend toggle flips the
 * `isSuspended` flag of the matching user in the list held by the page.
 */
module AdminStaffPage {
  import opened Json
  import opened Outcomes
  import opened ListUpdates

  /** `{ ...user, isSuspended: !user.isSuspended }`. */
  function Flip(user: Value): (r: Value)
    ensures Get(r, "isSuspended") == Bool(!Truthy(Get(user, "isSuspended")))
    ensures forall k :: k in Fields(user) && k != "isSuspended" ==> k in Fields(r) && Fields(r)[k] == Fields(user)[k]
  {
    With(user, "isSuspended", Bool(!Truthy(Get(user, "isSuspended"))))
  }

  /** The updater of `toggleStatus`: flip the users whose `_id` matches, keep the rest. */
  function FlipWhere(staff: seq<Value>, id: string): (r: seq<Value>)
    ensures |r| == |staff|
    ensures forall i :: 0 <= i < |staff| && !HasId(staff[i], id) ==> r[i] == staff[i]
    ensures forall i :: 0 <= i < |staff| && HasId(staff[i], id) ==>
      HasId(r[i], id) && Get(r[i], "isSuspended") == Bool(!Truthy(Get(staff[i], "isSuspended")))
  {
    seq(|staff|, i requires 0 <= i < |staff| => if HasId(staff[i], id) then Flip(staff[i]) else staff[i])
  }

  /** A flag that is already a boolean comes back after two flips. */
  lemma FlipTwice(user: Value)
    requires user.Obj? && "isSuspended" in user.fields && user.fields["isSuspended"].Bool?
    ensures Flip(Flip(user)) == user
  {
    WithTwice(user, "isSuspended", Bool(!Truthy(Get(user, "isSuspended"))), Bool(!Truthy(Get(Flip(user), "isSuspended"))));
    WithSame(user, "isSuspended");
  }

  /**
   * Flipping the same id twice restores the list, as long as every
   * matching user holds a boolean flag.
   */
  lemma FlipWhereTwice(staff: seq<Value>, id: string)
    requires forall i :: 0 <= i < |staff| && HasId(staff[i], id) ==> Get(staff[i], "isSuspended").Bool?
    ensures FlipWhere(FlipWhere(staff, id), id) == staff
  {
    forall i | 0 <= i < |staff| ensures FlipWhere(FlipWhere(staff, id), id)[i] == staff[i] {
      if HasId(staff[i], id) {
        HasIdIsObject(staff[i], id);
        FlipTwice(staff[i]);
      }
    }
  }

  /**
   * A user that has no flag at all does not come back: two flips leave an
   * explicit `isSuspended: false` on it.
   */
  lemma FlipTwiceAddsFlag(id: string)
    ensures var u := Obj(map["_id" := Str(id)]);
      FlipWhere(FlipWhere([u], id), id) == [Obj(map["_id" := Str(id), "isSuspended" := Bool(false)])] &&
      FlipWhere(FlipWhere([u], id), id) != [u]
  {
    var u := Obj(map["_id" := Str(id)]);
    assert HasId(u, id);
    var once := Flip(u);
    assert once.fields.Keys == {"_id", "isSuspended"};
    var twice := Flip(once);
    assert twice.fields.Keys == {"_id", "isSuspended"};
    assert twice == Obj(map["_id" := Str(id), "isSuspended" := Bool(false)]);
    assert "isSuspended" in twice.fields && "isSuspended" !in u.fields;
  }

  class StaffBoard {
    var staff: seq<Value>
    var loading: bool

    constructor ()
      ensures staff == [] && loading
    {
      staff := [];
      loading := true;
    }

    /** `fetchStaff`: the list as sent; `loading` ends false either way. */
    method Load(response: Outcome<seq<Value>>)
      modifies this
      ensures response.Success? ==> staff == response.data
      ensures response.Failure? ==> staff == old(staff)
      ensures !loading
    {
      if response.Success? {
        staff := response.data;
      }
      loading := false;
    }

    /**
     * `toggleStatus(userId, currentStatus)`: the body asks for the negation
     * of the row's flag; a success flips the matching users locally, a
     * failure changes nothing.
     */
    method ToggleStatus(userId: string, currentStatus: Value, response: Outcome<()>) returns (body: Value)
      modifies this
      ensures body == Obj(map["isSuspended" := Bool(!Truthy(currentStatus))])
      ensures response.Success? ==> staff == FlipWhere(old(staff), userId)
      ensures response.Failure? ==> staff == old(staff)
      ensures loading == old(loading)
    {
      body := Obj(map["isSuspended" := Bool(!Truthy(currentStatus))]);
      if response.Success? {
        staff := FlipWhere(staff, userId);
      }
    }
  }

  /**
   * The body sent for a row and the local flip of that row agree: both
   * give the negation of the row's flag.
   */
  lemma BodyAgreesWithFlip(staff: seq<Value>, i: nat, id: string)
    requires i < |staff| && HasId(staff[i], id)
    ensures Get(FlipWhere(staff, id)[i], "isSuspended") == Bool(!Truthy(Get(staff[i], "isSuspended")))
  {
  }
}

/**
 * The admin's paged staff list: page changes within bounds, a search
 * that restarts at page 1, row numbers that continue across pages, and
 * the suspend button.
 */
module StaffListPage {
  import opened Json
  import opened Outcomes
  import Pagination

  /** The page size the list asks for. */
  const PageSize: nat := 10

  /** `(page - 1) * 10 + index + 1`. */
  function RowNumber(page: int, index: nat): (n: int)
    ensures n == Pagination.Skip(page, PageSize) + index + 1
  {
    (page - 1) * PageSize + index + 1
  }

  /**
   * The rows of a page are numbered from `(page-1)*10 + 1` to `page*10`,
   * so two rows on pages from 1 on get the same number only when they are
   * the same row of the same page.
   */
  lemma RowNumbersDistinct(p: int, i: nat, q: int, j: nat)
    requires p >= 1 && q >= 1 && i < PageSize && j < PageSize
    ensures (p - 1) * PageSize + 1 <= RowNumber(p, i) <= p * PageSize
    ensures RowNumber(p, i) == RowNumber(q, j) <==> p == q && i == j
  {
    if p < q {
      assert (p - 1) * 10 + 10 <= (q - 1) * 10;
    } else if q < p {
      assert (q - 1) * 10 + 10 <= (p - 1) * 10;
    }
  }

  // ---------------------------------------------------------------------
  // The suspend button.

  /** What a suspend request asks the backend for. */
  datatype Action = Suspend | Unsuspend

  /** The path segment of the request. */
  function ActionPath(a: Action): string {
    match a
    case Suspend => "suspend"
    case Unsuspend => "unsuspend"
  }

  /** The button's label: "Unsuspend" for a suspended user, "Suspend" otherwise. */
  function Label(isSuspended: Value): (a: Action)
    ensures a == Unsuspend <==> Truthy(isSuspended)
  {
    if Truthy(isSuspended) then Unsuspend else Suspend
  }

  /** Whether the user is suspended once the backend has carried out `a`. */
  function SuspendedAfter(a: Action): bool {
    a == Suspend
  }

  /**
   * `toggleStatus(user._id, user.isSuspended)` as written: the flag itself
   * is passed as `suspend`, so a suspended user is sent "suspend".
   */
  function ActionAsWritten(isSuspended: Value): (a: Action)
    ensures ActionPath(a) == (if Truthy(isSuspended) then "suspend" else "unsuspend")
  {
    if Truthy(isSuspended) then Suspend else Unsuspend
  }

  /**
   * As written, every press sends the opposite of what its label says,
   * and leaves the user exactly as suspended as before.
   */
  lemma AsWrittenContradictsLabel(isSuspended: Value)
    ensures ActionAsWritten(isSuspended) != Label(isSuspended)
    ensures SuspendedAfter(ActionAsWritten(isSuspended)) == Truthy(isSuspended)
    ensures ActionPath(ActionAsWritten(Bool(true))) == "suspend" && Label(Bool(true)) == Unsuspend
  {
  }

  /** The intended choice: pass `!user.isSuspended` as `suspend`. */
  function ActionFor(isSuspended: Value): (a: Action)
    ensures ActionPath(a) == (if Truthy(isSuspended) then "unsuspend" else "suspend")
  {
    if Truthy(isSuspended) then Unsuspend else Suspend
  }

  /**
   * The corrected action is the one the label names, and it flips the
   * user, as the admin staff table's `!currentStatus` body does.
   */
  lemma ActionMatchesLabel(isSuspended: Value)
    ensures ActionFor(isSuspended) == Label(isSuspended)
    ensures SuspendedAfter(ActionFor(isSuspended)) == !Truthy(isSuspended)
  {
  }

  // ---------------------------------------------------------------------
  // The page.

  /** What `fetchStaff` reads from the answer. */
  datatype StaffPage = StaffPage(staff: seq<Value>, totalPages: int, currentPage: int)

  class StaffList {
    var staff: seq<Value>
    var search: string
    var page: int
    var totalPages: int
    var loading: bool

    constructor ()
      ensures staff == [] && search == "" && page == 1 && totalPages == 1 && loading
    {
      staff := [];
      search := "";
      page := 1;
      totalPages := 1;
      loading := true;
    }

    /** The query of `fetchStaff(search, page)`. */
    function Params(): (p: map<string, Value>)
      reads this
      ensures p.Keys == {"search", "page", "limit"}
      ensures p["search"] == Str(search) && p["page"] == Num(page) && p["limit"] == Num(PageSize)
    {
      map["search" := Str(search), "page" := Num(page), "limit" := Num(PageSize)]
    }

    /** Prev and Next are shown only when there is more than one page. */
    predicate ShowControls()
      reads this
    {
      Pagination.ShowControls(totalPages)
    }

    /** The debounced search: back to page 1 with the new text. */
    method Search(value: string)
      modifies this
      ensures page == 1 && search == value && staff == old(staff) && totalPages == old(totalPages)
    {
      page := 1;
      search := value;
    }

    /** `handlePageChange`: the page moves only to a page between 1 and `totalPages`. */
    method HandlePageChange(newPage: int)
      modifies this
      ensures 0 < newPage <= old(totalPages) ==> page == newPage
      ensures !(0 < newPage <= old(totalPages)) ==> page == old(page)
      ensures totalPages == old(totalPages) && staff == old(staff) && search == old(search)
      ensures 1 <= old(page) <= old(totalPages) ==> 1 <= page <= totalPages
    {
      if newPage > 0 && newPage <= totalPages {
        page := newPage;
      }
    }

    /** `fetchStaff`: the list, the page count and the current page come from the answer. */
    method Load(response: Outcome<StaffPage>)
      modifies this
      ensures response.Success? ==> (staff == response.data.staff && totalPages == response.data.totalPages
        && page == response.data.currentPage)
      ensures response.Failure? ==> staff == old(staff) && totalPages == old(totalPages) && page == old(page)
      ensures !loading && search == old(search)
    {
      loading := true;
      if response.Success? {
        staff := response.data.staff;
        totalPages := response.data.totalPages;
        page := response.data.currentPage;
      }
      loading := false;
    }

    /**
     * The suspend button of a row as written: the user's own flag is passed
     * as `suspend`, so the request names the action opposite to the label.
     */
    method ToggleStatus(user: Value) returns (action: Action, userId: Value)
      ensures action == ActionAsWritten(Get(user, "isSuspended")) && action != Label(Get(user, "isSuspended"))
      ensures userId == Get(user, "_id")
    {
      AsWrittenContradictsLabel(Get(user, "isSuspended"));
      action := ActionAsWritten(Get(user, "isSuspended"));
      userId := Get(user, "_id");
    }
  }
}
