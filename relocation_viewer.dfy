/**
 * The admin's relocation viewer: the query holds only the filters that
 * are set, the answer is normalised to a list, and each row offers Assign
 * Driver or Mark Completed behind a prompt or a confirmation.
 */
module RelocationViewer {
  import opened Json
  import opened Outcomes

  /**
   * The query for a filter: `status`, `from` and `to` present exactly when
   * non-empty, each with its own value, and no other key.
   */
  predicate QueryFor(params: map<string, string>, status: string, from: string, to: string) {
    ("status" in params <==> status != "") &&
    ("from" in params <==> from != "") &&
    ("to" in params <==> to != "") &&
    ("status" in params ==> params["status"] == status) &&
    ("from" in params ==> params["from"] == from) &&
    ("to" in params ==> params["to"] == to) &&
    (forall k :: k in params ==> k == "status" || k == "from" || k == "to")
  }

  /** A filter has one query: two maps that both meet `QueryFor` are equal. */
  lemma QueryForUnique(p: map<string, string>, q: map<string, string>, status: string, from: string, to: string)
    requires QueryFor(p, status, from, to) && QueryFor(q, status, from, to)
    ensures p == q
  {
    assert p.Keys == q.Keys;
    assert forall k :: k in p ==> p[k] == q[k];
  }

  /**
   * `fetchRequests`' query: start from `{}` and add `status`, `from` and
   * `to` one at a time, each only when it is non-empty.
   */
  method BuildParams(status: string, from: string, to: string) returns (params: map<string, string>)
    ensures QueryFor(params, status, from, to)
  {
    params := map[];
    if status != "" {
      params := params["status" := status];
    }
    if from != "" {
      params := params["from" := from];
    }
    if to != "" {
      params := params["to" := to];
    }
  }

  /**
   * `Array.isArray(data) ? data : data.requests || []`. Reading `requests`
   * of `null` or `undefined` throws, which the page reports as a failed
   * load: that is `None` here.
   */
  function Normalise(data: Value): (r: Option<Value>)
    ensures r.None? <==> Nullish(data)
    ensures data.Arr? ==> r == Some(data)
    ensures !data.Arr? && !Nullish(data) && Truthy(Get(data, "requests")) ==> r == Some(Get(data, "requests"))
    ensures !data.Arr? && !Nullish(data) && !Truthy(Get(data, "requests")) ==> r == Some(Arr([]))
  {
    if data.Arr? then Some(data)
    else if Nullish(data) then None
    else Some(Or(Get(data, "requests"), Arr([])))
  }

  /**
   * The maintenance page reads its answer as `data.requests || data || []`
   * instead. The two agree on an array and on an object carrying a
   * truthy `requests`, but for an object without one the maintenance page
   * keeps the object itself where this page keeps an empty list.
   */
  lemma NormaliseVersusMaintenance(data: Value)
    ensures data.Arr? || (data.Obj? && Truthy(Get(data, "requests"))) ==>
      Normalise(data) == Some(Or(Or(Get(data, "requests"), data), Arr([])))
    ensures data.Obj? && !Truthy(Get(data, "requests")) ==>
      Normalise(data) == Some(Arr([])) && Or(Or(Get(data, "requests"), data), Arr([])) == data
  {
  }

  /** The two buttons a row may show. */
  datatype RowButtons = RowButtons(assignDriver: bool, markCompleted: bool)

  /** Assign Driver iff "approved", Mark Completed iff "assigned". */
  function ButtonsFor(status: Value): (b: RowButtons)
    ensures b.assignDriver <==> status == Str("approved")
    ensures b.markCompleted <==> status == Str("assigned")
  {
    RowButtons(status == Str("approved"), status == Str("assigned"))
  }

  /** No row shows both buttons; pending, completed and unknown rows show none. */
  lemma ButtonsExclusive(status: Value)
    ensures !(ButtonsFor(status).assignDriver && ButtonsFor(status).markCompleted)
    ensures status != Str("approved") && status != Str("assigned") ==> ButtonsFor(status) == RowButtons(false, false)
  {
  }

  /**
   * `handleAssignDriver`: `answer` is what the prompt returns (`None` for
   * Cancel). A missing or empty id sends nothing; otherwise the patch
   * carries `{ driverId }`.
   */
  method AssignDriver(answer: Option<string>) returns (body: Option<Value>)
    ensures body.None? <==> answer == None || answer == Some("")
    ensures body.Some? ==> body == Some(Obj(map["driverId" := Str(answer.value)]))
  {
    if answer == None || answer == Some("") {
      return None;
    }
    body := Some(Obj(map["driverId" := Str(answer.value)]));
  }

  /** `handleMarkComplete`: the patch goes out only after the confirmation is accepted. */
  method MarkComplete(confirmed: bool) returns (sent: bool)
    ensures sent <==> confirmed
  {
    if !confirmed {
      return false;
    }
    sent := true;
  }

  class ViewerPage {
    var requests: Value
    var statusFilter: string
    var from: string
    var to: string

    constructor ()
      ensures requests == Arr([]) && statusFilter == "" && from == "" && to == ""
    {
      requests := Arr([]);
      statusFilter := "";
      from := "";
      to := "";
    }

    /** The status select. */
    method SetStatusFilter(s: string)
      modifies this
      ensures statusFilter == s && from == old(from) && to == old(to) && requests == old(requests)
    {
      statusFilter := s;
    }

    /** The "from" date: `{ ...prev, from }`, so `to` is kept. */
    method SetFrom(d: string)
      modifies this
      ensures from == d && to == old(to) && statusFilter == old(statusFilter) && requests == old(requests)
    {
      from := d;
    }

    /** The "to" date: `{ ...prev, to }`, so `from` is kept. */
    method SetTo(d: string)
      modifies this
      ensures to == d && from == old(from) && statusFilter == old(statusFilter) && requests == old(requests)
    {
      to := d;
    }

    /** `fetchRequests`: the normalised answer, or no change when the call or the normalisation fails. */
    method Load(response: Outcome<Value>) returns (params: map<string, string>)
      modifies this
      ensures QueryFor(params, statusFilter, from, to)
      ensures response.Success? && Normalise(response.data).Some? ==> requests == Normalise(response.data).value
      ensures response.Failure? || (response.Success? && Normalise(response.data).None?) ==> requests == old(requests)
      ensures statusFilter == old(statusFilter) && from == old(from) && to == old(to)
    {
      params := BuildParams(statusFilter, from, to);
      if response.Success? {
        var n := Normalise(response.data);
        if n.Some? {
          requests := n.value;
        }
      }
    }
  }
}
