/**
 * The landlord's maintenance table: the status select of a row patches the
 * request and, on a 200 answer, rewrites that request's status in the
 * list held by the page.
 */
module MaintenanceManagement {
  import opened Json
  import opened Outcomes
  import opened ListUpdates
  import MaintenanceStatus

  /** The local rewrite after a successful patch: `{ ...r, status: newStatus }` for the matching `_id`. */
  function WithStatus(requests: seq<Value>, id: string, newStatus: string): (r: seq<Value>)
    ensures |r| == |requests|
    ensures forall i :: 0 <= i < |requests| && !HasId(requests[i], id) ==> r[i] == requests[i]
    ensures forall i :: 0 <= i < |requests| && HasId(requests[i], id) ==>
      MaintenanceStatus.IsStatus(r[i], newStatus) && HasId(r[i], id)
    ensures forall i, k :: 0 <= i < |requests| && HasId(requests[i], id) && k in Fields(requests[i]) && k != "status" ==>
      k in Fields(r[i]) && Fields(r[i])[k] == Fields(requests[i])[k]
  {
    SetWhere(requests, id, "status", Str(newStatus))
  }

  /** Choosing one status and then another for the same row leaves only the second. */
  lemma LastChoiceWins(requests: seq<Value>, id: string, a: string, b: string)
    ensures WithStatus(WithStatus(requests, id, a), id, b) == WithStatus(requests, id, b)
  {
    SetWhereLastWins(requests, id, "status", Str(a), Str(b));
  }

  /** Re-selecting the status a request already has leaves the list as it was. */
  lemma SameStatusNoChange(requests: seq<Value>, id: string, s: string)
    requires forall i :: 0 <= i < |requests| && HasId(requests[i], id) ==> MaintenanceStatus.IsStatus(requests[i], s)
    ensures WithStatus(requests, id, s) == requests
  {
    forall i | 0 <= i < |requests| && HasId(requests[i], id) ensures WithStatus(requests, id, s)[i] == requests[i] {
      HasIdIsObject(requests[i], id);
      WithSame(requests[i], "status");
    }
  }

  class MaintenanceBoard {
    var requests: seq<Value>

    constructor ()
      ensures requests == []
    {
      requests := [];
    }

    /**
     * `handleStatusUpdate`: the patch is sent; only an answer with status
     * 200 rewrites the list. Any other status that resolves, and a
     * rejected call, leave it as it was. `response` carries the HTTP status.
     */
    method HandleStatusUpdate(id: string, newStatus: string, response: Outcome<int>) returns (body: Value)
      modifies this
      ensures body == Obj(map["status" := Str(newStatus)])
      ensures response == Success(200) ==> requests == WithStatus(old(requests), id, newStatus)
      ensures response != Success(200) ==> requests == old(requests)
    {
      body := Obj(map["status" := Str(newStatus)]);
      match response {
        case Failure =>
        case Success(status) =>
          if status != 200 {
            return;
          }
          requests := WithStatus(requests, id, newStatus);
      }
    }
  }
}
