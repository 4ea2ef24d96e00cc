/**
 * The landlord's relocation list: the controls a row offers by status,
 * and the one driver-id field that every approved row shares.
 */
module Relocations {
  import opened Json
  import opened Outcomes

  /** What the actions cell of a row holds. */
  datatype Controls = ApproveDecline | DriverForm | AssignedLabel | NoControls

  /**
   * Approve and Decline for "pending", the driver input and Assign button
   * for "approved", the "Driver Assigned" label for "assigned", and
   * nothing for any other status.
   */
  function ControlsFor(status: Value): (c: Controls)
    ensures c == ApproveDecline <==> status == Str("pending")
    ensures c == DriverForm <==> status == Str("approved")
    ensures c == AssignedLabel <==> status == Str("assigned")
    ensures c == NoControls <==> status != Str("pending") && status != Str("approved") && status != Str("assigned")
  {
    if status == Str("pending") then ApproveDecline
    else if status == Str("approved") then DriverForm
    else if status == Str("assigned") then AssignedLabel
    else NoControls
  }

  /** The statuses the Approve and Decline buttons send, in that order. */
  const Choices: seq<string> := ["approved", "declined"]

  /**
   * Once the backend stores the status a pending row's button sent, Approve
   * leads to the driver form and Decline to a row without controls; neither
   * offers Approve and Decline again.
   */
  lemma ChoicesMoveOn()
    ensures ControlsFor(Str(Choices[0])) == DriverForm
    ensures ControlsFor(Str(Choices[1])) == NoControls
    ensures forall i :: 0 <= i < |Choices| ==> ControlsFor(Str(Choices[i])) != ApproveDecline
  {
    assert Choices[0] == "approved" && Choices[1] == "declined";
  }

  /**
   * What the driver input shows in each row: the shared `driverId` for
   * an approved row, no input for the others.
   */
  function DriverInputs(rows: seq<Value>, driverId: string): (r: seq<Option<string>>)
    ensures |r| == |rows|
    ensures forall i :: 0 <= i < |rows| ==> (r[i].Some? <==> ControlsFor(Get(rows[i], "status")) == DriverForm)
    ensures forall i, j :: 0 <= i < |rows| && 0 <= j < |rows| && r[i].Some? && r[j].Some? ==> r[i] == r[j]
  {
    seq(|rows|, i requires 0 <= i < |rows| =>
      if ControlsFor(Get(rows[i], "status")) == DriverForm then Some(driverId) else None)
  }

  class RelocationsPage {
    var relocations: Value
    var loading: bool
    /** One field for the whole table. */
    var driverId: string

    constructor ()
      ensures relocations == Arr([]) && !loading && driverId == ""
    {
      relocations := Arr([]);
      loading := false;
      driverId := "";
    }

    /**
     * Typing in the driver input of any approved row: every approved row
     * now shows the same text.
     */
    method SetDriverId(v: string)
      modifies this
      ensures driverId == v && relocations == old(relocations)
      ensures forall rows: seq<Value> :: forall i :: 0 <= i < |rows| && ControlsFor(Get(rows[i], "status")) == DriverForm ==>
        DriverInputs(rows, driverId)[i] == Some(v)
    {
      driverId := v;
    }

    /** `fetchRelocations`: `requests || []`; `loading` ends false either way. */
    method Load(response: Outcome<Value>)
      modifies this
      ensures response.Success? ==> relocations == Or(Get(response.data, "requests"), Arr([]))
      ensures response.Failure? ==> relocations == old(relocations)
      ensures !loading && driverId == old(driverId)
    {
      loading := true;
      if response.Success? {
        relocations := Or(Get(response.data, "requests"), Arr([]));
      }
      loading := false;
    }

    /**
     * `assignDriver(requestId)`: with an empty driver id nothing is sent.
     * Otherwise the shared id goes out with whichever row was pressed;
     * a success empties the field for every row, a failure keeps it.
     */
    method AssignDriver(requestId: Value, response: Outcome<()>) returns (sent: Option<Value>)
      modifies this
      ensures old(driverId) == "" ==> sent == None && driverId == ""
      ensures old(driverId) != "" ==> sent == Some(Obj(map["requestId" := requestId, "driverId" := Str(old(driverId))]))
      ensures sent.Some? && response.Success? ==> driverId == ""
      ensures response.Failure? ==> driverId == old(driverId)
      ensures relocations == old(relocations)
    {
      if driverId == "" {
        return None;
      }
      sent := Some(Obj(map["requestId" := requestId, "driverId" := Str(driverId)]));
      if response.Success? {
        driverId := "";
      }
    }
  }
}
