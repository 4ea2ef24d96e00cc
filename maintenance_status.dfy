/**
 * The three maintenance statuses as the client sees them: the per-status
 * counts behind the caretaker pie charts, the options of the landlord's
 * status select and the colour of the landlord's status badge.
 */
module MaintenanceStatus {
  import opened Json
  import Seqs

  /** `m.status === s`. */
  predicate IsStatus(m: Value, s: string) {
    Get(m, "status") == Str(s)
  }

  /** `items.filter(m => m.status === s).length`. */
  function CountStatus(items: seq<Value>, s: string): (n: nat)
    ensures n <= |items|
    ensures n == 0 <==> forall i :: 0 <= i < |items| ==> !IsStatus(items[i], s)
  {
    var kept := Seqs.Filter(items, (m: Value) => IsStatus(m, s));
    assert forall i :: 0 <= i < |items| && IsStatus(items[i], s) ==> items[i] in kept;
    assert |kept| > 0 ==> kept[0] in kept;
    |kept|
  }

  /** The filter's count peels one item at a time. */
  lemma CountStatusStep(items: seq<Value>, s: string)
    requires items != []
    ensures CountStatus(items, s) == (if IsStatus(items[0], s) then 1 else 0) + CountStatus(items[1..], s)
  {
    var p := (m: Value) => IsStatus(m, s);
    assert Seqs.Filter(items, p) == (if p(items[0]) then [items[0]] else []) + Seqs.Filter(items[1..], p);
  }

  /** `statusCounts`: pending, in-progress and completed, in that order. */
  function StatusCounts(items: seq<Value>): (c: (nat, nat, nat))
    ensures c.0 == CountStatus(items, "pending")
    ensures c.1 == CountStatus(items, "in-progress")
    ensures c.2 == CountStatus(items, "completed")
  {
    (CountStatus(items, "pending"), CountStatus(items, "in-progress"), CountStatus(items, "completed"))
  }

  /** One of the three statuses the counts know about. */
  predicate Known(m: Value) {
    IsStatus(m, "pending") || IsStatus(m, "in-progress") || IsStatus(m, "completed")
  }

  /**
   * No item is counted twice, so the three counts add up to at most the
   * number of items, and to exactly that number iff every item has one of
   * the three statuses: an item with any other status is counted nowhere.
   */
  lemma {:induction false} CountsPartition(items: seq<Value>)
    ensures var c := StatusCounts(items); c.0 + c.1 + c.2 <= |items|
    ensures var c := StatusCounts(items); c.0 + c.1 + c.2 == |items| <==> forall i :: 0 <= i < |items| ==> Known(items[i])
  {
    if items != [] {
      CountsPartition(items[1..]);
      CountStatusStep(items, "pending");
      CountStatusStep(items, "in-progress");
      CountStatusStep(items, "completed");
      if forall i :: 0 <= i < |items| ==> Known(items[i]) {
        assert forall i :: 0 <= i < |items[1..]| ==> Known(items[1..][i]) by {
          forall i | 0 <= i < |items[1..]| ensures Known(items[1..][i]) {
            assert items[1..][i] == items[i + 1];
          }
        }
      }
      if forall i :: 0 <= i < |items[1..]| ==> Known(items[1..][i]) {
        if Known(items[0]) {
          forall i | 0 <= i < |items| ensures Known(items[i]) {
            if i > 0 { assert items[i] == items[1..][i - 1]; }
          }
        }
      }
    }
  }

  /** `statusOptions`: what the landlord's select offers, in order. */
  const StatusOptions: seq<string> := ["pending", "in-progress", "completed"]

  /** The colour class of the status badge. */
  datatype Badge = Yellow | Blue | Green

  /** Yellow for "pending", blue for "in-progress", green for anything else. */
  function BadgeOf(status: Value): (b: Badge)
    ensures b == Yellow <==> status == Str("pending")
    ensures b == Blue <==> status == Str("in-progress")
    ensures b == Green <==> status != Str("pending") && status != Str("in-progress")
  {
    if status == Str("pending") then Yellow
    else if status == Str("in-progress") then Blue
    else Green
  }

  /**
   * The select offers three distinct statuses and each gets its own badge;
   * a status outside them (or none) wears the "completed" green.
   */
  lemma OptionsAndBadges(status: Value)
    ensures |StatusOptions| == 3 && StatusOptions[0] != StatusOptions[1] && StatusOptions[1] != StatusOptions[2] && StatusOptions[0] != StatusOptions[2]
    ensures forall i, j :: 0 <= i < j < 3 ==> BadgeOf(Str(StatusOptions[i])) != BadgeOf(Str(StatusOptions[j]))
    ensures (forall i :: 0 <= i < 3 ==> status != Str(StatusOptions[i])) ==> BadgeOf(status) == BadgeOf(Str("completed"))
  {
  }
}
