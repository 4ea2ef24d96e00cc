/**
 * The in-place list updates the admin and landlord tables apply after a
 * successful call: replace one field of the records whose `_id` matches,
 * and drop the records whose `_id` matches. Records are JSON objects; an
 * id is compared with `===` against a string.
 */
module ListUpdates {
  import opened Json
  import Seqs

  /** `x._id === id`. */
  predicate HasId(x: Value, id: string) {
    Get(x, "_id") == Str(id)
  }

  /** Only an object has an `_id` equal to a string. */
  lemma HasIdIsObject(x: Value, id: string)
    requires HasId(x, id)
    ensures x.Obj? && "_id" in x.fields && x.fields["_id"] == Str(id)
  {
  }

  /** `{ ...x, [key]: v }`: `key` takes `v`, every other property of `x` is copied. */
  function With(x: Value, key: string, v: Value): (r: Value)
    ensures r.Obj? && key in r.fields && r.fields[key] == v
    ensures forall k :: k in Fields(x) && k != key ==> k in r.fields && r.fields[k] == Fields(x)[k]
    ensures forall k :: k in r.fields ==> k == key || k in Fields(x)
  {
    Spread(x, Obj(map[key := v]))
  }

  /** Writing the same property twice keeps only the second value. */
  lemma WithTwice(x: Value, key: string, a: Value, b: Value)
    ensures With(With(x, key, a), key, b) == With(x, key, b)
  {
    var l, r := With(With(x, key, a), key, b), With(x, key, b);
    assert l.fields.Keys == r.fields.Keys;
  }

  /** Writing back the value an object already holds gives the object itself. */
  lemma WithSame(x: Value, key: string)
    requires x.Obj? && key in x.fields
    ensures With(x, key, x.fields[key]) == x
  {
    assert With(x, key, x.fields[key]).fields.Keys == x.fields.Keys;
  }

  /** Writing a property other than `_id` keeps the id. */
  lemma WithKeepsId(x: Value, key: string, v: Value, id: string)
    requires key != "_id"
    ensures HasId(With(x, key, v), id) <==> HasId(x, id)
  {
  }

  /** `list.map(r => r._id === id ? { ...r, [key]: v } : r)`. */
  function SetWhere(list: seq<Value>, id: string, key: string, v: Value): (r: seq<Value>)
    ensures |r| == |list|
    ensures forall i :: 0 <= i < |list| && !HasId(list[i], id) ==> r[i] == list[i]
    ensures forall i :: 0 <= i < |list| && HasId(list[i], id) ==> r[i] == With(list[i], key, v)
  {
    seq(|list|, i requires 0 <= i < |list| => if HasId(list[i], id) then With(list[i], key, v) else list[i])
  }

  /** A list without the id is left exactly as it was. */
  lemma SetWhereAbsent(list: seq<Value>, id: string, key: string, v: Value)
    requires forall i :: 0 <= i < |list| ==> !HasId(list[i], id)
    ensures SetWhere(list, id, key, v) == list
  {
  }

  /** Every record keeps its id, so the same records match afterwards. */
  lemma SetWhereKeepsIds(list: seq<Value>, id: string, key: string, v: Value, other: string)
    requires key != "_id"
    ensures forall i :: 0 <= i < |list| ==> (HasId(SetWhere(list, id, key, v)[i], other) <==> HasId(list[i], other))
  {
    forall i | 0 <= i < |list| ensures HasId(SetWhere(list, id, key, v)[i], other) <==> HasId(list[i], other) {
      if HasId(list[i], id) {
        WithKeepsId(list[i], key, v, other);
      }
    }
  }

  /** A second update of the same records overrides the first. */
  lemma SetWhereLastWins(list: seq<Value>, id: string, key: string, a: Value, b: Value)
    requires key != "_id"
    ensures SetWhere(SetWhere(list, id, key, a), id, key, b) == SetWhere(list, id, key, b)
  {
    var once := SetWhere(list, id, key, a);
    SetWhereKeepsIds(list, id, key, a, id);
    forall i | 0 <= i < |list| ensures SetWhere(once, id, key, b)[i] == SetWhere(list, id, key, b)[i] {
      if HasId(list[i], id) {
        WithTwice(list[i], key, a, b);
      }
    }
  }

  /** `list.filter(r => r._id !== id)`. */
  function RemoveWhere(list: seq<Value>, id: string): (r: seq<Value>)
    ensures |r| <= |list|
    ensures forall x :: x in r ==> x in list && !HasId(x, id)
    ensures forall x :: x in list && !HasId(x, id) ==> x in r
  {
    Seqs.Filter(list, (x: Value) => !HasId(x, id))
  }

  /** The removal keeps the survivors in their original order. */
  lemma RemoveWhereKeepsOrder(list: seq<Value>, id: string)
    ensures Seqs.IsSublist(RemoveWhere(list, id), list)
  {
    Seqs.FilterIsSublist(list, (x: Value) => !HasId(x, id));
  }

  /** How many records of `list` carry the id. */
  function CountId(list: seq<Value>, id: string): (n: nat)
    ensures n <= |list|
  {
    if list == [] then 0 else (if HasId(list[0], id) then 1 else 0) + CountId(list[1..], id)
  }

  /** Exactly the matching records go: the length drops by their number. */
  lemma {:induction false} RemoveWhereLength(list: seq<Value>, id: string)
    ensures |RemoveWhere(list, id)| == |list| - CountId(list, id)
  {
    if list != [] {
      RemoveWhereLength(list[1..], id);
    }
  }

  /** Removing a second time changes nothing more. */
  lemma RemoveWhereIdempotent(list: seq<Value>, id: string)
    ensures RemoveWhere(RemoveWhere(list, id), id) == RemoveWhere(list, id)
  {
    Seqs.FilterIdempotent(list, (x: Value) => !HasId(x, id));
  }
}
