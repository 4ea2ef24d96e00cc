/**
 * The tenant's chat room: messages load only for a house, a blank text
 * is never sent, and the receiver is taken from the first message that
 * involves a caretaker.
 */
module TenantChatRoom {
  import opened Json
  import opened Outcomes
  import Text

  /** `m.senderId?.role === 'caretaker'`. */
  predicate SentByCaretaker(m: Value) {
    Get(Get(m, "senderId"), "role") == Str("caretaker")
  }

  /** `m.receiverId?.role === 'caretaker'`. */
  predicate SentToCaretaker(m: Value) {
    Get(Get(m, "receiverId"), "role") == Str("caretaker")
  }

  /** The predicate passed to `find`. */
  predicate InvolvesCaretaker(m: Value) {
    SentByCaretaker(m) || SentToCaretaker(m)
  }

  /** The index `messages.find(...)` stops at, if any. */
  function FirstCaretakerMessage(msgs: seq<Value>): (r: Option<nat>)
    ensures r.Some? ==> r.value < |msgs| && InvolvesCaretaker(msgs[r.value])
    ensures r.Some? ==> forall j :: 0 <= j < r.value ==> !InvolvesCaretaker(msgs[j])
    ensures r.None? ==> forall j :: 0 <= j < |msgs| ==> !InvolvesCaretaker(msgs[j])
  {
    if msgs == [] then None
    else if InvolvesCaretaker(msgs[0]) then Some(0)
    else
      match FirstCaretakerMessage(msgs[1..])
      case None => None
      case Some(k) => Some(k + 1)
  }

  /**
   * `getCaretakerIdFromMessages` as written:
   * `caretakerMsg?.senderId?._id || caretakerMsg?.receiverId?._id`, which
   * prefers the sender whoever the caretaker is.
   */
  function CaretakerIdAsWritten(msgs: seq<Value>): (r: Value)
    ensures FirstCaretakerMessage(msgs).None? ==> r == Undefined
    ensures FirstCaretakerMessage(msgs).Some? ==>
      var m := msgs[FirstCaretakerMessage(msgs).value];
      r == Or(Get(Get(m, "senderId"), "_id"), Get(Get(m, "receiverId"), "_id"))
  {
    match FirstCaretakerMessage(msgs)
    case None => Undefined
    case Some(i) => Or(Get(Get(msgs[i], "senderId"), "_id"), Get(Get(msgs[i], "receiverId"), "_id"))
  }

  /**
   * The tenant's own message to the caretaker comes first, so the
   * receiver picked as written is the tenant: the reply goes to its sender.
   */
  lemma AsWrittenPicksTenant(tenant: string, caretaker: string)
    requires tenant != "" && tenant != caretaker
    ensures var m := Obj(map["senderId" := Obj(map["_id" := Str(tenant), "role" := Str("tenant")]),
                             "receiverId" := Obj(map["_id" := Str(caretaker), "role" := Str("caretaker")])]);
      CaretakerIdAsWritten([m]) == Str(tenant) && CaretakerIdAsWritten([m]) != Str(caretaker)
  {
    var m := Obj(map["senderId" := Obj(map["_id" := Str(tenant), "role" := Str("tenant")]),
                     "receiverId" := Obj(map["_id" := Str(caretaker), "role" := Str("caretaker")])]);
    assert SentToCaretaker(m);
    assert FirstCaretakerMessage([m]) == Some(0);
  }

  /** The intended receiver: the `_id` of the party of the found message whose role is caretaker. */
  function CaretakerId(msgs: seq<Value>): (r: Value)
    ensures FirstCaretakerMessage(msgs).None? ==> r == Undefined
    ensures FirstCaretakerMessage(msgs).Some? ==>
      var m := msgs[FirstCaretakerMessage(msgs).value];
      (SentByCaretaker(m) && r == Get(Get(m, "senderId"), "_id")) ||
      (!SentByCaretaker(m) && SentToCaretaker(m) && r == Get(Get(m, "receiverId"), "_id"))
  {
    match FirstCaretakerMessage(msgs)
    case None => Undefined
    case Some(i) =>
      if SentByCaretaker(msgs[i]) then Get(Get(msgs[i], "senderId"), "_id")
      else Get(Get(msgs[i], "receiverId"), "_id")
  }

  /**
   * The corrected receiver always belongs to a caretaker, and it agrees
   * with the code as written whenever the caretaker sent the found message
   * with an `_id`.
   */
  lemma CaretakerIdIsCaretaker(msgs: seq<Value>)
    ensures CaretakerId(msgs) != Undefined ==>
      (exists i :: 0 <= i < |msgs| &&
        ((SentByCaretaker(msgs[i]) && CaretakerId(msgs) == Get(Get(msgs[i], "senderId"), "_id")) ||
         (SentToCaretaker(msgs[i]) && CaretakerId(msgs) == Get(Get(msgs[i], "receiverId"), "_id"))))
    ensures (FirstCaretakerMessage(msgs).Some? && SentByCaretaker(msgs[FirstCaretakerMessage(msgs).value])
      && Truthy(CaretakerId(msgs))) ==> CaretakerIdAsWritten(msgs) == CaretakerId(msgs)
  {
  }

  /** What `handleSend` posts. */
  datatype Outgoing = Outgoing(houseId: Value, receiverId: Value, text: string)

  class ChatRoom {
    const houseId: Value
    var messages: Value
    var text: string

    constructor (house: Value)
      ensures houseId == house && messages == Arr([]) && text == ""
    {
      houseId := house;
      messages := Arr([]);
      text := "";
    }

    /**
     * The mount effect: messages are fetched only for a truthy `houseId`,
     * and a success stores `data.messages` with no fallback. A `null` or
     * absent body makes `res.data.messages` throw, and the catch keeps the
     * list.
     */
    method Mount(response: Outcome<Value>) returns (fetched: bool)
      modifies this
      ensures fetched <==> Truthy(houseId)
      ensures fetched && response.Success? && !Nullish(response.data) ==> messages == Get(response.data, "messages")
      ensures !fetched || response.Failure? || Nullish(response.data) ==> messages == old(messages)
      ensures text == old(text)
    {
      fetched := Truthy(houseId);
      if fetched && response.Success? && !Nullish(response.data) {
        messages := Get(response.data, "messages");
      }
    }

    /** The text box. */
    method SetText(t: string)
      modifies this
      ensures text == t && messages == old(messages)
    {
      text := t;
    }

    /**
     * `handleSend`: a blank text sends nothing. Otherwise the text goes to
     * the id `getCaretakerIdFromMessages` returns as written; `find` on a
     * list that is not an array throws before anything is sent. Only a
     * successful send clears the text.
     */
    method Send(response: Outcome<()>) returns (sent: Option<Outgoing>)
      modifies this
      ensures Text.Trim(old(text)) == "" || !old(messages).Arr? ==> sent == None && text == old(text)
      ensures Text.Trim(old(text)) != "" && old(messages).Arr? ==>
        sent == Some(Outgoing(houseId, CaretakerIdAsWritten(old(messages).items), old(text)))
      ensures sent.Some? && response.Success? ==> text == ""
      ensures response.Failure? ==> text == old(text)
      ensures messages == old(messages)
    {
      if Text.Trim(text) == "" || !messages.Arr? {
        return None;
      }
      sent := Some(Outgoing(houseId, CaretakerIdAsWritten(messages.items), text));
      if response.Success? {
        text := "";
      }
    }
  }
}
