/**
 * The tenant's relocation page: the request form with its guard and
 * reset, the rating prompt's range check, and the Rate cell of each row.
 */
module TenantRelocation {
  import opened Json
  import opened Outcomes
  import Text
  import opened JsNumber

  // ---------------------------------------------------------------------
  // The rating.

  /**
   * `handleRate`'s check on the prompt's answer (`None` for Cancel): not
   * empty, not NaN, and within 1..5. The comparisons convert the string
   * with `Number`, like `isNaN`, so an infinity fails the range.
   */
  predicate ValidRating(answer: Option<string>) {
    answer.Some? && answer.value != "" && NumberOf(answer.value).Finite? &&
    1.0 <= NumberOf(answer.value).value <= 5.0
  }

  /** A whole-number answer is accepted exactly when it is 1, 2, 3, 4 or 5. */
  lemma WholeRatings(n: nat)
    ensures ValidRating(Some(Digits(n))) <==> 1 <= n <= 5
  {
    var s := Digits(n);
    DigitsValueOfDigits(n);
    NumberOfDigits(s);
  }

  /** A fractional answer inside the range passes, so "2.5" is sent as 2.5. */
  lemma FractionalRatingPasses()
    ensures ValidRating(Some("2.5")) && NumberOf("2.5") == Finite(2.5)
  {
    OneDecimal('2', '5');
    assert "2.5" == ['2', '.', '5'];
  }

  /** A leading '+' is allowed: "+3" is a valid rating of 3. */
  lemma PlusForm()
    ensures ValidRating(Some("+3")) && NumberOf("+3") == Finite(3.0)
  {
    assert DigitsValue("3") == 3 by { assert "3"[..0] == ""; }
    SignedDigits('+', "3");
    assert ['+'] + "3" == "+3";
  }

  /** An exponent is applied: "3e0" is a valid rating of 3. */
  lemma ExponentRating()
    ensures ValidRating(Some("3e0")) && NumberOf("3e0") == Finite(3.0)
  {
    ExponentForm();
  }

  /** "Infinity" is a number, but it fails the range check. */
  lemma InfinityRefused()
    ensures NumberOf("Infinity") == Infinite(false) && !ValidRating(Some("Infinity"))
  {
    var inf := "Infinity";
    assert !Text.IsSpace(inf[0]) && !Text.IsSpace(inf[|inf| - 1]);
    NumberOfUnsigned(inf);
  }

  /** Cancel, an empty answer, text and a blank answer (which reads as 0) are refused. */
  lemma RatingsRefused()
    ensures !ValidRating(None) && !ValidRating(Some(""))
    ensures !ValidRating(Some("abc")) && !ValidRating(Some(" "))
  {
    TextRefused();
    BlankRefused();
  }

  /** What `handleRate` posts. `feedback` is the second prompt's answer, sent as it is. */
  datatype Rating = Rating(requestId: Value, rating: real, feedback: Option<string>)

  /** `handleRate`: an invalid answer sends nothing; a valid one sends `Number(rating)`. */
  method Rate(id: Value, answer: Option<string>, feedback: Option<string>) returns (sent: Option<Rating>)
    ensures sent.Some? <==> ValidRating(answer)
    ensures sent.Some? ==> sent.value.requestId == id && sent.value.feedback == feedback
    ensures sent.Some? ==> 1.0 <= sent.value.rating <= 5.0 && Finite(sent.value.rating) == NumberOf(answer.value)
  {
    if !ValidRating(answer) {
      return None;
    }
    sent := Some(Rating(id, NumberOf(answer.value).value, feedback));
  }

  /** The Rate cell of a row. */
  datatype RateCell = RateButton | RatedLabel | Dash

  /**
   * A completed request the tenant has not rated offers Rate; a rated one
   * shows "Rated" whatever its status; everything else shows "-".
   */
  function RateCellFor(r: Value): (c: RateCell)
    ensures c == RateButton <==> Get(r, "status") == Str("completed") && !Truthy(Get(r, "ratedByTenant"))
    ensures c == RatedLabel <==> Truthy(Get(r, "ratedByTenant"))
    ensures c == Dash <==> Get(r, "status") != Str("completed") && !Truthy(Get(r, "ratedByTenant"))
  {
    if Get(r, "status") == Str("completed") && !Truthy(Get(r, "ratedByTenant")) then RateButton
    else if Truthy(Get(r, "ratedByTenant")) then RatedLabel
    else Dash
  }

  // ---------------------------------------------------------------------
  // The request form.

  /** What `handleSubmit` posts. */
  datatype Request = Request(houseId: string, distanceKm: Number, floorNumber: Number, houseSize: string)

  class RelocationForm {
    var houseId: string
    var distanceKm: string
    var floorNumber: string
    var houseSize: string
    var loading: bool
    var relocations: Value

    constructor ()
      ensures houseId == "" && distanceKm == "" && floorNumber == "" && houseSize == "small"
      ensures !loading && relocations == Arr([])
    {
      houseId := "";
      distanceKm := "";
      floorNumber := "";
      houseSize := "small";
      loading := false;
      relocations := Arr([]);
    }

    /** The form's inputs and selects. */
    method Edit(h: string, d: string, f: string, size: string)
      modifies this
      ensures houseId == h && distanceKm == d && floorNumber == f && houseSize == size
      ensures loading == old(loading) && relocations == old(relocations)
    {
      houseId, distanceKm, floorNumber, houseSize := h, d, f, size;
    }

    /** All four fields are non-empty. */
    predicate Filled()
      reads this
    {
      houseId != "" && distanceKm != "" && floorNumber != "" && houseSize != ""
    }

    /**
     * `handleSubmit`: with any field empty nothing is sent. Otherwise the
     * distance and floor go out converted by `Number`; a success resets the
     * fields (the size back to "small"), a failure keeps them, and
     * `loading` ends false.
     */
    method Submit(response: Outcome<()>) returns (sent: Option<Request>)
      modifies this
      ensures !old(Filled()) ==> (sent == None && houseId == old(houseId) && distanceKm == old(distanceKm)
        && floorNumber == old(floorNumber) && houseSize == old(houseSize) && loading == old(loading))
      ensures old(Filled()) ==> !loading && sent == Some(Request(old(houseId), NumberOf(old(distanceKm)),
        NumberOf(old(floorNumber)), old(houseSize)))
      ensures sent.Some? && response.Success? ==>
        houseId == "" && distanceKm == "" && floorNumber == "" && houseSize == "small"
      ensures sent.Some? && response.Failure? ==> (houseId == old(houseId) && distanceKm == old(distanceKm)
        && floorNumber == old(floorNumber) && houseSize == old(houseSize))
      ensures relocations == old(relocations)
    {
      if !Filled() {
        return None;
      }
      var request := Request(houseId, NumberOf(distanceKm), NumberOf(floorNumber), houseSize);
      loading := true;
      sent := Some(request);
      if response.Success? {
        houseId := "";
        distanceKm := "";
        floorNumber := "";
        houseSize := "small";
      }
      loading := false;
    }

    /**
     * `fetchData`: `relocations` becomes `data.requests`, with no fallback,
     * so an answer without it leaves the list undefined.
     */
    method Load(response: Outcome<Value>)
      modifies this
      ensures response.Success? ==> relocations == Get(response.data, "requests")
      ensures response.Failure? ==> relocations == old(relocations)
      ensures houseId == old(houseId) && distanceKm == old(distanceKm) && floorNumber == old(floorNumber)
      ensures houseSize == old(houseSize) && loading == old(loading)
    {
      if response.Success? {
        relocations := Get(response.data, "requests");
      }
    }
  }
}
