/**
 * Server-side and client-side paging as the list pages compute it: the
 * `skip` of a 1-based page, `Math.ceil(total / limit)` page counts, the
 * Prev/Next button updates, the JavaScript `Array.prototype.slice` window
 * and the "showing a to b of n" footer.
 */
module Pagination {

  /** `(page - 1) * limit`: how many records come before the first one of `page`. */
  function Skip(page: int, limit: nat): (r: int)
    ensures page >= 1 ==> r >= 0
    ensures r + limit == page * limit
  {
    (page - 1) * limit
  }

  /** Consecutive pages ask for adjacent, non-overlapping runs of records. */
  lemma SkipAdjacent(page: int, limit: nat)
    ensures Skip(page + 1, limit) == Skip(page, limit) + limit
  {
  }

  /** `Math.ceil(total / limit)` for a non-negative total and a positive limit. */
  function CeilDiv(total: nat, limit: nat): (r: nat)
    requires limit > 0
    ensures total == 0 <==> r == 0
    ensures (r - 1) * limit < total <= r * limit || total == 0
  {
    (total + limit - 1) / limit
  }

  /** `totalPages`: the least number of pages of `limit` records that hold `total` records. */
  function TotalPages(total: nat, limit: nat): (r: nat)
    requires limit > 0
    ensures r * limit >= total
    ensures forall k: nat {:trigger k * limit} :: k * limit >= total ==> k >= r
  {
    var r := CeilDiv(total, limit);
    assert forall k: nat {:trigger k * limit} :: k * limit >= total ==> k >= r by {
      forall k: nat | k * limit >= total ensures k >= r {
        if k < r {
          assert k <= r - 1;
          MulMono(k, r - 1, limit);
        }
      }
    }
    r
  }

  lemma MulMono(a: nat, b: nat, c: nat)
    requires a <= b
    ensures a * c <= b * c
  {
  }

  /** Prev: `setPage(p => Math.max(p - 1, 1))`. */
  function PrevPage(page: int): (r: int)
    ensures r >= 1
    ensures page > 1 ==> r == page - 1
    ensures page <= 1 ==> r == 1
  {
    if page - 1 > 1 then page - 1 else 1
  }

  /** Next, guarded: `if (page * limit < total) setPage(p => p + 1)`. */
  function GuardedNext(page: int, limit: nat, total: nat): (r: int)
    ensures r == page || r == page + 1
    ensures r == page + 1 <==> page * limit < total
  {
    if page * limit < total then page + 1 else page
  }

  /** `Math.min(p + 1, totalPages)`: the Next button of the landlord overview. */
  function ClampedNext(page: int, totalPages: int): (r: int)
    ensures r <= totalPages
    ensures page < totalPages ==> r == page + 1
    ensures page >= totalPages ==> r == totalPages
  {
    if page + 1 < totalPages then page + 1 else totalPages
  }

  /** The Next button of pages that never disable it: `setPage(p => p + 1)`. */
  function UnboundedNext(page: int): (r: int)
    ensures r > page
  {
    page + 1
  }

  /** A page inside `1..max(1, ⌈total/limit⌉)`: the pages the guarded buttons can reach. */
  predicate InRange(page: int, limit: nat, total: nat)
    requires limit > 0
  {
    1 <= page && (page == 1 || page <= TotalPages(total, limit))
  }

  /** Prev and guarded Next never leave the range of pages that hold records. */
  lemma GuardedButtonsStayInRange(page: int, limit: nat, total: nat)
    requires limit > 0
    requires InRange(page, limit, total)
    ensures InRange(PrevPage(page), limit, total)
    ensures InRange(GuardedNext(page, limit, total), limit, total)
  {
    var n := GuardedNext(page, limit, total);
    if n == page + 1 {
      var t := TotalPages(total, limit);
      if n > t {
        assert page >= t;
        MulMono(t, page, limit);
        assert false;
      }
    }
  }

  /** Every page the guarded Next reaches from page 1 still starts inside the records. */
  lemma GuardedNextShowsRecords(page: int, limit: nat, total: nat)
    requires page >= 1
    requires GuardedNext(page, limit, total) == page + 1
    ensures 0 <= Skip(page + 1, limit) < total
  {
  }

  /** Starting on the last page, the unbounded Next reaches a page that starts past every record. */
  lemma UnboundedNextLeavesRange(limit: nat, total: nat)
    requires limit > 0
    ensures Skip(UnboundedNext(TotalPages(total, limit)), limit) >= total
  {
    var t := TotalPages(total, limit);
    assert Skip(t + 1, limit) == t * limit;
  }

  /** With the clamped Next and Prev, pages stay within 1..totalPages. */
  lemma ClampedButtonsStayInRange(page: int, totalPages: int)
    requires 1 <= page <= totalPages
    ensures 1 <= ClampedNext(page, totalPages) <= totalPages
    ensures 1 <= PrevPage(page) <= totalPages
  {
  }

  /** `totalPages > 1`: whether the Prev/Next controls are rendered. */
  predicate ShowControls(totalPages: int) {
    totalPages > 1
  }

  /** The controls appear exactly when the records do not fit on one page. */
  lemma ShowControlsIffOverflow(total: nat, limit: nat)
    requires limit > 0
    ensures ShowControls(TotalPages(total, limit)) <==> total > limit
  {
    var t := TotalPages(total, limit);
    if t > 1 {
      assert !(1 * limit >= total);
    }
  }

  /** `arr.slice(start, end)` for non-negative bounds: clamped to the length. */
  function Slice<T>(s: seq<T>, start: nat, end: nat): (r: seq<T>)
    ensures |r| == if start < end && start < |s| then (if end < |s| then end else |s|) - start else 0
    ensures forall i :: 0 <= i < |r| ==> r[i] == s[start + i]
  {
    var e := if end < |s| then end else |s|;
    if start < e then s[start..e] else []
  }

  /** The records of `page` out of the whole list `all`: `slice(skip, skip + limit)`. */
  function Window<T>(all: seq<T>, page: int, limit: nat): (r: seq<T>)
    requires page >= 1
    ensures |r| <= limit
    ensures forall i :: 0 <= i < |r| ==> Skip(page, limit) + i < |all| && r[i] == all[Skip(page, limit) + i]
    ensures Skip(page, limit) >= |all| ==> r == []
  {
    Slice(all, Skip(page, limit), Skip(page, limit) + limit)
  }

  /** `(page - 1) * limit + 1` and `Math.min(page * limit, total)`: the footer's first and last record numbers. */
  function FooterRange(page: int, limit: nat, total: nat): (int, int) {
    (Skip(page, limit) + 1, if page * limit < total then page * limit else total)
  }

  /** When the page holds records, the footer counts exactly the records in the window. */
  lemma FooterMatchesWindow<T>(all: seq<T>, page: int, limit: nat)
    requires page >= 1
    requires Skip(page, limit) < |all|
    ensures FooterRange(page, limit, |all|).1 - FooterRange(page, limit, |all|).0 + 1
         == |Window(all, page, limit)|
    ensures FooterRange(page, limit, |all|).0 == Skip(page, limit) + 1
  {
  }
}
