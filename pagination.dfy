/** The arithmetic of the paginated voter listing: `page` and `limit` come from
    the query string through `parseInt(x) || default`, `skip = (page - 1) * limit`,
    the store skips `skip` records and returns at most `limit`, and
    `totalPages = ceil(count / limit)`. */
module Pagination {
  import opened Responses

  datatype Page<T> = Page(voters: seq<T>, totalPages: int)

  function Min(a: int, b: int): int { if a <= b then a else b }
  function Max(a: int, b: int): int { if a <= b then b else a }
  function Abs(a: int): nat { if a < 0 then -a else a }

  /** `parseInt(x) || default`: an unparsable value (None) or 0 gives the default. */
  function OrDefault(parsed: Option<int>, default: int): int {
    if parsed.None? || parsed.value == 0 then default else parsed.value
  }

  /** Ceiling division, `Math.ceil(n / d)`, for a divisor of either sign. */
  function CeilDiv(n: nat, d: int): (q: int)
    requires d != 0
    ensures d > 0 ==> (q - 1) * d < n <= q * d
    ensures d < 0 ==> q * d <= n < (q - 1) * d
  {
    if d > 0 then
      var q := (n + d - 1) / d;
      assert n + d - 1 == q * d + (n + d - 1) % d;
      q
    else
      var q := n / d;
      assert n == q * d + n % d;
      q
  }

  /** One page of the records in the store's order. A negative skip is refused
      by the store; a negative limit is taken by the driver as its magnitude. */
  function Paginate<T>(records: seq<T>, pageParam: Option<int>, limitParam: Option<int>): (r: Result<Page<T>>)
    ensures var limit := OrDefault(limitParam, 10);
            var skip := (OrDefault(pageParam, 1) - 1) * limit;
            && (r.Ok? <==> skip >= 0)
            && (r.Err? ==> r.error == Internal)
            && (r.Ok? ==> |r.value.voters| == Min(Abs(limit), Max(0, |records| - skip)))
            && (r.Ok? ==> forall j :: 0 <= j < |r.value.voters| ==> r.value.voters[j] == records[skip + j])
            && (r.Ok? ==> r.value.totalPages == CeilDiv(|records|, limit))
  {
    var page := OrDefault(pageParam, 1);
    var limit := OrDefault(limitParam, 10);
    var skip := (page - 1) * limit;
    if skip < 0 then Err(Internal)
    else
      var from := Min(skip, |records|);
      var to := Min(from + Abs(limit), |records|);
      Ok(Page(records[from..to], CeilDiv(|records|, limit)))
  }

  /** With a positive limit, record i is on page i / limit + 1 at position i % limit,
      and that page is within the page count. */
  lemma PageOfIndex<T>(records: seq<T>, i: nat, limit: nat)
    requires i < |records| && limit >= 1
    ensures var r := Paginate(records, Some(i / limit + 1), Some(limit));
            && r.Ok?
            && i % limit < |r.value.voters|
            && r.value.voters[i % limit] == records[i]
            && i / limit + 1 <= r.value.totalPages
  {
    var q, m := i / limit, i % limit;
    DivMod(i, limit);
    PageSlice(records, limit, q + 1);
    var r := Paginate(records, Some(q + 1), Some(limit));
    assert q * limit + limit == (q + 1) * limit;
    assert r.value.voters == records[q * limit..Min((q + 1) * limit, |records|)];
    var total := r.value.totalPages;
    assert |records| <= total * limit;
    if total < q + 1 {
      MulMonotone(total, q, limit);
      assert false;
    }
  }

  /** The concatenation of pages `page` through `last`. */
  ghost function PagesFrom<T>(records: seq<T>, limit: nat, page: nat, last: int): seq<T>
    requires limit >= 1 && page >= 1
    decreases last - page
  {
    if page > last then []
    else Paginate(records, Some(page), Some(limit)).value.voters + PagesFrom(records, limit, page + 1, last)
  }

  /** Page `page` is the slice between the page's first and the next page's first record. */
  lemma PageSlice<T>(records: seq<T>, limit: nat, page: nat)
    requires limit >= 1 && page >= 1
    ensures Paginate(records, Some(page), Some(limit)).Ok?
    ensures Paginate(records, Some(page), Some(limit)).value.voters
         == records[Min((page - 1) * limit, |records|)..Min(page * limit, |records|)]
  {
    assert (page - 1) * limit + limit == page * limit;
  }

  lemma DivMod(i: nat, d: nat)
    requires d >= 1
    ensures i == (i / d) * d + i % d && 0 <= i % d < d
  {
  }

  lemma MulMonotone(a: int, b: int, c: nat)
    requires a <= b
    ensures a * c <= b * c
  {
  }

  lemma {:induction false} PagesFromSuffix<T>(records: seq<T>, limit: nat, page: nat, last: int)
    requires limit >= 1 && page >= 1
    requires last == CeilDiv(|records|, limit)
    ensures PagesFrom(records, limit, page, last) == records[Min((page - 1) * limit, |records|)..]
    decreases last - page
  {
    if page > last {
      MulMonotone(last, page - 1, limit);
    } else {
      PagesFromSuffix(records, limit, page + 1, last);
      PageSlice(records, limit, page);
      var from := Min((page - 1) * limit, |records|);
      var next := Min(page * limit, |records|);
      MulMonotone(page - 1, page, limit);
      assert records[from..] == records[from..next] + records[next..];
    }
  }

  /** Walking pages 1 through totalPages returns every record once, in order. */
  lemma PagesCover<T>(records: seq<T>, limit: nat)
    requires limit >= 1
    ensures PagesFrom(records, limit, 1, CeilDiv(|records|, limit)) == records
  {
    PagesFromSuffix(records, limit, 1, CeilDiv(|records|, limit));
  }
}
