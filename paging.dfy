/** The query a fetch sends to the search endpoint: the search text, the
    offset of the first post of the current page and the page size. */
module Paging {

  /** The `q`, `skip` and `limit` parameters of one search request. */
  datatype Request = Request(query: string, skip: int, limit: int)

  /** Offset of the first post of page `current` (pages count from 1). */
  function Offset(current: int, pageSize: int): (skip: int)
    ensures current >= 1 && pageSize >= 1 ==> skip >= 0 && skip % pageSize == 0
    ensures pageSize >= 1 ==> skip / pageSize == current - 1
  {
    PageStartLemma(current, pageSize);
    (current - 1) * pageSize
  }

  /** The request of a fetch made on page `current` with `pageSize` posts per page. */
  function PageRequest(query: string, current: int, pageSize: int): (r: Request)
    ensures r.query == query && r.limit == pageSize
    ensures current >= 1 && pageSize >= 1 ==> r.skip >= 0 && r.skip % r.limit == 0
    ensures pageSize >= 1 ==> r.skip / r.limit + 1 == current
  {
    Request(query, Offset(current, pageSize), pageSize)
  }

  /** A multiple of a positive size divides back to its factor without remainder. */
  lemma PageStartLemma(current: int, pageSize: int)
    ensures pageSize >= 1 ==> ((current - 1) * pageSize) / pageSize == current - 1
    ensures pageSize >= 1 ==> ((current - 1) * pageSize) % pageSize == 0
    ensures current >= 1 && pageSize >= 1 ==> (current - 1) * pageSize >= 0
  {
    if pageSize >= 1 {
      var q := current - 1;
      var n := q * pageSize;
      // Euclidean division is unique: n == q * pageSize + 0 with 0 <= 0 < pageSize
      DivModUnique(n, pageSize, q, 0);
      if current >= 1 {
        MulNonNegative(q, pageSize);
      }
    }
  }

  lemma MulNonNegative(a: int, b: int)
    requires a >= 0 && b >= 0
    ensures a * b >= 0
  {
  }

  lemma DivModUnique(n: int, d: int, q: int, m: int)
    requires d >= 1 && 0 <= m < d && n == q * d + m
    ensures n / d == q && n % d == m
  {
    var q', m' := n / d, n % d;
    assert n == q' * d + m';
    assert (q + 1) * d == q * d + d && (q' + 1) * d == q' * d + d;
    MulMonotone(q + 1, q', d);
    MulMonotone(q' + 1, q, d);
  }

  lemma MulMonotone(a: int, b: int, d: int)
    requires d >= 0
    ensures a <= b ==> a * d <= b * d
  {
  }

  /** Consecutive pages are adjacent: the next page starts right after this one ends. */
  lemma NextPageFollows(current: int, pageSize: int)
    ensures Offset(current + 1, pageSize) == Offset(current, pageSize) + pageSize
  {
  }

  /** Distinct pages of the same size never overlap. */
  lemma PagesDisjoint(c1: int, c2: int, pageSize: int)
    requires c1 < c2 && pageSize >= 1
    ensures Offset(c1, pageSize) + pageSize <= Offset(c2, pageSize)
  {
  }
}
