/**
 * `PaginationUtil` of the shared utilities: the page count of a listing and
 * the number of records to skip for a page. The page size is at least 1, as
 * every caller's query schema demands; counts are whole numbers.
 */
module Pagination {

  /** `PaginationParams`. */
  datatype PaginationParams = PaginationParams(page: int, limit: int)

  /** The `pagination` block of a `PaginatedResponse`. */
  datatype PageInfo = PageInfo(page: int, limit: int, total: nat, totalPages: nat)

  /** `PaginatedResponse<T>`. */
  datatype PaginatedResponse<T> = PaginatedResponse(data: seq<T>, pagination: PageInfo)

  /** `Math.ceil(total / limit)`, the ceiling of the exact quotient. */
  function CeilDiv(total: nat, limit: int): (pages: nat)
    requires limit > 0
    ensures pages as real >= total as real / limit as real
    ensures pages as real < total as real / limit as real + 1.0
  {
    var q := total as real / limit as real;
    if q.Floor as real == q then q.Floor else q.Floor + 1
  }

  /** `paginate(data, total, params)`. */
  function Paginate<T>(data: seq<T>, total: nat, params: PaginationParams): (r: PaginatedResponse<T>)
    requires params.limit > 0
    ensures r.data == data
    ensures r.pagination.page == params.page && r.pagination.limit == params.limit
    ensures r.pagination.total == total
    ensures r.pagination.totalPages == 0 <==> total == 0
  {
    var pages := CeilDiv(total, params.limit);
    PaginatedResponse(data, PageInfo(params.page, params.limit, total, pages))
  }

  /** `getOffset(page, limit)`: the records before the page. */
  function GetOffset(page: int, limit: int): (offset: int)
    ensures page == 1 ==> offset == 0
    ensures page >= 1 && limit >= 0 ==> offset >= 0
  {
    (page - 1) * limit
  }

  /** Consecutive pages start `limit` records apart. */
  lemma OffsetsStepByLimit(page: int, limit: int)
    ensures GetOffset(page + 1, limit) == GetOffset(page, limit) + limit
  {
  }

  /** The page count is the integer ceiling: the pages hold every record, and the last one is non-empty. */
  lemma {:induction false} PagesCoverTotal(total: nat, limit: int)
    requires limit > 0
    ensures CeilDiv(total, limit) * limit >= total
    ensures (CeilDiv(total, limit) - 1) * limit < total || total == 0
  {
    var q := total as real / limit as real;
    var f := q.Floor;
    FloorBounds(total, limit);
    if q.Floor as real == q {
      assert CeilDiv(total, limit) == f;
    } else {
      assert CeilDiv(total, limit) == f + 1;
    }
  }

  /** The floor `f` of the exact quotient has `f * limit <= total < f * limit + limit`, with equality just when the quotient is whole. */
  lemma FloorBounds(total: nat, limit: int)
    requires limit > 0
    ensures var q := total as real / limit as real;
      && q.Floor * limit <= total < q.Floor * limit + limit
      && (q.Floor as real == q <==> q.Floor * limit == total)
  {
    var q := total as real / limit as real;
    var f := q.Floor;
    assert q * limit as real == total as real;
    ScaledFloor(q, limit as real, total as real);
    MulAsReal(f, limit);
    assert (f * limit) as real <= total as real;
    assert total as real < (f * limit + limit) as real;
    if f * limit == total {
      CancelFactor(f as real, q, limit as real);
    }
  }

  /** Scaling a number by `k > 0` puts its scaled floor at or below it, and one step of `k` more above it. */
  lemma ScaledFloor(q: real, k: real, t: real)
    requires k > 0.0 && q * k == t
    ensures q.Floor as real * k <= t < q.Floor as real * k + k
  {
    var f := q.Floor as real;
    assert f <= q < f + 1.0;
    ScaleAbove(f, q, k);
    ScaleBelow(q, f + 1.0, k);
    assert (f + 1.0) * k == f * k + k;
    assert q * k < f * k + k;
    assert t < f * k + k;
  }

  /** Converting a product of integers to a real multiplies the converted factors. */
  lemma MulAsReal(a: int, b: int)
    ensures (a * b) as real == a as real * b as real
  {
  }

  /** A positive factor cancels from an equation. */
  lemma CancelFactor(x: real, y: real, k: real)
    requires k > 0.0 && x * k == y * k
    ensures x == y
  {
    if x < y {
      ScaleBelow(x, y, k);
    } else if y < x {
      ScaleBelow(y, x, k);
    }
  }

  /** The page count agrees with the integer formula `(total + limit - 1) / limit`. */
  lemma {:induction false} CeilDivFormula(total: nat, limit: int)
    requires limit > 0
    ensures CeilDiv(total, limit) == (total + limit - 1) / limit
  {
    PagesCoverTotal(total, limit);
    var c := CeilDiv(total, limit);
    if total == 0 {
      assert c as real < 1.0;
      DivUnique(limit - 1, limit, 0);
    } else {
      DivUnique(total + limit - 1, limit, c);
    }
  }

  /** Multiplying a strict inequality by a positive number keeps it. */
  lemma ScaleBelow(x: real, y: real, k: real)
    requires x < y && k > 0.0
    ensures x * k < y * k
  {
  }

  /** Multiplying a weak inequality by a positive number keeps it. */
  lemma ScaleAbove(x: real, y: real, k: real)
    requires x <= y && k > 0.0
    ensures x * k <= y * k
  {
  }

  /** Multiplying by a non-negative number keeps a weak inequality between integers. */
  lemma MulMono(a: int, b: int, k: int)
    requires a <= b && k >= 0
    ensures a * k <= b * k
  {
    assert b * k - a * k == (b - a) * k;
  }

  /** The quotient of `m` by `k` is the `c` with `c * k <= m < c * k + k`. */
  lemma DivUnique(m: int, k: int, c: int)
    requires k > 0 && c * k <= m < c * k + k
    ensures m / k == c
  {
    var d := m / k;
    assert m == d * k + m % k;
    if d < c {
      MulMono(d + 1, c, k);
    } else if d > c {
      MulMono(c + 1, d, k);
    }
  }

  /** Below `c * k`, the quotient by `k` is below `c`. */
  lemma DivBelow(m: nat, k: int, c: int)
    requires k > 0 && m < c * k
    ensures m / k < c
  {
    var d := m / k;
    assert m == d * k + m % k;
    if d >= c {
      MulMono(c, d, k);
    }
  }

  /** The page after the last one starts past the last record, so it comes back empty. */
  lemma {:induction false} PageAfterLastIsPastEnd(total: nat, limit: int)
    requires limit > 0
    ensures GetOffset(CeilDiv(total, limit) + 1, limit) >= total
  {
    PagesCoverTotal(total, limit);
  }

  /** Every record lies on exactly one page from 1 to the page count. */
  lemma {:induction false} RecordOnOnePage(total: nat, limit: int, index: nat)
    requires limit > 0 && index < total
    ensures var page := index / limit + 1;
      1 <= page <= CeilDiv(total, limit) &&
      GetOffset(page, limit) <= index < GetOffset(page + 1, limit)
  {
    PagesCoverTotal(total, limit);
    var page := index / limit + 1;
    assert GetOffset(page, limit) == index / limit * limit;
    assert index / limit * limit <= index < index / limit * limit + limit;
    DivBelow(index, limit, CeilDiv(total, limit));
  }
}
