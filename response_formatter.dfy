/** The response helpers: the success, error, validation-error and paginated
    envelopes, and the page count `Math.ceil(total / limit)` that the
    paginated envelope and the service listing share. */
module ResponseFormatter {
  import opened Common

  const DefaultSuccess := "操作成功"
  const DefaultFailure := "操作失败"
  const ValidationFailed := "验证失败"

  /** `Math.ceil(total / limit)` as it reaches the JSON body: a whole number,
      or `null` when the division by a zero limit gives `Infinity` or `NaN`
      (both serialise to `null`). */
  datatype PageCount = Pages(n: int) | Null

  datatype Pagination = Pagination(total: int, page: int, limit: int, pages: PageCount)

  /** A JSON envelope: its status, the `success` flag, the message, and the
      optional `data`, `errors` and `pagination` members. */
  datatype Envelope<T, E> = Envelope(
    status: int,
    success: bool,
    message: string,
    data: Option<T>,
    errors: Option<seq<E>>,
    pagination: Option<Pagination>)

  /** A JavaScript default parameter: used only when the argument is absent. */
  function Default<A>(x: Option<A>, d: A): (r: A)
    ensures x.Some? ==> r == x.value
    ensures x.None? ==> r == d
  {
    if x.Some? then x.value else d
  }

  /** The ceiling of the exact quotient `a / b`, for a divisor of either sign.
      Dafny's `/` is Euclidean, so for `b > 0` it is the floor. */
  function CeilDiv(a: int, b: int): (q: int)
    requires b != 0
    ensures b > 0 ==> (q - 1) * b < a <= q * b
    ensures b < 0 ==> q * b <= a < (q - 1) * b
  {
    if b > 0 then -((-a) / b) else -(a / (-b))
  }

  /** `Math.ceil(total / limit)`. */
  function PageCountOf(total: int, limit: int): (p: PageCount)
    ensures limit == 0 <==> p.Null?
    ensures limit > 0 ==> p.Pages? && (p.n - 1) * limit < total <= p.n * limit
    ensures limit < 0 ==> p.Pages? && p.n * limit <= total < (p.n - 1) * limit
  {
    if limit == 0 then Null else Pages(CeilDiv(total, limit))
  }

  /** With a positive limit there are no pages exactly when there is nothing
      to show, and otherwise the last page is non-empty and not overfull:
      `(pages-1)*limit < total <= pages*limit`. */
  lemma PagesOfPositiveLimit(total: nat, limit: int)
    requires limit > 0
    ensures PageCountOf(total, limit).Pages?
    ensures PageCountOf(total, limit).n >= 0
    ensures PageCountOf(total, limit).n == 0 <==> total == 0
    ensures total > 0 ==> (PageCountOf(total, limit).n - 1) * limit < total <= PageCountOf(total, limit).n * limit
  {
    var n := PageCountOf(total, limit).n;
    assert (n - 1) * limit < total <= n * limit;
  }

  /** The pages needed for `total` items are the least count whose pages hold them all. */
  lemma PagesAreLeast(total: int, limit: int, m: int)
    requires limit > 0 && total <= m * limit
    ensures PageCountOf(total, limit).n <= m
  {
    var n := PageCountOf(total, limit).n;
    assert (n - 1) * limit < m * limit;
  }

  /** `successResponse`: `success` is true; the message defaults to
      "操作成功" and the status to 200. */
  function SuccessResponse<T, E>(data: T, message: Option<string>, status: Option<int>): (e: Envelope<T, E>)
    ensures e.success && e.data == Some(data) && e.errors.None? && e.pagination.None?
    ensures e.message == (if message.Some? then message.value else DefaultSuccess)
    ensures e.status == (if status.Some? then status.value else 200)
  {
    Envelope(Default(status, 200), true, Default(message, DefaultSuccess), Some(data), None, None)
  }

  /** `errorResponse`: `success` is false and there is no data; the message
      defaults to "操作失败" and the status to 400. */
  function ErrorResponse<T, E>(message: Option<string>, status: Option<int>): (e: Envelope<T, E>)
    ensures !e.success && e.data.None? && e.errors.None? && e.pagination.None?
    ensures e.message == (if message.Some? then message.value else DefaultFailure)
    ensures e.status == (if status.Some? then status.value else 400)
  {
    Envelope(Default(status, 400), false, Default(message, DefaultFailure), None, None, None)
  }

  /** `validationErrorResponse`: always 400 and "验证失败", carrying the errors. */
  function ValidationErrorResponse<T, E>(errors: seq<E>): (e: Envelope<T, E>)
    ensures e.status == 400 && !e.success && e.message == ValidationFailed
    ensures e.errors == Some(errors) && e.data.None?
  {
    Envelope(400, false, ValidationFailed, None, Some(errors), None)
  }

  /** `paginatedResponse`: status 200 (the default of `res.json`), the data,
      and the pagination block with the page count of `total` and `limit`;
      a negative limit gives the ceiling of a negative quotient. */
  function PaginatedResponse<T, E>(data: T, total: int, page: int, limit: int,
                                   message: Option<string>): (e: Envelope<T, E>)
    ensures e.status == 200 && e.success && e.data == Some(data) && e.errors.None?
    ensures e.message == (if message.Some? then message.value else DefaultSuccess)
    ensures e.pagination.Some?
    ensures e.pagination.value.total == total && e.pagination.value.page == page
    ensures e.pagination.value.limit == limit
    ensures limit == 0 <==> e.pagination.value.pages.Null?
    ensures e.pagination.value.pages == PageCountOf(total, limit)
    ensures limit > 0 ==> var n := e.pagination.value.pages.n; (n - 1) * limit < total <= n * limit
    ensures limit < 0 ==> var n := e.pagination.value.pages.n; n * limit <= total < (n - 1) * limit
  {
    Envelope(200, true, Default(message, DefaultSuccess), Some(data), None,
             Some(Pagination(total, page, limit, PageCountOf(total, limit))))
  }
}
