/** The admin HTTP layer around the admin services: the admin-only guard, the query bounds of the
    list endpoints, the page count they report, and the 404 answer for a record that is not
    there. */
module AdminRouter {
  import opened Wrappers
  import opened Text
  import opened Records

  const AdminRequired: string := "Admin access required"

  /** `require_admin`: the caller itself when it is an admin, `PermissionError` otherwise. */
  function RequireAdmin(caller: User): (r: Outcome<User>)
    ensures r.Ok? <==> caller.isAdmin
    ensures r.Ok? ==> r.value == caller
    ensures r.Raise? ==> r.exc == PermissionError(AdminRequired) && r.Raises("PermissionError")
  {
    if !caller.isAdmin then Raise(PermissionError(AdminRequired)) else Ok(caller)
  }

  /** `(total + limit - 1) // limit`; the query bounds guarantee `limit >= 1`. */
  function Pages(total: nat, limit: int): nat
    requires limit >= 1
  {
    (total + limit - 1) / limit
  }

  /** The page count is the ceiling of `total / limit`: no pages for no rows, and otherwise
      just enough pages of `limit` rows to hold them all. */
  lemma PagesIsCeiling(total: nat, limit: int)
    requires limit >= 1
    ensures total == 0 ==> Pages(total, limit) == 0
    ensures total > 0 ==> (Pages(total, limit) - 1) * limit < total <= Pages(total, limit) * limit
  {
    var p := Pages(total, limit);
    var q := total + limit - 1;
    assert q == p * limit + q % limit && 0 <= q % limit < limit;
    if total == 0 {
      assert q < limit;
    }
  }

  /** 45 rows of 20 need 3 pages; 40 rows need exactly 2. */
  lemma PagesExamples()
    ensures Pages(45, 20) == 3 && Pages(40, 20) == 2 && Pages(0, 20) == 0 && Pages(1, 100) == 1
  {
  }

  /** The list endpoints' bounds: `page >= 1` and `1 <= limit <= 100`. */
  predicate ListQueryAccepted(page: int, limit: int) { page >= 1 && 1 <= limit <= 100 }

  /** The recent-activity endpoint's bound: `1 <= limit <= 50`. */
  predicate RecentActivityLimitAccepted(limit: int) { 1 <= limit <= 50 }

  /** FastAPI's answer to a query parameter outside its bounds. */
  function RequestValidationError(param: string): Exc
  {
    Exc("RequestValidationError", {"RequestValidationError", "ValidationException", "Exception"},
        "invalid query parameter: " + param, Some(422), None)
  }

  /** The body of a list endpoint. */
  datatype PageResponse<T> = PageResponse(items: seq<T>, total: nat, page: int, limit: int, pages: nat)

  /** A list endpoint: out-of-bounds paging is refused before the service runs; otherwise the
      service's page of items and its total come back with the page count. */
  function ListEndpoint<T>(page: int, limit: int, items: seq<T>, total: nat): (r: Outcome<PageResponse<T>>)
    ensures r.Ok? <==> ListQueryAccepted(page, limit)
    ensures r.Raise? ==> r.exc.statusCode == Some(422)
    ensures r.Ok? ==> r.value.items == items && r.value.total == total && r.value.page == page
                      && r.value.limit == limit
                      && (total > 0 ==> (r.value.pages - 1) * limit < total <= r.value.pages * limit)
                      && (total == 0 ==> r.value.pages == 0)
  {
    if page < 1 then Raise(RequestValidationError("page"))
    else if !(1 <= limit <= 100) then Raise(RequestValidationError("limit"))
    else
      PagesIsCeiling(total, limit);
      Ok(PageResponse(items, total, page, limit, Pages(total, limit)))
  }

  /** `HTTPException(404, f"{entity} {id} not found")`. */
  function NotFound(entity: string, id: int): Exc
  {
    HttpException(404, entity + " " + IntToString(id) + " not found")
  }

  /** What a detail or update endpoint makes of its service's answer: a raised exception passes
      through, None becomes 404, and a record is returned as it is. */
  function OrNotFound<T>(entity: string, id: int, answer: Outcome<Option<T>>): (r: Outcome<T>)
    ensures answer.Raise? ==> r == Raise(answer.exc)
    ensures answer == Ok(None) ==> r == Raise(NotFound(entity, id)) && r.exc.statusCode == Some(404)
    ensures answer.Ok? && answer.value.Some? ==> r == Ok(answer.value.value)
  {
    match answer
    case Raise(e) => Raise(e)
    case Ok(None) => Raise(NotFound(entity, id))
    case Ok(Some(x)) => Ok(x)
  }

  /** An endpoint behind `require_admin`: a non-admin caller is refused before anything runs. */
  function AdminOnly<T>(caller: User, answer: Outcome<T>): (r: Outcome<T>)
    ensures !caller.isAdmin ==> r == Raise(PermissionError(AdminRequired))
    ensures caller.isAdmin ==> r == answer
  {
    match RequireAdmin(caller)
    case Raise(e) => Raise(e)
    case Ok(_) => answer
  }
}
