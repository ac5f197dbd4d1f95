/** The parts of a Django request and response that the views read or produce. */
module Http {

  /** `request.user`: only the two flags the default access check reads. */
  datatype User = User(isActive: bool, isStaff: bool)

  /** A request: its user and its query-string parameters (`request.GET`). */
  datatype Request = Request(user: User, query: map<string, string>)

  /** What a view does with a request: renders a page, or raises `Http404`. */
  datatype Response<+R> = Rendered(page: R) | NotFound
}
