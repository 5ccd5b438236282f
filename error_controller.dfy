/**
 * The funnel for errors that reach the container's error page: the request's path alone
 * decides whether the API renderer or the HTML renderer answers.
 */
module ErrorController {
  import opened Wrappers
  import opened Text
  import opened ErrorTypes
  import opened Throwables
  import Rest = RestExceptionHandler
  import UI = UIExceptionHandler
  import BasicExceptionHandler

  /** The prefix of every API path. */
  const API_PATH := "/api"

  /** `path != null && path.startsWith(API_PATH)`. */
  predicate IsApiRequest(path: Option<string>) {
    path.Some? && StartsWith(path.value, API_PATH)
  }

  /** The answer: a problem-details body or a page. */
  datatype Response = Problem(pd: Rest.ProblemDetail) | Page(page: UI.Page)

  /**
   * `error`: the recorded exception, path, status and message go unchanged to the API renderer
   * when the path starts with "/api", and to the HTML renderer otherwise, a missing path included.
   */
  function Error(tax: Taxonomy, sub: Hierarchy, th: Option<Throwable>, path: Option<string>, status: Option<int>,
                 msg: Option<string>): (r: Response)
    requires th.None? ==> Resolvable(tax, status)
    ensures r.Problem? <==> IsApiRequest(path)
    ensures r.Problem? ==> path.Some? && r.pd == Rest.Render(tax, sub, th, path.value, status, msg)
    ensures r.Page? ==> r.page == UI.Render(tax, sub, th, path, status, msg)
  {
    if path.Some? && StartsWith(path.value, API_PATH) then Problem(Rest.Render(tax, sub, th, path.value, status, msg))
    else Page(UI.Render(tax, sub, th, path, status, msg))
  }

  /** Routing is a plain prefix test: "/apix" is routed like "/api/users", and neither "/ap" nor "/ui/api" nor a missing path is. */
  lemma PrefixRouting(tax: Taxonomy, sub: Hierarchy, th: Option<Throwable>, status: Option<int>, msg: Option<string>)
    requires th.None? ==> Resolvable(tax, status)
    ensures Error(tax, sub, th, Some("/apix"), status, msg).Problem?
    ensures Error(tax, sub, th, Some("/api/admin/users"), status, msg).Problem?
    ensures Error(tax, sub, th, Some("/ap"), status, msg).Page?
    ensures Error(tax, sub, th, Some("/ui/api"), status, msg).Page?
    ensures Error(tax, sub, th, None, status, msg).Page?
  {
    assert "/apix"[..|API_PATH|] == API_PATH;
    assert "/api/admin/users"[..|API_PATH|] == API_PATH;
    assert "/ui/api"[..|API_PATH|] != API_PATH by { assert "/ui/api"[1] != API_PATH[1]; }
  }

  /**
   * An error on an API path recorded without an exception or a status is a 500 body whose detail
   * is the recorded message and whose instance is the path.
   */
  lemma UnknownApiErrorIsServerError(tax: Taxonomy, sub: Hierarchy, path: string, msg: Option<string>)
    requires StartsWith(path, API_PATH)
    ensures var r := Error(tax, sub, None, Some(path), None, msg);
            && r.Problem?
            && r.pd.status == 500 && r.pd.detail == msg && r.pd.instance == Some(path)
            && r.pd.title == Some(tax.title(tax.of(INTERNAL_SERVER_ERROR)))
  {
    assert Rest.Render(tax, sub, None, path, None, msg) == Rest.RecordedProblem(tax, path, None, msg);
  }

  /** A page error recorded without an exception never shows the "404" view, whatever its status. */
  lemma RecordedPageIsExceptionView(tax: Taxonomy, sub: Hierarchy, path: Option<string>, status: Option<int>, msg: string)
    requires !IsApiRequest(path) && Resolvable(tax, status)
    ensures var r := Error(tax, sub, None, path, status, Some(msg));
            && r.Page? && r.page.Success?
            && r.page.value.viewName == UI.EXCEPTION_VIEW
            && UI.Shows(r.page.value, "msg", UI.Text(msg))
            && r.page.value.status == Some(BasicExceptionHandler.GetStatus(tax, status))
  {
    UI.RecordedNeverNotFound(tax, sub, path, status, Some(msg));
  }
}
