/**
 * The HTML renderer: every failure on a page request becomes either the static "404" view or
 * the "exception" view with a title, a status and a message, and the response status is set.
 */
module UIExceptionHandler {
  import opened Wrappers
  import opened Text
  import opened ErrorTypes
  import opened Throwables
  import opened ErrorMessageHandler
  import opened BasicExceptionHandler

  /** A value in a view's model: text, or an HttpStatus. */
  datatype ModelValue = Text(text: string) | StatusValue(status: HttpStatus)

  /** org.springframework.web.servlet.ModelAndView: view name, model, and response status (unset until `setStatus`). */
  datatype ModelAndView = ModelAndView(viewName: string, model: map<string, ModelValue>, status: Option<HttpStatus>)

  /** A page, or the exception that building it throws. */
  type Page = Result<ModelAndView, string>

  /** The view's model holds `v` under `key`. */
  predicate Shows(mv: ModelAndView, key: string, v: ModelValue) {
    key in mv.model && mv.model[key] == v
  }

  const NOT_FOUND_VIEW := "404"
  const EXCEPTION_VIEW := "exception"

  /** What `Map.of` throws when it is given a null value. */
  const NULL_POINTER := "java.lang.NullPointerException"

  /** The separator `bindException` joins the error lines with. */
  const LINE_BREAK := "<br>"

  /**
   * `getView`: a NoResourceFoundException gets the "404" view with an empty model; anything
   * else, including no exception at all, gets the "exception" view with title, status and
   * message, which `Map.of` refuses when the message is null. The status is then set on the view.
   */
  function GetView(sub: Hierarchy, ex: Option<Throwable>, status: HttpStatus, title: string, msg: Option<string>): (r: Page)
    ensures r.Failure? <==> !IsInstance(sub, ex, NO_RESOURCE_FOUND) && msg.None?
    ensures r.Failure? ==> r.error == NULL_POINTER
    ensures r.Success? ==> r.value.status == Some(status)
    ensures r.Success? ==> (r.value.viewName == NOT_FOUND_VIEW <==> IsInstance(sub, ex, NO_RESOURCE_FOUND))
    ensures r.Success? && IsInstance(sub, ex, NO_RESOURCE_FOUND) ==> r.value.model == map[]
    ensures r.Success? && !IsInstance(sub, ex, NO_RESOURCE_FOUND) ==>
              && r.value.viewName == EXCEPTION_VIEW
              && r.value.model.Keys == {"title", "status", "msg"}
              && Shows(r.value, "title", Text(title))
              && Shows(r.value, "status", StatusValue(status))
              && Shows(r.value, "msg", Text(msg.value))
  {
    var mv: Page :=
      if IsInstance(sub, ex, NO_RESOURCE_FOUND) then Success(ModelAndView(NOT_FOUND_VIEW, map[], None))
      else if msg.None? then Failure(NULL_POINTER)
      else Success(ModelAndView(EXCEPTION_VIEW, map["title" := Text(title), "status" := StatusValue(status), "msg" := Text(msg.value)], None));
    if mv.Failure? then mv else Success(mv.value.(status := Some(status)))
  }

  /** `getExceptionView`: the view for a kind, with the kind's own status and title; the path is not used. */
  function GetExceptionView(tax: Taxonomy, sub: Hierarchy, ex: Option<Throwable>, path: Option<string>, t: ErrorType, msg: Option<string>): (r: Page)
    ensures r.Failure? <==> !IsInstance(sub, ex, NO_RESOURCE_FOUND) && msg.None?
    ensures r.Success? ==> r.value.status == Some(tax.status(t))
    ensures r.Success? && !IsInstance(sub, ex, NO_RESOURCE_FOUND) ==>
              Shows(r.value, "title", Text(tax.title(t))) && Shows(r.value, "status", StatusValue(tax.status(t)))
  {
    GetView(sub, ex, tax.status(t), tax.title(t), msg)
  }

  /** `UIExceptionHandler::getExceptionView` as a processor. */
  function Processor(tax: Taxonomy, sub: Hierarchy): BasicExceptionHandler.Processor<Option<string>, Page> {
    (ex: Throwable, path: Option<string>, t: ErrorType, msg: Option<string>) => GetExceptionView(tax, sub, Some(ex), path, t, msg)
  }

  /**
   * The page `bindException` answers with: kind BAD_REQUEST and the error lines joined by "<br>".
   * The message is never null, so the page is always built.
   */
  function BindPage(tax: Taxonomy, sub: Hierarchy, ms: MessageSource, locale: Locale, ex: Throwable, path: string, br: BindingResult): (r: Page)
    ensures r.Success? && r.value.status == Some(tax.status(BAD_REQUEST))
    ensures !sub(ex.cls, NO_RESOURCE_FOUND) ==>
              && r.value.viewName == EXCEPTION_VIEW
              && Shows(r.value, "title", Text(tax.title(BAD_REQUEST)))
              && Shows(r.value, "msg", Text(Join(LINE_BREAK, GetErrorList(ms, locale, br))))
  {
    GetExceptionView(tax, sub, Some(ex), Some(path), BAD_REQUEST, Some(Join(LINE_BREAK, GetErrorList(ms, locale, br))))
  }

  /** `bindException`. */
  method BindException(tax: Taxonomy, sub: Hierarchy, ms: MessageSource, locale: Locale, ex: Throwable, path: string, br: BindingResult)
    returns (r: Page)
    ensures r == BindPage(tax, sub, ms, locale, ex, path, br)
  {
    var errorList := GetErrorList(ms, locale, br);
    r := GetExceptionView(tax, sub, Some(ex), Some(path), BAD_REQUEST, Some(Join(LINE_BREAK, errorList)));
  }

  /**
   * `exception`: any other exception is classified and rendered by `getExceptionView`; the page
   * fails exactly when the reported exception is no NoResourceFoundException and has no message.
   */
  method Exception(tax: Taxonomy, sub: Hierarchy, ex: Throwable, path: string) returns (r: Page)
    ensures r == Processed(HTTP_STATUS_MAP, sub, ex, Some(path), Processor(tax, sub))
    ensures var c := Classify(HTTP_STATUS_MAP, sub, ex);
            && (r.Failure? <==> !sub(c.ex.cls, NO_RESOURCE_FOUND) && c.msg.None?)
            && (r.Success? ==> r.value.status == Some(tax.status(c.errorType)))
  {
    r := ProcessException(HTTP_STATUS_MAP, sub, ex, Some(path), Processor(tax, sub));
  }

  /** The supplier of `processError`: the status `getStatus` resolves, with the title of `ErrorType.of` that status. */
  function RecordedView(tax: Taxonomy, sub: Hierarchy, th: Option<Throwable>, intStatus: Option<int>, msg: Option<string>): (r: Page)
    requires Resolvable(tax, intStatus)
    ensures r.Success? ==> r.value.status == Some(GetStatus(tax, intStatus))
    ensures r.Success? && !IsInstance(sub, th, NO_RESOURCE_FOUND) ==>
              Shows(r.value, "title", Text(tax.title(tax.of(GetStatus(tax, intStatus)))))
  {
    var status := GetStatus(tax, intStatus);
    GetView(sub, th, status, tax.title(tax.of(status)), msg)
  }

  /** What `processError` answers: the classified exception when there is one, the recorded error otherwise. */
  function Render(tax: Taxonomy, sub: Hierarchy, th: Option<Throwable>, path: Option<string>, intStatus: Option<int>, msg: Option<string>): (r: Page)
    requires th.None? ==> Resolvable(tax, intStatus)
    ensures th.Some? ==> r == Processed(HTTP_STATUS_MAP, sub, th.value, path, Processor(tax, sub))
    ensures th.None? ==> r == RecordedView(tax, sub, th, intStatus, msg)
  {
    if th.Some? then Processed(HTTP_STATUS_MAP, sub, th.value, path, Processor(tax, sub))
    else RecordedView(tax, sub, th, intStatus, msg)
  }

  /** `processError`: hand the shared `processError` this renderer's processor and the recorded-error supplier. */
  method ProcessError(tax: Taxonomy, sub: Hierarchy, th: Option<Throwable>, path: Option<string>, intStatus: Option<int>, msg: Option<string>)
    returns (r: Page)
    requires th.None? ==> Resolvable(tax, intStatus)
    ensures r == Render(tax, sub, th, path, intStatus, msg)
  {
    r := BasicExceptionHandler.ProcessError(HTTP_STATUS_MAP, sub, th, path, msg, Processor(tax, sub),
                                            () requires Resolvable(tax, intStatus) => RecordedView(tax, sub, th, intStatus, msg));
  }

  /**
   * The recorded-error fallback runs without an exception, so it never shows "404": it is the
   * "exception" view with the recorded message, and fails only when that message is null.
   */
  lemma RecordedNeverNotFound(tax: Taxonomy, sub: Hierarchy, path: Option<string>, intStatus: Option<int>, msg: Option<string>)
    requires Resolvable(tax, intStatus)
    ensures var r := Render(tax, sub, None, path, intStatus, msg);
            && (r.Failure? <==> msg.None?)
            && (r.Success? ==> r.value.viewName == EXCEPTION_VIEW && Shows(r.value, "msg", Text(msg.value)))
  {
    var status := GetStatus(tax, intStatus);
    assert RecordedView(tax, sub, None, intStatus, msg) == GetView(sub, None, status, tax.title(tax.of(status)), msg);
  }

  /** An exception that matches no row, directly or through its root cause, always gets a page: its message is the class's simple name. */
  lemma UnmatchedAlwaysRendered(tax: Taxonomy, sub: Hierarchy, ex: Throwable, path: string)
    requires FindErrorType(HTTP_STATUS_MAP, sub, ex).None?
    requires FindErrorType(HTTP_STATUS_MAP, sub, RootCause(ex)).None?
    ensures Processed(HTTP_STATUS_MAP, sub, ex, Some(path), Processor(tax, sub)).Success?
  {
    var c := Classify(HTTP_STATUS_MAP, sub, ex);
    assert c.msg.Some?;
  }

  /**
   * A matched exception without a message and that is no NoResourceFoundException has no page:
   * `Map.of` throws on the null message.
   */
  lemma MessagelessMatchFails(tax: Taxonomy, sub: Hierarchy, ex: Throwable, path: string)
    requires !IsAppException(ex) && ex.message.None? && !sub(ex.cls, NO_RESOURCE_FOUND)
    requires FindErrorType(HTTP_STATUS_MAP, sub, ex).Some?
    ensures Processed(HTTP_STATUS_MAP, sub, ex, Some(path), Processor(tax, sub)) == Failure(NULL_POINTER)
  {
    var c := Classify(HTTP_STATUS_MAP, sub, ex);
    assert c.ex == ex && c.msg.None?;
  }
}
