/**
 * The API renderer: every failure on an API request becomes a problem-details body in the
 * sense of RFC 7807 (section 3.1 members status, title, detail and instance; section 3.2
 * extension members, here `invalid_params`).
 */
module RestExceptionHandler {
  import opened Wrappers
  import opened Sequences
  import opened LinkedMaps
  import opened ErrorTypes
  import opened Throwables
  import opened ErrorMessageHandler
  import opened BasicExceptionHandler

  /** A value of an extension member; the only one this layer sets is the error map of a binding failure. */
  datatype PropertyValue = ErrorMapValue(entries: ErrorMap)

  /** The extension members, in the order they were set. */
  type Properties = LinkedMap<string, PropertyValue>

  /** org.springframework.http.ProblemDetail: the RFC 7807 members this layer sets, and the extension members. */
  datatype ProblemDetail = ProblemDetail(
    status: int,
    title: Option<string>,
    detail: Option<string>,
    instance: Option<string>,
    properties: Properties)

  /** The extension member a binding failure sets. */
  const INVALID_PARAMS := "invalid_params"

  /** The detail a binding failure reports. */
  const BIND_EXCEPTION_DETAIL := "BindException"

  /** `ProblemDetail.forStatusAndDetail`: only status and detail are set. */
  function ForStatusAndDetail(status: HttpStatus, detail: Option<string>): (pd: ProblemDetail)
    ensures pd.status == status.code && pd.detail == detail
    ensures pd.title.None? && pd.instance.None? && pd.properties == []
  {
    ProblemDetail(status.code, None, detail, None, [])
  }

  /**
   * The body `ErrorResponse.builder(ex, type.status, defaultDetail).title(type.title)
   * .instance(URI.create(path)).build()` produces, before any extension member is set.
   */
  function Built(tax: Taxonomy, t: ErrorType, path: string, defaultDetail: Option<string>): (pd: ProblemDetail)
    ensures pd.status == tax.status(t).code && pd.title == Some(tax.title(t))
    ensures pd.detail == defaultDetail && pd.instance == Some(path) && pd.properties == []
  {
    ForStatusAndDetail(tax.status(t), defaultDetail).(title := Some(tax.title(t)), instance := Some(path))
  }

  /** `createProblemDetail`: the built body with no extension member; this is the REST processor. */
  function CreateProblemDetail(tax: Taxonomy, ex: Throwable, path: string, t: ErrorType, defaultDetail: Option<string>): (pd: ProblemDetail)
    ensures pd.status == tax.status(t).code && pd.title == Some(tax.title(t))
    ensures pd.detail == defaultDetail && pd.instance == Some(path)
    ensures pd.properties == []
  {
    Built(tax, t, path, defaultDetail)
  }

  /** `this::createProblemDetail` as a processor. */
  function Processor(tax: Taxonomy): BasicExceptionHandler.Processor<string, ProblemDetail> {
    (ex: Throwable, path: string, t: ErrorType, msg: Option<string>) => CreateProblemDetail(tax, ex, path, t, msg)
  }

  /**
   * `createParamsProblemDetail`: build the body, then set every additional parameter as an
   * extension member, in the parameters' order. The parameters are a Map, so no name repeats,
   * and the members end up exactly the parameters.
   */
  method CreateParamsProblemDetail(tax: Taxonomy, ex: Throwable, path: string, t: ErrorType, defaultDetail: Option<string>,
                                   additionalParams: Properties)
    returns (pd: ProblemDetail)
    requires Distinct(Keys(additionalParams))
    ensures pd == Built(tax, t, path, defaultDetail).(properties := additionalParams)
    ensures additionalParams == [] ==> pd == CreateProblemDetail(tax, ex, path, t, defaultDetail)
  {
    pd := Built(tax, t, path, defaultDetail);
    var i := 0;
    while i < |additionalParams|
      invariant 0 <= i <= |additionalParams|
      invariant pd == Built(tax, t, path, defaultDetail).(properties := FromEntries(additionalParams[..i]))
    {
      assert additionalParams[..i + 1][..i] == additionalParams[..i];
      pd := pd.(properties := Put(pd.properties, additionalParams[i].0, additionalParams[i].1));
      i := i + 1;
    }
    assert additionalParams[..|additionalParams|] == additionalParams;
    FromEntriesOfDistinct(additionalParams);
  }

  /** The body `bindException` answers with: kind BAD_REQUEST, detail "BindException", and the error map as `invalid_params`. */
  function BindProblem(tax: Taxonomy, ms: MessageSource, locale: Locale, path: string, br: BindingResult): (pd: ProblemDetail)
    ensures pd.status == tax.status(BAD_REQUEST).code && pd.title == Some(tax.title(BAD_REQUEST))
    ensures pd.detail == Some(BIND_EXCEPTION_DETAIL) && pd.instance == Some(path)
    ensures Keys(pd.properties) == [INVALID_PARAMS]
    ensures Get(pd.properties, INVALID_PARAMS) == Some(ErrorMapValue(ErrorMapOf(ms, locale, br)))
  {
    Built(tax, BAD_REQUEST, path, Some(BIND_EXCEPTION_DETAIL)).(properties := [(INVALID_PARAMS, ErrorMapValue(ErrorMapOf(ms, locale, br)))])
  }

  /**
   * `bindException`: the error map of the binding result, set as the one extension member of a
   * BAD_REQUEST body; the exception's own class never matters.
   */
  method BindException(tax: Taxonomy, ms: MessageSource, locale: Locale, ex: Throwable, path: string, br: BindingResult)
    returns (pd: ProblemDetail)
    ensures pd == BindProblem(tax, ms, locale, path, br)
  {
    var invalidParams := GetErrorMap(ms, locale, br);
    pd := CreateParamsProblemDetail(tax, ex, path, BAD_REQUEST, Some(BIND_EXCEPTION_DETAIL), [(INVALID_PARAMS, ErrorMapValue(invalidParams))]);
  }

  /** `exception`: any other exception is classified and rendered by `createProblemDetail`. */
  method Exception(tax: Taxonomy, sub: Hierarchy, ex: Throwable, path: string) returns (pd: ProblemDetail)
    ensures pd == Processed(HTTP_STATUS_MAP, sub, ex, path, Processor(tax))
    ensures var c := Classify(HTTP_STATUS_MAP, sub, ex);
            pd == ProblemDetail(tax.status(c.errorType).code, Some(tax.title(c.errorType)), c.msg, Some(path), [])
  {
    pd := ProcessException(HTTP_STATUS_MAP, sub, ex, path, Processor(tax));
  }

  /**
   * The supplier of `processError`, for an error recorded without an exception: the status
   * `getStatus` resolves, the recorded message as detail, the title of `ErrorType.of` that status,
   * and the path as instance.
   */
  function RecordedProblem(tax: Taxonomy, path: string, intStatus: Option<int>, msg: Option<string>): (pd: ProblemDetail)
    requires Resolvable(tax, intStatus)
    ensures pd.status == GetStatus(tax, intStatus).code
    ensures intStatus.None? ==> pd.status == INTERNAL_SERVER_ERROR.code
    ensures intStatus.Some? ==> pd.status == intStatus.value
    ensures pd.title == Some(tax.title(tax.of(GetStatus(tax, intStatus))))
    ensures pd.detail == msg && pd.instance == Some(path) && pd.properties == []
  {
    var status := GetStatus(tax, intStatus);
    var pd := ForStatusAndDetail(status, msg);
    var pd := pd.(title := Some(tax.title(tax.of(status))));
    pd.(instance := Some(path))
  }

  /** What `processError` answers: the classified exception when there is one, the recorded error otherwise. */
  function Render(tax: Taxonomy, sub: Hierarchy, th: Option<Throwable>, path: string, intStatus: Option<int>, msg: Option<string>): (pd: ProblemDetail)
    requires th.None? ==> Resolvable(tax, intStatus)
    ensures th.Some? ==> pd == Processed(HTTP_STATUS_MAP, sub, th.value, path, Processor(tax))
    ensures th.None? ==> pd == RecordedProblem(tax, path, intStatus, msg)
  {
    if th.Some? then Processed(HTTP_STATUS_MAP, sub, th.value, path, Processor(tax))
    else RecordedProblem(tax, path, intStatus, msg)
  }

  /** `processError`: hand the shared `processError` this renderer's processor and the recorded-error supplier. */
  method ProcessError(tax: Taxonomy, sub: Hierarchy, th: Option<Throwable>, path: string, intStatus: Option<int>, msg: Option<string>)
    returns (pd: ProblemDetail)
    requires th.None? ==> Resolvable(tax, intStatus)
    ensures pd == Render(tax, sub, th, path, intStatus, msg)
  {
    pd := BasicExceptionHandler.ProcessError(HTTP_STATUS_MAP, sub, th, path, msg, Processor(tax),
                                             () requires Resolvable(tax, intStatus) => RecordedProblem(tax, path, intStatus, msg));
  }

  /**
   * An invalid request body on the API is answered with 422 under the taxonomy the controller
   * tests show, and the message of each field error that is not overridden later is in `invalid_params`.
   */
  lemma InvalidBodyIsUnprocessable(tax: Taxonomy, ms: MessageSource, locale: Locale, path: string, br: BindingResult, j: nat)
    requires BadRequestIsUnprocessable(tax)
    requires j < |br.fieldErrors|
    requires forall k :: j < k < |br.fieldErrors| ==> br.fieldErrors[k].field != br.fieldErrors[j].field
    ensures BindProblem(tax, ms, locale, path, br).status == 422
    ensures Get(ErrorMapOf(ms, locale, br), br.fieldErrors[j].field)
            == Some(GetErrorMessage(ms, locale, br.fieldErrors[j].error))
  {
    var fs := br.fieldErrors;
    var k := fs[j].field;
    LastFieldPut(ms, locale, fs, j);
    FieldPutsKeys(ms, locale, fs);
    FieldErrorOverridesGlobal(ms, locale, br, k);
  }
}
