/**
 * The failure taxonomy as this layer sees it. The application's ErrorType enum and Spring's
 * HttpStatus are not part of this model: their statuses, titles and `ErrorType.of` are
 * given by a `Taxonomy` value instead.
 */
module ErrorTypes {
  import opened Wrappers

  /** org.springframework.http.HttpStatus, by its numeric value. */
  datatype HttpStatus = HttpStatus(code: int)

  const INTERNAL_SERVER_ERROR := HttpStatus(500)
  const UNPROCESSABLE_ENTITY := HttpStatus(422)

  /**
   * The ErrorType constants this layer names; `OtherType` stands for any further constant an
   * application exception may carry.
   */
  datatype ErrorType =
    | APP_ERROR | BAD_DATA | BAD_REQUEST | DATA_CONFLICT | NOT_FOUND | UNAUTHORIZED | FORBIDDEN
    | OtherType(name: string)

  /**
   * `status(t)` and `title(t)` are the fields `t.status` and `t.title`; `of(s)` is
   * `ErrorType.of(s)`; `known` holds the codes `HttpStatus.valueOf` accepts (it throws on any other).
   */
  datatype Taxonomy = Taxonomy(
    status: ErrorType -> HttpStatus,
    title: ErrorType -> string,
    of: HttpStatus -> ErrorType,
    known: set<int>)

  /** A recorded status that `getStatus` can turn into an HttpStatus: absent, or a known code. */
  predicate Resolvable(tax: Taxonomy, status: Option<int>) {
    status.None? || status.value in tax.known
  }

  /** What the controller tests show: an invalid request body is answered with 422. */
  predicate BadRequestIsUnprocessable(tax: Taxonomy) {
    tax.status(BAD_REQUEST) == UNPROCESSABLE_ENTITY
  }
}
