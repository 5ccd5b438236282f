/**
 * Java throwables as values: a class tag, a message, an optional cause and, for an application
 * exception (AppException), the ErrorType it declares. The JVM's class hierarchy is abstract.
 */
module Throwables {
  import opened Wrappers
  import opened ErrorTypes

  /** A throwable class: its qualified name and what `Class.getSimpleName()` returns. */
  datatype ExClass = ExClass(name: string, simpleName: string)

  /** `sub(c, d)` holds when `d.isAssignableFrom(c)`: `c` is `d` or one of its subclasses. */
  type Hierarchy = (ExClass, ExClass) -> bool

  /** Subclassing in a class hierarchy is reflexive and transitive. */
  ghost predicate IsPreorder(sub: Hierarchy) {
    && (forall c :: sub(c, c))
    && (forall a, b, c :: sub(a, b) && sub(b, c) ==> sub(a, c))
  }

  /**
   * `message` is `getLocalizedMessage()`, `cause` is `getCause()`, and `errorType` is present
   * exactly for an AppException, holding its `getErrorType()`.
   */
  datatype Throwable = Throwable(
    cls: ExClass,
    message: Option<string>,
    cause: Option<Throwable>,
    errorType: Option<ErrorType>)

  /** `t instanceof AppException`. */
  predicate IsAppException(t: Throwable) {
    t.errorType.Some?
  }

  /** `t instanceof c`, false for a null `t`. */
  predicate IsInstance(sub: Hierarchy, t: Option<Throwable>, c: ExClass) {
    t.Some? && sub(t.value.cls, c)
  }

  // The library classes the classifier and the renderers name.
  const NO_RESOURCE_FOUND := ExClass("org.springframework.web.servlet.resource.NoResourceFoundException", "NoResourceFoundException")
  const AUTHENTICATION := ExClass("org.springframework.security.core.AuthenticationException", "AuthenticationException")
  const FILE_NOT_FOUND := ExClass("java.io.FileNotFoundException", "FileNotFoundException")
  const NO_HANDLER_FOUND := ExClass("org.springframework.web.servlet.NoHandlerFoundException", "NoHandlerFoundException")
  const UNSUPPORTED_OPERATION := ExClass("java.lang.UnsupportedOperationException", "UnsupportedOperationException")
  const ENTITY_NOT_FOUND := ExClass("jakarta.persistence.EntityNotFoundException", "EntityNotFoundException")
  const DATA_INTEGRITY_VIOLATION := ExClass("org.springframework.dao.DataIntegrityViolationException", "DataIntegrityViolationException")
  const ILLEGAL_ARGUMENT := ExClass("java.lang.IllegalArgumentException", "IllegalArgumentException")
  const VALIDATION := ExClass("jakarta.validation.ValidationException", "ValidationException")
  const METHOD_NOT_SUPPORTED := ExClass("org.springframework.web.HttpRequestMethodNotSupportedException", "HttpRequestMethodNotSupportedException")
  const REQUEST_BINDING := ExClass("org.springframework.web.bind.ServletRequestBindingException", "ServletRequestBindingException")
  const REQUEST_REJECTED := ExClass("org.springframework.security.web.firewall.RequestRejectedException", "RequestRejectedException")
  const ACCESS_DENIED := ExClass("java.nio.file.AccessDeniedException", "AccessDeniedException")
}
