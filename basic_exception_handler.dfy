/**
 * The classifier shared by both renderers: the ordered rule table, root-cause unwrapping,
 * and the processing of an exception into a (kind, message) pair handed to a renderer.
 */
module BasicExceptionHandler {
  import opened Wrappers
  import opened Sequences
  import opened LinkedMaps
  import opened ErrorTypes
  import opened Throwables

  /** The rule table: exception class to ErrorType, in iteration order. */
  type Rules = LinkedMap<ExClass, ErrorType>

  /** The `put` calls of the table's static initializer, in the order written. */
  const STATUS_MAP_PUTS: seq<(ExClass, ErrorType)> := [
    (NO_RESOURCE_FOUND, NOT_FOUND),
    (AUTHENTICATION, UNAUTHORIZED),
    (FILE_NOT_FOUND, NOT_FOUND),
    (NO_HANDLER_FOUND, NOT_FOUND),
    (UNSUPPORTED_OPERATION, APP_ERROR),
    (ENTITY_NOT_FOUND, DATA_CONFLICT),
    (DATA_INTEGRITY_VIOLATION, DATA_CONFLICT),
    (ILLEGAL_ARGUMENT, BAD_DATA),
    (VALIDATION, BAD_REQUEST),
    (METHOD_NOT_SUPPORTED, BAD_REQUEST),
    (REQUEST_BINDING, BAD_REQUEST),
    (REQUEST_REJECTED, BAD_REQUEST),
    (ACCESS_DENIED, FORBIDDEN)
  ]

  /** HTTP_STATUS_MAP: the LinkedHashMap those puts fill. */
  const HTTP_STATUS_MAP: Rules := FromEntries(STATUS_MAP_PUTS)

  /** A number that tells the table's classes apart: the length and the first letter of the simple name. */
  function Signature(c: ExClass): int
    requires |c.simpleName| > 0
  {
    |c.simpleName| * 128 + c.simpleName[0] as int
  }

  /** No class is put twice. */
  lemma StatusMapKeysDistinct()
    ensures Distinct(Keys(STATUS_MAP_PUTS))
  {
    var ks := Keys(STATUS_MAP_PUTS);
    assert |ks| == 13;
    assert Signature(ks[0]) == 3150;
    assert Signature(ks[1]) == 3009;
    assert Signature(ks[2]) == 2758;
    assert Signature(ks[3]) == 3022;
    assert Signature(ks[4]) == 3797;
    assert Signature(ks[5]) == 3013;
    assert Signature(ks[6]) == 4036;
    assert Signature(ks[7]) == 3145;
    assert Signature(ks[8]) == 2518;
    assert Signature(ks[9]) == 4936;
    assert Signature(ks[10]) == 3923;
    assert Signature(ks[11]) == 3154;
    assert Signature(ks[12]) == 2753;
  }

  /** Hence the table iterates in declaration order, one row per put. */
  lemma StatusMapInDeclarationOrder()
    ensures HTTP_STATUS_MAP == STATUS_MAP_PUTS
    ensures |HTTP_STATUS_MAP| == 13
  {
    StatusMapKeysDistinct();
    FromEntriesOfDistinct(STATUS_MAP_PUTS);
  }

  /** `getStatus`: a missing status is INTERNAL_SERVER_ERROR, any other is `HttpStatus.valueOf`. */
  function GetStatus(tax: Taxonomy, status: Option<int>): (r: HttpStatus)
    requires Resolvable(tax, status)
    ensures status.None? ==> r == INTERNAL_SERVER_ERROR
    ensures status.Some? ==> r.code == status.value && r.code in tax.known
  {
    if status.None? then INTERNAL_SERVER_ERROR else HttpStatus(status.value)
  }

  /** Row `i` is the first row whose class `c` is assignable to. */
  ghost predicate IsFirstMatch(rules: Rules, sub: Hierarchy, c: ExClass, i: int) {
    && 0 <= i < |rules|
    && sub(c, rules[i].0)
    && forall j :: 0 <= j < i ==> !sub(c, rules[j].0)
  }

  /** The table lookup: the ErrorType of the first row, in iteration order, whose class is a supertype of `c`. */
  function FirstMatch(rules: Rules, sub: Hierarchy, c: ExClass): (r: Option<ErrorType>)
    ensures r.None? <==> forall i :: 0 <= i < |rules| ==> !sub(c, rules[i].0)
    ensures r.Some? ==> exists i :: IsFirstMatch(rules, sub, c, i) && rules[i].1 == r.value
  {
    if rules == [] then None
    else if sub(c, rules[0].0) then
      assert IsFirstMatch(rules, sub, c, 0);
      Some(rules[0].1)
    else
      var r := FirstMatch(rules[1..], sub, c);
      assert forall i :: 1 <= i < |rules| ==> rules[i] == rules[1..][i - 1];
      assert forall i :: IsFirstMatch(rules[1..], sub, c, i) ==> IsFirstMatch(rules, sub, c, i + 1);
      r
  }

  /**
   * `findErrorType`: an AppException declares its own type; any other exception gets the type
   * of the first matching row, or none.
   */
  function FindErrorType(rules: Rules, sub: Hierarchy, ex: Throwable): (r: Option<ErrorType>)
    ensures IsAppException(ex) ==> r == ex.errorType
    ensures !IsAppException(ex) ==> (r.None? <==> forall i :: 0 <= i < |rules| ==> !sub(ex.cls, rules[i].0))
    ensures !IsAppException(ex) && r.Some? ==> exists i :: IsFirstMatch(rules, sub, ex.cls, i) && rules[i].1 == r.value
  {
    if IsAppException(ex) then ex.errorType else FirstMatch(rules, sub, ex.cls)
  }

  /** The exception, its cause, the cause's cause, and so on. */
  function Chain(t: Throwable): (s: seq<Throwable>)
    ensures |s| >= 1 && s[0] == t
    ensures forall i :: 0 <= i < |s| - 1 ==> s[i].cause == Some(s[i + 1])
    ensures s[|s| - 1].cause.None?
  {
    [t] + if t.cause.None? then [] else Chain(t.cause.value)
  }

  /** `getRootCause`: the exception itself when it has no cause, otherwise the deepest cause. */
  function RootCause(t: Throwable): (r: Throwable)
    ensures r == Chain(t)[|Chain(t)| - 1]
    ensures r.cause.None?
    ensures r == t <==> t.cause.None?
  {
    if t.cause.None? then t else RootCause(t.cause.value)
  }

  /** What the processor receives: the exception reported, its ErrorType and the message. */
  datatype Classification = Classification(ex: Throwable, errorType: ErrorType, msg: Option<string>)

  /** The classification `processException` makes. */
  function Classify(rules: Rules, sub: Hierarchy, ex: Throwable): (c: Classification)
    ensures IsAppException(ex) ==> c == Classification(ex, ex.errorType.value, ex.message)
    ensures FindErrorType(rules, sub, ex).Some? ==> c.ex == ex
    ensures FindErrorType(rules, sub, ex).None? ==> c.ex == RootCause(ex)
    ensures FindErrorType(rules, sub, c.ex).Some? ==>
              c.errorType == FindErrorType(rules, sub, c.ex).value && c.msg == c.ex.message
    ensures FindErrorType(rules, sub, c.ex).None? ==>
              c.errorType == APP_ERROR && c.msg == Some(c.ex.cls.simpleName)
  {
    var direct := FindErrorType(rules, sub, ex);
    if direct.Some? then Classification(ex, direct.value, ex.message)
    else
      var root := RootCause(ex);
      match FindErrorType(rules, sub, root)
      case Some(t) => Classification(root, t, root.message)
      case None => Classification(root, APP_ERROR, Some(root.cls.simpleName))
  }

  /** `Processor.process(ex, path, type, msg)`; the path is whatever the handler passes along (`P`). */
  type Processor<!P, T> = (Throwable, P, ErrorType, Option<string>) -> T

  /** The processor applied to the classification of `ex`. */
  function Processed<P, T>(rules: Rules, sub: Hierarchy, ex: Throwable, path: P, processor: Processor<P, T>): T {
    var c := Classify(rules, sub, ex);
    processor(c.ex, path, c.errorType, c.msg)
  }

  /**
   * `processException`: look the exception up; when that fails, retry once with its root cause,
   * which is then the exception reported whether or not the retry matched.
   */
  method ProcessException<P, T>(rules: Rules, sub: Hierarchy, ex: Throwable, path: P, processor: Processor<P, T>)
    returns (r: T)
    ensures r == Processed(rules, sub, ex, path, processor)
  {
    var optType := FindErrorType(rules, sub, ex);
    var e := ex;
    if optType.None? {
      var root := RootCause(e);
      if root != e {
        optType := FindErrorType(rules, sub, root);
        e := root;
      }
    }
    if optType.Some? {
      r := processor(e, path, optType.value, e.message);
    } else {
      r := processor(e, path, APP_ERROR, Some(e.cls.simpleName));
    }
  }

  /**
   * `processError`: a live exception goes through `processException`; without one the
   * supplier's result is returned (`msg` is only logged).
   */
  method ProcessError<P, T>(rules: Rules, sub: Hierarchy, th: Option<Throwable>, path: P, msg: Option<string>,
                            processor: Processor<P, T>, supplier: () --> T)
    returns (r: T)
    requires th.None? ==> supplier.requires()
    ensures th.Some? ==> r == Processed(rules, sub, th.value, path, processor)
    ensures th.None? ==> r == supplier()
  {
    if th.Some? {
      r := ProcessException(rules, sub, th.value, path, processor);
    } else {
      r := supplier();
    }
  }

  /** A first match is the row the lookup returns. */
  lemma FirstMatchAt(rules: Rules, sub: Hierarchy, c: ExClass, i: int)
    requires IsFirstMatch(rules, sub, c, i)
    ensures FirstMatch(rules, sub, c) == Some(rules[i].1)
  {
    var r := FirstMatch(rules, sub, c);
    var m :| IsFirstMatch(rules, sub, c, m) && rules[m].1 == r.value;
    assert m == i;
  }

  /** Rule order decides, not specificity: a matching row wins over every later matching row, even a more specific one. */
  lemma EarlierRowWins(rules: Rules, sub: Hierarchy, c: ExClass, i: nat, j: nat)
    requires i < j < |rules|
    requires sub(c, rules[i].0) && sub(c, rules[j].0) && sub(rules[j].0, rules[i].0)
    requires forall k :: 0 <= k < i ==> !sub(c, rules[k].0)
    ensures FirstMatch(rules, sub, c) == Some(rules[i].1)
  {
    FirstMatchAt(rules, sub, c, i);
  }

  /** No row is shadowed by an earlier row whose class is a supertype of its own. */
  ghost predicate NoShadowing(rules: Rules, sub: Hierarchy) {
    forall i, j :: 0 <= i < j < |rules| ==> !sub(rules[j].0, rules[i].0)
  }

  /** In an unshadowed table, an exception whose class is exactly a row's class gets that row's type and keeps its message. */
  lemma ExactClassGetsItsRow(rules: Rules, sub: Hierarchy, ex: Throwable, i: nat)
    requires IsPreorder(sub) && NoShadowing(rules, sub)
    requires i < |rules| && ex.cls == rules[i].0 && !IsAppException(ex)
    ensures Classify(rules, sub, ex) == Classification(ex, rules[i].1, ex.message)
  {
    assert sub(ex.cls, rules[i].0);
    FirstMatchAt(rules, sub, ex.cls, i);
  }

  /** Any subclass of NoResourceFoundException that is not an AppException is NOT_FOUND, whatever the hierarchy. */
  lemma NoResourceFoundIsNotFound(sub: Hierarchy, ex: Throwable)
    requires !IsAppException(ex) && sub(ex.cls, NO_RESOURCE_FOUND)
    ensures Classify(HTTP_STATUS_MAP, sub, ex) == Classification(ex, NOT_FOUND, ex.message)
  {
    StatusMapInDeclarationOrder();
    FirstMatchAt(HTTP_STATUS_MAP, sub, ex.cls, 0);
  }

  /**
   * The table is consulted for the exception and at most once more, for its root cause only:
   * intermediate causes never matter. This follows from the definitions of `Classify` and
   * `RootCause` alone, so the proof needs no steps.
   */
  lemma IntermediateCausesIgnored(rules: Rules, sub: Hierarchy, a: Throwable, b: Throwable)
    requires a.cls == b.cls && a.message == b.message && a.errorType == b.errorType
    requires a.cause.Some? && b.cause.Some? && RootCause(a) == RootCause(b)
    ensures Classify(rules, sub, a).errorType == Classify(rules, sub, b).errorType
    ensures Classify(rules, sub, a).msg == Classify(rules, sub, b).msg
  {
  }

  /**
   * Unwrapping is one hop to the root: an unmatched exception whose middle cause matches but
   * whose root does not is APP_ERROR, named after the root.
   */
  lemma MatchedMiddleCauseIgnored(rules: Rules, sub: Hierarchy, outer: Throwable, middle: Throwable, root: Throwable)
    requires outer.cause == Some(middle) && middle.cause == Some(root) && root.cause.None?
    requires FindErrorType(rules, sub, outer).None? && FindErrorType(rules, sub, middle).Some?
    requires FindErrorType(rules, sub, root).None?
    ensures Classify(rules, sub, outer) == Classification(root, APP_ERROR, Some(root.cls.simpleName))
  {
    assert RootCause(middle) == root;
  }
}
