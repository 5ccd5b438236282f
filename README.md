# Error classification and rendering, modelled in Dafny

This project models the error layer of a Spring web application (package `app/error`)
together with the `User` entity's role set. The layer has five parts:

- **Classifier.** `BasicExceptionHandler` turns any failure into an `ErrorType` and a message.
  - An `AppException` carries its own type.
  - Any other exception gets the type of the first row of an ordered table (exception class to `ErrorType`) whose class is a supertype of the exception's class.
  - When nothing matches, the lookup is retried once, against the deepest cause.
  - When that fails too, the type is `APP_ERROR` and the message is the class's simple name.
- **API renderer.** `RestExceptionHandler` builds an RFC 7807 problem-details body.
  - It sets the section 3.1 members `status`, `title`, `detail` and `instance`.
  - A binding failure also gets the section 3.2 extension member `invalid_params`.
- **HTML renderer.** `UIExceptionHandler` picks the static `"404"` view or the `"exception"` view, and sets the response status.
- **Error funnel.** `ErrorController` answers the container's error page. It sends paths starting with `/api` to the API renderer and every other path to the HTML renderer.
- **Validation message formatter.** `ErrorMessageHandler` resolves each validation error's message through a message catalogue. It collects the results into an insertion-ordered map, or into a list of display lines.

## How the model is built

**Modules.**
- One module per source class: `BasicExceptionHandler`, `RestExceptionHandler`, `UIExceptionHandler`, `ErrorController`, `ErrorMessageHandler` and `UserModel`.
- Shared modules:
  - `ErrorTypes`: statuses, kinds and the taxonomy.
  - `Throwables`: exceptions and class tags.
  - `LinkedMaps`: `LinkedHashMap` as a sequence of pairs.
  - `Sequences`: distinctness and de-duplication.
  - `Text`: prefix test, `String.join`, integer printing.
  - `Wrappers`: `Option` and `Result`.

**Exceptions.**
- An exception is a value: a class tag, an optional message, an optional cause, and, for an `AppException`, its declared `ErrorType`.
- Class tags are ordered by an abstract subtype relation `sub`, which is passed in as a parameter.

**`ErrorType` and `HttpStatus`.**
- Their definitions are not part of this model.
- `Taxonomy` gives each kind's status and title, `ErrorType.of(status)`, and the set of codes `HttpStatus.valueOf` accepts.
- Only two numbers are fixed:
  - `INTERNAL_SERVER_ERROR` is 500.
  - The 422 that the controller tests expect for an invalid body is the predicate `BadRequestIsUnprocessable`.

**`LinkedHashMap`.**
- It is a sequence of (key, value) pairs.
- `Put` replaces a value in place when the key is already present, and appends otherwise.
- `FromEntries` is the result of a series of `put` calls into an empty map.
- `Reflects(m, ps)` says that `m` holds the keys of `ps` in first-insertion order, each with the value put last. `FromEntriesReflects` proves that `FromEntries(ps)` satisfies it.

**The classification table** is built by the thirteen `put` calls as written. `StatusMapInDeclarationOrder` proves that no class is put twice, so the map iterates in declaration order.

**Methods and loops.**
- `processException` reassigns its locals, so it is a method. Its result is the processor applied to the function `Classify`.
- `getErrorMap` fills the map in two loops, proved against `FromEntries` of the list of puts.
- `createParamsProblemDetail` sets the additional parameters one by one in a loop.

**Processors and suppliers** are Dafny arrows, and the source's lambdas are lambdas here.
- The processor gets the exception, the path, the kind and the message.
- The supplier is a partial arrow, so the precondition of `getStatus` only applies when the supplier is called.

**Null** is modelled as `Option` for the exceptions, messages, paths, statuses and user fields the layer handles. The role collection of `User` is the exception; see "## Left out". `Map.of` rejects a null message; that `NullPointerException` is the `Failure` branch of `UIExceptionHandler.Page`.

**Clock, locale and catalogue.**
- The clock is a parameter: the varargs `User` constructor takes `now`.
- The request locale is a parameter.
- The message catalogue is an abstract lookup `(code, arguments, locale) -> Option<string>` passed in explicitly.

**Behaviour of the code worth noting:**
- With repeated names, the error map keeps the first insertion position but shows the last value put (`FieldErrorOverridesGlobal`). It does not keep the first value.
- A display line is `Field '<key>': <value>`, with a null value printed as `null`.
- The HTML fallback for a recorded error runs only without an exception, so it never picks the `"404"` view, even for a recorded 404 (`RecordedNeverNotFound`).

## Model

| member | source | states |
|---|---|---|
| BasicExceptionHandler.StatusMapKeysDistinct | src/main/java/ru/javaops/startup/app/error/BasicExceptionHandler.java:42-54 | No exception class is put into the table twice. |
| BasicExceptionHandler.StatusMapInDeclarationOrder | src/main/java/ru/javaops/startup/app/error/BasicExceptionHandler.java:39-56 | The LinkedHashMap holds exactly the thirteen puts, in the order written. |
| BasicExceptionHandler.GetStatus | src/main/java/ru/javaops/startup/app/error/BasicExceptionHandler.java:58-60 | A missing status is INTERNAL_SERVER_ERROR. Any other status is the HttpStatus with that code, which must be one `valueOf` accepts. |
| BasicExceptionHandler.FirstMatch | src/main/java/ru/javaops/startup/app/error/BasicExceptionHandler.java:101-104 | The result is absent exactly when no row's class is a supertype of the class. Otherwise it is the type of a row that matches while no earlier row does. |
| BasicExceptionHandler.FindErrorType | src/main/java/ru/javaops/startup/app/error/BasicExceptionHandler.java:97-105 | An AppException yields its own type, whatever the table says. Any other exception yields the first matching row's type, or nothing when no row matches. |
| BasicExceptionHandler.Chain | src/main/java/ru/javaops/startup/app/error/BasicExceptionHandler.java:108-112 | The cause chain starts at the exception, links each element to its cause, and ends at an exception without a cause. |
| BasicExceptionHandler.RootCause | src/main/java/ru/javaops/startup/app/error/BasicExceptionHandler.java:108-112 | The root cause is the last element of the cause chain, and it has no cause. It is the exception itself exactly when that has no cause. |
| BasicExceptionHandler.Classify | src/main/java/ru/javaops/startup/app/error/BasicExceptionHandler.java:70-86 | When the exception matches, the reported exception is the exception itself. Otherwise it is the root cause. A matched report gets its type and its own message; an unmatched one gets APP_ERROR and its class's simple name. |
| BasicExceptionHandler.ProcessException | src/main/java/ru/javaops/startup/app/error/BasicExceptionHandler.java:70-86 | The locals-reassigning procedure returns the processor applied once to the classification. |
| BasicExceptionHandler.ProcessError | src/main/java/ru/javaops/startup/app/error/BasicExceptionHandler.java:89-95 | With an exception, the result is what `processException` returns. Without one, it is the supplier's result. |
| BasicExceptionHandler.FirstMatchAt | src/main/java/ru/javaops/startup/app/error/BasicExceptionHandler.java:101-104 | The first matching row is the row whose type the lookup returns. |
| BasicExceptionHandler.EarlierRowWins | src/main/java/ru/javaops/startup/app/error/BasicExceptionHandler.java:41-54 | Order decides, not specificity: an earlier matching row beats a later, more specific matching row. |
| BasicExceptionHandler.ExactClassGetsItsRow | src/main/java/ru/javaops/startup/app/error/BasicExceptionHandler.java:97-104 | In a table where no row is shadowed by an earlier supertype row, an exception of exactly a row's class gets that row's type and keeps its message. |
| BasicExceptionHandler.NoResourceFoundIsNotFound | src/main/java/ru/javaops/startup/app/error/BasicExceptionHandler.java:42 | Every non-App subclass of NoResourceFoundException is NOT_FOUND with its own message, under any hierarchy. |
| BasicExceptionHandler.IntermediateCausesIgnored | src/main/java/ru/javaops/startup/app/error/BasicExceptionHandler.java:71-78 | Two exceptions with the same class, message and root cause get the same type and message, whatever lies between them and the root. |
| BasicExceptionHandler.MatchedMiddleCauseIgnored | src/main/java/ru/javaops/startup/app/error/BasicExceptionHandler.java:71-78 | The retry goes to the root only: a matching middle cause is skipped, and an unmatched root gives APP_ERROR with the root's name. |
| LinkedMaps.Put | src/main/java/ru/javaops/startup/app/error/ErrorMessageHandler.java:32-35 | `put` keeps the key order when the key is present and appends it otherwise. The key then maps to the new value, and distinct keys stay distinct. |
| LinkedMaps.PutOthers | src/main/java/ru/javaops/startup/app/error/ErrorMessageHandler.java:32-35 | A `put` leaves every other key's value as it was. |
| LinkedMaps.FromEntriesReflects | src/main/java/ru/javaops/startup/app/error/ErrorMessageHandler.java:30-36 | After a series of puts, the keys are in first-insertion order without repeats, and each key holds the value put last. |
| LinkedMaps.FromEntriesOfDistinct | src/main/java/ru/javaops/startup/app/error/BasicExceptionHandler.java:39-56 | Puts with distinct keys leave exactly those entries, in order. |
| ErrorMessageHandler.GetErrorMessage | src/main/java/ru/javaops/startup/app/error/ErrorMessageHandler.java:40-43 | Without a code, the message is the default message verbatim. With a code, it is the catalogue's text for the code, arguments and locale, or the default message when the catalogue has none. |
| ErrorMessageHandler.GlobalPutsKeys | src/main/java/ru/javaops/startup/app/error/ErrorMessageHandler.java:31-33 | The first loop puts under the object names, in reported order. |
| ErrorMessageHandler.FieldPutsKeys | src/main/java/ru/javaops/startup/app/error/ErrorMessageHandler.java:34-36 | The second loop puts under the field names, in reported order. |
| ErrorMessageHandler.GetErrorMap | src/main/java/ru/javaops/startup/app/error/ErrorMessageHandler.java:29-38 | The two loops leave the map that all global-error puts followed by all field-error puts produce. |
| ErrorMessageHandler.ErrorMapOf | src/main/java/ru/javaops/startup/app/error/ErrorMessageHandler.java:29-38 | The error map reflects those puts and its keys are distinct. |
| ErrorMessageHandler.GetErrorList | src/main/java/ru/javaops/startup/app/error/ErrorMessageHandler.java:22-27 | There is one line per distinct name, in first-insertion order. Each line is `Field '<name>': <message put last>`. |
| ErrorMessageHandler.GlobalErrorsFirst | src/main/java/ru/javaops/startup/app/error/ErrorMessageHandler.java:29-38 | The map's keys are the distinct object names, then the distinct field names that are not object names, each group in reported order. |
| ErrorMessageHandler.FieldErrorOverridesGlobal | src/main/java/ru/javaops/startup/app/error/ErrorMessageHandler.java:30-36 | A name that some field error uses holds the last such field error's message. Any other name holds the last global error's message. |
| ErrorMessageHandler.FirstInsertionOrder | src/main/java/ru/javaops/startup/app/error/ErrorMessageHandler.java:30-36 | Map keys appear in the order of their first put. |
| RestExceptionHandler.ForStatusAndDetail | src/main/java/ru/javaops/startup/app/error/RestExceptionHandler.java:46 | Only the status and the detail are set. |
| RestExceptionHandler.Built | src/main/java/ru/javaops/startup/app/error/RestExceptionHandler.java:59-62 | The built body has the kind's status and title, the given detail, the path as instance, and no extension members. |
| RestExceptionHandler.CreateProblemDetail | src/main/java/ru/javaops/startup/app/error/RestExceptionHandler.java:54-56 | The result is the kind's status and title, the detail and the path, with no extension member. |
| RestExceptionHandler.CreateParamsProblemDetail | src/main/java/ru/javaops/startup/app/error/RestExceptionHandler.java:58-65 | The body is the built body whose extension members are exactly the additional parameters, in order. With no parameters it equals `createProblemDetail`. |
| RestExceptionHandler.BindProblem | src/main/java/ru/javaops/startup/app/error/RestExceptionHandler.java:28-34 | A binding failure is BAD_REQUEST with detail "BindException" and the path as instance. Its one extension member `invalid_params` is the binding result's error map. |
| RestExceptionHandler.BindException | src/main/java/ru/javaops/startup/app/error/RestExceptionHandler.java:28-34 | The handler answers with exactly that body, computed through `getErrorMap` and `createParamsProblemDetail`. |
| RestExceptionHandler.Exception | src/main/java/ru/javaops/startup/app/error/RestExceptionHandler.java:37-40 | Any other exception is classified. The body has the kind's status and title, the classification's message as detail, the path as instance, and no extension members. |
| RestExceptionHandler.RecordedProblem | src/main/java/ru/javaops/startup/app/error/RestExceptionHandler.java:44-50 | The status is the resolved one: 500 when missing, otherwise the recorded code. The detail is the recorded message, the title is that of `ErrorType.of(status)`, and the instance is the path. |
| RestExceptionHandler.Render | src/main/java/ru/javaops/startup/app/error/RestExceptionHandler.java:43-51 | With an exception, the result is the processed exception. Without one, it is the recorded-error body. |
| RestExceptionHandler.ProcessError | src/main/java/ru/javaops/startup/app/error/RestExceptionHandler.java:43-51 | The handler returns that answer, through the shared `processError` called with this renderer's processor and supplier. |
| ErrorMessageHandler.LastFieldPut | src/main/java/ru/javaops/startup/app/error/ErrorMessageHandler.java:34-36 | The last field error under a name decides that name's value among the field puts. |
| RestExceptionHandler.InvalidBodyIsUnprocessable | src/main/java/ru/javaops/startup/user/web/AdminUserControllerTest.java:179-190 | Under the taxonomy the controller tests expect, a binding failure's body has status 422. A field error not overridden later shows its message in `invalid_params`, as the duplicate e-mail does. |
| UIExceptionHandler.GetView | src/main/java/ru/javaops/startup/app/error/UIExceptionHandler.java:49-56 | A NoResourceFoundException gets the "404" view with an empty model. Anything else gets the "exception" view with exactly title, status and msg, or a NullPointerException when msg is null. The status is set in both branches. |
| UIExceptionHandler.GetExceptionView | src/main/java/ru/javaops/startup/app/error/UIExceptionHandler.java:45-47 | The view uses the kind's own status and title, and fails only with a null message on a non-404 exception. |
| UIExceptionHandler.BindPage | src/main/java/ru/javaops/startup/app/error/UIExceptionHandler.java:24-30 | A binding failure always gets a page with status BAD_REQUEST. Unless the exception is a NoResourceFoundException, it is the "exception" view whose msg is the error lines joined by "<br>". |
| UIExceptionHandler.BindException | src/main/java/ru/javaops/startup/app/error/UIExceptionHandler.java:24-30 | The handler answers with exactly that page. |
| UIExceptionHandler.Exception | src/main/java/ru/javaops/startup/app/error/UIExceptionHandler.java:32-35 | Any other exception is classified. The page carries the kind's status, and it fails exactly when the reported exception is not a NoResourceFoundException and has no message. |
| UIExceptionHandler.RecordedView | src/main/java/ru/javaops/startup/app/error/UIExceptionHandler.java:39-42 | The recorded-error page has the resolved status and the title of `ErrorType.of(status)`. |
| UIExceptionHandler.Render | src/main/java/ru/javaops/startup/app/error/UIExceptionHandler.java:38-43 | With an exception, the result is the processed exception. Without one, it is the recorded-error page. |
| UIExceptionHandler.ProcessError | src/main/java/ru/javaops/startup/app/error/UIExceptionHandler.java:38-43 | The handler returns that answer, through the shared `processError`. |
| UIExceptionHandler.RecordedNeverNotFound | src/main/java/ru/javaops/startup/app/error/UIExceptionHandler.java:38-43 | The fallback never shows "404". It is the "exception" view with the recorded message, and it fails exactly when that message is null. |
| UIExceptionHandler.UnmatchedAlwaysRendered | src/main/java/ru/javaops/startup/app/error/UIExceptionHandler.java:49-53 | An exception matched neither directly nor through its root always gets a page. |
| UIExceptionHandler.MessagelessMatchFails | src/main/java/ru/javaops/startup/app/error/UIExceptionHandler.java:50-53 | A matched exception with no message gets no page, because `Map.of` throws, unless it is a NoResourceFoundException. |
| ErrorController.Error | src/main/java/ru/javaops/startup/app/error/ErrorController.java:25-34 | The API renderer answers exactly when the path is present and starts with "/api"; every other path goes to the HTML renderer. Both receive the exception, path, status and message unchanged. |
| ErrorController.PrefixRouting | src/main/java/ru/javaops/startup/app/error/ErrorController.java:31-33 | "/apix" and "/api/admin/users" go to the API renderer. "/ap", "/ui/api" and a missing path go to the HTML renderer. |
| ErrorController.UnknownApiErrorIsServerError | src/main/java/ru/javaops/startup/app/error/ErrorController.java:31-32 | An API error recorded with no exception and no status is a 500 body with the recorded message as detail and the path as instance. |
| ErrorController.RecordedPageIsExceptionView | src/main/java/ru/javaops/startup/app/error/ErrorController.java:31-33 | A page error recorded with a message but no exception is the "exception" view with that message and the resolved status. |
| UserModel.User.constructor | src/main/java/ru/javaops/startup/user/model/User.java:63-70 | Every field is as given, and the roles are the collection's distinct elements. |
| UserModel.User.WithRoles | src/main/java/ru/javaops/startup/user/model/User.java:59-61 | The varargs constructor always enables the account, registers it `now`, and takes the listed roles. |
| UserModel.User.Copy | src/main/java/ru/javaops/startup/user/model/User.java:55-57 | The copy has the id, name, e-mail, last name, enabled flag, registration date and role set of the original. |
| UserModel.User.SetRoles | src/main/java/ru/javaops/startup/user/model/User.java:72-74 | The roles become the collection's distinct elements, and only the roles change. An empty collection gives the empty set. Afterwards `hasRole` holds exactly for the collection's elements. |
| UserModel.User.HasRole | src/main/java/ru/javaops/startup/user/model/User.java:76-78 | The result holds exactly when the role is in the set. |
| UserModel.User.ToString | src/main/java/ru/javaops/startup/user/model/User.java:80-83 | The text is `User:<id>[<email>]`, and the id and the printed e-mail can be read back from it. |
| UserModel.DescribeParses | src/main/java/ru/javaops/startup/user/model/User.java:80-83 | Printing the id (or "null") and the e-mail (or "null") and parsing the text back returns the id and the printed e-mail. |

## Left out

- Logging: every `log.error` and `log.warn` call is output only and does not affect any result.
- Spring's dispatch: `@ExceptionHandler` selection and the advice annotations decide which handler runs. The model gives each handler as its own operation.
- `ErrorAttributes`: reading the error attributes with `ATTRIBUTE_OPTIONS` is a library call. The funnel takes the extracted exception, path, status and message as parameters.
- `updateAndGetBody(messageSource, locale)`: the lookup of problem-detail messages in the catalogue is taken as the identity on the built body.
- The RFC 7807 `type` member: it is left at its default and is not modelled.
- `URI.create(path)`: it is taken as the identity on the path string. An API path is never null, because the funnel routes only non-null paths to the API renderer.
- `HttpStatus.valueOf`: its rejection of unknown codes is a precondition (`Resolvable`). It is needed only where the recorded-error supplier can run. `ErrorType.of`, the statuses and the titles are abstract (`Taxonomy`).
- BasicExceptionHandler.FirstMatch: models `findAny()` as the first match in table order, because the comment before the table and the ordered map show that intent; a parallel stream could return another matching row.
- The exception class hierarchy is an abstract relation.
  - Only the lemmas that need a preorder assume one.
  - The thirteen library classes are tagged by qualified and simple name.
- `getLocalizedMessage()` is the exception's message. Localized message overrides are not modelled.
- `NestedExceptionUtils.getRootCause`'s guard against cyclic cause chains: cause chains here are finite values, so cycles cannot occur.
- The message catalogue `MessageSource` is an abstract function, and its message formatting is part of that function. `LocaleContextHolder` is a locale parameter.
- `String.join` and `String.format` are written out for the forms used.
- `User` outside its constructors, `setRoles`, `hasRole` and `toString`:
  - The persistence annotations are not modelled.
  - The Bean Validation constraints are not modelled.
  - The JPA no-argument constructor is not modelled.
  - The field defaults that the constructors overwrite are not modelled.
  - `id` and `name` come from `NamedEntity`, which is not part of this model.
- UserModel.User.SetRoles: the role collection is a `multiset<Role>` and cannot be null or hold null. `setRoles(null)` throws NullPointerException at `roles.isEmpty()`, and `EnumSet.copyOf` throws it for a collection holding null; neither path is modelled. The constructors of `User`, which pass their collection to `setRoles`, therefore do not model those two NullPointerException paths either.
- UserModel.User.Copy: `java.util.Date` is a value here, so the copy's sharing of the mutable `registered` object with the original is not modelled.
- Integer width: ids and status codes are unbounded integers. No operation here does arithmetic on them, so 32-bit overflow cannot arise.
- `User` construction modifies a fresh object, and `setRoles` changes only `roles`. The other entities are values: a problem body, a view and the error map are built step by step as values rather than updated in place.
