/**
 * The validation message formatter: turns a binding result into an ordered map from
 * object or field name to message, and that map into display lines.
 */
module ErrorMessageHandler {
  import opened Wrappers
  import opened Sequences
  import opened LinkedMaps

  /** The request's locale, which the message catalogue is consulted in. */
  datatype Locale = Locale(tag: string)

  /** The message catalogue: the text for a code with its arguments in a locale, or None when it has no entry. */
  type MessageSource = (string, seq<string>, Locale) -> Option<string>

  /** A global (object-level) validation error. */
  datatype ObjectError = ObjectError(objectName: string, code: Option<string>, arguments: seq<string>, defaultMessage: Option<string>)

  /** A field-level validation error: an ObjectError that names a field. */
  datatype FieldError = FieldError(field: string, error: ObjectError)

  /** The outcome of binding and validating a request: global errors and field errors, each in reported order. */
  datatype BindingResult = BindingResult(globalErrors: seq<ObjectError>, fieldErrors: seq<FieldError>)

  /** The error map: a LinkedHashMap from name to (possibly null) message. */
  type ErrorMap = LinkedMap<string, Option<string>>

  /**
   * `getErrorMessage`: an error without a code shows its default message verbatim; one with a
   * code shows the catalogue's text for the code and arguments, or the default when there is none.
   */
  function GetErrorMessage(ms: MessageSource, locale: Locale, e: ObjectError): (r: Option<string>)
    ensures e.code.None? ==> r == e.defaultMessage
    ensures e.code.Some? && ms(e.code.value, e.arguments, locale).Some? ==> r == ms(e.code.value, e.arguments, locale)
    ensures e.code.Some? && ms(e.code.value, e.arguments, locale).None? ==> r == e.defaultMessage
  {
    match e.code
    case None => e.defaultMessage
    case Some(code) =>
      var text := ms(code, e.arguments, locale);
      if text.Some? then text else e.defaultMessage
  }

  /** The names the global errors are keyed by, in reported order. */
  function ObjectNames(gs: seq<ObjectError>): (ks: seq<string>)
    ensures |ks| == |gs|
  {
    if gs == [] then [] else ObjectNames(gs[..|gs| - 1]) + [gs[|gs| - 1].objectName]
  }

  /** The names the field errors are keyed by, in reported order. */
  function FieldNames(fs: seq<FieldError>): (ks: seq<string>)
    ensures |ks| == |fs|
  {
    if fs == [] then [] else FieldNames(fs[..|fs| - 1]) + [fs[|fs| - 1].field]
  }

  /** The `put` requests of the first loop: one per global error, under its object name. */
  function GlobalPuts(ms: MessageSource, locale: Locale, gs: seq<ObjectError>): (ps: seq<(string, Option<string>)>)
    ensures |ps| == |gs|
  {
    if gs == [] then []
    else GlobalPuts(ms, locale, gs[..|gs| - 1]) + [(gs[|gs| - 1].objectName, GetErrorMessage(ms, locale, gs[|gs| - 1]))]
  }

  /** The `put` requests of the second loop: one per field error, under its field name. */
  function FieldPuts(ms: MessageSource, locale: Locale, fs: seq<FieldError>): (ps: seq<(string, Option<string>)>)
    ensures |ps| == |fs|
  {
    if fs == [] then []
    else FieldPuts(ms, locale, fs[..|fs| - 1]) + [(fs[|fs| - 1].field, GetErrorMessage(ms, locale, fs[|fs| - 1].error))]
  }

  /** The first loop puts under object names. */
  lemma {:induction false} GlobalPutsKeys(ms: MessageSource, locale: Locale, gs: seq<ObjectError>)
    ensures Keys(GlobalPuts(ms, locale, gs)) == ObjectNames(gs)
  {
    if gs != [] {
      var p := gs[..|gs| - 1];
      GlobalPutsKeys(ms, locale, p);
      KeysAppend(GlobalPuts(ms, locale, p), [(gs[|gs| - 1].objectName, GetErrorMessage(ms, locale, gs[|gs| - 1]))]);
    }
  }

  /** The second loop puts under field names. */
  lemma {:induction false} FieldPutsKeys(ms: MessageSource, locale: Locale, fs: seq<FieldError>)
    ensures Keys(FieldPuts(ms, locale, fs)) == FieldNames(fs)
  {
    if fs != [] {
      var p := fs[..|fs| - 1];
      FieldPutsKeys(ms, locale, p);
      KeysAppend(FieldPuts(ms, locale, p), [(fs[|fs| - 1].field, GetErrorMessage(ms, locale, fs[|fs| - 1].error))]);
    }
  }

  /** Every `put` `getErrorMap` makes, in the order it makes them: global errors first. */
  function Requests(ms: MessageSource, locale: Locale, br: BindingResult): seq<(string, Option<string>)> {
    GlobalPuts(ms, locale, br.globalErrors) + FieldPuts(ms, locale, br.fieldErrors)
  }

  /** The `i`-th put of the first loop extends the map built by the earlier ones. */
  lemma GlobalPutStep(ms: MessageSource, locale: Locale, gs: seq<ObjectError>, i: nat)
    requires i < |gs|
    ensures FromEntries(GlobalPuts(ms, locale, gs[..i + 1]))
            == Put(FromEntries(GlobalPuts(ms, locale, gs[..i])), gs[i].objectName, GetErrorMessage(ms, locale, gs[i]))
  {
    assert gs[..i + 1][..i] == gs[..i];
    FromEntriesSnoc(GlobalPuts(ms, locale, gs[..i]), gs[i].objectName, GetErrorMessage(ms, locale, gs[i]));
  }

  /** The `j`-th put of the second loop extends the map built by all the puts before it. */
  lemma FieldPutStep(ms: MessageSource, locale: Locale, g: seq<(string, Option<string>)>, fs: seq<FieldError>, j: nat)
    requires j < |fs|
    ensures FromEntries(g + FieldPuts(ms, locale, fs[..j + 1]))
            == Put(FromEntries(g + FieldPuts(ms, locale, fs[..j])), fs[j].field, GetErrorMessage(ms, locale, fs[j].error))
  {
    assert fs[..j + 1][..j] == fs[..j];
    var put := (fs[j].field, GetErrorMessage(ms, locale, fs[j].error));
    assert g + FieldPuts(ms, locale, fs[..j + 1]) == (g + FieldPuts(ms, locale, fs[..j])) + [put];
    FromEntriesSnoc(g + FieldPuts(ms, locale, fs[..j]), put.0, put.1);
  }

  /** The map `getErrorMap` returns: what a LinkedHashMap holds after those puts. */
  function ErrorMapOf(ms: MessageSource, locale: Locale, br: BindingResult): (m: ErrorMap)
    ensures Reflects(m, Requests(ms, locale, br))
    ensures Distinct(Keys(m))
  {
    assert Distinct(Dedup(Keys(Requests(ms, locale, br))));
    FromEntriesReflects(Requests(ms, locale, br));
    FromEntries(Requests(ms, locale, br))
  }

  /** `getErrorMap`: fill a fresh LinkedHashMap from the global errors, then from the field errors. */
  method GetErrorMap(ms: MessageSource, locale: Locale, br: BindingResult) returns (m: ErrorMap)
    ensures m == FromEntries(Requests(ms, locale, br))
  {
    var gs, fs := br.globalErrors, br.fieldErrors;
    m := [];
    var i := 0;
    while i < |gs|
      invariant 0 <= i <= |gs|
      invariant m == FromEntries(GlobalPuts(ms, locale, gs[..i]))
    {
      GlobalPutStep(ms, locale, gs, i);
      m := Put(m, gs[i].objectName, GetErrorMessage(ms, locale, gs[i]));
      i := i + 1;
    }
    assert gs[..|gs|] == gs;
    ghost var g := GlobalPuts(ms, locale, gs);
    assert g + FieldPuts(ms, locale, fs[..0]) == g;
    var j := 0;
    while j < |fs|
      invariant 0 <= j <= |fs|
      invariant m == FromEntries(g + FieldPuts(ms, locale, fs[..j]))
    {
      FieldPutStep(ms, locale, g, fs, j);
      m := Put(m, fs[j].field, GetErrorMessage(ms, locale, fs[j].error));
      j := j + 1;
    }
    assert fs[..|fs|] == fs;
  }

  /** One display line: `String.format("Field '%s': %s", key, value)`, where a null value prints as "null". */
  function FieldLine(key: string, value: Option<string>): string {
    "Field '" + key + "': " + (if value.Some? then value.value else "null")
  }

  /** Each entry of a map that reflects a list of puts is a distinct key, in first-put order, with its last-put value. */
  lemma ReflectedEntries(m: ErrorMap, ps: seq<(string, Option<string>)>)
    requires Reflects(m, ps) && Distinct(Keys(m))
    ensures |m| == |Dedup(Keys(ps))|
    ensures forall i :: 0 <= i < |m| ==> m[i] == (Dedup(Keys(ps))[i], LastValue(ps, Dedup(Keys(ps))[i]).value)
  {
    assert |m| == |Keys(m)|;
    forall i | 0 <= i < |m| ensures m[i] == (Dedup(Keys(ps))[i], LastValue(ps, Dedup(Keys(ps))[i]).value) {
      assert Keys(m)[i] == m[i].0;
      GetAt(m, i);
    }
  }

  /**
   * `getErrorList`: one line per distinct name, in the order the name was first put, showing
   * the message put last under it.
   */
  function GetErrorList(ms: MessageSource, locale: Locale, br: BindingResult): (lines: seq<string>)
    ensures var ks := Dedup(Keys(Requests(ms, locale, br)));
            && |lines| == |ks|
            && forall i :: 0 <= i < |lines| ==> lines[i] == FieldLine(ks[i], LastValue(Requests(ms, locale, br), ks[i]).value)
  {
    var m := ErrorMapOf(ms, locale, br);
    ReflectedEntries(m, Requests(ms, locale, br));
    seq(|m|, i requires 0 <= i < |m| => FieldLine(m[i].0, m[i].1))
  }

  /**
   * Global errors are put first: the map's keys are the distinct object names, then the
   * distinct field names that are not also object names, each group in reported order.
   */
  lemma GlobalErrorsFirst(ms: MessageSource, locale: Locale, br: BindingResult)
    ensures Keys(ErrorMapOf(ms, locale, br)) == Dedup(ObjectNames(br.globalErrors)) + Dedup(Without(FieldNames(br.fieldErrors), ObjectNames(br.globalErrors)))
  {
    KeysAppend(GlobalPuts(ms, locale, br.globalErrors), FieldPuts(ms, locale, br.fieldErrors));
    GlobalPutsKeys(ms, locale, br.globalErrors);
    FieldPutsKeys(ms, locale, br.fieldErrors);
    DedupAppend(ObjectNames(br.globalErrors), FieldNames(br.fieldErrors));
  }

  /** A name put by both loops gets the last field error's message; a name put only by the first, the last global error's. */
  lemma FieldErrorOverridesGlobal(ms: MessageSource, locale: Locale, br: BindingResult, k: string)
    ensures k in FieldNames(br.fieldErrors) ==> Get(ErrorMapOf(ms, locale, br), k) == LastValue(FieldPuts(ms, locale, br.fieldErrors), k)
    ensures k !in FieldNames(br.fieldErrors) ==> Get(ErrorMapOf(ms, locale, br), k) == LastValue(GlobalPuts(ms, locale, br.globalErrors), k)
  {
    FieldPutsKeys(ms, locale, br.fieldErrors);
    LastValueAppend(GlobalPuts(ms, locale, br.globalErrors), FieldPuts(ms, locale, br.fieldErrors), k);
  }

  /** The last field error under a name decides the value the field puts leave under it. */
  lemma {:induction false} LastFieldPut(ms: MessageSource, locale: Locale, fs: seq<FieldError>, j: nat)
    requires j < |fs|
    requires forall k :: j < k < |fs| ==> fs[k].field != fs[j].field
    ensures LastValue(FieldPuts(ms, locale, fs), fs[j].field) == Some(GetErrorMessage(ms, locale, fs[j].error))
  {
    var ps := FieldPuts(ms, locale, fs);
    var init := fs[..|fs| - 1];
    assert ps == FieldPuts(ms, locale, init) + [(fs[|fs| - 1].field, GetErrorMessage(ms, locale, fs[|fs| - 1].error))];
    assert ps[..|ps| - 1] == FieldPuts(ms, locale, init);
    if j < |fs| - 1 {
      assert init[j] == fs[j];
      LastFieldPut(ms, locale, init, j);
    }
  }

  /** A repeated name keeps the place of its first put: the map's keys appear in order of first insertion. */
  lemma FirstInsertionOrder(ms: MessageSource, locale: Locale, br: BindingResult, i: nat, j: nat)
    requires i < j < |ErrorMapOf(ms, locale, br)|
    ensures ErrorMapOf(ms, locale, br)[i].0 in Keys(Requests(ms, locale, br))
    ensures ErrorMapOf(ms, locale, br)[j].0 in Keys(Requests(ms, locale, br))
    ensures IndexOf(Keys(Requests(ms, locale, br)), ErrorMapOf(ms, locale, br)[i].0)
          < IndexOf(Keys(Requests(ms, locale, br)), ErrorMapOf(ms, locale, br)[j].0)
  {
    var m := ErrorMapOf(ms, locale, br);
    var ks := Keys(Requests(ms, locale, br));
    assert Keys(m)[i] == m[i].0 && Keys(m)[j] == m[j].0;
    assert Dedup(ks)[i] in ks && Dedup(ks)[j] in ks;
    DedupKeepsFirstPositions(ks, i, j);
  }
}
