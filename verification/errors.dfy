/**
 * Error handling: the error record, its conversion and the development
 * history of src/services/error.ts, and the wrappers of
 * src/utils/errorUtils.ts that report a thrown exception and return a
 * fallback. The `__DEV__` flag and `Date.now()` are inputs; console output
 * is not modelled. JavaScript values are modelled only as far as these
 * functions inspect them.
 */
module Errors {

  import opened Common

  datatype ErrorType = Network | Storage | Calculation | Navigation | UI | Unknown

  /** A value of a context entry. */
  datatype ContextValue = CText(text: string) | CList(items: seq<string>) | COther

  type ErrorContext = map<string, ContextValue>

  /** A thrown `Error` object: its message. */
  datatype JsError = JsError(message: string)

  datatype AppError = AppError(
    kind: ErrorType, message: string, originalError: Option<JsError>, context: Option<ErrorContext>, timestamp: int)

  /** CreateErrorOptions; None is a field left out. */
  datatype ErrorOptions = ErrorOptions(
    kind: Option<ErrorType>, message: Option<string>, originalError: Option<JsError>, context: Option<ErrorContext>)

  const NoOptions := ErrorOptions(None, None, None, None)

  const UnknownMessage := "An unknown error occurred"

  /** `createError`: every supplied field is kept; a missing type is UNKNOWN and a missing message the generic one. */
  function CreateError(o: ErrorOptions, now: int): (e: AppError)
    ensures o.kind.Some? ==> e.kind == o.kind.value
    ensures o.kind.None? ==> e.kind == Unknown
    ensures o.message.Some? ==> e.message == o.message.value
    ensures o.message.None? ==> e.message == UnknownMessage
    ensures e.originalError == o.originalError && e.context == o.context && e.timestamp == now
  {
    AppError(o.kind.GetOr(Unknown), o.message.GetOr(UnknownMessage), o.originalError, o.context, now)
  }

  // ---------------------------------------------------------------------------
  // Recognising an AppError
  // ---------------------------------------------------------------------------

  /** A JavaScript value, as far as `typeof`, `in` and String() see it. */
  datatype JsValue =
    | JsNull | JsUndefined | JsString(s: string) | JsInt(i: int) | JsBool(b: bool)
    | JsFunction | JsObject(keys: set<string>)

  /** `isAppError`: a non-null object carrying `type`, `message` and `timestamp` keys. */
  predicate IsAppError(v: JsValue)
  {
    v.JsObject? && "type" in v.keys && "message" in v.keys && "timestamp" in v.keys
  }

  /** What can reach `handleError`: an AppError, a string, or an Error. */
  datatype Thrown = ThrownAppError(err: AppError) | ThrownString(text: string) | ThrownError(error: JsError)

  /** How each thrown value looks to JavaScript: the object literal of createError has all five keys, an Error only its message. */
  function ValueOf(t: Thrown): JsValue
  {
    match t
    case ThrownAppError(_) => JsObject({"type", "message", "originalError", "context", "timestamp"})
    case ThrownString(s) => JsString(s)
    case ThrownError(_) => JsObject({"message"})
  }

  /** Exactly the AppErrors pass the check. */
  lemma RecognisesAppErrors(t: Thrown)
    ensures IsAppError(ValueOf(t)) <==> t.ThrownAppError?
  {
    if t.ThrownError? {
      assert "type" !in ValueOf(t).keys;
    }
  }

  /** The AppError `handleError` reports for a thrown value. */
  function ToAppError(t: Thrown, o: ErrorOptions, now: int): (e: AppError)
    ensures IsAppError(ValueOf(t)) ==> e == t.err
    ensures t.ThrownString? ==> e.message == t.text && e.originalError.None?
    ensures t.ThrownError? ==> e.originalError == Some(t.error)
    ensures t.ThrownError? && o.message.Some? && o.message.value != "" ==> e.message == o.message.value
    ensures t.ThrownError? && (o.message.None? || o.message.value == "") ==> e.message == t.error.message
    ensures !t.ThrownAppError? ==> e.kind == o.kind.GetOr(Unknown) && e.context == o.context && e.timestamp == now
  {
    RecognisesAppErrors(t);
    match t
    case ThrownAppError(err) => err
    case ThrownString(s) => CreateError(o.(message := Some(s), originalError := None), now)
    case ThrownError(err) =>
      var message := if o.message.Some? && o.message.value != "" then o.message.value else err.message;
      CreateError(o.(message := Some(message), originalError := Some(err)), now)
  }

  // ---------------------------------------------------------------------------
  // The development history
  // ---------------------------------------------------------------------------

  const HistoryLimit := 20

  /** `[...history, e].slice(-20)`. */
  function Record(history: seq<AppError>, e: AppError): (r: seq<AppError>)
    ensures |r| == Min(|history| + 1, HistoryLimit)
    ensures r[|r| - 1] == e
    ensures forall i :: 0 <= i < |r| - 1 ==> r[i] == history[|history| + 1 - |r| + i]
  {
    var all := history + [e];
    all[Max(|all| - HistoryLimit, 0)..]
  }

  /** `handleError`: the error it returns and, in development, the history with it appended. */
  function HandleError(history: seq<AppError>, t: Thrown, o: ErrorOptions, dev: bool, now: int): (r: (AppError, seq<AppError>))
    ensures r.0 == ToAppError(t, o, now)
    ensures !dev ==> r.1 == history
    ensures dev ==> r.1 == Record(history, r.0)
  {
    var e := ToAppError(t, o, now);
    (e, if dev then Record(history, e) else history)
  }

  /** `getErrorHistory`: a copy of the history in development, nothing in production. */
  function GetErrorHistory(history: seq<AppError>, dev: bool): (r: seq<AppError>)
    ensures dev ==> r == history
    ensures !dev ==> r == []
  {
    if dev then history else []
  }

  /** `clearErrorHistory`: empties the history in development and leaves it alone in production. */
  function ClearErrorHistory(history: seq<AppError>, dev: bool): (r: seq<AppError>)
    ensures dev ==> r == []
    ensures !dev ==> r == history
  {
    if dev then [] else history
  }

  /**
   * In development the history visible after a clear and one report is that
   * one error; in production it stays empty whatever is reported.
   */
  lemma ClearThenReport(history: seq<AppError>, t: Thrown, o: ErrorOptions, dev: bool, now: int)
    ensures var h := HandleError(ClearErrorHistory(history, dev), t, o, dev, now).1;
      GetErrorHistory(h, dev) == (if dev then [ToAppError(t, o, now)] else [])
  {
  }

  /** The history after reporting several errors in order. */
  function RecordAll(history: seq<AppError>, es: seq<AppError>): seq<AppError>
    decreases |es|
  {
    if |es| == 0 then history else RecordAll(Record(history, es[0]), es[1..])
  }

  /** However many errors are reported, the history holds the last twenty of all of them, oldest first. */
  lemma {:induction false} HistoryKeepsLastTwenty(history: seq<AppError>, es: seq<AppError>)
    requires |history| <= HistoryLimit
    ensures var all := history + es;
      RecordAll(history, es) == all[Max(|all| - HistoryLimit, 0)..]
    decreases |es|
  {
    if |es| > 0 {
      var next := Record(history, es[0]);
      HistoryKeepsLastTwenty(next, es[1..]);
      var all := history + es;
      var all' := next + es[1..];
      var cut := Max(|all| - HistoryLimit, 0);
      var cut' := Max(|all'| - HistoryLimit, 0);
      var drop := |history| + 1 - |next|;
      assert next == (history + [es[0]])[drop..];
      assert all == (history + [es[0]]) + es[1..];
      assert all' == all[drop..];
      assert |all'| == |all| - drop;
      assert all'[cut'..] == all[drop + cut'..];
      assert drop + cut' == cut;
    }
  }

  // ---------------------------------------------------------------------------
  // Messages
  // ---------------------------------------------------------------------------

  const NetworkMessage := "Unable to connect to the server. " + "Please check your internet connection."
  const StorageMessage := "Unable to save or load your data. " + "Please try again."
  const CalculationMessage := "There was a problem " + "with the probability calculation. " + "Please try again."
  const NavigationMessage := "Unable to navigate to the selected screen. " + "Please try again."
  const UIMessage := "There was a problem displaying the interface. " + "Please restart the app."
  const GenericMessage := "Something went wrong. " + "Please try again or restart the app if the problem persists."

  /** `getFriendlyErrorMessage`: a fixed message per type, the generic one for UNKNOWN. */
  function FriendlyMessage(kind: ErrorType): (m: string)
    ensures |m| > 0
    ensures kind == Unknown <==> m == GenericMessage
  {
    assert |GenericMessage| == 82;
    match kind
    case Network => NetworkMessage
    case Storage => StorageMessage
    case Calculation => CalculationMessage
    case Navigation => NavigationMessage
    case UI => UIMessage
    case Unknown => GenericMessage
  }

  /** Different error types get different messages. */
  lemma FriendlyMessagesDistinct(a: ErrorType, b: ErrorType)
    requires a != b
    ensures FriendlyMessage(a) != FriendlyMessage(b)
  {
    assert NetworkMessage[0] == 'U' && CalculationMessage[0] == 'T';
    assert |NetworkMessage| == 71 && |StorageMessage| == 51 && |CalculationMessage| == 71;
    assert |NavigationMessage| == 60 && |UIMessage| == 69 && |GenericMessage| == 82;
  }

  /** `isNetworkError`, case-sensitively. */
  predicate IsNetworkError(e: JsError)
  {
    Contains(e.message, "network") || Contains(e.message, "connection") || Contains(e.message, "Network request failed")
  }

  /** A message that mentions a network word keeps doing so inside any longer message. */
  lemma NetworkErrorSurvivesContext(before: string, e: JsError, after: string)
    requires IsNetworkError(e)
    ensures IsNetworkError(JsError(before + e.message + after))
  {
    var m := e.message;
    var m' := before + m + after;
    forall sub: string, i: int | OccursAt(m, sub, i)
      ensures OccursAt(m', sub, i + |before|)
    {
      assert m'[i + |before|..i + |before| + |sub|] == m[i..i + |sub|];
    }
  }

  // ---------------------------------------------------------------------------
  // errorUtils
  // ---------------------------------------------------------------------------

  /** How an operation ended: with a value, or with an exception. */
  datatype Outcome<T> = Returned(value: T) | Threw(thrown: Thrown)

  /**
   * `safeExecute` and `safeExecuteSync`: the operation's value, or undefined
   * after reporting one error of the given type (UNKNOWN by default) with the
   * given context (empty by default).
   */
  function SafeExecute<T>(history: seq<AppError>, op: Outcome<T>, kind: Option<ErrorType>, context: Option<ErrorContext>, dev: bool, now: int)
    : (r: (Option<T>, seq<AppError>))
    ensures op.Returned? ==> r == (Some(op.value), history)
    ensures op.Threw? ==> r.0.None?
    ensures op.Threw? && dev ==>
      |r.1| == Min(|history| + 1, HistoryLimit)
      && r.1[|r.1| - 1] == ToAppError(op.thrown, ErrorOptions(Some(kind.GetOr(Unknown)), None, None, Some(context.GetOr(map[]))), now)
    ensures op.Threw? && !dev ==> r.1 == history
  {
    match op
    case Returned(v) => (Some(v), history)
    case Threw(t) =>
      var o := ErrorOptions(Some(kind.GetOr(Unknown)), None, None, Some(context.GetOr(map[])));
      (None, HandleError(history, t, o, dev, now).1)
  }

  /** The json context of a parse failure: the first 100 characters, and '...' when there were more. */
  function JsonContext(json: string): (c: string)
    ensures |json| <= 100 ==> c == json
    ensures |json| > 100 ==> |c| == 103 && c[..100] == json[..100] && EndsWith(c, "...")
  {
    json[..Min(100, |json|)] + (if |json| > 100 then "..." else "")
  }

  /**
   * `safeParseJSON`: `parsed` is what JSON.parse returned, None when it threw
   * `syntaxError`; a failure returns the default after reporting a STORAGE
   * error with the fixed message and the truncated input.
   */
  function SafeParseJson<T>(history: seq<AppError>, json: string, parsed: Option<T>, syntaxError: JsError, default: T, dev: bool, now: int)
    : (r: (T, seq<AppError>))
    ensures parsed.Some? ==> r == (parsed.value, history)
    ensures parsed.None? ==> r.0 == default
    ensures parsed.None? && dev ==>
      |r.1| > 0 &&
      var e := r.1[|r.1| - 1];
      e.kind == Storage && e.message == "Failed to parse JSON"
      && e.originalError == Some(syntaxError) && e.context == Some(map["json" := CText(JsonContext(json))])
  {
    match parsed
    case Some(v) => (v, history)
    case None =>
      var o := ErrorOptions(Some(Storage), Some("Failed to parse JSON"), None, Some(map["json" := CText(JsonContext(json))]));
      (default, HandleError(history, ThrownError(syntaxError), o, dev, now).1)
  }

  /** How `withErrorHandling` summarises one argument. */
  function Summary(v: JsValue): (s: string)
    ensures v.JsObject? || v.JsNull? ==> s == "Object"
    ensures v.JsFunction? ==> s == "Function"
    ensures v.JsString? ==> s == v.s
    ensures v.JsUndefined? ==> s == "undefined"
  {
    match v
    case JsNull => "Object"
    case JsObject(_) => "Object"
    case JsFunction => "Function"
    case JsUndefined => "undefined"
    case JsString(s) => s
    case JsInt(i) => IntToString(i)
    case JsBool(b) => if b then "true" else "false"
  }

  /**
   * A handler wrapped by `withErrorHandling`, called with `args`: its value,
   * or undefined after reporting one error of the given type (UI by default)
   * whose context adds the handler's name and the argument summaries.
   */
  function WithErrorHandling<T>(
    history: seq<AppError>, handlerName: string, args: seq<JsValue>, op: Outcome<T>,
    kind: Option<ErrorType>, context: Option<ErrorContext>, dev: bool, now: int)
    : (r: (Option<T>, seq<AppError>))
    ensures op.Returned? ==> r == (Some(op.value), history)
    ensures op.Threw? ==> r.0.None?
    ensures op.Threw? && dev && !op.thrown.ThrownAppError? ==>
      |r.1| > 0 &&
      var e := r.1[|r.1| - 1];
      e.kind == kind.GetOr(UI) && e.context.Some?
      && "handlerName" in e.context.value && e.context.value["handlerName"] == CText(handlerName)
      && "args" in e.context.value && e.context.value["args"].CList?
      && |e.context.value["args"].items| == |args|
      && (forall i :: 0 <= i < |args| ==> e.context.value["args"].items[i] == Summary(args[i]))
      && (forall k :: k in context.GetOr(map[]) && k != "handlerName" && k != "args" ==> k in e.context.value && e.context.value[k] == context.GetOr(map[])[k])
  {
    match op
    case Returned(v) => (Some(v), history)
    case Threw(t) =>
      var summaries := seq(|args|, i requires 0 <= i < |args| => Summary(args[i]));
      var full := context.GetOr(map[]) + map["handlerName" := CText(handlerName), "args" := CList(summaries)];
      var o := ErrorOptions(Some(kind.GetOr(UI)), None, None, Some(full));
      (None, HandleError(history, t, o, dev, now).1)
  }
}
