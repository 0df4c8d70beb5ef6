/**
  The error taxonomy of the core (errors.go): the fixed table of error
  kinds, the Error value that wraps a cause, NewError with its typed
  overrides, the default detailer hook that classifies causes, and the two
  client-facing views of an Error (its HTTP status and its extensions map).

  Go's dynamically typed `error` and `interface{}` values are the datatypes
  Cause and Override. The Error's back-reference to its request is dropped:
  Extensions takes the environment and the operation trail it used to read
  through that reference.
*/
module Errors {
  import opened Wrappers
  import Strconv
  import Strings
  import Config

  /** zapcore.Level, from least to most severe. */
  datatype Level = DebugLevel | InfoLevel | WarnLevel | ErrorLevel | DPanicLevel | PanicLevel | FatalLevel

  /** A kind of error: a six-digit code whose first three digits are an HTTP status, a title, a message and a log severity. */
  datatype ErrorKind = ErrorKind(code: int, title: string, message: string, severity: Level)
  {
    /** The text of the kind: its message, else its title, else the title of KindUnknown. */
    function Text(): (text: string)
      ensures text != ""
      ensures message != "" ==> text == message
      ensures message == "" && title != "" ==> text == title
      ensures message == "" && title == "" ==> text == KindUnknown.title
    {
      if message != "" then message
      else if title != "" then title
      else KindUnknown.title
    }
  }

  const KindInvalidJson := ErrorKind(400_000, "Invalid JSON", "Your request body contains invalid JSON", InfoLevel)
  const KindStructValidation := ErrorKind(400_001, "Bad Data", "Your payload contains invalid data", InfoLevel)
  const KindInvalidContentType := ErrorKind(400_003, "Invalid Content-Type", "The provided Content-Type was not application/json", DebugLevel)
  const KindUnauthorized := ErrorKind(401_100, "Unauthorized", "You're not authorized to perform that action", InfoLevel)
  const KindInvalidCredentials := ErrorKind(401_001, "Invalid Credentials", "The provided credentials were incorrect", DebugLevel)
  const KindInvalidJwt := ErrorKind(401_002, "Invalid JWT", "The provided refresh or access token was invalid", InfoLevel)
  const KindExpiredAccessToken := ErrorKind(401_003, "Expired Access Token", "The provided access token was expired", DebugLevel)
  const KindRouteNotFound := ErrorKind(404_000, "Not Found", "The requested url does not exist", DebugLevel)
  const KindRowNotFound := ErrorKind(404_001, "Not Found", "The requested resource was not found", DebugLevel)
  const KindMethodNotAllowed := ErrorKind(405_000, "Method Not Allowed", "The requested url does not support that HTTP method", DebugLevel)
  const KindUnknown := ErrorKind(500_000, "Unexpected Error", "An unexpected error occurred while processing your request. Please try again later.", DPanicLevel)
  const KindDatabase := ErrorKind(500_001, "", "", ErrorLevel)

  /** The built-in kinds, in the order they are declared. */
  const BuiltInKinds := [KindInvalidJson, KindStructValidation, KindInvalidContentType,
                         KindUnauthorized, KindInvalidCredentials, KindInvalidJwt, KindExpiredAccessToken,
                         KindRouteNotFound, KindRowNotFound, KindMethodNotAllowed, KindUnknown, KindDatabase]

  /** jwt.ValidationErrorExpired, the bit jwt-go sets when the exp claim has passed. */
  const ValidationErrorExpired: nat := 16

  /** One failed field of a struct validation, with the message the translator produced for it. */
  datatype FieldError = FieldError(namespace: string, translation: string)

  /** A Go `error` value, by dynamic type. External errors carry the text their Error method returns. */
  datatype Cause =
    | Nil
    | CoreError(err: Error)                                   // core.Error
    | KindCause(kind: ErrorKind)                              // core.ErrorKind
    | ValidationErrors(fieldErrors: seq<FieldError>, text: string)  // validator.ValidationErrors
    | JwtValidationError(errors: nat, text: string)           // *jwt.ValidationError with its error bits
    | ErrNoRows                                               // sql.ErrNoRows
    | OtherError(typeName: string, text: string)              // any other error

  /** core.Error */
  datatype Error = Error(kind: ErrorKind, message: string, details: seq<string>, cause: Cause)
  {
    /** The text of the error: its own message when set, else the text of its kind. */
    function Text(): (text: string)
      ensures text != ""
      ensures message != "" ==> text == message
      ensures message == "" ==> text == kind.Text()
    {
      if message != "" then message else kind.Text()
    }

    /** The HTTP status: the first three decimal digits of the kind's code. */
    function HttpStatus(): (status: int)
      ensures 100000 <= kind.code <= 999999 ==> status == kind.code / 1000
      ensures HttpStatusAsWritten(kind.code).Some? ==> status == HttpStatusAsWritten(kind.code).value
    {
      StatusOfCode(kind.code)
    }

    /**
      The extensions map sent to clients: always code and title; details when
      there are any; outside production also the operation trail and, when
      there is a cause, its type and text.
    */
    function Extensions(env: string, operations: seq<string>): (m: map<string, ExtValue>)
      ensures m.Keys == {"code", "title"}
                        + (if |details| > 0 then {"details"} else {})
                        + (if env != Config.EnvProduction then {"operations"} else {})
                        + (if env != Config.EnvProduction && cause != Nil then {"cause"} else {})
      ensures m["code"] == IntValue(kind.code) && m["title"] == StringValue(kind.title)
      ensures "details" in m ==> m["details"] == StringsValue(details)
      ensures "operations" in m ==> m["operations"] == StringsValue(operations)
      ensures "cause" in m ==> cause != Nil && m["cause"] == CauseValue(TypeName(cause), CauseText(cause))
    {
      var base := map["code" := IntValue(kind.code), "title" := StringValue(kind.title)];
      var withDetails := if |details| > 0 then base["details" := StringsValue(details)] else base;
      if env == Config.EnvProduction then withDetails
      else
        var withOps := withDetails["operations" := StringsValue(operations)];
        if cause != Nil then withOps["cause" := CauseValue(TypeName(cause), CauseText(cause))]
        else withOps
    }
  }

  /** A value of the client-facing extensions map. */
  datatype ExtValue =
    | IntValue(i: int)
    | StringValue(s: string)
    | StringsValue(ss: seq<string>)
    | CauseValue(typeName: string, message: string)

  /** The Go type name of a cause, as the %T verb prints it. */
  function TypeName(c: Cause): string {
    match c
    case Nil => "<nil>"
    case CoreError(_) => "core.Error"
    case KindCause(_) => "core.ErrorKind"
    case ValidationErrors(_, _) => "validator.ValidationErrors"
    case JwtValidationError(_, _) => "*jwt.ValidationError"
    case ErrNoRows => "*errors.errorString"
    case OtherError(t, _) => t
  }

  /** The text a cause's Error method returns; Go panics on a nil cause. */
  function CauseText(c: Cause): string
    requires c != Nil
  {
    match c
    case CoreError(e) => e.Text()
    case KindCause(k) => k.Text()
    case ValidationErrors(_, t) => t
    case JwtValidationError(_, t) => t
    case ErrNoRows => "sql: no rows in result set"
    case OtherError(_, t) => t
  }

  /** The status of a code as the corrected HttpStatus derives it: the as-written status, with 500 where that one panics. */
  function StatusOfCode(code: int): (status: int)
    ensures 100000 <= code <= 999999 ==> status == code / 1000
    ensures HttpStatusAsWritten(code).Some? ==> status == HttpStatusAsWritten(code).value
    ensures HttpStatusAsWritten(code).None? ==> status == 500
  {
    HttpStatusAsWritten(code).GetOr(500)
  }

  /**
    HttpStatus exactly as written: the decimal of the code is sliced to its
    first three characters, which panics (None here) when it is shorter; the
    fallback to 500 for an unparsable prefix is kept, though it cannot be taken.
  */
  function HttpStatusAsWritten(code: int): (r: Option<int>)
    ensures r.None? <==> -9 <= code <= 99
    ensures 100000 <= code <= 999999 ==> r == Some(code / 1000)
  {
    var s := Strconv.Itoa(code);
    assert 100000 <= code <= 999999 ==> |s| == 6 && Strconv.Atoi(s[..3]) == Some(code / 1000) by {
      if 100000 <= code <= 999999 {
        Strconv.SixDigitPrefix(code);
        Strconv.DigitsValueOfNatDigits(code / 1000);
      }
    }
    if |s| < 3 then None
    else match Strconv.Atoi(s[..3])
      case Some(v) => Some(v)
      case None => Some(500)
  }

  /** A code of fewer than three decimal characters makes HttpStatus panic as written. */
  lemma ShortCodePanicsAsWritten()
    ensures HttpStatusAsWritten(42) == None
    ensures StatusOfCode(42) == 500
  {
    assert Strconv.Itoa(42) == Strconv.NatDigits(4) + [Strconv.DigitChar(2)];
  }

  /** As written, the 500 fallback is unreachable: every prefix the slice can produce parses. */
  lemma AsWrittenFallbackUnreachable(code: int)
    requires HttpStatusAsWritten(code).Some?
    ensures Strconv.Atoi(Strconv.Itoa(code)[..3]).Some?
    ensures HttpStatusAsWritten(code) == Some(Strconv.Atoi(Strconv.Itoa(code)[..3]).value)
  {
    Strconv.PrefixOfItoaParses(code);
  }

  /** Each built-in kind maps to the status of its family. */
  lemma BuiltInKindStatuses(e: Error)
    requires e.kind in BuiltInKinds
    ensures e.kind.code / 100000 == 4 ==> e.HttpStatus() in {400, 401, 404, 405}
    ensures e.kind in {KindInvalidJson, KindStructValidation, KindInvalidContentType} ==> e.HttpStatus() == 400
    ensures e.kind in {KindUnauthorized, KindInvalidCredentials, KindInvalidJwt, KindExpiredAccessToken} ==> e.HttpStatus() == 401
    ensures e.kind in {KindRouteNotFound, KindRowNotFound} ==> e.HttpStatus() == 404
    ensures e.kind == KindMethodNotAllowed ==> e.HttpStatus() == 405
    ensures e.kind in {KindUnknown, KindDatabase} ==> e.HttpStatus() == 500
  {
    assert 100000 <= e.kind.code <= 999999;
    assert e.HttpStatus() == e.kind.code / 1000;
  }

  // ---------------------------------------------------------------------------
  // NewError and its overrides

  /** A value passed after the cause to NewError, by dynamic type. */
  datatype Override =
    | ErrorOverride(err: Cause)  // any error value: an ErrorKind replaces the kind, any other the cause
    | StringOverride(s: string)  // replaces the message
    | LevelOverride(level: Level)  // replaces the kind's severity
    | OtherOverride              // any other type: logged and ignored

  predicate IsKindOverride(o: Override) {
    o.ErrorOverride? && o.err.KindCause?
  }

  /** An error value other than an ErrorKind; a nil interface matches no case of the type switch. */
  predicate IsCauseOverride(o: Override) {
    o.ErrorOverride? && !o.err.KindCause? && o.err != Nil
  }

  /** The Error NewError starts from: an unknown kind, or the kind the cause itself is, with that kind's message. */
  function Base(err: Cause): Error {
    if err.KindCause? then Error(err.kind, err.kind.message, [], err)
    else Error(KindUnknown, "", [], err)
  }

  /** One step of the override loop. */
  function ApplyOverride(e: Error, o: Override): (r: Error)
    ensures r.details == e.details
    ensures r.kind.code != e.kind.code || r.kind.title != e.kind.title || r.kind.message != e.kind.message
            ==> IsKindOverride(o)
    ensures r.kind.severity != e.kind.severity ==> IsKindOverride(o) || o.LevelOverride?
    ensures r.message != e.message ==> o.StringOverride?
    ensures r.cause != e.cause ==> IsCauseOverride(o)
    ensures !IsKindOverride(o) && !IsCauseOverride(o) && !o.StringOverride? && !o.LevelOverride? ==> r == e
  {
    match o
    case ErrorOverride(c) =>
      if c.KindCause? then e.(kind := c.kind)
      else if c != Nil then e.(cause := c)
      else e
    case StringOverride(m) => e.(message := m)
    case LevelOverride(l) => e.(kind := e.kind.(severity := l))
    case OtherOverride => e
  }

  /** The Error after the overrides are applied left to right to the starting Error. */
  function Overridden(err: Cause, overrides: seq<Override>): (e: Error)
    ensures e.details == []
    ensures err != Nil ==> e.cause != Nil
    decreases |overrides|
  {
    if overrides == [] then Base(err)
    else ApplyOverride(Overridden(err, overrides[..|overrides| - 1]), overrides[|overrides| - 1])
  }

  /** The hook NewError runs last: the default decorator or one supplied by the application. */
  datatype Detailer = DefaultDetailer | CustomDetailer(f: Error -> Error)

  function Detail(d: Detailer, e: Error): Error
    requires d.DefaultDetailer? ==> e.cause != Nil
  {
    match d
    case DefaultDetailer => Decorated(e)
    case CustomDetailer(f) => f(e)
  }

  /**
    The default decorator reads the text of the cause, which panics on a nil
    cause; NewError is defined when the detailer is custom, when err is
    already an Error, or when the cause left after the overrides is not nil.
  */
  predicate Detailable(d: Detailer, err: Cause, overrides: seq<Override>) {
    d.DefaultDetailer? && !err.CoreError? ==> Overridden(err, overrides).cause != Nil
  }

  /** The Error NewError returns. */
  function NewErrorValue(d: Detailer, err: Cause, overrides: seq<Override>): Error
    requires Detailable(d, err, overrides)
  {
    if err.CoreError? then err.err
    else Detail(d, Overridden(err, overrides))
  }

  /**
    NewError: an Error is returned unchanged; any other cause is wrapped,
    the overrides are applied in order, and the detailer hook runs.
  */
  method NewError(d: Detailer, err: Cause, overrides: seq<Override>) returns (e: Error)
    requires Detailable(d, err, overrides)
    ensures e == NewErrorValue(d, err, overrides)
  {
    if err.CoreError? {
      return err.err;
    }
    e := Error(KindUnknown, "", [], err);
    if err.KindCause? {
      e := e.(kind := err.kind, message := err.kind.message);
    }
    var i := 0;
    while i < |overrides|
      invariant 0 <= i <= |overrides|
      invariant e == Overridden(err, overrides[..i])
    {
      match overrides[i] {
        case ErrorOverride(c) =>
          if c.KindCause? {
            e := e.(kind := c.kind);
          } else if c != Nil {
            e := e.(cause := c);
          }
        case StringOverride(m) =>
          e := e.(message := m);
        case LevelOverride(l) =>
          e := e.(kind := e.kind.(severity := l));
        case OtherOverride =>
      }
      assert overrides[..i + 1][..i] == overrides[..i];
      i := i + 1;
    }
    assert overrides[..i] == overrides;
    match d {
      case DefaultDetailer =>
        e := DefaultErrorDecorator(e);
      case CustomDetailer(f) =>
        e := f(e);
    }
  }

  /** Wrapping an Error again, with any overrides, gives it back unchanged. */
  lemma NewErrorIdempotent(d: Detailer, err: Cause, overrides: seq<Override>, again: seq<Override>)
    requires Detailable(d, err, overrides)
    ensures NewErrorValue(d, CoreError(NewErrorValue(d, err, overrides)), again) == NewErrorValue(d, err, overrides)
  {
  }

  /** The message is the one of the last string override. */
  lemma {:induction false} LastStringOverrideWins(err: Cause, overrides: seq<Override>, i: nat)
    requires i < |overrides| && overrides[i].StringOverride?
    requires forall j :: i < j < |overrides| ==> !overrides[j].StringOverride?
    ensures Overridden(err, overrides).message == overrides[i].s
    decreases |overrides|
  {
    if i < |overrides| - 1 {
      var init := overrides[..|overrides| - 1];
      LastStringOverrideWins(err, init, i);
    }
  }

  /** Without a string override the message is the starting one: the kind's message for an ErrorKind cause, else empty. */
  lemma {:induction false} MessageWithoutStringOverride(err: Cause, overrides: seq<Override>)
    requires forall j :: 0 <= j < |overrides| ==> !overrides[j].StringOverride?
    ensures Overridden(err, overrides).message == (if err.KindCause? then err.kind.message else "")
    decreases |overrides|
  {
    if overrides != [] {
      MessageWithoutStringOverride(err, overrides[..|overrides| - 1]);
    }
  }

  /** The cause is the one of the last non-nil, non-ErrorKind error override. */
  lemma {:induction false} LastCauseOverrideWins(err: Cause, overrides: seq<Override>, i: nat)
    requires i < |overrides| && IsCauseOverride(overrides[i])
    requires forall j :: i < j < |overrides| ==> !IsCauseOverride(overrides[j])
    ensures Overridden(err, overrides).cause == overrides[i].err
    decreases |overrides|
  {
    if i < |overrides| - 1 {
      LastCauseOverrideWins(err, overrides[..|overrides| - 1], i);
    }
  }

  /** Without such an override the cause is the wrapped error itself. */
  lemma {:induction false} CauseWithoutCauseOverride(err: Cause, overrides: seq<Override>)
    requires forall j :: 0 <= j < |overrides| ==> !IsCauseOverride(overrides[j])
    ensures Overridden(err, overrides).cause == err
    decreases |overrides|
  {
    if overrides != [] {
      CauseWithoutCauseOverride(err, overrides[..|overrides| - 1]);
    }
  }

  /**
    The kind is the one of the last ErrorKind override, except that a level
    override after it replaces its severity (the last such one winning).
  */
  lemma {:induction false} LastKindOverrideWins(err: Cause, overrides: seq<Override>, i: nat)
    requires i < |overrides| && IsKindOverride(overrides[i])
    requires forall j :: i < j < |overrides| ==> !IsKindOverride(overrides[j])
    ensures Overridden(err, overrides).kind.(severity := overrides[i].err.kind.severity) == overrides[i].err.kind
    ensures (forall j :: i < j < |overrides| ==> !overrides[j].LevelOverride?)
            ==> Overridden(err, overrides).kind == overrides[i].err.kind
    decreases |overrides|
  {
    if i < |overrides| - 1 {
      LastKindOverrideWins(err, overrides[..|overrides| - 1], i);
    }
  }

  /** The severity is the one of the last level override when no ErrorKind override follows it. */
  lemma {:induction false} LastLevelOverrideWins(err: Cause, overrides: seq<Override>, i: nat)
    requires i < |overrides| && overrides[i].LevelOverride?
    requires forall j :: i < j < |overrides| ==> !overrides[j].LevelOverride? && !IsKindOverride(overrides[j])
    ensures Overridden(err, overrides).kind.severity == overrides[i].level
    decreases |overrides|
  {
    if i < |overrides| - 1 {
      LastLevelOverrideWins(err, overrides[..|overrides| - 1], i);
    }
  }

  /** Without kind or level overrides the kind is the starting one: the cause's own kind, else KindUnknown. */
  lemma {:induction false} KindWithoutKindOverride(err: Cause, overrides: seq<Override>)
    requires forall j :: 0 <= j < |overrides| ==> !IsKindOverride(overrides[j]) && !overrides[j].LevelOverride?
    ensures Overridden(err, overrides).kind == (if err.KindCause? then err.kind else KindUnknown)
    decreases |overrides|
  {
    if overrides != [] {
      KindWithoutKindOverride(err, overrides[..|overrides| - 1]);
    }
  }

  // ---------------------------------------------------------------------------
  // DefaultErrorDecorator

  /** The kind the default decorator would assign to a cause, if any. */
  function Classification(c: Cause): (k: Option<ErrorKind>)
    requires c != Nil
    ensures c.ValidationErrors? ==> k == Some(KindStructValidation)
    ensures c.JwtValidationError? ==> k == Some(if c.errors == ValidationErrorExpired then KindExpiredAccessToken else KindInvalidJwt)
    ensures c.ErrNoRows? ==> k == Some(KindRowNotFound)
    ensures k.Some? && !c.ValidationErrors? && !c.JwtValidationError? && !c.ErrNoRows? ==> k == Some(KindDatabase)
    ensures !c.ValidationErrors? && !c.JwtValidationError? && !c.ErrNoRows? ==> (k.Some? <==> MentionsModels(c))
  {
    match c
    case ValidationErrors(_, _) => Some(KindStructValidation)
    case JwtValidationError(bits, _) =>
      Some(if bits == ValidationErrorExpired then KindExpiredAccessToken else KindInvalidJwt)
    case ErrNoRows => Some(KindRowNotFound)
    case CoreError(_) | KindCause(_) | OtherError(_, _) =>
      if MentionsModels(c) then Some(KindDatabase) else None
  }

  /** The error's text mentions "models", the package of the generated database code. */
  predicate MentionsModels(c: Cause)
    requires c != Nil
  {
    Strings.Contains(CauseText(c), "models")
  }

  function Translations(fieldErrors: seq<FieldError>): (ts: seq<string>)
    ensures |ts| == |fieldErrors|
    ensures forall i :: 0 <= i < |fieldErrors| ==> ts[i] == fieldErrors[i].translation
    decreases |fieldErrors|
  {
    if fieldErrors == [] then []
    else Translations(fieldErrors[..|fieldErrors| - 1]) + [fieldErrors[|fieldErrors| - 1].translation]
  }

  /** The details the default decorator appends for a cause. */
  function CauseDetails(c: Cause): seq<string> {
    match c
    case ValidationErrors(fes, _) => Translations(fes)
    case JwtValidationError(_, t) => [t]
    case _ => []
  }

  /**
    The Error after the default decorator: the kind is classified only if it
    is still KindUnknown, and the cause's details are appended whatever the kind.
  */
  function Decorated(e: Error): (r: Error)
    requires e.cause != Nil
    ensures e.kind != KindUnknown ==> r.kind == e.kind
    ensures e.kind == KindUnknown && Classification(e.cause).Some? ==> r.kind == Classification(e.cause).value
    ensures Classification(e.cause).None? ==> r.kind == e.kind
    ensures r.message == e.message && r.cause == e.cause
    ensures |r.details| >= |e.details| && r.details[..|e.details|] == e.details
    ensures e.cause.ValidationErrors? ==>
              |r.details| == |e.details| + |e.cause.fieldErrors|
              && forall i :: 0 <= i < |e.cause.fieldErrors| ==> r.details[|e.details| + i] == e.cause.fieldErrors[i].translation
    ensures e.cause.JwtValidationError? ==> r.details == e.details + [e.cause.text]
    ensures !e.cause.ValidationErrors? && !e.cause.JwtValidationError? ==> r.details == e.details
  {
    var k := Classification(e.cause);
    Error(if e.kind == KindUnknown && k.Some? then k.value else e.kind,
          e.message, e.details + CauseDetails(e.cause), e.cause)
  }

  /** DefaultErrorDecorator, updating the Error step by step as the Go function does through its pointer. */
  method DefaultErrorDecorator(e: Error) returns (r: Error)
    requires e.cause != Nil
    ensures r == Decorated(e)
  {
    r := e;
    match e.cause {
      case ValidationErrors(fes, _) =>
        if r.kind == KindUnknown {
          r := r.(kind := KindStructValidation);
        }
        var i := 0;
        while i < |fes|
          invariant 0 <= i <= |fes|
          invariant r == e.(kind := r.kind, details := e.details + Translations(fes[..i]))
          invariant r.kind == (if e.kind == KindUnknown then KindStructValidation else e.kind)
        {
          assert fes[..i + 1][..i] == fes[..i];
          r := r.(details := r.details + [fes[i].translation]);
          i := i + 1;
        }
        assert fes[..i] == fes;
      case JwtValidationError(bits, text) =>
        if r.kind == KindUnknown {
          r := r.(kind := if bits == ValidationErrorExpired then KindExpiredAccessToken else KindInvalidJwt);
        }
        r := r.(details := r.details + [text]);
      case ErrNoRows =>
        if r.kind == KindUnknown {
          r := r.(kind := KindRowNotFound);
        }
      case CoreError(_) | KindCause(_) | OtherError(_, _) =>
        if Strings.Contains(CauseText(e.cause), "models") && r.kind == KindUnknown {
          r := r.(kind := KindDatabase);
        }
    }
  }

  /**
    A level override on an unclassified cause leaves the kind unequal to
    KindUnknown, so the default decorator no longer classifies it.
  */
  lemma LevelOverrideBlocksClassification(fieldErrors: seq<FieldError>, text: string, level: Level)
    requires level != DPanicLevel
    ensures NewErrorValue(DefaultDetailer, ValidationErrors(fieldErrors, text), [LevelOverride(level)]).kind
            == KindUnknown.(severity := level)
  {
    var c := ValidationErrors(fieldErrors, text);
    assert [LevelOverride(level)][..0] == [];
    assert Overridden(c, []) == Error(KindUnknown, "", [], c);
    assert Overridden(c, [LevelOverride(level)]).kind == KindUnknown.(severity := level);
  }

  /** Under the default decorator an ErrorKind cause keeps its kind, and so its status. */
  lemma KindCauseKeepsKind(k: ErrorKind, overrides: seq<Override>)
    requires k != KindUnknown
    requires forall j :: 0 <= j < |overrides| ==> !IsKindOverride(overrides[j]) && !overrides[j].LevelOverride?
    ensures NewErrorValue(DefaultDetailer, KindCause(k), overrides).kind == k
  {
    KindWithoutKindOverride(KindCause(k), overrides);
  }

  /** Under the default decorator an ErrorKind override fixes the kind whatever the cause. */
  lemma KindOverrideKeepsKind(err: Cause, k: ErrorKind)
    requires err != Nil && !err.CoreError? && k != KindUnknown
    ensures NewErrorValue(DefaultDetailer, err, [ErrorOverride(KindCause(k))]).kind == k
  {
    LastKindOverrideWins(err, [ErrorOverride(KindCause(k))], 0);
  }

  /** A validation failure with n invalid fields gives status 400 and exactly n details, in order. */
  lemma ValidationFailureDetails(fieldErrors: seq<FieldError>, text: string)
    ensures var e := NewErrorValue(DefaultDetailer, ValidationErrors(fieldErrors, text), []);
            e.kind == KindStructValidation && e.HttpStatus() == 400
            && e.details == Translations(fieldErrors)
  {
    assert Overridden(ValidationErrors(fieldErrors, text), []).details == [];
  }

  /** A resolver's "no rows" failure gives status 404 with a 404 code. */
  lemma NoRowsIsNotFound()
    ensures var e := NewErrorValue(DefaultDetailer, ErrNoRows, []);
            e.kind == KindRowNotFound && e.HttpStatus() == 404 && e.kind.code / 1000 == 404
  {
  }
}
