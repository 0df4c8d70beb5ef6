/**
  The request handling of the server (server.go): the response being built
  for a request, how errors set its status and body, how the errors the
  GraphQL engine returns are folded into one HTTP status, the request
  context each handler creates, and the check of the global hooks made
  before the server starts.

  The GraphQL engine and the JSON decoder are parameters; the body the
  engine produces is reduced to its list of errors and its extensions.
*/
module Server {
  import opened Wrappers
  import Strings
  import Config
  import Errors
  import Core

  const TraceHeader := "X-Cloud-Trace-Context"
  const TraceKey := "logging.googleapis.com/trace"
  const ApiOperation := "server.handleGraphql"
  const MethodNotAllowedOperation := "server.MethodNotAllowed"
  const NotFoundOperation := "server.NotFound"

  // ---------------------------------------------------------------------------
  // checkGlobals

  /** The package-level hooks an application must set before Run. */
  datatype Hook = ResolverHook | DetailHook | DetermineHook | DecorateHook

  /** The order in which checkGlobals looks at the hooks. */
  const HookOrder: seq<Hook> := [ResolverHook, DetailHook, DetermineHook, DecorateHook]

  function HookMessage(h: Hook): string {
    match h
    case ResolverHook => "you must set the GraphQL resolver (help: call core.SetGraphqlResolver before calling core.Run)"
    case DetailHook => "you must set the core.ErrorDetailer (help: call core.SetErrorDetailer before calling core.Run)"
    case DetermineHook => "you must set the core.ErrorDeterminer (help: call core.SetErrorDeterminer before calling core.Run)"
    case DecorateHook => "you must set the core.ContextDetailer (help: call core.SetContextDecorator before calling core.Run)"
  }

  /** The position of the first hook of order that is not set, or |order| when all are. */
  function FirstUnset(order: seq<Hook>, isSet: set<Hook>): (i: nat)
    ensures i <= |order|
    ensures forall j :: 0 <= j < i ==> order[j] in isSet
    ensures i < |order| ==> order[i] !in isSet
    decreases |order|
  {
    if order == [] then 0
    else if order[0] !in isSet then 0
    else 1 + FirstUnset(order[1..], isSet)
  }

  /** The hook checkGlobals reports: the first unset one in the order resolver, detail, determine, decorate. */
  function MissingHook(isSet: set<Hook>): (h: Option<Hook>)
    ensures h.None? <==> forall g: Hook :: g in isSet
    ensures var i := FirstUnset(HookOrder, isSet);
            (i == |HookOrder| ==> h.None?) && (i < |HookOrder| ==> h == Some(HookOrder[i]))
  {
    FirstUnsetOfHookOrder(isSet);
    assert forall g: Hook | g !in isSet :: g == ResolverHook || g == DetailHook || g == DetermineHook || g == DecorateHook;
    if ResolverHook !in isSet then Some(ResolverHook)
    else if DetailHook !in isSet then Some(DetailHook)
    else if DetermineHook !in isSet then Some(DetermineHook)
    else if DecorateHook !in isSet then Some(DecorateHook)
    else None
  }

  /** checkGlobals: the message for the missing hook; no error exactly when all four hooks are set. */
  function CheckGlobals(isSet: set<Hook>): (err: Option<string>)
    ensures err.None? <==> forall g: Hook :: g in isSet
    ensures err.Some? ==> err.value == HookMessage(MissingHook(isSet).value)
  {
    match MissingHook(isSet)
    case None => None
    case Some(h) => Some(HookMessage(h))
  }

  lemma FirstUnsetOfHookOrder(isSet: set<Hook>)
    ensures FirstUnset(HookOrder, isSet)
            == if ResolverHook !in isSet then 0
               else if DetailHook !in isSet then 1
               else if DetermineHook !in isSet then 2
               else if DecorateHook !in isSet then 3
               else 4
  {
    assert HookOrder[1..] == [DetailHook, DetermineHook, DecorateHook];
    assert HookOrder[1..][1..] == [DetermineHook, DecorateHook];
    assert HookOrder[1..][1..][1..] == [DecorateHook];
    assert HookOrder[1..][1..][1..][1..] == [];
  }

  // ---------------------------------------------------------------------------
  // newCore

  /** The trace id of a Google Cloud trace header: everything before its first '/'. */
  function TraceId(header: string): (t: string)
    ensures Strings.HasPrefix(header, t) && '/' !in t
    ensures |t| < |header| ==> header[|t|] == '/'
    ensures '/' !in header ==> t == header
  {
    Strings.Split(header, '/')[0]
  }

  function TraceLabel(projectId: string, traceId: string): string {
    "projects/" + projectId + "/traces/" + traceId
  }

  /** The fields newCore attaches to the request's logger: the trace, when the header names one. */
  function TraceFields(projectId: string, header: string): (m: map<string, string>)
    ensures TraceId(header) == "" ==> m == map[]
    ensures TraceId(header) != "" ==> m.Keys == {TraceKey} && m[TraceKey] == TraceLabel(projectId, TraceId(header))
  {
    var t := TraceId(header);
    if |t| > 0 then map[TraceKey := TraceLabel(projectId, t)] else map[]
  }

  /** A trace header "T/S;o=1" gives the trace T. */
  lemma TraceOfHeader(t: string, rest: string)
    requires '/' !in t
    ensures TraceId(t + "/" + rest) == t
  {
    Strings.SplitPeel(t, '/', rest);
  }

  /** What the server holds for every request: its configuration, the JWT library and the error detailer. */
  datatype ServerEnv = ServerEnv(cfg: Config.Config, jwt: Core.JwtLib, detailer: Errors.Detailer)

  /**
    newCore: a context for the request with a one-operation trail and the
    trace attached to its logger, after which the session is started.
  */
  method NewCore(env: ServerEnv, req: Core.Request, id: string, operation: string) returns (c: Core.Core, err: Errors.Cause)
    ensures fresh(c) && c.session != null && fresh(c.session)
    ensures c.id == id && c.config == env.cfg && c.request == req && c.jwt == env.jwt && c.detailer == env.detailer
    ensures c.operations == [operation] && c.cookies == []
    ensures c.logFields == TraceFields(env.cfg.googleCloud.projectId, req.HeaderValue(TraceHeader))
    ensures var o := Core.SessionOutcome(req, env.cfg, env.jwt, env.detailer);
            err == o.err && c.session.accessToken == o.token && c.session.accessTokenString == o.tokenString
  {
    c := new Core.Core(id, env.cfg, req, env.jwt, env.detailer, operation);
    c.logFields := TraceFields(env.cfg.googleCloud.projectId, req.HeaderValue(TraceHeader));
    err := c.StartSession();
  }

  // ---------------------------------------------------------------------------
  // The response

  /** One error of a GraphQL response; a nil resolver error marks one raised before any resolver ran. */
  datatype QueryError = QueryError(message: string, extensions: map<string, Errors.ExtValue>, resolverError: Errors.Cause)

  /** A GraphQL response, reduced to its errors (None for a nil list) and its extensions. */
  datatype GqlResponse = GqlResponse(errors: Option<seq<QueryError>>, extensions: map<string, string>)

  /** One JSON document written to the response, with the status passed to WriteHeader before it. */
  datatype Envelope = Envelope(status: int, body: GqlResponse)

  /** The body writeError produces for e, once write has set its extensions. */
  function ErrorResponse(c: Core.Core, e: Errors.Error, err: Errors.Cause): GqlResponse
    reads c
  {
    GqlResponse(Some([QueryError(e.Text(), c.ErrorExtensions(e), err)]), c.Extensions())
  }

  /** The response being built for a request. */
  class Response {
    const core: Core.Core
    var result: Option<GqlResponse>
    var status: int
    /** The documents written so far, one per call of write. */
    var written: seq<Envelope>

    /** newResponse: status 200 and no result yet. */
    constructor (core: Core.Core)
      ensures this.core == core && result == None && status == 200 && written == []
    {
      this.core := core;
      result := None;
      status := 200;
      written := [];
    }

    /**
      writeError: the status becomes the HTTP status of NewError's result,
      the result a single error carrying its text and extensions, and the
      response is written.
    */
    method WriteError(err: Errors.Cause, overrides: seq<Errors.Override>)
      requires Errors.Detailable(core.detailer, err, overrides)
      modifies this
      decreases 1
      ensures var e := Errors.NewErrorValue(core.detailer, err, overrides);
              status == e.HttpStatus()
              && result == Some(ErrorResponse(core, e, err))
              && written == old(written) + [Envelope(status, result.value)]
    {
      var e := Errors.NewError(core.detailer, err, overrides);
      status := e.HttpStatus();
      result := Some(GqlResponse(Some([QueryError(e.Text(), core.ErrorExtensions(e), err)]), map[]));
      Write();
    }

    /**
      write: sets the extensions of the result and writes it with the
      current status. Without a result an unknown error is written first and
      then written again by this call, so two documents go out.
    */
    method Write()
      modifies this
      decreases if result.None? then 2 else 0
      ensures old(result).Some? ==>
                status == old(status)
                && result == Some(old(result).value.(extensions := core.Extensions()))
                && written == old(written) + [Envelope(status, result.value)]
      ensures old(result).None? ==>
                var e := UnknownError(core.detailer);
                status == e.HttpStatus()
                && result == Some(ErrorResponse(core, e, Errors.CoreError(e)))
                && written == old(written) + [Envelope(status, result.value), Envelope(status, result.value)]
    {
      if result.None? {
        var e := Errors.NewError(core.detailer, Errors.KindCause(Errors.KindUnknown), []);
        WriteError(Errors.CoreError(e), []);
      }
      result := Some(result.value.(extensions := core.Extensions()));
      written := written + [Envelope(status, result.value)];
    }

    /**
      The post-processing of the engine's result in the /api handler: a nil
      error list leaves the status; an empty one sets 500; otherwise every
      error is converted in order and each one sets the status in turn.
    */
    method ConvertEngineErrors()
      requires result.Some?
      modifies this
      ensures status == EngineStatus(core.detailer, old(status), old(result).value.errors)
      ensures written == old(written)
      ensures result.Some? && result.value.extensions == old(result).value.extensions
      ensures old(result).value.errors.None? ==> result.value.errors.None?
      ensures old(result).value.errors.Some? ==>
                var before := old(result).value.errors.value;
                result.value.errors.Some? && |result.value.errors.value| == |before|
                && forall i :: 0 <= i < |before| ==> result.value.errors.value[i] == ConvertError(core, before[i])
    {
      if result.value.errors.None? {
        return;
      }
      var errs := result.value.errors.value;
      if |errs| == 0 {
        status := 500;
        return;
      }
      var converted, s := ConvertAll(errs, status);
      status := s;
      result := Some(result.value.(errors := Some(converted)));
    }

    /** The loop of the /api handler over a non-empty error list: each error converted in order, each setting the status. */
    method ConvertAll(errs: seq<QueryError>, status0: int) returns (converted: seq<QueryError>, status: int)
      requires errs != []
      ensures |converted| == |errs| && forall i :: 0 <= i < |errs| ==> converted[i] == ConvertError(core, errs[i])
      ensures status == ErrorStatus(core.detailer, errs[|errs| - 1])
    {
      converted := errs;
      status := status0;
      var i := 0;
      while i < |errs|
        invariant 0 <= i <= |errs| == |converted|
        invariant forall j :: 0 <= j < i ==> converted[j] == ConvertError(core, errs[j])
        invariant forall j :: i <= j < |errs| ==> converted[j] == errs[j]
        invariant i == 0 ==> status == status0
        invariant i > 0 ==> status == ErrorStatus(core.detailer, errs[i - 1])
      {
        var c, s := ConvertOne(converted[i]);
        converted := converted[i := c];
        status := s;
        i := i + 1;
      }
    }

    /** One step of ConvertAll: the converted error and the status it sets. */
    method ConvertOne(qe: QueryError) returns (r: QueryError, s: int)
      ensures r == ConvertError(core, qe) && s == ErrorStatus(core.detailer, qe)
    {
      if qe.resolverError != Errors.Nil {
        var e := Errors.NewError(core.detailer, qe.resolverError, []);
        r := QueryError(e.Text(), core.ErrorExtensions(e), Errors.CoreError(e));
        s := e.HttpStatus();
      } else {
        r, s := qe, 400;
      }
    }
  }

  /** The error write falls back to when there is no result. */
  function UnknownError(d: Errors.Detailer): Errors.Error {
    Errors.NewErrorValue(d, Errors.KindCause(Errors.KindUnknown), [])
  }

  /** An engine error after conversion: a resolver error is replaced by the Error NewError makes of it. */
  function ConvertError(c: Core.Core, qe: QueryError): (r: QueryError)
    reads c
    ensures qe.resolverError == Errors.Nil ==> r == qe
    ensures qe.resolverError != Errors.Nil ==>
              var e := Errors.NewErrorValue(c.detailer, qe.resolverError, []);
              r.message == e.Text() && r.extensions == c.ErrorExtensions(e) && r.resolverError == Errors.CoreError(e)
  {
    if qe.resolverError != Errors.Nil then
      var e := Errors.NewErrorValue(c.detailer, qe.resolverError, []);
      QueryError(e.Text(), c.ErrorExtensions(e), Errors.CoreError(e))
    else qe
  }

  /** The status one engine error sets: its Error's status for a resolver error, 400 for any other. */
  function ErrorStatus(d: Errors.Detailer, qe: QueryError): int {
    if qe.resolverError != Errors.Nil then Errors.NewErrorValue(d, qe.resolverError, []).HttpStatus() else 400
  }

  /** The statuses the engine's errors set, in order. */
  function Statuses(d: Errors.Detailer, errs: seq<QueryError>): (ss: seq<int>)
    ensures |ss| == |errs| && forall i :: 0 <= i < |errs| ==> ss[i] == ErrorStatus(d, errs[i])
  {
    seq(|errs|, i requires 0 <= i < |errs| => ErrorStatus(d, errs[i]))
  }

  /** The status after each of statuses is set in turn, starting from status. */
  function FoldStatus(status: int, statuses: seq<int>): int
    decreases |statuses|
  {
    if statuses == [] then status else FoldStatus(statuses[0], statuses[1..])
  }

  /** The status after the engine's errors are processed. */
  function EngineStatus(d: Errors.Detailer, status: int, errors: Option<seq<QueryError>>): (s: int)
    ensures errors.None? ==> s == status
    ensures errors == Some([]) ==> s == 500
    ensures errors.Some? && errors.value != [] ==> s == ErrorStatus(d, errors.value[|errors.value| - 1])
  {
    if errors.None? then status
    else if errors.value == [] then 500
    else
      var ss := Statuses(d, errors.value);
      FoldStatusLast(status, ss);
      FoldStatus(status, ss)
  }

  /** The last status set decides, whatever came before it. */
  lemma {:induction false} FoldStatusLast(status: int, statuses: seq<int>)
    requires statuses != []
    ensures FoldStatus(status, statuses) == statuses[|statuses| - 1]
    decreases |statuses|
  {
    if |statuses| > 1 {
      FoldStatusLast(statuses[0], statuses[1..]);
    }
  }

  /** The status is the last error's, not the worst: an unexpected failure followed by a validation error gives 400. */
  lemma LastErrorNotWorst(extensions: map<string, Errors.ExtValue>)
    ensures var failure := QueryError("failed", extensions, Errors.OtherError("*errors.errorString", "failed"));
            var invalid := QueryError("Cannot query field", extensions, Errors.Nil);
            ErrorStatus(Errors.DefaultDetailer, failure) == 500
            && EngineStatus(Errors.DefaultDetailer, 200, Some([failure, invalid])) == 400
  {
    var cause := Errors.OtherError("*errors.errorString", "failed");
    Strings.NotContainsWithoutHead("failed", "models");
    assert Errors.CauseText(cause) == "failed";
    assert Errors.Classification(cause).None?;
    assert Errors.NewErrorValue(Errors.DefaultDetailer, cause, []).kind == Errors.KindUnknown;
  }

  // ---------------------------------------------------------------------------
  // Handlers

  /** The request as the /api handler decodes it. */
  datatype GqlRequest = GqlRequest(query: string, operationName: string, variables: map<string, string>)

  /** The status the /api handler responds with. */
  function ApiStatus(env: ServerEnv, req: Core.Request, body: Result<GqlRequest, Errors.Cause>,
                     exec: GqlRequest -> GqlResponse): (status: int)
    requires body.Err? ==> body.error != Errors.Nil
    ensures var o := Core.SessionOutcome(req, env.cfg, env.jwt, env.detailer);
            o.err == Errors.Nil && body.Ok? ==>
              var errs := exec(body.value).errors;
              (errs.None? ==> status == 200)
              && (errs == Some([]) ==> status == 500)
              && (errs.Some? && errs.value != [] ==> status == ErrorStatus(env.detailer, errs.value[|errs.value| - 1]))
  {
    var o := Core.SessionOutcome(req, env.cfg, env.jwt, env.detailer);
    if o.err != Errors.Nil then Errors.NewErrorValue(env.detailer, o.err, []).HttpStatus()
    else if body.Err? then Errors.NewErrorValue(env.detailer, body.error, [InvalidJsonOverride]).HttpStatus()
    else EngineStatus(env.detailer, 200, exec(body.value).errors)
  }

  const InvalidJsonOverride := Errors.ErrorOverride(Errors.KindCause(Errors.KindInvalidJson))

  /**
    The /api handler: starts the session, decodes the body, runs the query
    and writes exactly one document, whose status is ApiStatus.
  */
  method ServeApi(env: ServerEnv, req: Core.Request, id: string, body: Result<GqlRequest, Errors.Cause>,
                  exec: GqlRequest -> GqlResponse) returns (response: Response)
    requires body.Err? ==> body.error != Errors.Nil
    ensures fresh(response) && response.core.operations == [ApiOperation]
    ensures response.status == ApiStatus(env, req, body, exec)
    ensures |response.written| == 1 && response.written[0].status == response.status
    ensures response.written[0].body.extensions == response.core.Extensions()
  {
    var c, err := NewCore(env, req, id, ApiOperation);
    response := new Response(c);
    if err != Errors.Nil {
      response.WriteError(err, []);
      return;
    }
    if body.Err? {
      response.WriteError(body.error, [InvalidJsonOverride]);
      return;
    }
    response.result := Some(exec(body.value));
    response.ConvertEngineErrors();
    response.Write();
  }

  /**
    The MethodNotAllowed and NotFound handlers: after the session starts, an
    error of the route's kind is written; a session error is written instead.
  */
  method ServeKind(env: ServerEnv, req: Core.Request, id: string, operation: string, kind: Errors.ErrorKind)
    returns (response: Response)
    ensures fresh(response) && response.core.operations == [operation]
    ensures var o := Core.SessionOutcome(req, env.cfg, env.jwt, env.detailer);
            response.status == Errors.NewErrorValue(env.detailer, if o.err != Errors.Nil then o.err else Errors.KindCause(kind), []).HttpStatus()
    ensures |response.written| == 1 && response.written[0].status == response.status
  {
    var c, err := NewCore(env, req, id, operation);
    response := new Response(c);
    if err != Errors.Nil {
      response.WriteError(err, []);
      return;
    }
    response.WriteError(Errors.KindCause(kind), []);
  }

  /** With the default detailer and a session that starts, the route handlers answer 405 and 404. */
  lemma RouteStatuses()
    ensures Errors.NewErrorValue(Errors.DefaultDetailer, Errors.KindCause(Errors.KindMethodNotAllowed), []).HttpStatus() == 405
    ensures Errors.NewErrorValue(Errors.DefaultDetailer, Errors.KindCause(Errors.KindRouteNotFound), []).HttpStatus() == 404
  {
    Errors.KindCauseKeepsKind(Errors.KindMethodNotAllowed, []);
    Errors.KindCauseKeepsKind(Errors.KindRouteNotFound, []);
  }

  /** With the default detailer a body that does not decode is answered with 400 and the InvalidJson kind, whatever the decoder said. */
  lemma DecodeFailureIs400(env: ServerEnv, req: Core.Request, decodeError: Errors.Cause, exec: GqlRequest -> GqlResponse)
    requires env.detailer.DefaultDetailer? && decodeError != Errors.Nil && !decodeError.CoreError?
    requires Core.SessionOutcome(req, env.cfg, env.jwt, env.detailer).err == Errors.Nil
    ensures Errors.NewErrorValue(env.detailer, decodeError, [InvalidJsonOverride]).kind == Errors.KindInvalidJson
    ensures ApiStatus(env, req, Err(decodeError), exec) == 400
  {
    Errors.KindOverrideKeepsKind(decodeError, Errors.KindInvalidJson);
  }

  /**
    With the default detailer, an access token the JWT library rejects as
    expired (and only expired) makes the /api handler answer 401 with the
    ExpiredAccessToken kind, whatever the body and the query.
  */
  lemma ExpiredTokenIs401(env: ServerEnv, req: Core.Request, body: Result<GqlRequest, Errors.Cause>,
                          exec: GqlRequest -> GqlResponse, text: string)
    requires env.detailer.DefaultDetailer? && (body.Err? ==> body.error != Errors.Nil)
    requires var t := Core.GetAccessTokenString(req, env.detailer);
             t.Ok? && t.value != ""
             && env.jwt.parse(t.value, env.cfg.server.jwt.accessToken.secret) == Err((Errors.ValidationErrorExpired, text))
    ensures var o := Core.SessionOutcome(req, env.cfg, env.jwt, env.detailer);
            Errors.NewErrorValue(env.detailer, o.err, []).kind == Errors.KindExpiredAccessToken
    ensures ApiStatus(env, req, body, exec) == 401
  {
  }

  /**
    With the default detailer a missing result is answered with status 500.
    The kind is KindUnknown, whose text does not mention "models"; the
    disjunction below avoids making the solver scan that long message.
  */
  lemma MissingResultIs500()
    ensures UnknownError(Errors.DefaultDetailer).kind in {Errors.KindUnknown, Errors.KindDatabase}
    ensures UnknownError(Errors.DefaultDetailer).HttpStatus() == 500
  {
  }

  /** A request without any token and a result without errors is answered with 200. */
  lemma AnonymousSuccessIs200(env: ServerEnv, req: Core.Request, q: GqlRequest, exec: GqlRequest -> GqlResponse)
    requires Core.AccessTokenKey !in req.cookies && Core.AuthorizationHeader !in req.headers && Core.AccessTokenKey !in req.query
    requires exec(q).errors.None?
    ensures ApiStatus(env, req, Ok(q), exec) == 200
  {
  }
}
