/**
  The example request/response modifier plugin: it registers one request
  modifier and one response modifier, accepts a logger and a context, and its
  modifiers rewrite the request path and pass responses through unchanged.
 */
module ModifierPlugin {
  import opened Wrappers

  // ---------------------------------------------------------------------------
  // Values the plugin only passes along or compares
  // ---------------------------------------------------------------------------

  /** A context.Context, known only by its identity. */
  datatype Context = Context(id: nat)

  /** context.Background(), the value the package-level context slot starts with. */
  const Background: Context := Context(0)

  /** An io.ReadCloser request body, known only by its identity. */
  datatype ReadCloser = ReadCloser(id: nat)

  /** A *url.URL, known only by its identity. */
  datatype Url = Url(id: nat)

  /** A non-nil interface{} value held in response data or in a configuration map. */
  datatype Value = Value(id: nat)

  type Headers = map<string, seq<string>>
  type Query = map<string, seq<string>>
  type Params = map<string, string>
  /** A configuration map; an entry holding a nil interface{} is None. */
  type Config = map<string, Option<Value>>

  /**
    What a RequestWrapper exposes through its eight accessors. The plugin's own
    requestWrapper struct holds exactly these fields, and its accessor methods
    return them, so one record serves as both; a nil interface or pointer is None.
   */
  datatype RequestView = RequestView(
    ctx: Option<Context>,
    httpMethod: string,
    url: Option<Url>,
    query: Query,
    path: string,
    body: Option<ReadCloser>,
    params: Params,
    headers: Headers)

  /** What a ResponseWrapper exposes; Request() is itself an untyped value. */
  datatype ResponseView = ResponseView(
    ctx: Option<Context>,
    request: Input,
    data: map<string, Option<Value>>,
    isComplete: bool,
    headers: Headers,
    statusCode: int)

  /**
    The untyped input of a modifier, by the views its dynamic type offers. The
    two type assertions are independent, so a value may be a RequestWrapper, a
    ResponseWrapper, both, or neither; a value that is both answers Context()
    and Headers() with the same methods for both views.
   */
  datatype Input = Input(asRequest: Option<RequestView>, asResponse: Option<ResponseView>)

  /**
    A value that is a RequestWrapper and nothing else, such as the plugin's
    requestWrapper struct, which lacks Request, Data, IsComplete and StatusCode.
   */
  function RequestOnly(req: RequestView): Input {
    Input(Some(req), None)
  }

  /** unkownTypeErr, whose message is "unknown request type". */
  datatype PluginError = UnknownRequestType

  // ---------------------------------------------------------------------------
  // The request rewrite
  // ---------------------------------------------------------------------------

  /** The segment the request modifier appends to the path. */
  const Suffix: string := "/fooo"

  /**
    path.Join(p, "/fooo") for an already-clean path p: an empty or root path
    gives "/fooo", the current directory "." gives "fooo", and any other clean
    path gets the segment appended after one slash. Every result but the one
    for "." ends in "/fooo", and a rooted path stays rooted.
   */
  function JoinSuffix(p: string): (joined: string)
    ensures p != "." ==> |Suffix| <= |joined| && joined[|joined| - |Suffix|..] == Suffix
    ensures |p| > 0 && p[0] == '/' ==> joined[0] == '/'
  {
    if p == "" || p == "/" then Suffix
    else if p == "." then Suffix[1..]
    else p + Suffix
  }

  /** A clean path other than "", "/" and "." keeps its text and gains exactly one trailing segment. */
  lemma JoinSuffixExtendsPath(p: string)
    requires p != "" && p != "/" && p != "."
    ensures |JoinSuffix(p)| == |p| + |Suffix|
    ensures JoinSuffix(p)[..|p|] == p && JoinSuffix(p)[|p|..] == Suffix
  {
  }

  /** The documented example: "/users" becomes "/users/fooo". */
  lemma JoinSuffixExample()
    ensures JoinSuffix("/users") == "/users/fooo"
  {
  }

  /**
    modifier: a fresh requestWrapper that copies params, headers, body, method,
    URL and query, leaves the context nil and extends the path by "/fooo".
   */
  function Modify(req: RequestView): (r: RequestView)
    ensures r.params == req.params && r.headers == req.headers && r.body == req.body
    ensures r.httpMethod == req.httpMethod && r.url == req.url && r.query == req.query
    ensures r.ctx == None
    ensures r.path == JoinSuffix(req.path)
  {
    RequestView(
      ctx := None,
      httpMethod := req.httpMethod,
      url := req.url,
      query := req.query,
      path := JoinSuffix(req.path),
      body := req.body,
      params := req.params,
      headers := req.headers)
  }

  /** Apart from the path and the dropped context, the rewritten request is the original one. */
  lemma ModifyChangesOnlyPathAndContext(req: RequestView)
    ensures Modify(req) == req.(path := JoinSuffix(req.path), ctx := None)
    ensures Modify(req).(path := req.path, ctx := req.ctx) == req
  {
  }

  // ---------------------------------------------------------------------------
  // The transforms returned by the two factories
  // ---------------------------------------------------------------------------

  /**
    The request-phase closure: a value that is not a RequestWrapper fails with
    unkownTypeErr; a RequestWrapper, whatever else it is, is answered by the
    requestWrapper struct holding its rewrite.
   */
  function RequestTransform(input: Input): (out: Result<Input, PluginError>)
    ensures out.Failure? <==> input.asRequest.None?
    ensures out.Failure? ==> out.error == UnknownRequestType
    ensures out.Success? ==>
      out.value.asResponse.None? && out.value.asRequest == Some(Modify(input.asRequest.value))
  {
    match input.asRequest
    case Some(req) => Success(RequestOnly(Modify(req)))
    case None => Failure(UnknownRequestType)
  }

  /**
    The response-phase closure: a value that is not a ResponseWrapper fails
    with unkownTypeErr; a ResponseWrapper is returned as it came.
   */
  function ResponseTransform(input: Input): (out: Result<Input, PluginError>)
    ensures out.Failure? <==> input.asResponse.None?
    ensures out.Failure? ==> out.error == UnknownRequestType
    ensures out.Success? ==> out.value == input
  {
    match input.asResponse
    case Some(_) => Success(input)
    case None => Failure(UnknownRequestType)
  }

  /** The two phases a modifier can apply to. */
  datatype Phase = RequestPhase | ResponsePhase

  /**
    A closure returned by a factory: the phase it serves and whether a logger
    was registered when it was built (which selects the closure that logs).
   */
  datatype Modifier = Modifier(phase: Phase, withLogger: bool)

  /**
    Calls a modifier. Logging aside, both closures of a phase compute the same
    thing: the only error is unkownTypeErr, a request modifier answers with a
    request that is no response, and a response modifier with its own input.
   */
  function Apply(m: Modifier, input: Input): (out: Result<Input, PluginError>)
    ensures out.Failure? ==> out.error == UnknownRequestType
    ensures m.phase == RequestPhase && out.Success? ==> out.value.asRequest.Some? && out.value.asResponse.None?
    ensures m.phase == ResponsePhase && out.Success? ==> out.value == input
  {
    match m.phase
    case RequestPhase => RequestTransform(input)
    case ResponsePhase => ResponseTransform(input)
  }

  /**
    The request closures built with and without a logger give the same result
    on every input, whatever configuration either factory was handed.
   */
  lemma RequestModifiersAgree(m1: Modifier, m2: Modifier, input: Input)
    requires m1.phase == RequestPhase && m2.phase == RequestPhase
    ensures Apply(m1, input) == Apply(m2, input)
    ensures input.asRequest.Some? ==> Apply(m1, input) == Success(RequestOnly(Modify(input.asRequest.value)))
    ensures input.asRequest.None? ==> Apply(m1, input) == Failure(UnknownRequestType)
  {
  }

  /** A response modifier is the identity on responses, so applying it twice changes nothing. */
  lemma ResponseModifierIdempotent(m: Modifier, input: Input)
    requires m.phase == ResponsePhase
    ensures input.asResponse.Some? ==> Apply(m, input) == Success(input)
    ensures input.asResponse.None? ==> Apply(m, input) == Failure(UnknownRequestType)
    ensures Apply(m, input).Success? ==> Apply(m, Apply(m, input).value) == Apply(m, input)
  {
  }

  /**
    A request modifier rejects every value that is not a RequestWrapper (a
    plain response among them), and a response modifier every value that is
    not a ResponseWrapper.
   */
  lemma PhasesRejectEachOther(m: Modifier, input: Input)
    ensures m.phase == RequestPhase && input.asRequest.None? ==> Apply(m, input) == Failure(UnknownRequestType)
    ensures m.phase == ResponsePhase && input.asResponse.None? ==> Apply(m, input) == Failure(UnknownRequestType)
  {
  }

  /** A value that is both a RequestWrapper and a ResponseWrapper passes both type checks. */
  lemma DualShapeAcceptedByBoth(request: Modifier, response: Modifier, input: Input)
    requires request.phase == RequestPhase && response.phase == ResponsePhase
    requires input.asRequest.Some? && input.asResponse.Some?
    ensures Apply(request, input) == Success(RequestOnly(Modify(input.asRequest.value)))
    ensures Apply(response, input) == Success(input)
  {
  }

  /** The rewritten request is no ResponseWrapper, so a response modifier rejects it. */
  lemma RewriteIsOnlyARequest(request: Modifier, response: Modifier, req: RequestView)
    requires request.phase == RequestPhase && response.phase == ResponsePhase
    ensures Apply(response, Apply(request, RequestOnly(req)).value) == Failure(UnknownRequestType)
  {
  }

  /**
    The closure built without a logger, fed its own rewrite, appends the
    segment again. The logging closure is excluded: it asks the rewrite's
    context, which is always nil, for a value, and so panics.
   */
  lemma RewriteRewrittenAgain(request: Modifier, req: RequestView)
    requires request.phase == RequestPhase && !request.withLogger
    ensures Apply(request, RequestOnly(req)).value.asRequest.value.ctx == None
    ensures Apply(request, Apply(request, RequestOnly(req)).value)
      == Success(RequestOnly(Modify(Modify(req))))
  {
  }

  // ---------------------------------------------------------------------------
  // Registration of the modifiers
  // ---------------------------------------------------------------------------

  /** A registerer is a string: its value is the plugin's name. */
  type Registerer = string

  /** The registerer the plugin exports as ModifierRegisterer. */
  const ModifierRegisterer: Registerer := "lura-request-modifier-example"

  /** The two factories a registerer hands to the host. */
  datatype Factory = RequestFactory | ResponseFactory

  /** The phase a factory's modifiers serve. */
  function PhaseOf(f: Factory): Phase {
    match f
    case RequestFactory => RequestPhase
    case ResponseFactory => ResponsePhase
  }

  /** The suffix that tags a factory's registration name. */
  function NameSuffix(f: Factory): string {
    match f
    case RequestFactory => "-request"
    case ResponseFactory => "-response"
  }

  /** The name a registerer gives the modifier of a factory. */
  function ModifierName(r: Registerer, f: Factory): string {
    r + NameSuffix(f)
  }

  /**
    Names never collide: two registrations share a name only when they come
    from the same registerer and the same factory, so modifiers of co-loaded
    plugins with distinct names stay distinct.
   */
  lemma ModifierNamesInjective(r1: Registerer, f1: Factory, r2: Registerer, f2: Factory)
    ensures ModifierName(r1, f1) == ModifierName(r2, f2) <==> r1 == r2 && f1 == f2
  {
    var n1, n2 := ModifierName(r1, f1), ModifierName(r2, f2);
    if n1 == n2 {
      assert n1[|n1| - 1] == NameSuffix(f1)[|NameSuffix(f1)| - 1];
      assert n2[|n2| - 1] == NameSuffix(f2)[|NameSuffix(f2)| - 1];
      assert f1 == f2;
      assert r1 == n1[..|r1|];
      assert r2 == n2[..|r2|];
    }
  }

  /** One call the registerer makes to the host's registration callback. */
  datatype Registration = Registration(name: string, factory: Factory, appliesToRequest: bool, appliesToResponse: bool)

  /**
    RegisterModifiers: the callback is called exactly twice, first for the
    request factory under r + "-request" with flags (true, false), then for
    the response factory under r + "-response" with flags (false, true).
    Each call names a phase of its own, matching its factory, under a name
    no other call shares.
   */
  method RegisterModifiers(r: Registerer) returns (calls: seq<Registration>)
    ensures |calls| == 2
    ensures calls[0] == Registration(r + "-request", RequestFactory, true, false)
    ensures calls[1] == Registration(r + "-response", ResponseFactory, false, true)
    ensures forall i :: 0 <= i < |calls| ==>
      calls[i].name == ModifierName(r, calls[i].factory)
      && calls[i].appliesToRequest == (PhaseOf(calls[i].factory) == RequestPhase)
      && calls[i].appliesToResponse == (PhaseOf(calls[i].factory) == ResponsePhase)
    ensures calls[0].name != calls[1].name
  {
    calls := [];
    calls := calls + [Registration(ModifierName(r, RequestFactory), RequestFactory, true, false)];
    calls := calls + [Registration(ModifierName(r, ResponseFactory), ResponseFactory, false, true)];
    ModifierNamesInjective(r, RequestFactory, r, ResponseFactory);
  }

  // ---------------------------------------------------------------------------
  // The package-level logger and context slots
  // ---------------------------------------------------------------------------

  /** A registered logger, known by its identity. */
  datatype Logger = Logger(id: nat)

  /** The methods a value needs to satisfy the Logger interface. */
  const LoggerMethods: set<string> := {"Debug", "Info", "Warning", "Error", "Critical", "Fatal"}

  /** A value offered to RegisterLogger: its identity and the methods its dynamic type has. */
  datatype Candidate = Candidate(id: nat, methods: set<string>)

  /**
    The type assertion in.(Logger): every Logger method is present. In
    particular the value has the Debug method the plugin later calls, and a
    value with no methods (a nil interface among them) never passes.
   */
  function SatisfiesLogger(c: Candidate): (ok: bool)
    ensures ok ==> "Debug" in c.methods && "Fatal" in c.methods
    ensures c.methods == {} ==> !ok
  {
    LoggerMethods <= c.methods
  }

  /** The plugin's package-level state: the logger slot and the context slot. */
  class PluginState {
    var logger: Option<Logger>
    var ctx: Option<Context>

    /** Package initialisation: no logger, the background context. */
    constructor ()
      ensures logger == None && ctx == Some(Background)
    {
      logger := None;
      ctx := Some(Background);
    }

    /**
      RegisterLogger: a candidate that is a Logger is stored in the logger
      slot; any other candidate leaves the state as it was.
     */
    method RegisterLogger(candidate: Candidate)
      modifies this
      ensures SatisfiesLogger(candidate) ==> logger == Some(Logger(candidate.id))
      ensures !SatisfiesLogger(candidate) ==> logger == old(logger)
      ensures ctx == old(ctx)
    {
      if !SatisfiesLogger(candidate) {
        return;
      }
      logger := Some(Logger(candidate.id));
    }

    /**
      RegisterContext: replaces the context slot; the confirmation it then
      logs dereferences the logger, so a logger must have been registered.
     */
    method RegisterContext(c: Option<Context>)
      requires logger.Some?
      modifies this
      ensures ctx == c && logger == old(logger)
    {
      ctx := c;
    }

    /**
      requestModifierFactory: ignores its configuration and returns the
      request closure, the logging one when a logger is registered.
     */
    function RequestModifierFactory(config: Config): (m: Modifier)
      reads this
      ensures m.phase == RequestPhase
      ensures m.withLogger <==> logger.Some?
      ensures forall input :: Apply(m, input) == RequestTransform(input)
    {
      Modifier(RequestPhase, logger.Some?)
    }

    /**
      reqsponseModifierFactory: ignores its configuration and returns the
      response closure, the logging one when a logger is registered.
     */
    function ResponseModifierFactory(config: Config): (m: Modifier)
      reads this
      ensures m.phase == ResponsePhase
      ensures m.withLogger <==> logger.Some?
      ensures forall input :: Apply(m, input) == ResponseTransform(input)
    {
      Modifier(ResponsePhase, logger.Some?)
    }

    /** The factory a registration names, called with a configuration. */
    function Build(f: Factory, config: Config): (m: Modifier)
      reads this
      ensures m.phase == PhaseOf(f)
      ensures m.withLogger <==> logger.Some?
    {
      match f
      case RequestFactory => RequestModifierFactory(config)
      case ResponseFactory => ResponseModifierFactory(config)
    }
  }

  /**
    What a host sees after registering: the request registration yields a
    modifier that rewrites requests, the response registration one that
    returns responses unchanged, whatever the configuration and whether or
    not a logger was registered.
   */
  lemma RegisteredModifiersBehave(state: PluginState, f: Factory, config: Config, input: Input)
    ensures f == RequestFactory && input.asRequest.Some? ==>
      Apply(state.Build(f, config), input) == Success(RequestOnly(Modify(input.asRequest.value)))
    ensures f == ResponseFactory && input.asResponse.Some? ==>
      Apply(state.Build(f, config), input) == Success(input)
    ensures (f == RequestFactory && input.asRequest.None?) || (f == ResponseFactory && input.asResponse.None?) ==>
      Apply(state.Build(f, config), input) == Failure(UnknownRequestType)
  {
  }
}
