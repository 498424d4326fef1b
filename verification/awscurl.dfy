/**
  The decisions `main` makes between command-line parsing and sending:
  method, credentials, region, role assumption, headers, body and
  Content-Length, in the program's order. The config file, the client
  config's region, the token service and the file system are inputs.
*/
module Awscurl {
  import opened Wrappers
  import opened Headers
  import opened HttpMethods
  import opened Credentials
  import opened RequestBody

  /** The parsed command line. `headers` is the header vector after option parsing. */
  datatype Inputs = Inputs(
    requestMethod: Option<Method>,
    data: Option<string>,
    dataBinary: bool,
    headers: seq<Header>,
    insecure: bool,
    profile: string,
    region: string,
    service: string,
    url: string)

  /** What the program asks of its surroundings. */
  datatype Env = Env(
    config: Option<map<string, ProfileRecord>>,
    configRegion: ClientConfig -> string,
    sts: StsCall -> Result<AssumedCredentials, string>,
    files: FileSystem)

  /** The signer: provider, service name and region. */
  datatype Signer = Signer(provider: Provider, service: string, region: string)

  /**
    The request handed to the signer. `headers` lists the `SetHeaderValue`
    calls in order; `contentLength` is the decimal text set as Content-Length.
  */
  datatype Request = Request(
    url: string,
    verb: Method,
    headers: seq<Header>,
    body: Option<string>,
    contentLength: Option<string>)

  /** Either the process exits with a code and a diagnostic, or the request is signed and sent. */
  datatype Outcome =
    | Exit(code: int, diagnostic: string)
    | Send(request: Request, signer: Signer, verifySsl: bool)

  /** The region `main` signs with. */
  function SigningRegion(inp: Inputs, env: Env): string
  {
    ResolveRegion(inp.region, ResolveProfile(inp.profile, env.config).clientConfig, env.configRegion)
  }

  /** The outcome of the assume-role gate for these inputs. */
  function Gate(inp: Inputs, env: Env): Result<Provider, string>
  {
    AssumeRoleGate(ResolveProfile(inp.profile, env.config), env.sts)
  }

  /** True when there is no data, or the data resolves to a body. */
  predicate BodyResolves(inp: Inputs, env: Env)
    requires inp.data.Some? ==> inp.data.value != []
  {
    inp.data.None? || ResolveBody(inp.data.value, inp.dataBinary, env.files).Success?
  }

  /**
    `main` from the defaulted method to the signing call. The program exits,
    with status 1, exactly when the assume-role gate fails or the body file
    does not open, the gate being checked first. Otherwise the request is
    sent with the method, every header in order, the resolved body and its
    reported length as Content-Length exactly when data was given, and is
    signed with the gate's provider for the given service and region.
  */
  function Run(inp: Inputs, env: Env): (o: Outcome)
    requires inp.data.Some? ==> inp.data.value != []
    ensures o.Exit? <==> Gate(inp, env).Failure? || !BodyResolves(inp, env)
    ensures o.Exit? ==> o.code == 1
    ensures Gate(inp, env).Failure? ==>
              o.diagnostic == "AssumeRole() failed:\n" + Gate(inp, env).error + "\n"
    ensures Gate(inp, env).Success? && !BodyResolves(inp, env) ==>
              o.diagnostic == "Error opening input file '" + inp.data.value[1..] + "'\n"
    ensures o.Send? ==> o.request.headers == inp.headers && o.request.url == inp.url
    ensures o.Send? ==> o.verifySsl == !inp.insecure
    ensures o.Send? && inp.requestMethod.Some? ==> o.request.verb == inp.requestMethod.value
    ensures o.Send? && inp.requestMethod.None? ==>
              (o.request.verb == POST <==> inp.data.Some?) && (o.request.verb == GET <==> inp.data.None?)
    ensures o.Send? && inp.data.None? ==> o.request.body.None? && o.request.contentLength.None?
    ensures o.Send? && inp.data.Some? ==>
              var b := ResolveBody(inp.data.value, inp.dataBinary, env.files).value;
              o.request.body == Some(b.bytes) && o.request.contentLength == Some(LengthText(b.streamLength))
    ensures o.Send? ==> o.signer.service == inp.service && o.signer.region == SigningRegion(inp, env)
    ensures o.Send? ==> o.signer.provider == Gate(inp, env).value
    ensures inp.profile == "" || !RoleConfigured(inp.profile, env.config) ==>
              Gate(inp, env) == Success(if inp.profile == "" then DefaultChain else ProfileFile(inp.profile))
  {
    var verb := DefaultMethod(inp.requestMethod, inp.data);
    var plan := ResolveProfile(inp.profile, env.config);
    var region := ResolveRegion(inp.region, plan.clientConfig, env.configRegion);
    match AssumeRoleGate(plan, env.sts)
    case Failure(message) =>
      Exit(1, "AssumeRole() failed:\n" + message + "\n")
    case Success(provider) =>
      var signer := Signer(provider, inp.service, region);
      var verifySsl := !inp.insecure;
      match inp.data
      case None =>
        Send(Request(inp.url, verb, inp.headers, None, None), signer, verifySsl)
      case Some(data) =>
        match ResolveBody(data, inp.dataBinary, env.files)
        case Failure(fileName) =>
          Exit(1, "Error opening input file '" + fileName + "'\n")
        case Success(body) =>
          Send(Request(inp.url, verb, inp.headers, Some(body.bytes), Some(LengthText(body.streamLength))),
               signer, verifySsl)
  }

  /** The token-service call a role-assuming profile triggers. */
  function RoleCall(inp: Inputs, env: Env): StsCall
  {
    StsCallFor(ResolveProfile(inp.profile, env.config))
  }

  /**
    A role-assuming profile asks the token service for role session
    "awscurl" for 900 seconds, signed by the source profile's credentials
    under the named profile's client config; if the call fails the program
    exits 1 with the service's message, before any body file is opened.
  */
  lemma RoleFailureExits(inp: Inputs, env: Env)
    requires inp.data.Some? ==> inp.data.value != []
    requires inp.profile != "" && RoleConfigured(inp.profile, env.config)
    requires env.sts(RoleCall(inp, env)).Failure?
    ensures RoleCall(inp, env).request == AssumeRoleRequest("awscurl", env.config.value[inp.profile].roleArn, 900)
    ensures RoleCall(inp, env).provider == ProfileFile(env.config.value[inp.profile].sourceProfile)
    ensures RoleCall(inp, env).clientConfig == ProfileClientConfig(inp.profile)
    ensures Run(inp, env) == Exit(1, "AssumeRole() failed:\n" + env.sts(RoleCall(inp, env)).error + "\n")
  {
  }

  /**
    When the role is assumed and the body resolves, the request is sent and
    signed only with the returned access key, secret key and session token:
    never with the source profile's provider nor the named profile's.
  */
  lemma SignsWithAssumedCredentials(inp: Inputs, env: Env)
    requires inp.data.Some? ==> inp.data.value != []
    requires inp.profile != "" && RoleConfigured(inp.profile, env.config)
    requires env.sts(RoleCall(inp, env)).Success?
    requires BodyResolves(inp, env)
    ensures Run(inp, env).Send?
    ensures var c := env.sts(RoleCall(inp, env)).value;
            Run(inp, env).signer.provider == Static(c.accessKeyId, c.secretAccessKey, c.sessionToken)
    ensures !Run(inp, env).signer.provider.ProfileFile?
  {
  }

  /**
    Without `--region`, once the gate passes and the body resolves, the
    request is sent with the named profile's client-config region, even
    when credentials come from a source profile; with no profile, the
    default client config's.
  */
  lemma RegionFromNamedProfile(inp: Inputs, env: Env)
    requires inp.data.Some? ==> inp.data.value != []
    requires inp.region == ""
    requires Gate(inp, env).Success? && BodyResolves(inp, env)
    ensures Run(inp, env).Send?
    ensures inp.profile != "" ==> Run(inp, env).signer.region == env.configRegion(ProfileClientConfig(inp.profile))
    ensures inp.profile == "" ==> Run(inp, env).signer.region == env.configRegion(DefaultClientConfig)
  {
  }

  /**
    With `-d @file` that opens, once the gate passes, the request is sent
    with the file (binary) or the file without its newlines (text) as body;
    Content-Length reads back as the file length, or in text mode as that
    length less the newline count, provided a binary file can seek.
  */
  lemma FileBodyLength(inp: Inputs, env: Env)
    requires inp.data.Some? && inp.data.value != [] && inp.data.value[0] == '@'
    requires env.files(inp.data.value[1..]).Some?
    requires inp.dataBinary ==> env.files(inp.data.value[1..]).value.seekable
    requires Gate(inp, env).Success?
    ensures Run(inp, env).Send?
    ensures var contents := env.files(inp.data.value[1..]).value.contents;
            var req := Run(inp, env).request;
            var len := if inp.dataBinary then |contents| else |contents| - CountNewlines(contents);
            && req.body == Some(if inp.dataBinary then contents else StripNewlines(contents))
            && req.contentLength == Some(Decimal(len))
            && DecimalValue(req.contentLength.value) == len
  {
  }

  /**
    A binary body file that opens but cannot seek is sent with its bytes
    and Content-Length "-1", the length `tellp()` reports after the failed seek.
  */
  lemma UnseekableBinaryLength(inp: Inputs, env: Env)
    requires inp.data.Some? && inp.data.value != [] && inp.data.value[0] == '@'
    requires inp.dataBinary
    requires env.files(inp.data.value[1..]).Some? && !env.files(inp.data.value[1..]).value.seekable
    requires Gate(inp, env).Success?
    ensures Run(inp, env).Send?
    ensures Run(inp, env).request.body == Some(env.files(inp.data.value[1..]).value.contents)
    ensures Run(inp, env).request.contentLength == Some("-1")
  {
    assert Decimal(1) == "1";
    assert LengthText(-1) == "-1";
  }

  /**
    A body file that does not open ends the program with status 1 once the
    assume-role gate passes (or no role is configured).
  */
  lemma MissingFileExits(inp: Inputs, env: Env)
    requires inp.data.Some? && inp.data.value != [] && inp.data.value[0] == '@'
    requires env.files(inp.data.value[1..]).None?
    requires Gate(inp, env).Success?
    ensures Run(inp, env) == Exit(1, "Error opening input file '" + inp.data.value[1..] + "'\n")
  {
  }

  /** Literal data with no `-X` is sent verbatim as a POST once the gate passes. */
  lemma LiteralDataIsPosted(inp: Inputs, env: Env)
    requires inp.data.Some? && inp.data.value != [] && inp.data.value[0] != '@'
    requires inp.requestMethod.None?
    requires Gate(inp, env).Success?
    ensures Run(inp, env).Send?
    ensures Run(inp, env).request.verb == POST
    ensures Run(inp, env).request.body == Some(inp.data.value)
    ensures Run(inp, env).request.contentLength == Some(Decimal(|inp.data.value|))
    ensures DecimalValue(Run(inp, env).request.contentLength.value) == |inp.data.value|
  {
  }

  /**
    Without `-d` and `-X`, once the gate passes (always so without a
    configured role, and after a successful assume-role otherwise), the
    request is sent as a GET with no body and no Content-Length.
  */
  lemma NoDataIsGet(inp: Inputs, env: Env)
    requires inp.data.None? && inp.requestMethod.None?
    requires Gate(inp, env).Success?
    ensures Run(inp, env).Send?
    ensures Run(inp, env).request.verb == GET
    ensures Run(inp, env).request.body.None? && Run(inp, env).request.contentLength.None?
  {
  }
}
