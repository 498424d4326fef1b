/**
  Where the request's credentials and region come from: the `--profile`
  lookup with its one-level `source_profile`/`role_arn` indirection, the
  `--region` fallback, and the optional role assumption whose temporary
  credentials replace the earlier provider.
*/
module Credentials {
  import opened Wrappers

  /** The two fields of a profile in the shared config file that matter here. */
  datatype ProfileRecord = ProfileRecord(sourceProfile: string, roleArn: string)

  /** The client configuration: built without a profile, or from a named one. */
  datatype ClientConfig = DefaultClientConfig | ProfileClientConfig(profile: string)

  /**
    A credentials provider: the default chain, the shared-file lookup of a
    named profile, or fixed credentials (access key, secret key, session token).
  */
  datatype Provider =
    | DefaultChain
    | ProfileFile(profile: string)
    | Static(accessKeyId: string, secretAccessKey: string, sessionToken: string)

  /** The outcome of the profile lookup: client config, provider and role to assume ("" for none). */
  datatype Plan = Plan(clientConfig: ClientConfig, provider: Provider, roleArn: string)

  /** A profile that names both a source profile and a role to assume. */
  predicate AssumesRole(rec: ProfileRecord)
  {
    |rec.sourceProfile| != 0 && |rec.roleArn| != 0
  }

  /**
    True when the loaded config (`None` when loading failed) holds `profile`
    and that profile names both a source profile and a role.
  */
  predicate RoleConfigured(profile: string, config: Option<map<string, ProfileRecord>>)
  {
    config.Some? && profile in config.value && AssumesRole(config.value[profile])
  }

  /**
    The profile lookup in `main`. An empty profile selects the default chain
    and the default client config. A non-empty one always builds its client
    config from the named profile; the credentials come from its source
    profile, with its role scheduled, exactly when the profile is configured
    to assume a role, and from the named profile itself otherwise.
  */
  function ResolveProfile(profile: string, config: Option<map<string, ProfileRecord>>): (p: Plan)
    ensures p.provider == DefaultChain <==> profile == ""
    ensures p.clientConfig == DefaultClientConfig <==> profile == ""
    ensures profile != "" ==> p.clientConfig == ProfileClientConfig(profile)
    ensures p.roleArn != "" <==> profile != "" && RoleConfigured(profile, config)
    ensures p.roleArn != "" ==>
              p.roleArn == config.value[profile].roleArn
              && p.provider == ProfileFile(config.value[profile].sourceProfile)
    ensures profile != "" && p.roleArn == "" ==> p.provider == ProfileFile(profile)
    ensures p.provider.ProfileFile? ==> p.provider.profile != ""
  {
    if |profile| == 0 then
      Plan(DefaultClientConfig, DefaultChain, "")
    else
      var loaded := config.Some? && profile in config.value;
      if loaded && AssumesRole(config.value[profile]) then
        var rec := config.value[profile];
        Plan(ProfileClientConfig(profile), ProfileFile(rec.sourceProfile), rec.roleArn)
      else
        Plan(ProfileClientConfig(profile), ProfileFile(profile), "")
  }

  /**
    The indirection is one level deep: only the named profile's own record
    is read, so the source profile's record (even one naming a further
    role) changes nothing.
  */
  lemma OneLevelIndirection(profile: string, c1: map<string, ProfileRecord>, c2: map<string, ProfileRecord>)
    requires profile in c1 <==> profile in c2
    requires profile in c1 ==> c1[profile] == c2[profile]
    ensures ResolveProfile(profile, Some(c1)) == ResolveProfile(profile, Some(c2))
  {
  }

  /** A config file that fails to load behaves as one that lacks the profile. */
  lemma UnloadedConfigIsMissingProfile(profile: string)
    ensures ResolveProfile(profile, None) == ResolveProfile(profile, Some(map[]))
  {
  }

  /**
    The region used for signing: a non-empty `--region` wins, otherwise the
    region of the client config (`configRegion` stands for what the SDK
    reads for that config).
  */
  function ResolveRegion(explicit: string, clientConfig: ClientConfig, configRegion: ClientConfig -> string): (r: string)
    ensures explicit != "" ==> r == explicit
    ensures explicit == "" ==> r == configRegion(clientConfig)
  {
    if |explicit| == 0 then configRegion(clientConfig) else explicit
  }

  /** The role session name and duration every assume-role request uses. */
  const SessionName: string := "awscurl"
  const DurationSeconds: nat := 900

  /** The assume-role request as the program fills it in. */
  datatype AssumeRoleRequest = AssumeRoleRequest(roleSessionName: string, roleArn: string, durationSeconds: nat)

  /** One call to the token service: who signs it, with which client config, asking what. */
  datatype StsCall = StsCall(provider: Provider, clientConfig: ClientConfig, request: AssumeRoleRequest)

  /** The temporary credentials the token service returns, expiry included. */
  datatype AssumedCredentials = AssumedCredentials(
    accessKeyId: string, secretAccessKey: string, sessionToken: string, expiration: string)

  /**
    The token-service call `main` makes for a plan that has a role to
    assume: session "awscurl" for 900 seconds on the plan's role, sent by
    the plan's provider under the plan's client config.
  */
  function StsCallFor(plan: Plan): (c: StsCall)
    ensures c.request.roleSessionName == "awscurl" && c.request.durationSeconds == 900
    ensures c.request.roleArn == plan.roleArn
    ensures c.provider == plan.provider && c.clientConfig == plan.clientConfig
  {
    StsCall(plan.provider, plan.clientConfig, AssumeRoleRequest(SessionName, plan.roleArn, DurationSeconds))
  }

  /**
    The assume-role gate. With no role the plan's provider is kept and the
    token service is not asked. With a role, the service is asked once,
    signed by the plan's provider under the plan's client config; its error
    message is passed on, and on success a fixed provider built from the
    returned key, secret and session token (and nothing else) replaces the
    plan's provider.
  */
  function AssumeRoleGate(plan: Plan, sts: StsCall -> Result<AssumedCredentials, string>): (r: Result<Provider, string>)
    ensures plan.roleArn == "" ==> r == Success(plan.provider)
    ensures plan.roleArn != "" && sts(StsCallFor(plan)).Failure? ==> r == Failure(sts(StsCallFor(plan)).error)
    ensures plan.roleArn != "" && sts(StsCallFor(plan)).Success? ==>
      var c := sts(StsCallFor(plan)).value;
      r == Success(Static(c.accessKeyId, c.secretAccessKey, c.sessionToken))
  {
    if |plan.roleArn| == 0 then
      Success(plan.provider)
    else
      match sts(StsCallFor(plan))
      case Failure(message) => Failure(message)
      case Success(c) => Success(Static(c.accessKeyId, c.secretAccessKey, c.sessionToken))
  }
}
