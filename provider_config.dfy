/**
 * The provider's `Configure`: every attribute of the provider block is
 * taken from the configuration when set and from the environment otherwise,
 * checked, and handed to the Proxmox client as its configuration.  The
 * environment is a map from variable names to values; a missing variable
 * reads as "".
 */
module ProviderConfig {
  import opened Gateway
  import opened Decimal

  /** A configuration attribute: absent (null), not known until apply, or set. */
  datatype Attr<+T> = Null | Unknown | Known(value: T)

  type Int32 = n: int | -0x8000_0000 <= n < 0x8000_0000

  /** `proxmoxProviderModel`: the provider block. */
  datatype ProviderModel = ProviderModel(
    host: Attr<string>, port: Attr<Int32>, user: Attr<string>, tokenName: Attr<string>,
    token: Attr<string>, insecureSkipVerify: Attr<bool>, cfClientId: Attr<string>,
    cfClientSecret: Attr<string>)

  /** An attribute error: the attribute path it names and its summary. */
  datatype AttributeError = AttributeError(path: string, summary: string)

  /** A Cloudflare Access service token. */
  datatype ServiceToken = ServiceToken(clientId: string, clientSecret: string)

  /** What the Proxmox client is created from: `pve.Config` and the token credentials. */
  datatype ClientConfig = ClientConfig(
    host: string, port: int, insecureSkipVerify: bool, cfServiceToken: Option<ServiceToken>,
    user: string, tokenName: string, token: string)

  /** The outcome of `Configure`: a client configuration, or the attribute errors in the order they were added. */
  datatype Configured = Configured(client: ClientConfig) | Failed(errors: seq<AttributeError>)

  type Env = map<string, string>

  // The environment variables read.
  const ENV_HOST := "PROXMOX_HOST"
  const ENV_PORT := "PROXMOX_PORT"
  const ENV_USER := "PROXMOX_USER"
  const ENV_TOKEN_NAME := "PROXMOX_TOKEN_NAME"
  const ENV_TOKEN := "PROXMOX_TOKEN"
  const ENV_CF_CLIENT_ID := "CF_CLIENT_ID"
  const ENV_CF_CLIENT_SECRET := "CF_CLIENT_SECRET"

  /** `os.Getenv`: the variable's value, "" when it is not set. */
  function Getenv(env: Env, name: string): string
  {
    if name in env then env[name] else ""
  }

  // The attribute errors, each with the path it names (the paths of the
  // "missing" errors are spelled as in the source, both Cloudflare ones on
  // the client id).
  const UNKNOWN_HOST := AttributeError("host", "Unknown Proxmox API Host")
  const UNKNOWN_PORT := AttributeError("port", "Unknown Proxmox API Port")
  const UNKNOWN_USER := AttributeError("user", "Unknown Proxmox API User")
  const UNKNOWN_TOKEN_NAME := AttributeError("token_name", "Unknown Proxmox API Token name")
  const UNKNOWN_TOKEN := AttributeError("token", "Unknown Proxmox API Token")
  const UNKNOWN_INSECURE := AttributeError("insecure_skip_verify", "Unknown Proxmox API Insecure skip verify")
  const UNKNOWN_CF_ID := AttributeError("cf_client_id", "Unknown Proxmox API cloudflare client id")
  const UNKNOWN_CF_SECRET := AttributeError("cf_client_secret", "Unknown Proxmox API cloudflare client secret")
  const MISSING_HOST := AttributeError("host", "Missing Proxmox API Host")
  const MISSING_PORT := AttributeError("port", "Missing Proxmox API Port")
  const MISSING_USER := AttributeError("user", "Missing Proxmox API User")
  const MISSING_TOKEN_NAME := AttributeError("tokenName", "Missing Proxmox API Token name")
  const MISSING_TOKEN := AttributeError("token", "Missing Proxmox API Token")
  const MISSING_CF_ID := AttributeError("cfClientId", "Missing Proxmox API Cloudflare client id")
  const MISSING_CF_SECRET := AttributeError("cfClientId", "Missing Proxmox API Cloudflare client secret")
  const INVALID_PORT := AttributeError("port", "Invalid Proxmox API Port")

  // -------------------------------------------------------------------------
  // The specification.

  /** Some attribute of the block is not yet known. */
  predicate AnyUnknown(config: ProviderModel)
  {
    config.host.Unknown? || config.port.Unknown? || config.user.Unknown? || config.tokenName.Unknown? ||
    config.token.Unknown? || config.insecureSkipVerify.Unknown? || config.cfClientId.Unknown? ||
    config.cfClientSecret.Unknown?
  }

  /** `errors` with `e` added when `cond` holds. */
  function Added(errors: seq<AttributeError>, cond: bool, e: AttributeError): seq<AttributeError>
  {
    if cond then errors + [e] else errors
  }

  /** The error for each attribute that is not yet known, in the order the attributes are declared. */
  function UnknownErrors(config: ProviderModel): seq<AttributeError>
  {
    var e := Added([], config.host.Unknown?, UNKNOWN_HOST);
    var e := Added(e, config.port.Unknown?, UNKNOWN_PORT);
    var e := Added(e, config.user.Unknown?, UNKNOWN_USER);
    var e := Added(e, config.tokenName.Unknown?, UNKNOWN_TOKEN_NAME);
    var e := Added(e, config.token.Unknown?, UNKNOWN_TOKEN);
    var e := Added(e, config.insecureSkipVerify.Unknown?,
      UNKNOWN_INSECURE);
    var e := Added(e, config.cfClientId.Unknown?, UNKNOWN_CF_ID);
    Added(e, config.cfClientSecret.Unknown?, UNKNOWN_CF_SECRET)
  }

  /** The value used for an attribute: the configuration's when set, the environment's otherwise. */
  function Pick(a: Attr<string>, fallback: string): string
  {
    if a.Known? then a.value else fallback
  }

  /** `PROXMOX_PORT` is unset or an integer. */
  predicate PortEnvOk(env: Env)
  {
    var p := Getenv(env, ENV_PORT);
    p == "" || Atoi(p).ok
  }

  /** The port used: the configuration's when set, otherwise what `Atoi` made of `PROXMOX_PORT` (0 when unset). */
  function PortOf(config: ProviderModel, env: Env): int
  {
    var p := Getenv(env, ENV_PORT);
    if config.port.Known? then config.port.value
    else if p == "" then 0
    else Atoi(p).value
  }

  /** The values used, once no attribute is unknown. */
  datatype Settings = Settings(
    host: string, port: int, user: string, tokenName: string, token: string,
    insecureSkipVerify: bool, cfClientId: string, cfClientSecret: string)

  function Resolve(config: ProviderModel, env: Env): Settings
  {
    Settings(
      Pick(config.host, Getenv(env, ENV_HOST)),
      PortOf(config, env),
      Pick(config.user, Getenv(env, ENV_USER)),
      Pick(config.tokenName, Getenv(env, ENV_TOKEN_NAME)),
      Pick(config.token, Getenv(env, ENV_TOKEN)),
      config.insecureSkipVerify == Known(true),
      Pick(config.cfClientId, Getenv(env, ENV_CF_CLIENT_ID)),
      Pick(config.cfClientSecret, Getenv(env, ENV_CF_CLIENT_SECRET)))
  }

  /** `errors` followed by the error for each value that is missing, and for a Cloudflare id without a secret or the reverse. */
  function MissingErrors(errors: seq<AttributeError>, st: Settings): seq<AttributeError>
  {
    var e := Added(errors, st.host == "", MISSING_HOST);
    var e := Added(e, st.port == 0, MISSING_PORT);
    var e := Added(e, st.user == "", MISSING_USER);
    var e := Added(e, st.tokenName == "", MISSING_TOKEN_NAME);
    var e := Added(e, st.token == "", MISSING_TOKEN);
    var e := Added(e, st.cfClientId == "" && st.cfClientSecret != "",
      MISSING_CF_ID);
    Added(e, st.cfClientId != "" && st.cfClientSecret == "",
      MISSING_CF_SECRET)
  }

  /** The service token, attached only when both its id and its secret are set. */
  function TokenOf(st: Settings): Option<ServiceToken>
  {
    if st.cfClientId != "" && st.cfClientSecret != "" then Some(ServiceToken(st.cfClientId, st.cfClientSecret)) else None
  }

  function ConfigureSpec(config: ProviderModel, env: Env): Configured
  {
    var unknown := UnknownErrors(config);
    if unknown != [] then Failed(unknown)
    else
      var st := Resolve(config, env);
      var errors := MissingErrors(Added([], !PortEnvOk(env), INVALID_PORT), st);
      if errors != [] then Failed(errors)
      else Configured(ClientConfig(st.host, st.port, st.insecureSkipVerify, TokenOf(st), st.user, st.tokenName, st.token))
  }

  // -------------------------------------------------------------------------
  // `Configure`, step by step.

  method Configure(config: ProviderModel, env: Env) returns (result: Configured)
    ensures result == ConfigureSpec(config, env)
  {
    var errors := CheckKnown(config);
    if errors != [] {
      return Failed(errors);
    }
    var st, portOk := ReadSettings(config, env);
    if !portOk {
      errors := errors + [INVALID_PORT];
    }
    errors := CheckPresent(errors, st);
    if errors != [] {
      return Failed(errors);
    }
    var cfServiceToken := None;
    if st.cfClientId != "" && st.cfClientSecret != "" {
      cfServiceToken := Some(ServiceToken(st.cfClientId, st.cfClientSecret));
    }
    return Configured(ClientConfig(st.host, st.port, st.insecureSkipVerify, cfServiceToken, st.user, st.tokenName, st.token));
  }

  /** The checks for unknown values. */
  method CheckKnown(config: ProviderModel) returns (errors: seq<AttributeError>)
    ensures errors == UnknownErrors(config)
  {
    errors := [];
    if config.host.Unknown? { errors := errors + [UNKNOWN_HOST]; }
    if config.port.Unknown? { errors := errors + [UNKNOWN_PORT]; }
    if config.user.Unknown? { errors := errors + [UNKNOWN_USER]; }
    if config.tokenName.Unknown? {
      errors := errors + [UNKNOWN_TOKEN_NAME];
    }
    if config.token.Unknown? { errors := errors + [UNKNOWN_TOKEN]; }
    if config.insecureSkipVerify.Unknown? {
      errors := errors + [UNKNOWN_INSECURE];
    }
    if config.cfClientId.Unknown? {
      errors := errors + [UNKNOWN_CF_ID];
    }
    if config.cfClientSecret.Unknown? {
      errors := errors + [UNKNOWN_CF_SECRET];
    }
  }

  /** The environment's values, then those the configuration sets; whether `PROXMOX_PORT` parsed. */
  method ReadSettings(config: ProviderModel, env: Env) returns (st: Settings, portOk: bool)
    ensures st == Resolve(config, env) && portOk == PortEnvOk(env)
  {
    var host := Getenv(env, ENV_HOST);
    var port;
    port, portOk := ReadPort(env);
    var user := Getenv(env, ENV_USER);
    var tokenName := Getenv(env, ENV_TOKEN_NAME);
    var token := Getenv(env, ENV_TOKEN);
    var insecureSkipVerify := false;
    var cfClientId := Getenv(env, ENV_CF_CLIENT_ID);
    var cfClientSecret := Getenv(env, ENV_CF_CLIENT_SECRET);

    if config.host.Known? { host := config.host.value; }
    if config.port.Known? { port := config.port.value; }
    if config.user.Known? { user := config.user.value; }
    if config.tokenName.Known? { tokenName := config.tokenName.value; }
    if config.token.Known? { token := config.token.value; }
    if config.cfClientId.Known? { cfClientId := config.cfClientId.value; }
    if config.cfClientSecret.Known? { cfClientSecret := config.cfClientSecret.value; }
    if config.insecureSkipVerify.Known? { insecureSkipVerify := config.insecureSkipVerify.value; }
    assert port == PortOf(config, env);
    st := Settings(host, port, user, tokenName, token, insecureSkipVerify, cfClientId, cfClientSecret);
  }

  /** `PROXMOX_PORT` read with `Atoi` when set, and whether that parsed. */
  method ReadPort(env: Env) returns (port: int, ok: bool)
    ensures port == PortOf(ProviderModel(Null, Null, Null, Null, Null, Null, Null, Null), env)
    ensures ok == PortEnvOk(env)
  {
    port := 0;
    ok := true;
    var portEnv := Getenv(env, ENV_PORT);
    if portEnv != "" {
      var parsed := Atoi(portEnv);
      port := parsed.value;
      ok := parsed.ok;
    }
  }

  /** The checks for missing values, adding to `errors`. */
  method CheckPresent(errors: seq<AttributeError>, st: Settings) returns (out: seq<AttributeError>)
    ensures out == MissingErrors(errors, st)
  {
    out := errors;
    if st.host == "" { out := out + [MISSING_HOST]; }
    if st.port == 0 { out := out + [MISSING_PORT]; }
    if st.user == "" { out := out + [MISSING_USER]; }
    if st.tokenName == "" { out := out + [MISSING_TOKEN_NAME]; }
    if st.token == "" { out := out + [MISSING_TOKEN]; }
    if st.cfClientId == "" && st.cfClientSecret != "" {
      out := out + [MISSING_CF_ID];
    }
    if st.cfClientId != "" && st.cfClientSecret == "" {
      out := out + [MISSING_CF_SECRET];
    }
  }

  // -------------------------------------------------------------------------
  // Properties.

  /** Every attribute of the block is set. */
  predicate AllKnown(config: ProviderModel)
  {
    config.host.Known? && config.port.Known? && config.user.Known? && config.tokenName.Known? &&
    config.token.Known? && config.insecureSkipVerify.Known? && config.cfClientId.Known? &&
    config.cfClientSecret.Known?
  }

  /** The values a client can be created from: none missing, and the Cloudflare id and secret both set or both empty. */
  predicate Complete(st: Settings)
  {
    st.host != "" && st.port != 0 && st.user != "" && st.tokenName != "" && st.token != "" &&
    (st.cfClientId == "" <==> st.cfClientSecret == "")
  }

  lemma AddedPrefix(errors: seq<AttributeError>, cond: bool, e: AttributeError)
    ensures errors <= Added(errors, cond, e)
    ensures Added(errors, cond, e) == [] <==> errors == [] && !cond
  {
  }

  lemma AddedMembers(errors: seq<AttributeError>, cond: bool, e: AttributeError)
    ensures forall x :: x in Added(errors, cond, e) <==> x in errors || (cond && x == e)
  {
  }

  /**
   * The errors for unknown attributes: one for each attribute not yet known
   * and no other, so there is none exactly when every attribute is null or
   * set.
   */
  lemma UnknownErrorsMeans(config: ProviderModel)
    ensures UnknownErrors(config) == [] <==> !AnyUnknown(config)
    ensures forall x :: x in UnknownErrors(config) <==>
      (config.host.Unknown? && x == UNKNOWN_HOST) || (config.port.Unknown? && x == UNKNOWN_PORT) ||
      (config.user.Unknown? && x == UNKNOWN_USER) || (config.tokenName.Unknown? && x == UNKNOWN_TOKEN_NAME) ||
      (config.token.Unknown? && x == UNKNOWN_TOKEN) || (config.insecureSkipVerify.Unknown? && x == UNKNOWN_INSECURE) ||
      (config.cfClientId.Unknown? && x == UNKNOWN_CF_ID) || (config.cfClientSecret.Unknown? && x == UNKNOWN_CF_SECRET)
  {
    UnknownHead(config);
    UnknownTail(UnknownHeadErrors(config), config);
    if UnknownErrors(config) == [] {
      assert forall x :: x !in UnknownErrors(config);
    } else {
      assert UnknownErrors(config)[0] in UnknownErrors(config);
    }
  }

  /** The errors of the first four checks for unknown values. */
  function UnknownHeadErrors(config: ProviderModel): seq<AttributeError>
  {
    var e := Added([], config.host.Unknown?, UNKNOWN_HOST);
    var e := Added(e, config.port.Unknown?, UNKNOWN_PORT);
    var e := Added(e, config.user.Unknown?, UNKNOWN_USER);
    Added(e, config.tokenName.Unknown?, UNKNOWN_TOKEN_NAME)
  }

  lemma UnknownHead(config: ProviderModel)
    ensures forall x :: x in UnknownHeadErrors(config) <==>
      (config.host.Unknown? && x == UNKNOWN_HOST) || (config.port.Unknown? && x == UNKNOWN_PORT) ||
      (config.user.Unknown? && x == UNKNOWN_USER) || (config.tokenName.Unknown? && x == UNKNOWN_TOKEN_NAME)
  {
    var e1 := Added([], config.host.Unknown?, UNKNOWN_HOST);
    var e2 := Added(e1, config.port.Unknown?, UNKNOWN_PORT);
    var e3 := Added(e2, config.user.Unknown?, UNKNOWN_USER);
    AddedMembers([], config.host.Unknown?, UNKNOWN_HOST);
    AddedMembers(e1, config.port.Unknown?, UNKNOWN_PORT);
    AddedMembers(e2, config.user.Unknown?, UNKNOWN_USER);
    AddedMembers(e3, config.tokenName.Unknown?, UNKNOWN_TOKEN_NAME);
  }

  /** The last four checks for unknown values. */
  lemma UnknownTail(errors: seq<AttributeError>, config: ProviderModel)
    ensures var e := Added(errors, config.token.Unknown?, UNKNOWN_TOKEN);
      var e := Added(e, config.insecureSkipVerify.Unknown?, UNKNOWN_INSECURE);
      var e := Added(e, config.cfClientId.Unknown?, UNKNOWN_CF_ID);
      var e := Added(e, config.cfClientSecret.Unknown?, UNKNOWN_CF_SECRET);
      forall x :: x in e <==>
        x in errors || (config.token.Unknown? && x == UNKNOWN_TOKEN) ||
        (config.insecureSkipVerify.Unknown? && x == UNKNOWN_INSECURE) ||
        (config.cfClientId.Unknown? && x == UNKNOWN_CF_ID) || (config.cfClientSecret.Unknown? && x == UNKNOWN_CF_SECRET)
  {
    var e5 := Added(errors, config.token.Unknown?, UNKNOWN_TOKEN);
    var e6 := Added(e5, config.insecureSkipVerify.Unknown?, UNKNOWN_INSECURE);
    var e7 := Added(e6, config.cfClientId.Unknown?, UNKNOWN_CF_ID);
    AddedMembers(errors, config.token.Unknown?, UNKNOWN_TOKEN);
    AddedMembers(e5, config.insecureSkipVerify.Unknown?, UNKNOWN_INSECURE);
    AddedMembers(e6, config.cfClientId.Unknown?, UNKNOWN_CF_ID);
    AddedMembers(e7, config.cfClientSecret.Unknown?, UNKNOWN_CF_SECRET);
  }

  /** The checks for missing values keep the errors before them, and add none exactly when the values are complete. */
  lemma MissingErrorsMeans(errors: seq<AttributeError>, st: Settings)
    ensures errors <= MissingErrors(errors, st)
    ensures MissingErrors(errors, st) == [] <==> errors == [] && Complete(st)
  {
    var e1 := Added(errors, st.host == "", MISSING_HOST);
    var e2 := Added(e1, st.port == 0, MISSING_PORT);
    var e3 := Added(e2, st.user == "", MISSING_USER);
    AddedPrefix(errors, st.host == "", MISSING_HOST);
    AddedPrefix(e1, st.port == 0, MISSING_PORT);
    AddedPrefix(e2, st.user == "", MISSING_USER);
    MissingTail(e3, st);
  }

  /** The last four checks for missing values. */
  lemma MissingTail(errors: seq<AttributeError>, st: Settings)
    ensures var e := Added(errors, st.tokenName == "", MISSING_TOKEN_NAME);
      var e := Added(e, st.token == "", MISSING_TOKEN);
      var e := Added(e, st.cfClientId == "" && st.cfClientSecret != "", MISSING_CF_ID);
      var e := Added(e, st.cfClientId != "" && st.cfClientSecret == "", MISSING_CF_SECRET);
      errors <= e &&
      (e == [] <==> errors == [] && st.tokenName != "" && st.token != "" && (st.cfClientId == "" <==> st.cfClientSecret == ""))
  {
    var e4 := Added(errors, st.tokenName == "", MISSING_TOKEN_NAME);
    var e5 := Added(e4, st.token == "", MISSING_TOKEN);
    var e6 := Added(e5, st.cfClientId == "" && st.cfClientSecret != "", MISSING_CF_ID);
    AddedPrefix(errors, st.tokenName == "", MISSING_TOKEN_NAME);
    AddedPrefix(e4, st.token == "", MISSING_TOKEN);
    AddedPrefix(e5, st.cfClientId == "" && st.cfClientSecret != "", MISSING_CF_ID);
    AddedPrefix(e6, st.cfClientId != "" && st.cfClientSecret == "", MISSING_CF_SECRET);
  }

  /**
   * An attribute not yet known stops `Configure` before the environment is
   * read: the outcome is the errors for the unknown attributes whatever the
   * environment holds.
   */
  lemma UnknownStops(config: ProviderModel, env: Env, other: Env)
    requires AnyUnknown(config)
    ensures ConfigureSpec(config, env) == Failed(UnknownErrors(config))
    ensures ConfigureSpec(config, env) == ConfigureSpec(config, other)
  {
    UnknownErrorsMeans(config);
  }

  /**
   * `Configure` succeeds exactly when no attribute is unknown, `PROXMOX_PORT`
   * is unset or an integer, and the values used are complete.
   */
  lemma ConfiguredMeans(config: ProviderModel, env: Env)
    ensures ConfigureSpec(config, env).Configured? <==>
      !AnyUnknown(config) && PortEnvOk(env) && Complete(Resolve(config, env))
  {
    UnknownErrorsMeans(config);
    AddedPrefix([], !PortEnvOk(env), INVALID_PORT);
    MissingErrorsMeans(Added([], !PortEnvOk(env), INVALID_PORT), Resolve(config, env));
  }

  /**
   * The client configuration: each value from the configuration when set
   * and from the environment when null, never empty; the port the
   * configuration's when set; certificate checks skipped only when the
   * configuration says so; the service token attached exactly when the
   * Cloudflare id is set, and then with the secret beside it.
   */
  lemma ConfiguredValues(config: ProviderModel, env: Env)
    requires ConfigureSpec(config, env).Configured?
    ensures var c := ConfigureSpec(config, env).client;
      (config.host.Known? ==> c.host == config.host.value) &&
      (config.host.Null? ==> c.host == Getenv(env, ENV_HOST)) &&
      (config.port.Known? ==> c.port == config.port.value) &&
      (config.user.Known? ==> c.user == config.user.value) &&
      (config.user.Null? ==> c.user == Getenv(env, ENV_USER)) &&
      (config.tokenName.Known? ==> c.tokenName == config.tokenName.value) &&
      (config.tokenName.Null? ==> c.tokenName == Getenv(env, ENV_TOKEN_NAME)) &&
      (config.token.Known? ==> c.token == config.token.value) &&
      (config.token.Null? ==> c.token == Getenv(env, ENV_TOKEN)) &&
      c.host != "" && c.port != 0 && c.user != "" && c.tokenName != "" && c.token != "" &&
      (c.insecureSkipVerify <==> config.insecureSkipVerify == Known(true)) &&
      (c.cfServiceToken.Some? <==> Pick(config.cfClientId, Getenv(env, ENV_CF_CLIENT_ID)) != "") &&
      (c.cfServiceToken.Some? ==>
        c.cfServiceToken.value ==
          ServiceToken(Pick(config.cfClientId, Getenv(env, ENV_CF_CLIENT_ID)),
                       Pick(config.cfClientSecret, Getenv(env, ENV_CF_CLIENT_SECRET))))
  {
    ConfiguredMeans(config, env);
  }

  /** A `PROXMOX_PORT` that is not an integer fails `Configure`, even when the configuration sets the port. */
  lemma BadPortFails(config: ProviderModel, env: Env)
    requires Getenv(env, ENV_PORT) != "" && !Atoi(Getenv(env, ENV_PORT)).ok
    ensures ConfigureSpec(config, env).Failed?
    ensures !AnyUnknown(config) ==> ConfigureSpec(config, env).errors[0] == INVALID_PORT
  {
    UnknownErrorsMeans(config);
    MissingErrorsMeans([INVALID_PORT], Resolve(config, env));
  }

  /**
   * A `PROXMOX_PORT` whose digits overflow 64 bits reads as the upper bound
   * even with junk after the digits, so a null port attribute is never 0:
   * the port is reported invalid but not missing.
   */
  lemma OverflowingPortNotMissing(config: ProviderModel, env: Env, ds: string, tail: string)
    requires AllDigits(ds) && DigitsValue(ds) > MAX_UINT && Getenv(env, ENV_PORT) == ds + tail
    requires config.port.Null?
    ensures PortOf(config, env) == MAX_INT && !PortEnvOk(env)
    ensures !AnyUnknown(config) && Complete(Resolve(config, env)) ==> ConfigureSpec(config, env) == Failed([INVALID_PORT])
  {
    OverflowingPortRead(config, env, ds, tail);
    if !AnyUnknown(config) && Complete(Resolve(config, env)) {
      OnlyPortInvalid(config, env);
    }
  }

  lemma OverflowingPortRead(config: ProviderModel, env: Env, ds: string, tail: string)
    requires AllDigits(ds) && DigitsValue(ds) > MAX_UINT && Getenv(env, ENV_PORT) == ds + tail
    requires config.port.Null?
    ensures PortOf(config, env) == MAX_INT && !PortEnvOk(env)
  {
    AtoiOverflowUnsigned(ds, tail);
  }

  /** With nothing unknown and nothing missing, a bad `PROXMOX_PORT` is the only error. */
  lemma OnlyPortInvalid(config: ProviderModel, env: Env)
    requires !AnyUnknown(config) && Complete(Resolve(config, env)) && !PortEnvOk(env)
    ensures ConfigureSpec(config, env) == Failed([INVALID_PORT])
  {
    assert UnknownErrors(config) == [];
    NothingMissing([INVALID_PORT], Resolve(config, env));
  }

  lemma NothingMissing(errors: seq<AttributeError>, st: Settings)
    requires Complete(st)
    ensures MissingErrors(errors, st) == errors
  {
  }

  /**
   * With every attribute set the configuration wins: the outcome depends on
   * the environment only through whether `PROXMOX_PORT` parses.
   */
  lemma ConfigWins(config: ProviderModel, env: Env, other: Env)
    requires AllKnown(config)
    requires PortEnvOk(env) == PortEnvOk(other)
    ensures ConfigureSpec(config, env) == ConfigureSpec(config, other)
  {
    assert Resolve(config, env) == Resolve(config, other);
  }
}
