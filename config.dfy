/**
 * The bot's configuration record and the exchange-client selection that
 * reads it. The Python original is one dictionary literal; here it is a
 * datatype whose fields are the dictionary's keys.
 */
module BotConfig {
  import opened Wrappers

  /** The platforms the bot can trade on, in the order the platform check lists them. */
  const SupportedPlatforms: seq<string> := ["polymarket", "kalshi", "limitless"]

  predicate SupportedPlatform(platform: string) {
    platform in SupportedPlatforms
  }

  /** Per-platform credential tables: key name to the value read from the environment. */
  type Credentials = map<string, map<string, Option<string>>>

  datatype Config = Config(
    platform: string,
    marketQuery: string,
    marketIndex: int,
    targetSpread: real,
    orderSize: int,
    minSpread: real,
    maxInventory: int,
    rebalanceThreshold: int,
    inventoryAdjustmentFactor: real,
    updateInterval: int,
    dryRun: bool,
    maxOrderAge: int,
    minOrderBookDepth: int,
    credentials: Credentials)
  {
    /**
     * The ranges the repository's configuration tests demand of the
     * configuration: a supported platform, 0 < min_spread < target_spread,
     * a target spread of 0.1% to 10%, positive sizes, a rebalance threshold
     * within (0, max_inventory], an adjustment factor in [0.001, 0.05] and
     * an update interval of 5 to 300 seconds. (`dry_run` is a bool by type.)
     */
    predicate Valid(): (valid: bool)
      ensures valid ==> 0.0 < minSpread < 0.10 && 0 < rebalanceThreshold <= maxInventory
    {
      && SupportedPlatform(platform)
      && 0.0 < minSpread < targetSpread
      && 0.001 <= targetSpread <= 0.10
      && orderSize > 0
      && maxInventory > 0
      && 0 < rebalanceThreshold <= maxInventory
      && 0.001 <= inventoryAdjustmentFactor <= 0.05
      && 5 <= updateInterval <= 300
    }
  }

  /** `os.getenv(name)`: the variable's value, or None when it is unset. */
  function Getenv(env: map<string, string>, name: string): (v: Option<string>)
    ensures v.Some? <==> name in env
    ensures v.Some? ==> v.value == env[name]
  {
    if name in env then Some(env[name]) else None
  }

  /**
   * The shipped configuration. The environment (what `load_dotenv` and
   * `os.getenv` would read) is a parameter.
   */
  function DefaultConfig(env: map<string, string>): (cfg: Config)
    ensures cfg.Valid()
    ensures cfg.dryRun  // ships in dry-run mode: no real orders until switched off
  {
    Config(
      platform := "polymarket",
      marketQuery := "Trump",
      marketIndex := 0,
      targetSpread := 0.04,
      orderSize := 10,
      minSpread := 0.02,
      maxInventory := 100,
      rebalanceThreshold := 50,
      inventoryAdjustmentFactor := 0.01,
      updateInterval := 30,
      dryRun := true,
      maxOrderAge := 60,
      minOrderBookDepth := 5,
      credentials := map[
        "polymarket" := map["private_key" := Getenv(env, "POLYMARKET_PRIVATE_KEY")],
        "kalshi" := map[
          "api_key" := Getenv(env, "KALSHI_API_KEY"),
          "api_secret" := Getenv(env, "KALSHI_API_SECRET")],
        "limitless" := map[
          "api_key" := Getenv(env, "LIMITLESS_API_KEY"),
          "private_key" := Getenv(env, "LIMITLESS_PRIVATE_KEY")]])
  }

  /** The exchange client the bot builds: one variant per platform SDK. */
  datatype Client =
    | Polymarket(privateKey: Option<string>)
    | Kalshi(apiKey: Option<string>, apiSecret: Option<string>)
    | Limitless(apiKey: Option<string>, privateKey: Option<string>)
  {
    function Platform(): string {
      match this
      case Polymarket(_) => "polymarket"
      case Kalshi(_, _) => "kalshi"
      case Limitless(_, _) => "limitless"
    }

    /** The credentials the client was built from, by key name. */
    function Secrets(): map<string, Option<string>> {
      match this
      case Polymarket(pk) => map["private_key" := pk]
      case Kalshi(key, secret) => map["api_key" := key, "api_secret" := secret]
      case Limitless(key, pk) => map["api_key" := key, "private_key" := pk]
    }
  }

  /** Why building the client fails: the ValueError, or a KeyError on the credentials. */
  datatype InitError =
    | UnsupportedPlatform(platform: string)
    | MissingCredentials(platform: string)
    | MissingCredential(platform: string, key: string)

  /** The credential keys the client constructor for a platform reads. */
  function RequiredKeys(platform: string): set<string> {
    if platform == "polymarket" then {"private_key"}
    else if platform == "kalshi" then {"api_key", "api_secret"}
    else if platform == "limitless" then {"api_key", "private_key"}
    else {}
  }

  /** `creds[key]`, with the KeyError as a failure. */
  function Credential(platform: string, creds: map<string, Option<string>>, key: string): (r: Result<Option<string>, InitError>)
    ensures r.Success? <==> key in creds
    ensures r.Success? ==> r.value == creds[key]
  {
    if key in creds then Success(creds[key]) else Failure(MissingCredential(platform, key))
  }

  /**
   * `_initialize_exchange`: reject an unsupported platform, then look up
   * that platform's credentials and build its client.
   */
  function InitializeExchange(cfg: Config): (r: Result<Client, InitError>)
    ensures r == Failure(UnsupportedPlatform(cfg.platform)) <==> !SupportedPlatform(cfg.platform)
    ensures r.Success? <==>
      && SupportedPlatform(cfg.platform)
      && cfg.platform in cfg.credentials
      && RequiredKeys(cfg.platform) <= cfg.credentials[cfg.platform].Keys
    ensures r.Success? ==>
      && r.value.Platform() == cfg.platform
      && r.value.Secrets() == map k | k in RequiredKeys(cfg.platform) :: cfg.credentials[cfg.platform][k]
  {
    var platform := cfg.platform;
    if !SupportedPlatform(platform) then Failure(UnsupportedPlatform(platform))
    else if platform !in cfg.credentials then Failure(MissingCredentials(platform))
    else
      var creds := cfg.credentials[platform];
      if platform == "polymarket" then
        match Credential(platform, creds, "private_key")
        case Failure(e) => Failure(e)
        case Success(pk) => Success(Polymarket(pk))
      else if platform == "kalshi" then
        match Credential(platform, creds, "api_key")
        case Failure(e) => Failure(e)
        case Success(key) =>
          match Credential(platform, creds, "api_secret")
          case Failure(e) => Failure(e)
          case Success(secret) => Success(Kalshi(key, secret))
      else
        match Credential(platform, creds, "api_key")
        case Failure(e) => Failure(e)
        case Success(key) =>
          match Credential(platform, creds, "private_key")
          case Failure(e) => Failure(e)
          case Success(pk) => Success(Limitless(key, pk))
  }

  /**
   * The shipped configuration holds every credential key the client
   * constructors read, for every supported platform, whatever the
   * environment holds: switching `platform` to any supported value never
   * fails for a missing key.
   */
  lemma DefaultCredentialsComplete(env: map<string, string>, platform: string)
    requires SupportedPlatform(platform)
    ensures InitializeExchange(DefaultConfig(env).(platform := platform)).Success?
  {
  }

  /** The shipped configuration builds a Polymarket client from the environment's key. */
  lemma DefaultConfigInitializes(env: map<string, string>)
    ensures InitializeExchange(DefaultConfig(env)) == Success(Polymarket(Getenv(env, "POLYMARKET_PRIVATE_KEY")))
  {
  }
}
