/** Start-up configuration read from the process environment (src/utils/config.ts).
    The environment is a map from variable names to their raw values. */
module BotConfig {
  import opened JsText

  datatype Result<T> = Ok(value: T) | Err(message: string)

  type Env = map<string, string>

  datatype Config = Config(token: string, applicationId: string, guildId: string, redisUrl: string)

  /** `process.env[key]?.trim()`: the trimmed value, or nothing when the variable is unset. */
  function Lookup(env: Env, key: string): (v: Option<string>)
    ensures key in env <==> v.Some?
    ensures key in env ==> v.value == Trim(env[key])
  {
    if key in env then Some(Trim(env[key])) else None
  }

  function MissingMessage(key: string): string
  {
    "Missing required environment variable: " + key
  }

  /** `getEnv(key, fallback)`: a variable whose trimmed value is empty counts as unset, and
      so does an empty fallback; with neither, start-up fails naming the variable. */
  function GetEnv(env: Env, key: string, fallback: Option<string>): (r: Result<string>)
    ensures r.Err? <==> !Truthy(Lookup(env, key)) && !Truthy(fallback)
    ensures r.Err? ==> r.message == MissingMessage(key)
    ensures r.Ok? && key in env && !AllSpace(env[key]) ==> r.value == Trim(env[key])
    ensures r.Ok? && (key !in env || AllSpace(env[key])) ==> r.value == fallback.value
    ensures r.Ok? ==> r.value != ""
  {
    var value := Lookup(env, key);
    if !Truthy(value) && !Truthy(fallback) then Err(MissingMessage(key))
    else
      TrimEmptyIffBlank(if key in env then env[key] else "");
      Ok(if Truthy(value) then value.value else fallback.value)
  }

  /** An empty fallback is falsy, so it behaves exactly like no fallback at all. */
  lemma EmptyFallbackIsNoFallback(env: Env, key: string)
    ensures GetEnv(env, key, Some("")) == GetEnv(env, key, None)
  {
  }

  const DefaultRedisUrl := "redis://localhost:6379"

  /** The `config` constant as written: the four lookups run in order and the first
      failure stops start-up. `GUILD_ID` is looked up with the fallback `""`. */
  function LoadConfigAsWritten(env: Env): (r: Result<Config>)
    ensures r.Ok? ==> r.value.guildId != "" && r.value.token != ""
    ensures GetEnv(env, "TOKEN", None).Err? ==> r == Err(MissingMessage("TOKEN"))
  {
    match GetEnv(env, "TOKEN", None)
    case Err(m) => Err(m)
    case Ok(token) =>
      match GetEnv(env, "APPLICATION_ID", None)
      case Err(m) => Err(m)
      case Ok(appId) =>
        match GetEnv(env, "GUILD_ID", Some(""))
        case Err(m) => Err(m)
        case Ok(guild) =>
          match GetEnv(env, "REDIS_URL", Some(DefaultRedisUrl))
          case Err(m) => Err(m)
          case Ok(url) => Ok(Config(token, appId, guild, url))
  }

  /** As written, an environment that sets the token and the application id but not
      `GUILD_ID` stops start-up, although the field is meant to be optional. */
  lemma GuildIdRequiredAsWritten()
    ensures LoadConfigAsWritten(map["TOKEN" := "t", "APPLICATION_ID" := "a"])
            == Err(MissingMessage("GUILD_ID"))
  {
    var env := map["TOKEN" := "t", "APPLICATION_ID" := "a"];
    TrimUnpadded("t");
    TrimUnpadded("a");
    assert "GUILD_ID" !in env by {
      assert |"GUILD_ID"| != |"TOKEN"| && |"GUILD_ID"| != |"APPLICATION_ID"|;
    }
    assert GetEnv(env, "TOKEN", None) == Ok("t");
    assert GetEnv(env, "APPLICATION_ID", None) == Ok("a");
    assert GetEnv(env, "GUILD_ID", Some("")) == Err(MissingMessage("GUILD_ID"));
  }

  /** An optional variable: its trimmed value when not blank, the fallback otherwise;
      never a failure. */
  function GetOptionalEnv(env: Env, key: string, fallback: string): (r: string)
    ensures key in env && !AllSpace(env[key]) ==> r == Trim(env[key])
    ensures key !in env || AllSpace(env[key]) ==> r == fallback
  {
    var value := Lookup(env, key);
    TrimEmptyIffBlank(if key in env then env[key] else "");
    if Truthy(value) then value.value else fallback
  }

  /** The configuration with `GUILD_ID` optional, as its comment and the command
      registration script (which falls back to global registration) intend. */
  function LoadConfig(env: Env): (r: Result<Config>)
    ensures GetEnv(env, "TOKEN", None).Err? ==> r == Err(MissingMessage("TOKEN"))
  {
    match GetEnv(env, "TOKEN", None)
    case Err(m) => Err(m)
    case Ok(token) =>
      match GetEnv(env, "APPLICATION_ID", None)
      case Err(m) => Err(m)
      case Ok(appId) =>
        var guild := GetOptionalEnv(env, "GUILD_ID", "");
        match GetEnv(env, "REDIS_URL", Some(DefaultRedisUrl))
        case Err(m) => Err(m)
        case Ok(url) => Ok(Config(token, appId, guild, url))
  }

  /** Start-up succeeds exactly when the two credentials are set to non-blank values;
      an unset `GUILD_ID` reads as the empty string. */
  lemma LoadConfigSucceedsIffCredentials(env: Env)
    ensures LoadConfig(env).Ok? <==>
              ("TOKEN" in env && !AllSpace(env["TOKEN"]))
              && ("APPLICATION_ID" in env && !AllSpace(env["APPLICATION_ID"]))
    ensures LoadConfig(env).Ok? ==>
              ("GUILD_ID" !in env || AllSpace(env["GUILD_ID"])) ==> LoadConfig(env).value.guildId == ""
    ensures LoadConfig(env).Ok? ==> LoadConfig(env).value.redisUrl != ""
  {
    if "TOKEN" in env { TrimEmptyIffBlank(env["TOKEN"]); }
    if "APPLICATION_ID" in env { TrimEmptyIffBlank(env["APPLICATION_ID"]); }
  }
}
