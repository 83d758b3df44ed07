/** The settings read from the environment at start-up. The environment is a map
    from variable names to values; a variable that is not set has no entry. */
module Config {
  import opened Wrappers
  import Decimal

  /** Why loading stops: a required variable is unset or empty, or the admin
      chat id is not an integer. */
  datatype ConfigError = NotSet(key: string) | NotAnInteger(value: string)

  datatype Settings = Settings(botToken: string, adminChatId: int, timezone: string, dbPath: string)

  const DefaultTimezone := "Europe/Podgorica"
  const DefaultDbPath := "leads.db"

  /** _get_required_env: the value, unless the variable is unset or empty. */
  function GetRequired(env: map<string, string>, key: string): (r: Result<string, ConfigError>)
    ensures r.Ok? <==> key in env && env[key] != ""
    ensures r.Ok? ==> r.value == env[key]
    ensures r.Err? ==> r.error == NotSet(key)
  {
    if key in env && env[key] != "" then Ok(env[key]) else Err(NotSet(key))
  }

  /** _get_optional_env: os.getenv(key, default). A variable set to the empty
      string keeps that value; only an unset one takes the default. */
  function GetOptional(env: map<string, string>, key: string, default: string): (r: string)
    ensures key in env ==> r == env[key]
    ensures key !in env ==> r == default
  {
    if key in env then env[key] else default
  }

  /** The module-level assignments, in their order: BOT_TOKEN, then ADMIN_CHAT_ID
      (required, then parsed as an integer), then TIMEZONE and DB_PATH. */
  function Load(env: map<string, string>): (r: Result<Settings, ConfigError>)
    ensures r.Ok? ==> "BOT_TOKEN" in env && "ADMIN_CHAT_ID" in env
    ensures r.Ok? ==> r.value.botToken == env["BOT_TOKEN"] && r.value.botToken != ""
    ensures r.Ok? ==> Decimal.ParseInt(env["ADMIN_CHAT_ID"]) == Some(r.value.adminChatId)
    ensures r.Ok? ==> r.value.timezone == GetOptional(env, "TIMEZONE", DefaultTimezone)
    ensures r.Ok? ==> r.value.dbPath == GetOptional(env, "DB_PATH", DefaultDbPath)
  {
    match GetRequired(env, "BOT_TOKEN")
    case Err(e) => Err(e)
    case Ok(token) =>
      match GetRequired(env, "ADMIN_CHAT_ID")
      case Err(e) => Err(e)
      case Ok(raw) =>
        match Decimal.ParseInt(raw)
        case None => Err(NotAnInteger(raw))
        case Some(id) =>
          Ok(Settings(token, id,
                      GetOptional(env, "TIMEZONE", DefaultTimezone),
                      GetOptional(env, "DB_PATH", DefaultDbPath)))
  }

  /** Loading fails exactly when a required variable is missing or empty or the
      chat id does not parse, and the first failing step is the one reported. */
  lemma LoadErrors(env: map<string, string>)
    ensures "BOT_TOKEN" !in env || env["BOT_TOKEN"] == "" ==> Load(env) == Err(NotSet("BOT_TOKEN"))
    ensures GetRequired(env, "BOT_TOKEN").Ok? && ("ADMIN_CHAT_ID" !in env || env["ADMIN_CHAT_ID"] == "")
            ==> Load(env) == Err(NotSet("ADMIN_CHAT_ID"))
    ensures GetRequired(env, "BOT_TOKEN").Ok? && GetRequired(env, "ADMIN_CHAT_ID").Ok?
            && Decimal.ParseInt(env["ADMIN_CHAT_ID"]).None?
            ==> Load(env) == Err(NotAnInteger(env["ADMIN_CHAT_ID"]))
    ensures Load(env).Ok? <==>
              GetRequired(env, "BOT_TOKEN").Ok? && GetRequired(env, "ADMIN_CHAT_ID").Ok?
              && Decimal.ParseInt(env["ADMIN_CHAT_ID"]).Some?
  {
  }

  /** With only the two required variables set, the optional settings take their defaults,
      and a chat id written as a decimal integer is read back as that integer. */
  lemma MinimalEnvironment(token: string, chat: int)
    requires token != ""
    ensures Load(map["BOT_TOKEN" := token, "ADMIN_CHAT_ID" := Decimal.IntToString(chat)])
         == Ok(Settings(token, chat, "Europe/Podgorica", "leads.db"))
  {
    var env := map["BOT_TOKEN" := token, "ADMIN_CHAT_ID" := Decimal.IntToString(chat)];
    Decimal.IntRoundTrip(chat);
    assert "TIMEZONE" !in env && "DB_PATH" !in env;
  }
}
