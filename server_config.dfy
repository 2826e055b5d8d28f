/** The server configuration (road-trip-backend/src/config/mod.rs), read
    from the process environment, here a map from variable name to value.
    Every optional variable falls back to its default when it is unset or
    does not parse; a missing required variable stops start-up, which the
    model answers with an error carrying the same message. */
module ServerConfig {
  import opened Wrappers
  import opened Sequences
  import opened Text

  type Env = map<string, string>

  const U16Max: nat := 0xFFFF
  const U32Max: nat := 0xFFFF_FFFF
  const U64Max: nat := 0xFFFF_FFFF_FFFF_FFFF

  const DefaultPort: nat := 3000
  const DefaultHost: string := "0.0.0.0"
  const DefaultMaxConnections: nat := 10
  const DefaultCookieName: string := "session_token"
  const DefaultSameSite: string := "Strict"
  const DefaultExpirationDays: nat := 7
  const DefaultCorsOrigin: string := "*"
  const DefaultUploadDir: string := "./uploads"
  const DefaultMaxFileSize: nat := 10_485_760

  const MissingDatabaseUrl: string := "DATABASE_URL must be set"
  const MissingSessionSecret: string := "SESSION_SECRET must be set (min 32 characters)"

  datatype ServerSettings = ServerSettings(port: nat, host: string)
  datatype DatabaseSettings = DatabaseSettings(url: string, maxConnections: nat)
  datatype AuthConfig = AuthConfig(
    sessionSecret: string, cookieName: string, cookieDomain: Option<string>,
    cookieSecure: bool, cookieSameSite: string, sessionExpirationDays: nat)
  datatype UploadSettings = UploadSettings(uploadDir: string, maxFileSize: nat)
  datatype Config = Config(
    server: ServerSettings, database: DatabaseSettings, auth: AuthConfig,
    allowedOrigins: seq<string>, upload: UploadSettings)

  /** `env::var(name).unwrap_or_else(|_| default)`. */
  function VarOr(env: Env, name: string, default: string): (r: string)
    ensures name in env ==> r == env[name]
    ensures name !in env ==> r == default
  {
    if name in env then env[name] else default
  }

  /** `env::var(name)…parse::<uN>().unwrap_or(default)` for an unsigned
      type whose largest value is `max`. */
  function NumberOr(env: Env, name: string, max: nat, default: nat): (r: nat)
    ensures name in env && ParseUnsigned(env[name], max).Some? ==> r == ParseUnsigned(env[name], max).value
    ensures name !in env || ParseUnsigned(env[name], max).None? ==> r == default
  {
    if name in env && ParseUnsigned(env[name], max).Some? then ParseUnsigned(env[name], max).value else default
  }

  function TrimPart(s: string): string {
    Trim(s, IsRustSpace)
  }

  /** The CORS origins: the value split on `,`, each part trimmed, in order. */
  function Origins(value: string): (r: seq<string>)
    ensures |r| == |Split(value, ',')| >= 1
    ensures forall i :: 0 <= i < |r| ==> r[i] == TrimPart(Split(value, ',')[i])
  {
    Map(Split(value, ','), TrimPart)
  }

  /** `COOKIE_SECURE`: true only for the text `true`. */
  function SecureFlag(env: Env): (r: bool)
    ensures r <==> "COOKIE_SECURE" in env && env["COOKIE_SECURE"] == "true"
  {
    var parsed := ParseBool(VarOr(env, "COOKIE_SECURE", "false"));
    if parsed.Some? then parsed.value else false
  }

  function ServerFrom(env: Env): (r: ServerSettings)
    ensures r.port <= U16Max
  {
    ServerSettings(NumberOr(env, "PORT", U16Max, DefaultPort), VarOr(env, "HOST", DefaultHost))
  }

  function AuthFrom(env: Env, secret: string): AuthConfig {
    AuthConfig(
      secret,
      VarOr(env, "COOKIE_NAME", DefaultCookieName),
      if "COOKIE_DOMAIN" in env then Some(env["COOKIE_DOMAIN"]) else None,
      SecureFlag(env),
      VarOr(env, "COOKIE_SAME_SITE", DefaultSameSite),
      NumberOr(env, "SESSION_EXPIRATION_DAYS", U64Max, DefaultExpirationDays))
  }

  /** `Config::from_env`. */
  function FromEnv(env: Env): (r: Result<Config, string>)
    ensures "DATABASE_URL" !in env ==> r == Err(MissingDatabaseUrl)
    ensures "DATABASE_URL" in env && "SESSION_SECRET" !in env ==> r == Err(MissingSessionSecret)
    ensures r.Ok? <==> "DATABASE_URL" in env && "SESSION_SECRET" in env
    ensures r.Ok? ==> (
      && r.value.server.port <= U16Max
      && r.value.database.url == env["DATABASE_URL"]
      && r.value.auth.sessionSecret == env["SESSION_SECRET"])
  {
    if "DATABASE_URL" !in env then Err(MissingDatabaseUrl)
    else if "SESSION_SECRET" !in env then Err(MissingSessionSecret)
    else
      Ok(Config(
        ServerFrom(env),
        DatabaseSettings(env["DATABASE_URL"], NumberOr(env, "DATABASE_MAX_CONNECTIONS", U32Max, DefaultMaxConnections)),
        AuthFrom(env, env["SESSION_SECRET"]),
        Origins(VarOr(env, "CORS_ORIGIN", DefaultCorsOrigin)),
        UploadSettings(VarOr(env, "UPLOAD_DIR", DefaultUploadDir), NumberOr(env, "MAX_FILE_SIZE", U64Max, DefaultMaxFileSize))))
  }

  /** The configuration when only the two required variables are set. */
  function Defaults(databaseUrl: string, sessionSecret: string): Config {
    Config(
      ServerSettings(DefaultPort, DefaultHost),
      DatabaseSettings(databaseUrl, DefaultMaxConnections),
      AuthConfig(sessionSecret, DefaultCookieName, None, false, DefaultSameSite, DefaultExpirationDays),
      [DefaultCorsOrigin],
      UploadSettings(DefaultUploadDir, DefaultMaxFileSize))
  }

  /** With nothing else set, every field takes its default. */
  lemma OnlyRequiredSet(databaseUrl: string, sessionSecret: string)
    ensures FromEnv(map["DATABASE_URL" := databaseUrl, "SESSION_SECRET" := sessionSecret]) == Ok(Defaults(databaseUrl, sessionSecret))
  {
    var env := map["DATABASE_URL" := databaseUrl, "SESSION_SECRET" := sessionSecret];
    assert "COOKIE_SECURE" !in env && "COOKIE_DOMAIN" !in env && "CORS_ORIGIN" !in env;
    SplitNoSep(DefaultCorsOrigin, ',');
    assert TrimPart(DefaultCorsOrigin) == DefaultCorsOrigin by {
      assert !IsRustSpace('*');
    }
    assert "PORT" !in env && "DATABASE_MAX_CONNECTIONS" !in env && "SESSION_EXPIRATION_DAYS" !in env && "MAX_FILE_SIZE" !in env;
  }

  /** A port written in decimal is read back; anything that is not a `u16`
      gives 3000. */
  lemma PortRead(env: Env, port: nat)
    requires "DATABASE_URL" in env && "SESSION_SECRET" in env
    ensures port <= U16Max && "PORT" in env && env["PORT"] == NatToString(port) ==> FromEnv(env).value.server.port == port
    ensures "PORT" in env && ParseUnsigned(env["PORT"], U16Max).None? ==> FromEnv(env).value.server.port == DefaultPort
  {
    if port <= U16Max && "PORT" in env && env["PORT"] == NatToString(port) {
      ParseUnsignedRoundTrip(port, U16Max);
    }
  }

  /** Each optional field follows its variable: the value when it is set
      and parses, the default otherwise. */
  lemma FieldsFollowEnv(env: Env)
    requires "DATABASE_URL" in env && "SESSION_SECRET" in env
    ensures var c := FromEnv(env).value;
      && c.server.host == VarOr(env, "HOST", DefaultHost)
      && c.auth.cookieName == VarOr(env, "COOKIE_NAME", DefaultCookieName)
      && c.auth.cookieSameSite == VarOr(env, "COOKIE_SAME_SITE", DefaultSameSite)
      && c.upload.uploadDir == VarOr(env, "UPLOAD_DIR", DefaultUploadDir)
      && (c.auth.cookieDomain.Some? <==> "COOKIE_DOMAIN" in env)
      && (c.auth.cookieSecure <==> "COOKIE_SECURE" in env && env["COOKIE_SECURE"] == "true")
      && c.allowedOrigins == Origins(VarOr(env, "CORS_ORIGIN", DefaultCorsOrigin))
      && c.database.maxConnections <= U32Max
      && ("DATABASE_MAX_CONNECTIONS" !in env || ParseUnsigned(env["DATABASE_MAX_CONNECTIONS"], U32Max).None?
          ==> c.database.maxConnections == DefaultMaxConnections)
      && ("SESSION_EXPIRATION_DAYS" !in env || ParseUnsigned(env["SESSION_EXPIRATION_DAYS"], U64Max).None?
          ==> c.auth.sessionExpirationDays == DefaultExpirationDays)
      && ("MAX_FILE_SIZE" !in env || ParseUnsigned(env["MAX_FILE_SIZE"], U64Max).None?
          ==> c.upload.maxFileSize == DefaultMaxFileSize)
  {
  }

  /** The 32-character minimum named in the message is not enforced: any
      secret, even an empty one, is accepted. */
  lemma ShortSecretAccepted(env: Env)
    requires "DATABASE_URL" in env && "SESSION_SECRET" in env && env["SESSION_SECRET"] == ""
    ensures FromEnv(env).Ok? && |FromEnv(env).value.auth.sessionSecret| < 32
  {
  }

  /** An origin list without white space loses nothing: its parts joined
      with `,` give the variable back. */
  lemma OriginsRoundTrip(value: string)
    requires forall i :: 0 <= i < |value| ==> !IsRustSpace(value[i])
    ensures Join(Origins(value), ',') == value
  {
    var parts := Split(value, ',');
    forall i | 0 <= i < |parts| ensures TrimPart(parts[i]) == parts[i] {
      NoSpaceInPieces(value, i);
      TrimNoSpace(parts[i], IsRustSpace);
    }
    assert Origins(value) == parts;
    SplitJoin(value, ',');
  }

  /** Pieces of a string hold only its characters. */
  lemma {:induction false} NoSpaceInPieces(value: string, i: nat)
    requires forall k :: 0 <= k < |value| ==> !IsRustSpace(value[k])
    requires i < |Split(value, ',')|
    ensures forall k :: 0 <= k < |Split(value, ',')[i]| ==> !IsRustSpace(Split(value, ',')[i][k])
  {
    if value != [] {
      var rest := Split(value[1..], ',');
      if value[0] == ',' {
        if i > 0 {
          NoSpaceInPieces(value[1..], i - 1);
        }
      } else if i == 0 {
        NoSpaceInPieces(value[1..], 0);
        assert Split(value, ',')[0] == [value[0]] + rest[0];
      } else {
        NoSpaceInPieces(value[1..], i);
      }
    }
  }
}
