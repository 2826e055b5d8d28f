/** The session cookies (road-trip-backend/src/utils/cookie.rs): the one
    set at login and the one that clears it at logout. Token generation
    (random bytes and the clock through SHA-256) is a parameter: the token
    arrives as an argument. */
module SessionCookie {
  import opened Wrappers
  import opened ServerConfig

  datatype SameSite = Strict | Lax | NoneSite

  /** The attributes the cookie builder sets; an absent attribute is `None`. */
  datatype Cookie = Cookie(
    name: string, value: string, httpOnly: bool, maxAge: Option<int>,
    path: Option<string>, sameSite: Option<SameSite>, secure: bool, domain: Option<string>)

  const I64Modulus: nat := 0x1_0000_0000_0000_0000
  const I64Max: nat := 0x7FFF_FFFF_FFFF_FFFF
  const SecondsPerDay: nat := 24 * 60 * 60

  /** The configured policy name read as a SameSite value. */
  function SameSiteOf(policy: string): (r: SameSite)
    ensures r == Lax <==> policy == "Lax"
    ensures r == NoneSite <==> policy == "None"
    ensures r == Strict <==> policy != "Lax" && policy != "None"
  {
    if policy == "Lax" then Lax else if policy == "None" then NoneSite else Strict
  }

  /** `(days * 24 * 60 * 60) as i64`, the product taken in `u64` with
      wrap-around and then reinterpreted as a signed 64-bit value. */
  function MaxAgeSeconds(days: nat): (r: int)
    ensures -(I64Max as int) - 1 <= r <= I64Max
  {
    var product := (days * SecondsPerDay) % I64Modulus;
    if product <= I64Max then product else product - I64Modulus
  }

  /** Any realistic expiry is exact; a larger one comes out negative. */
  lemma MaxAgeExact(days: nat)
    ensures days * SecondsPerDay <= I64Max ==> MaxAgeSeconds(days) == days * SecondsPerDay
    ensures I64Max < days * SecondsPerDay < I64Modulus ==> MaxAgeSeconds(days) < 0
  {
  }

  /** `create_session_cookie`. */
  function SessionCookieFor(token: string, config: AuthConfig): (c: Cookie)
    ensures c.name == config.cookieName && c.value == token
    ensures c.httpOnly && c.path == Some("/")
    ensures c.maxAge == Some(MaxAgeSeconds(config.sessionExpirationDays))
    ensures c.sameSite == Some(SameSiteOf(config.cookieSameSite))
    ensures c.secure <==> config.cookieSecure
    ensures c.domain == config.cookieDomain
  {
    Cookie(config.cookieName, token, true, Some(MaxAgeSeconds(config.sessionExpirationDays)),
           Some("/"), Some(SameSiteOf(config.cookieSameSite)), config.cookieSecure, config.cookieDomain)
  }

  /** `create_logout_cookie`: no value, no SameSite, and an age of zero. */
  function LogoutCookieFor(config: AuthConfig): (c: Cookie)
    ensures c.name == config.cookieName && c.value == ""
    ensures c.httpOnly && c.path == Some("/") && c.maxAge == Some(0)
    ensures c.sameSite.None?
    ensures c.secure <==> config.cookieSecure
    ensures c.domain == config.cookieDomain
  {
    Cookie(config.cookieName, "", true, Some(0), Some("/"), None, config.cookieSecure, config.cookieDomain)
  }

  /** A browser keys a cookie on its name, domain and path: the logout
      cookie addresses exactly the cookie set at login, and expires it. */
  lemma LogoutReplacesSession(token: string, config: AuthConfig)
    ensures var issued := SessionCookieFor(token, config);
      var clear := LogoutCookieFor(config);
      && (clear.name, clear.domain, clear.path) == (issued.name, issued.domain, issued.path)
      && clear.secure == issued.secure
      && clear.maxAge == Some(0) && clear.value == ""
  {
  }

  /** With the default configuration the session cookie lives seven days,
      as long as the session row it names. */
  lemma DefaultCookieLifetime(token: string, databaseUrl: string, sessionSecret: string)
    ensures var c := SessionCookieFor(token, Defaults(databaseUrl, sessionSecret).auth);
      && c.maxAge == Some(7 * 86400)
      && c.name == "session_token" && c.sameSite == Some(Strict) && !c.secure && c.domain.None?
  {
    MaxAgeExact(DefaultExpirationDays);
  }
}
