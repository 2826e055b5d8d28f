/** The authentication gate in front of the protected routes
    (road-trip-backend/src/middleware/auth.rs): it finds the session cookie
    in the `Cookie` header, validates its token and either forwards the
    request with the user attached or refuses it with a status code. The
    header and the two request extensions (the configured cookie name and
    the database) arrive as optional parameters. */
module AuthGate {
  import opened Wrappers
  import opened Sequences
  import opened Text
  import opened BackendTables
  import opened HttpReply
  import opened AuthService

  /** Forwarded with the user, or refused with a status. */
  datatype Gate = Forward(user: UserRow) | Refuse(status: nat)

  function TrimCookie(s: string): string {
    Trim(s, IsRustSpace)
  }

  /** The cookies of a header split on `;`, each one trimmed. */
  function Cookies(pieces: seq<string>): (r: seq<string>)
    ensures |r| == |pieces|
  {
    if pieces == [] then [] else [TrimCookie(pieces[0])] + Cookies(pieces[1..])
  }

  lemma {:induction false} CookieAt(pieces: seq<string>, i: nat)
    requires i < |pieces|
    ensures Cookies(pieces)[i] == TrimCookie(pieces[i])
  {
    if i > 0 {
      CookieAt(pieces[1..], i - 1);
      assert Cookies(pieces) == [TrimCookie(pieces[0])] + Cookies(pieces[1..]);
      assert pieces[1..][i - 1] == pieces[i];
    }
  }

  /** `cookie.trim()` on the `i`-th piece of the header. */
  method TrimmedCookie(pieces: seq<string>, i: nat) returns (cookie: string)
    requires i < |pieces|
    ensures cookie == Cookies(pieces)[i]
  {
    cookie := TrimCookie(pieces[i]);
    CookieAt(pieces, i);
  }

  /** The position of the first cookie that starts with `prefix`. */
  function FirstMatch(cookies: seq<string>, prefix: string): (r: Option<nat>)
    ensures r.Some? ==> (
      && r.value < |cookies| && StartsWith(cookies[r.value], prefix)
      && forall j :: 0 <= j < r.value ==> !StartsWith(cookies[j], prefix))
    ensures r.None? <==> forall j :: 0 <= j < |cookies| ==> !StartsWith(cookies[j], prefix)
  {
    if cookies == [] then None
    else if StartsWith(cookies[0], prefix) then Some(0)
    else
      var rest := FirstMatch(cookies[1..], prefix);
      if rest.None? then
        assert forall j :: 1 <= j < |cookies| ==> cookies[j] == cookies[1..][j - 1];
        None
      else Some(rest.value + 1)
  }

  /** `cookie.split('=').nth(1)`: the text between the first and the second
      `=`, if there is a first. */
  function CookieValue(cookie: string): (r: Option<string>)
    ensures r.Some? ==> '=' !in r.value
  {
    var fields := Split(cookie, '=');
    if |fields| < 2 then None else Some(fields[1])
  }

  /** A cookie that passed the prefix test always has a value, so the
      refusal for a missing one is never reached. */
  lemma MatchedCookieHasValue(name: string, cookie: string)
    requires StartsWith(cookie, name + "=")
    ensures CookieValue(cookie).Some?
  {
    var rest := cookie[|name| + 1..];
    assert cookie == name + ['='] + rest;
    SplitAround(name, rest, '=');
  }

  /** The value after `name=` is read up to the next `=`: a token without
      `=` comes back whole, and one with `=` is cut there. */
  lemma CookieValueOf(name: string, token: string, rest: string)
    requires '=' !in name && '=' !in token
    ensures CookieValue(name + "=" + token) == Some(token)
    ensures CookieValue(name + "=" + token + "=" + rest) == Some(token)
  {
    SplitNoSep(name, '=');
    SplitNoSep(token, '=');
    assert name + "=" + token == name + ['='] + token;
    SplitAround(name, token, '=');
    assert name + "=" + token + "=" + rest == name + ['='] + (token + ['='] + rest);
    SplitAround(name, token + ['='] + rest, '=');
    SplitAround(token, rest, '=');
  }

  /** The gate's decision: the header's cookies, the first one named
      `name`, then `Admit` on it. */
  function Decide(header: Option<string>, cookieName: Option<string>, tables: Option<Tables>, now: int): (r: Gate)
    ensures header.None? ==> r == Refuse(Unauthorized)
    ensures header.Some? && cookieName.None? ==> r == Refuse(InternalServerError)
    ensures r.Forward? ==> header.Some? && cookieName.Some? && tables.Some?
  {
    if header.None? then Refuse(Unauthorized)
    else if cookieName.None? then Refuse(InternalServerError)
    else
      var cookies := Cookies(Split(header.value, ';'));
      var m := FirstMatch(cookies, cookieName.value + "=");
      if m.None? then Refuse(Unauthorized) else Admit(cookies[m.value], tables, now)
  }

  /** What the gate decides. No header: 401. A header but no configured
      cookie name: 500, before any cookie is looked at. Only the first
      cookie named `name` is tried; then a missing database is 500, a token
      that does not validate 401, and a valid one forwards its user. No
      such cookie: 401. */
  lemma DecideCases(header: Option<string>, cookieName: Option<string>, tables: Option<Tables>, now: int)
    ensures var r := Decide(header, cookieName, tables, now);
      && (header.None? ==> r == Refuse(Unauthorized))
      && (header.Some? && cookieName.None? ==> r == Refuse(InternalServerError))
      && (header.Some? && cookieName.Some? && FirstMatch(Cookies(Split(header.value, ';')), cookieName.value + "=").None? ==>
            r == Refuse(Unauthorized))
      && (r.Refuse? ==> r.status in {Unauthorized, InternalServerError})
    ensures var r := Decide(header, cookieName, tables, now);
      r.Forward? <==>
        && header.Some? && cookieName.Some? && tables.Some?
        && var cookies := Cookies(Split(header.value, ';'));
        && var m := FirstMatch(cookies, cookieName.value + "=");
        && m.Some? && CookieValue(cookies[m.value]).Some?
        && SessionUser(tables.value.users, tables.value.sessions, CookieValue(cookies[m.value]).value, now).Ok?
    ensures var r := Decide(header, cookieName, tables, now);
      r.Forward? ==>
        var cookies := Cookies(Split(header.value, ';'));
        var m := FirstMatch(cookies, cookieName.value + "=");
        Ok(r.user) == SessionUser(tables.value.users, tables.value.sessions, CookieValue(cookies[m.value]).value, now)
  {
  }

  /** The decision once the cookie is chosen. */
  function Admit(cookie: string, tables: Option<Tables>, now: int): (r: Gate)
    ensures r.Refuse? ==> r.status in {Unauthorized, InternalServerError}
    ensures r.Forward? <==>
      tables.Some? && CookieValue(cookie).Some? && SessionUser(tables.value.users, tables.value.sessions, CookieValue(cookie).value, now).Ok?
    ensures r.Forward? ==> Ok(r.user) == SessionUser(tables.value.users, tables.value.sessions, CookieValue(cookie).value, now)
  {
    var token := CookieValue(cookie);
    if token.None? then Refuse(Unauthorized)
    else if tables.None? then Refuse(InternalServerError)
    else
      var user := SessionUser(tables.value.users, tables.value.sessions, token.value, now);
      if user.Err? then Refuse(Unauthorized) else Forward(user.value)
  }

  /** `auth_middleware`: the checks on the request's extensions, the scan
      for the session cookie, then the checks on that cookie. */
  method AuthMiddleware(header: Option<string>, cookieName: Option<string>, db: Option<Database>, now: int)
    returns (r: Gate)
    ensures r == Decide(header, cookieName, if db.Some? then Some(db.value.Snapshot()) else None, now)
  {
    if header.None? {
      return Refuse(Unauthorized);
    }
    var cookies := Split(header.value, ';');
    if cookieName.None? {
      return Refuse(InternalServerError);
    }
    var found := FindSessionCookie(cookies, cookieName.value + "=");
    if found.None? {
      return Refuse(Unauthorized);
    }
    r := CheckCookie(found.value, db, now);
  }

  /** The loop over the header's pieces: the first one that, once trimmed,
      starts with `prefix`, trimmed. */
  method FindSessionCookie(pieces: seq<string>, prefix: string) returns (found: Option<string>)
    ensures FirstMatch(Cookies(pieces), prefix).None? ==> found.None?
    ensures FirstMatch(Cookies(pieces), prefix).Some? ==>
      found == Some(Cookies(pieces)[FirstMatch(Cookies(pieces), prefix).value])
  {
    ghost var trimmed := Cookies(pieces);
    var i := 0;
    while i < |pieces|
      invariant 0 <= i <= |pieces|
      invariant forall j :: 0 <= j < i ==> !StartsWith(trimmed[j], prefix)
    {
      var cookie := TrimmedCookie(pieces, i);
      if StartsWith(cookie, prefix) {
        assert FirstMatch(trimmed, prefix) == Some(i);
        return Some(cookie);
      }
      i := i + 1;
    }
    return None;
  }

  /** The steps once the session cookie is found: its value, the database
      extension, then the session lookup. */
  method CheckCookie(cookie: string, db: Option<Database>, now: int) returns (r: Gate)
    ensures r == Admit(cookie, if db.Some? then Some(db.value.Snapshot()) else None, now)
  {
    var token := CookieValue(cookie);
    if token.None? {
      return Refuse(Unauthorized);
    }
    if db.None? {
      return Refuse(InternalServerError);
    }
    var user := SessionUser(db.value.users, db.value.sessions, token.value, now);
    if user.Err? {
      return Refuse(Unauthorized);
    }
    return Forward(user.value);
  }

  predicate NoCookieSyntax(s: string) {
    forall i :: 0 <= i < |s| ==> s[i] != '=' && s[i] != ';' && !IsRustSpace(s[i])
  }

  /** The header a browser sends back for one cookie. */
  function CookieHeader(name: string, value: string): string {
    name + "=" + value
  }

  /** The gate reads back the token of a lone session cookie. */
  lemma LoneCookieToken(name: string, token: string)
    requires name != [] && NoCookieSyntax(name) && NoCookieSyntax(token)
    ensures var cookies := Cookies(Split(CookieHeader(name, token), ';'));
      && FirstMatch(cookies, name + "=") == Some(0)
      && CookieValue(cookies[0]) == Some(token)
  {
    var header := CookieHeader(name, token);
    assert forall i :: 0 <= i < |header| ==> header[i] != ';' && !IsRustSpace(header[i]) by {
      forall i | 0 <= i < |header| ensures header[i] != ';' && !IsRustSpace(header[i]) {
        if i < |name| {
          assert header[i] == name[i];
        } else if i > |name| {
          assert header[i] == token[i - |name| - 1];
        }
      }
    }
    SplitNoSep(header, ';');
    TrimNoSpace(header, IsRustSpace);
    assert header[..|name + "="|] == name + "=";
    CookieValueOf(name, token, "");
  }

  /** Logging in and sending the cookie back is let through, with the user
      who logged in, for seven days and not after. */
  lemma LoginCookieAuthenticates(users: seq<UserRow>, sessions: seq<SessionRow>, email: string, password: string,
                                 sessionId: Uuid, token: string, name: string, now: int, t: int)
    requires UniqueBy(users, UserId)
    requires LoggedIn(users, sessions, email, password, sessionId, token, now).Ok?
    requires name != [] && NoCookieSyntax(name) && NoCookieSyntax(token)
    ensures var (after, user, _) := LoggedIn(users, sessions, email, password, sessionId, token, now).value;
      var tables := Some(Tables(users, after, [], [], [], [], []));
      && (t < now + SessionLifetime ==> Decide(Some(CookieHeader(name, token)), Some(name), tables, t) == Forward(user))
      && (t >= now + SessionLifetime ==> Decide(Some(CookieHeader(name, token)), Some(name), tables, t) == Refuse(Unauthorized))
  {
    LoneCookieToken(name, token);
    LoginSessionLifetime(users, sessions, email, password, sessionId, token, now, t);
  }

  /** After logout the same cookie is refused. */
  lemma LogoutCookieRefused(t: Tables, token: string, name: string, now: int)
    requires UniqueBy(t.sessions, SessionToken)
    requires name != [] && NoCookieSyntax(name) && NoCookieSyntax(token)
    ensures Decide(Some(CookieHeader(name, token)), Some(name), Some(t.(sessions := AfterLogout(t.sessions, token))), now)
      == Refuse(Unauthorized)
  {
    LoneCookieToken(name, token);
    LogoutEndsSession(t.users, t.sessions, token, now);
  }
}
