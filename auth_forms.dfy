/** The login and registration forms (road-trip-app/app/screens/LoginScreen.tsx,
    road-trip-app/app/screens/RegisterScreen.tsx): field validation, the
    e-mail pattern, and the guard that keeps an invalid form from reaching
    the REST API. The API answer is a parameter. */
module AuthForms {
  import opened Wrappers
  import opened Text
  import opened ClientTypes
  import opened AppStore

  const EmailRequired: string := "Email is required"
  const InvalidEmail: string := "Invalid email format"
  const PasswordRequired: string := "Password is required"
  const PasswordTooShort: string := "Password must be at least 6 characters"
  const NameRequired: string := "Name is required"
  const PasswordsDiffer: string := "Passwords do not match"
  const MinPasswordLength: nat := 6
  const LoginFailed: string := "Login failed. Please try again."
  const RegistrationFailed: string := "Registration failed. Please try again."

  /** A character class `[^\s@]`: neither JavaScript whitespace nor `@`. */
  predicate PlainChar(c: char) {
    !IsJsSpace(c) && c != '@'
  }

  predicate AllPlain(t: string) {
    forall k :: 0 <= k < |t| ==> PlainChar(t[k])
  }

  /** The regular expression `^[^\s@]+@[^\s@]+\.[^\s@]+$`, read literally:
      some split of the whole string into three non-empty plain runs joined
      by `@` and `.`. */
  predicate EmailPattern(s: string) {
    exists i, j :: 0 < i && i + 1 < j && j + 1 < |s| && s[i] == '@' && s[j] == '.'
      && AllPlain(s[..i]) && AllPlain(s[i + 1..j]) && AllPlain(s[j + 1..])
  }

  /** The first index of `c` in `s`, or `|s|`. */
  function FindChar(s: string, c: char): (i: nat)
    ensures i <= |s|
    ensures i < |s| ==> s[i] == c
    ensures forall k :: 0 <= k < i ==> s[k] != c
  {
    if s == [] then 0 else if s[0] == c then 0 else 1 + FindChar(s[1..], c)
  }

  /** The check the screens perform: one `@` after a plain run, and after
      it a plain run holding a `.` that is neither its first nor its last
      character. */
  function MatchesEmail(s: string): bool {
    var i := FindChar(s, '@');
    1 <= i < |s| && AllPlain(s[..i])
    && var t := s[i + 1..];
    |t| >= 3 && AllPlain(t) && FindChar(t[1..|t| - 1], '.') < |t| - 2
  }

  lemma MatchesEmailSound(s: string)
    requires MatchesEmail(s)
    ensures EmailPattern(s)
  {
    var i := FindChar(s, '@');
    var t := s[i + 1..];
    var d := FindChar(t[1..|t| - 1], '.');
    var j := i + 2 + d;
    assert s[j] == t[1 + d] == '.';
    assert AllPlain(s[i + 1..j]) by {
      assert s[i + 1..j] == t[..1 + d];
    }
    assert AllPlain(s[j + 1..]) by {
      assert s[j + 1..] == t[2 + d..];
    }
  }

  lemma MatchesEmailComplete(s: string, i: int, j: int)
    requires 0 < i && i + 1 < j && j + 1 < |s| && s[i] == '@' && s[j] == '.'
    requires AllPlain(s[..i]) && AllPlain(s[i + 1..j]) && AllPlain(s[j + 1..])
    ensures MatchesEmail(s)
  {
    assert forall k :: 0 <= k < i ==> s[k] == s[..i][k];
    assert FindChar(s, '@') == i;
    var t := s[i + 1..];
    assert AllPlain(t) by {
      forall k | 0 <= k < |t| ensures PlainChar(t[k]) {
        if k < j - i - 1 {
          assert t[k] == s[i + 1..j][k];
        } else if k > j - i - 1 {
          assert t[k] == s[j + 1..][k - (j - i)];
        }
      }
    }
    var inner := t[1..|t| - 1];
    assert inner[j - i - 2] == '.';
    assert FindChar(inner, '.') <= j - i - 2;
  }

  /** The check accepts exactly the strings the pattern matches. */
  lemma MatchesEmailIsPattern(s: string)
    ensures MatchesEmail(s) <==> EmailPattern(s)
  {
    if MatchesEmail(s) {
      MatchesEmailSound(s);
    }
    if EmailPattern(s) {
      var i, j :| 0 < i && i + 1 < j && j + 1 < |s| && s[i] == '@' && s[j] == '.'
        && AllPlain(s[..i]) && AllPlain(s[i + 1..j]) && AllPlain(s[j + 1..]);
      MatchesEmailComplete(s, i, j);
    }
  }

  datatype LoginErrors = LoginErrors(email: Option<string>, password: Option<string>)

  datatype RegisterErrors = RegisterErrors(
    name: Option<string>,
    email: Option<string>,
    password: Option<string>,
    confirmPassword: Option<string>)

  /** The e-mail rule both forms share: required after trimming, then the
      pattern on the untrimmed value. */
  function EmailError(email: string): (e: Option<string>)
    ensures e == Some(EmailRequired) <==> Trim(email, IsJsSpace) == ""
    ensures e == Some(InvalidEmail) <==> Trim(email, IsJsSpace) != "" && !EmailPattern(email)
    ensures e.None? <==> Trim(email, IsJsSpace) != "" && EmailPattern(email)
  {
    MatchesEmailIsPattern(email);
    if Trim(email, IsJsSpace) == "" then Some(EmailRequired)
    else if !MatchesEmail(email) then Some(InvalidEmail)
    else None
  }

  /** At most one password error: required first, then the minimum length. */
  function PasswordError(password: string): (e: Option<string>)
    ensures e == Some(PasswordRequired) <==> password == ""
    ensures e == Some(PasswordTooShort) <==> 0 < |password| < MinPasswordLength
    ensures e.None? <==> |password| >= MinPasswordLength
  {
    if password == "" then Some(PasswordRequired)
    else if |password| < MinPasswordLength then Some(PasswordTooShort)
    else None
  }

  function LoginValidate(email: string, password: string): LoginErrors {
    LoginErrors(EmailError(email), PasswordError(password))
  }

  predicate LoginValid(e: LoginErrors) {
    e.email.None? && e.password.None?
  }

  function RegisterValidate(name: string, email: string, password: string, confirmPassword: string): RegisterErrors {
    RegisterErrors(
      if Trim(name, IsJsSpace) == "" then Some(NameRequired) else None,
      EmailError(email),
      PasswordError(password),
      if password != confirmPassword then Some(PasswordsDiffer) else None)
  }

  predicate RegisterValid(e: RegisterErrors) {
    e.name.None? && e.email.None? && e.password.None? && e.confirmPassword.None?
  }

  /** A login form passes exactly when the e-mail is non-blank and matches
      the pattern and the password has at least six characters. */
  lemma LoginValidIff(email: string, password: string)
    ensures LoginValid(LoginValidate(email, password))
        <==> Trim(email, IsJsSpace) != "" && EmailPattern(email) && |password| >= MinPasswordLength
  {
  }

  /** A registration passes exactly when, in addition, the name is non-blank
      and the confirmation equals the password. The mismatch error is
      reported independently of the other password errors. */
  lemma RegisterValidIff(name: string, email: string, password: string, confirmPassword: string)
    ensures RegisterValid(RegisterValidate(name, email, password, confirmPassword))
        <==> Trim(name, IsJsSpace) != "" && Trim(email, IsJsSpace) != "" && EmailPattern(email)
             && |password| >= MinPasswordLength && password == confirmPassword
    ensures RegisterValidate(name, email, password, confirmPassword).confirmPassword.Some?
        <==> password != confirmPassword
  {
  }

  /** A matching address has no whitespace at all, so trimming cannot make
      it blank: on a pattern match the required check never fires. */
  lemma PatternImpliesNotBlank(email: string)
    requires EmailPattern(email)
    ensures Trim(email, IsJsSpace) != ""
  {
    var i, j :| 0 < i && i + 1 < j && j + 1 < |email| && email[i] == '@' && email[j] == '.'
      && AllPlain(email[..i]) && AllPlain(email[i + 1..j]) && AllPlain(email[j + 1..]);
    assert !IsJsSpace(email[i]);
    TrimEmptyIff(email, IsJsSpace);
  }

  class LoginForm {
    var email: string
    var password: string
    var errors: LoginErrors
    /** The (email, password) pairs sent to `apiService.login`. */
    var requests: seq<(string, string)>
    const store: Store

    constructor (store: Store)
      ensures this.store == store && email == "" && password == "" && requests == []
      ensures errors == LoginErrors(None, None)
    {
      this.store := store;
      email := "";
      password := "";
      errors := LoginErrors(None, None);
      requests := [];
    }

    method Validate() returns (ok: bool)
      modifies this
      ensures errors == LoginValidate(email, password) && (ok <==> LoginValid(errors))
      ensures email == old(email) && password == old(password) && requests == old(requests)
    {
      errors := LoginValidate(email, password);
      ok := LoginValid(errors);
    }

    /** `answer` is the API's user, or the server's error text if any. */
    method HandleLogin(answer: Result<User, Option<string>>)
      modifies this, store
      ensures email == old(email) && password == old(password)
      ensures errors == LoginValidate(email, password)
      ensures !LoginValid(errors) ==> requests == old(requests) && store.state == old(store.state)
      ensures LoginValid(errors) ==> requests == old(requests) + [(email, password)]
      ensures LoginValid(errors) && answer.Ok? ==>
        store.state == SetUser(SetError(old(store.state), None), Some(answer.value))
      ensures LoginValid(errors) && answer.Err? ==>
        store.state == SetError(old(store.state), Some(if answer.error.Some? && answer.error.value != "" then answer.error.value else LoginFailed))
    {
      var ok := Validate();
      if !ok {
        return;
      }
      store.state := SetError(store.state, None);
      requests := requests + [(email, password)];
      if answer.Ok? {
        store.state := SetUser(store.state, Some(answer.value));
      } else {
        var message := if answer.error.Some? && answer.error.value != "" then answer.error.value else LoginFailed;
        store.state := SetError(store.state, Some(message));
      }
    }
  }

  class RegisterForm {
    var name: string
    var email: string
    var password: string
    var confirmPassword: string
    var errors: RegisterErrors
    /** The (name, email, password) triples sent to `apiService.register`. */
    var requests: seq<(string, string, string)>
    const store: Store

    constructor (store: Store)
      ensures this.store == store && name == "" && email == "" && password == "" && confirmPassword == ""
      ensures requests == [] && errors == RegisterErrors(None, None, None, None)
    {
      this.store := store;
      name := "";
      email := "";
      password := "";
      confirmPassword := "";
      errors := RegisterErrors(None, None, None, None);
      requests := [];
    }

    method Validate() returns (ok: bool)
      modifies this
      ensures errors == RegisterValidate(name, email, password, confirmPassword) && (ok <==> RegisterValid(errors))
      ensures name == old(name) && email == old(email) && password == old(password)
      ensures confirmPassword == old(confirmPassword) && requests == old(requests)
    {
      errors := RegisterValidate(name, email, password, confirmPassword);
      ok := RegisterValid(errors);
    }

    method HandleRegister(answer: Result<User, Option<string>>)
      modifies this, store
      ensures name == old(name) && email == old(email)
      ensures password == old(password) && confirmPassword == old(confirmPassword)
      ensures errors == RegisterValidate(name, email, password, confirmPassword)
      ensures !RegisterValid(errors) ==> requests == old(requests) && store.state == old(store.state)
      ensures RegisterValid(errors) ==> requests == old(requests) + [(name, email, password)]
      ensures RegisterValid(errors) && answer.Ok? ==>
        store.state == SetUser(SetError(old(store.state), None), Some(answer.value))
      ensures RegisterValid(errors) && answer.Err? ==>
        store.state == SetError(old(store.state), Some(if answer.error.Some? && answer.error.value != "" then answer.error.value else RegistrationFailed))
    {
      var ok := Validate();
      if !ok {
        return;
      }
      store.state := SetError(store.state, None);
      requests := requests + [(name, email, password)];
      if answer.Ok? {
        store.state := SetUser(store.state, Some(answer.value));
      } else {
        var message := if answer.error.Some? && answer.error.value != "" then answer.error.value else RegistrationFailed;
        store.state := SetError(store.state, Some(message));
      }
    }
  }
}
