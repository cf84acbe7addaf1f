/**
 * The login form: the emptiness and email-format checks, the request with its
 * loading flag and error message, the Enter-key guard and the reset button.
 */
module Login {
  import opened Wrappers

  /** JavaScript's `\s`: the white-space and line-terminator characters. */
  predicate IsSpace(c: char) {
    var n := c as int;
    (9 <= n <= 13) || n == 0x20 || n == 0xA0 || n == 0x1680 || (0x2000 <= n <= 0x200A)
    || n == 0x2028 || n == 0x2029 || n == 0x202F || n == 0x205F || n == 0x3000 || n == 0xFEFF
  }

  /** `[^\s@]`. */
  predicate PlainChar(c: char) {
    !IsSpace(c) && c != '@'
  }

  predicate Plain(s: string) {
    forall k :: 0 <= k < |s| ==> PlainChar(s[k])
  }

  /**
   * `/^[^\s@]+@[^\s@]+\.[^\s@]+$/.test(s)`, read off the pattern: `s` splits as
   * a non-empty plain run, `@`, a non-empty plain run, `.`, a non-empty plain run.
   */
  predicate EmailPattern(s: string) {
    exists i, j :: 0 < i && i + 1 < j && j + 1 < |s| && s[i] == '@' && s[j] == '.'
      && Plain(s[..i]) && Plain(s[i + 1..j]) && Plain(s[j + 1..])
  }

  /** The first position of `c` in `s`. */
  function FirstIndex(s: string, c: char): (r: Option<nat>)
    ensures r.None? <==> c !in s
    ensures r.Some? ==> r.value < |s| && s[r.value] == c && c !in s[..r.value]
  {
    if |s| == 0 then None
    else if s[0] == c then Some(0)
    else match FirstIndex(s[1..], c)
      case None => None
      case Some(k) => assert s[..k + 1] == [s[0]] + s[1..][..k]; Some(k + 1)
  }

  /**
   * The same test read as the pointwise conditions it amounts to: no white
   * space, one `@` with at least one character before it, and after the `@` a
   * `.` that is neither the first nor the last character.
   */
  predicate EmailValid(s: string) {
    match FirstIndex(s, '@')
    case None => false
    case Some(i) => 0 < i && Plain(s[..i]) && DomainOk(s[i + 1..])
  }

  /** The text after the `@`: plain, with a `.` strictly inside it. */
  predicate DomainOk(domain: string) {
    Plain(domain) && |domain| >= 3 && '.' in domain[1..|domain| - 1]
  }

  lemma ValidMatchesPattern(s: string)
    requires EmailValid(s)
    ensures EmailPattern(s)
  {
    var i := FirstIndex(s, '@').value;
    var domain := s[i + 1..];
    assert DomainOk(domain);
    var m := domain[1..|domain| - 1];
    var k :| 0 <= k < |m| && m[k] == '.';
    var j := i + 2 + k;
    assert s[i + 1..j] == domain[..k + 1];
    assert s[j + 1..] == domain[k + 2..];
    assert s[j] == '.' && Plain(s[i + 1..j]) && Plain(s[j + 1..]);
  }

  /** A plain run, a plain character and another plain run make a plain run. */
  lemma PlainJoin(a: string, c: char, b: string)
    requires Plain(a) && PlainChar(c) && Plain(b)
    ensures Plain(a + [c] + b)
  {
    var s := a + [c] + b;
    forall k | 0 <= k < |s|
      ensures PlainChar(s[k])
    {
      if k < |a| {
        assert s[k] == a[k];
      } else if k > |a| {
        assert s[k] == b[k - |a| - 1];
      }
    }
  }

  lemma SplitAt(s: string, a: nat, j: nat)
    requires a <= j < |s|
    ensures s[a..] == s[a..j] + [s[j]] + s[j + 1..]
  {
  }

  lemma PlainHasNoAt(s: string)
    requires Plain(s)
    ensures '@' !in s
  {
  }

  /** A `c` with none before it is the first one. */
  lemma FirstIndexAt(s: string, c: char, i: nat)
    requires i < |s| && s[i] == c && c !in s[..i]
    ensures FirstIndex(s, c) == Some(i)
  {
  }

  /** A `.` strictly inside a text with plain runs on both sides. */
  lemma DomainOkAt(domain: string, k: nat)
    requires 0 < k < |domain| - 1 && domain[k] == '.' && Plain(domain[..k]) && Plain(domain[k + 1..])
    ensures DomainOk(domain)
  {
    SplitAt(domain, 0, k);
    assert domain[0..] == domain && domain[0..k] == domain[..k];
    PlainJoin(domain[..k], domain[k], domain[k + 1..]);
    assert domain[1..|domain| - 1][k - 1] == '.';
  }

  lemma PatternAtIsValid(s: string, i: nat, j: nat)
    requires 0 < i && i + 1 < j && j + 1 < |s| && s[i] == '@' && s[j] == '.'
    requires Plain(s[..i]) && Plain(s[i + 1..j]) && Plain(s[j + 1..])
    ensures EmailValid(s)
  {
    PlainHasNoAt(s[..i]);
    FirstIndexAt(s, '@', i);
    var domain, k := s[i + 1..], j - i - 1;
    assert domain[..k] == s[i + 1..j];
    assert domain[k + 1..] == s[j + 1..];
    DomainOkAt(domain, k);
  }

  lemma PatternMatchesValid(s: string)
    requires EmailPattern(s)
    ensures EmailValid(s)
  {
    var i, j :| 0 < i && i + 1 < j && j + 1 < |s| && s[i] == '@' && s[j] == '.'
      && Plain(s[..i]) && Plain(s[i + 1..j]) && Plain(s[j + 1..]);
    PatternAtIsValid(s, i, j);
  }

  /** The pointwise reading agrees with the pattern on every text. */
  lemma EmailValidIsPattern(s: string)
    ensures EmailValid(s) <==> EmailPattern(s)
  {
    if EmailValid(s) {
      ValidMatchesPattern(s);
    }
    if EmailPattern(s) {
      PatternMatchesValid(s);
    }
  }

  /** Exactly one `@` in a valid email. */
  lemma ValidEmailHasOneAt(s: string)
    requires EmailValid(s)
    ensures var i := FirstIndex(s, '@').value; forall k :: 0 <= k < |s| && k != i ==> s[k] != '@'
  {
    var i := FirstIndex(s, '@').value;
    forall k | 0 <= k < |s| && k != i
      ensures s[k] != '@'
    {
      if k < i {
        assert s[..i][k] == s[k];
      } else {
        assert s[i + 1..][k - i - 1] == s[k];
      }
    }
  }

  datatype LoginError = Required | BadEmail

  function LoginErrorText(e: LoginError): string {
    match e
    case Required => "Both fields are required."
    case BadEmail => "Please enter a valid email address."
  }

  /** The checks `handleLogin` runs before any request, in order. */
  function LoginCheck(email: string, password: string): (r: Option<LoginError>)
    ensures email == "" || password == "" ==> r == Some(Required)
    ensures r == Some(BadEmail) <==> email != "" && password != "" && !EmailPattern(email)
    ensures r.None? <==> email != "" && password != "" && EmailPattern(email)
  {
    EmailValidIsPattern(email);
    if email == "" || password == "" then Some(Required)
    else if !EmailValid(email) then Some(BadEmail)
    else None
  }

  /** The server's answer: the session fields, or a failure with `err.response?.data?.message`. */
  datatype LoginResponse = Accepted(role: string, name: string, token: string) | Rejected(message: Option<string>)

  const LoginFailed := "Login failed. Please try again."

  /** `err.response?.data?.message || 'Login failed. Please try again.'`. */
  function FailureText(message: Option<string>): (t: string)
    ensures message.Some? && message.value != "" ==> t == message.value
    ensures message.None? || message.value == "" ==> t == LoginFailed
  {
    if message.Some? && message.value != "" then message.value else LoginFailed
  }

  /** What `onSubmit(role, name, token, email)` hands to the application. */
  datatype Session = Session(role: string, name: string, token: string, email: string)

  class LoginForm {
    var email: string
    var password: string
    var error: string
    var showPassword: bool
    var loading: bool
    /** The session passed to `onSubmit`, once a login succeeds. */
    var session: Option<Session>
    var showLogin: bool

    constructor()
      ensures email == "" && password == "" && error == "" && !showPassword && !loading
      ensures session == None && showLogin
    {
      email := "";
      password := "";
      error := "";
      showPassword := false;
      loading := false;
      session := None;
      showLogin := true;
    }

    /**
     * `handleLogin` up to the request: a failed check only sets its message;
     * otherwise the message clears and loading starts. Returns whether the
     * request is sent.
     */
    method HandleLogin() returns (requested: bool)
      modifies this`error, this`loading
      ensures requested <==> LoginCheck(email, password).None?
      ensures !requested ==> error == LoginErrorText(LoginCheck(email, password).value) && loading == old(loading)
      ensures requested ==> error == "" && loading
    {
      EmailValidIsPattern(email);
      if email == "" || password == "" {
        error := LoginErrorText(Required);
        return false;
      }
      if !EmailValid(email) {
        error := LoginErrorText(BadEmail);
        return false;
      }
      loading := true;
      error := "";
      requested := true;
    }

    /**
     * The rest of `handleLogin` once the request settles: a success hands the
     * session on and closes the form; a failure shows the server's message or
     * the fallback. Loading ends in every case.
     */
    method LoginSettled(response: LoginResponse)
      modifies this`error, this`loading, this`session, this`showLogin
      ensures !loading
      ensures response.Accepted? ==>
        (session == Some(Session(response.role, response.name, response.token, email))
        && !showLogin && error == old(error))
      ensures response.Rejected? ==>
        (error == FailureText(response.message) && session == old(session) && showLogin == old(showLogin))
    {
      match response {
        case Accepted(role, name, token) =>
          session := Some(Session(role, name, token, email));
          showLogin := false;
        case Rejected(message) =>
          error := FailureText(message);
      }
      loading := false;
    }

    /** `handleKeyPress`: Enter starts a login unless one is in progress; other keys do nothing. */
    method HandleKeyPress(key: string) returns (requested: bool)
      modifies this`error, this`loading
      ensures key != "Enter" || old(loading) ==> !requested && error == old(error) && loading == old(loading)
      ensures key == "Enter" && !old(loading) ==> (requested <==> LoginCheck(email, password).None?)
    {
      if key == "Enter" && !loading {
        requested := HandleLogin();
      } else {
        requested := false;
      }
    }

    /** `handleReset`: clears the two fields and the message, and nothing else. */
    method HandleReset()
      modifies this`email, this`password, this`error
      ensures email == "" && password == "" && error == ""
    {
      email := "";
      password := "";
      error := "";
    }

    method SetEmail(value: string)
      modifies this`email
      ensures email == value
    {
      email := value;
    }

    method SetPassword(value: string)
      modifies this`password
      ensures password == value
    {
      password := value;
    }

    method ToggleShowPassword()
      modifies this`showPassword
      ensures showPassword == !old(showPassword)
    {
      showPassword := !showPassword;
    }
  }
}
