/**
 * The sign-in page: the ordered registration checks, the e-mail pattern
 * `^[^\s@]+@[^\s@]+\.[^\s@]+$`, and how registration and login outcomes
 * set the session profile and navigate.
 */
module Auth {
  import opened Wrappers
  import opened JsString
  import opened Domain

  // ---------------------------------------------------------------------------
  // The e-mail pattern
  // ---------------------------------------------------------------------------

  /** The class `[^\s@]`: neither whitespace nor "@". */
  predicate PlainChar(c: char) {
    !IsWhitespace(c) && c != '@'
  }

  /** `[^\s@]*`: every character is plain. */
  predicate AllPlain(s: string) {
    forall k :: 0 <= k < |s| ==> PlainChar(s[k])
  }

  /**
   * The pattern split at `at` and `dot`: a non-empty plain run, "@", a
   * non-empty plain run, ".", a non-empty plain run, and nothing else.
   */
  predicate PatternSplit(s: string, at: int, dot: int) {
    && 0 < at && at + 1 < dot && dot + 1 < |s|
    && s[at] == '@' && s[dot] == '.'
    && AllPlain(s[..at]) && AllPlain(s[at + 1..dot]) && AllPlain(s[dot + 1..])
  }

  /** The anchored regular expression, read as a grammar: some split of `s` fits it. */
  ghost predicate MatchesPattern(s: string) {
    exists at, dot :: PatternSplit(s, at, dot)
  }

  /** The position of the first `c` in `s`. */
  function IndexOf(s: string, c: char): (r: Option<nat>)
    ensures r.Some? ==> r.value < |s| && s[r.value] == c && forall k :: 0 <= k < r.value ==> s[k] != c
    ensures r.None? ==> forall k :: 0 <= k < |s| ==> s[k] != c
  {
    if s == [] then None
    else if s[0] == c then Some(0)
    else match IndexOf(s[1..], c)
      case Some(i) => Some(i + 1)
      case None => None
  }

  /**
   * `test(regEmail)` as the checks it amounts to: no whitespace anywhere,
   * exactly one "@" with something before it, and a domain with a "."
   * that is neither its first nor its last character.
   */
  predicate ValidEmail(s: string) {
    match IndexOf(s, '@')
    case None => false
    case Some(at) =>
      && at > 0
      && AllPlain(s[..at])
      && (forall k :: at < k < |s| ==> PlainChar(s[k]))
      && exists k :: at + 1 < k < |s| - 1 && s[k] == '.'
  }

  lemma AllPlainSlice(s: string, i: nat, j: nat)
    requires i <= j <= |s|
    requires forall k :: i <= k < j ==> PlainChar(s[k])
    ensures AllPlain(s[i..j])
  {
    forall k | 0 <= k < j - i ensures PlainChar(s[i..j][k]) {
      assert s[i..j][k] == s[i + k];
    }
  }

  /** The checks and the pattern accept the same strings. */
  lemma {:induction false} ValidEmailIff(s: string)
    ensures ValidEmail(s) <==> MatchesPattern(s)
  {
    if ValidEmail(s) {
      var at := IndexOf(s, '@').value;
      var dot :| at + 1 < dot < |s| - 1 && s[dot] == '.';
      AllPlainSlice(s, at + 1, dot);
      AllPlainSlice(s, dot + 1, |s|);
      assert s[dot + 1..|s|] == s[dot + 1..];
      assert PatternSplit(s, at, dot);
    }
    if MatchesPattern(s) {
      var at, dot :| PatternSplit(s, at, dot);
      forall k | 0 <= k < at ensures s[k] != '@' {
        assert s[k] == s[..at][k];
      }
      assert IndexOf(s, '@') == Some(at);
      forall k | at < k < |s| ensures PlainChar(s[k]) {
        if k < dot {
          assert s[k] == s[at + 1..dot][k - at - 1];
        } else if k > dot {
          assert s[k] == s[dot + 1..][k - dot - 1];
        }
      }
    }
  }

  /**
   * A valid address neither starts nor ends with whitespace: a padded
   * address is refused even when its trimmed form would pass, and for an
   * accepted one the trimmed value that is submitted is the tested one.
   */
  lemma ValidEmailIsUnpadded(s: string)
    ensures ValidEmail(s) ==> s != [] && !IsWhitespace(s[0]) && !IsWhitespace(s[|s| - 1])
    ensures ValidEmail(s) ==> Trim(s) == s
  {
    if ValidEmail(s) {
      var at := IndexOf(s, '@').value;
      assert s[0] == s[..at][0];
      assert PlainChar(s[|s| - 1]);
      TrimOfUnpadded(s);
    }
  }

  // ---------------------------------------------------------------------------
  // Registration and login
  // ---------------------------------------------------------------------------

  /** The checks of `handleRegister`, in order; `None` when all pass. */
  function RegisterPrecheck(identityConnected: bool, username: string, email: string): (refusal: Option<string>)
    ensures refusal.None? <==>
      identityConnected && !AllWhitespace(username) && !AllWhitespace(email) && MatchesPattern(email)
    ensures !identityConnected ==> refusal == Some("Please connect your identity first")
    ensures identityConnected && AllWhitespace(username) ==> refusal == Some("Please enter a username")
    ensures identityConnected && !AllWhitespace(username) && AllWhitespace(email) ==>
      refusal == Some("Please enter your email")
    ensures identityConnected && !AllWhitespace(username) && !AllWhitespace(email) && !MatchesPattern(email) ==>
      refusal == Some("Please enter a valid email address")
  {
    TrimEmptyIff(username);
    TrimEmptyIff(email);
    ValidEmailIff(email);
    if !identityConnected then Some("Please connect your identity first")
    else if Trim(username) == "" then Some("Please enter a username")
    else if Trim(email) == "" then Some("Please enter your email")
    else if !ValidEmail(email) then Some("Please enter a valid email address")
    else None
  }

  /** The arguments of one `onRegister` call. */
  datatype Registration = Registration(username: string, email: string)

  /** How one press of "Create Account" ended. */
  datatype RegisterResult = RegisterRefused(message: string) | Registered(profile: UserProfile) | RegisterFailed

  /**
   * `handleRegister`: the checks, then one registration with the trimmed
   * name and address; on success the trimmed values become the profile.
   */
  function RegisterStep(
    identityConnected: bool, username: string, email: string,
    onRegister: Registration -> Outcome<Unit>
  ): (r: (RegisterResult, Option<Registration>))
    ensures r.1.Some? <==> RegisterPrecheck(identityConnected, username, email).None?
    ensures r.1.Some? ==> r.1.value == Registration(Trim(username), Trim(email))
    ensures r.1.None? ==> r.0 == RegisterRefused(RegisterPrecheck(identityConnected, username, email).value)
    ensures r.0.Registered? <==> r.1.Some? && onRegister(r.1.value).Resolved?
    ensures r.0.Registered? ==> r.0.profile == UserProfile(Trim(username), Trim(email))
  {
    match RegisterPrecheck(identityConnected, username, email)
    case Some(message) => (RegisterRefused(message), None)
    case None =>
      var request := Registration(Trim(username), Trim(email));
      match onRegister(request)
      case Resolved(_) => (Registered(UserProfile(request.username, request.email)), Some(request))
      case Rejected => (RegisterFailed, Some(request))
  }

  /** How one press of "Login" ended. */
  datatype LoginResult = LoginRefused | LoggedIn(profile: UserProfile) | NoAccount | LoginFailed

  /**
   * `handleLogin`: without an identity no lookup is made; a found profile
   * is signed in, a missing one and a failed lookup are reported.
   */
  function LoginStep(identityConnected: bool, onLoginLookup: Outcome<Option<UserProfile>>): (r: (LoginResult, bool))
    ensures r.1 <==> identityConnected
    ensures !identityConnected ==> r.0 == LoginRefused
    ensures r.0.LoggedIn? ==> identityConnected && onLoginLookup == Resolved(Some(r.0.profile))
    ensures identityConnected && onLoginLookup.Resolved? && onLoginLookup.value.Some? ==>
      r.0 == LoggedIn(onLoginLookup.value.value)
    ensures r.0 == NoAccount <==> identityConnected && onLoginLookup == Resolved(None)
    ensures r.0 == LoginFailed <==> identityConnected && onLoginLookup.Rejected?
  {
    if !identityConnected then (LoginRefused, false)
    else match onLoginLookup
      case Resolved(Some(p)) => (LoggedIn(p), true)
      case Resolved(None) => (NoAccount, true)
      case Rejected => (LoginFailed, true)
  }

  /** The sign-in page's own state and the session effects of its two handlers. */
  class AuthForm {
    var regUsername: string
    var regEmail: string
    var isRegistering: bool
    var isLoggingIn: bool

    constructor ()
      ensures regUsername == "" && regEmail == "" && !isRegistering && !isLoggingIn
    {
      regUsername := "";
      regEmail := "";
      isRegistering := false;
      isLoggingIn := false;
    }

    /**
     * "Create Account" is enabled only with an identity and no registration
     * running, so an enabled press never meets the identity refusal.
     */
    function RegisterEnabled(identityConnected: bool): (enabled: bool)
      reads this
      ensures enabled ==> RegisterPrecheck(identityConnected, regUsername, regEmail) != Some("Please connect your identity first")
    {
      !isRegistering && identityConnected
    }

    method EditUsername(text: string)
      modifies this`regUsername
      ensures regUsername == text
    {
      regUsername := text;
    }

    method EditEmail(text: string)
      modifies this`regEmail
      ensures regEmail == text
    {
      regEmail := text;
    }

    /**
     * `handleRegister`, returning the profile it hands to `onSetUserProfile`
     * and the page it navigates to, both only on success.
     */
    method HandleRegister(identityConnected: bool, onRegister: Registration -> Outcome<Unit>)
      returns (result: RegisterResult, call: Option<Registration>, setProfile: Option<UserProfile>, navigateTo: Option<Page>)
      modifies this`isRegistering
      ensures (result, call) == RegisterStep(identityConnected, regUsername, regEmail, onRegister)
      ensures setProfile == (if result.Registered? then Some(result.profile) else None)
      ensures navigateTo == (if result.Registered? then Some(Store) else None)
      ensures !isRegistering
    {
      var step := RegisterStep(identityConnected, regUsername, regEmail, onRegister);
      result, call := step.0, step.1;
      setProfile, navigateTo := None, None;
      if call.Some? {
        isRegistering := true;
        if result.Registered? {
          setProfile, navigateTo := Some(result.profile), Some(Store);
        }
      }
      isRegistering := false;
    }

    /** `handleLogin`, returning the profile it signs in and the page it navigates to. */
    method HandleLogin(identityConnected: bool, onLoginLookup: Outcome<Option<UserProfile>>)
      returns (result: LoginResult, looked: bool, setProfile: Option<UserProfile>, navigateTo: Option<Page>)
      modifies this`isLoggingIn
      ensures (result, looked) == LoginStep(identityConnected, onLoginLookup)
      ensures setProfile == (if result.LoggedIn? then Some(result.profile) else None)
      ensures navigateTo == (if result.LoggedIn? then Some(Store) else None)
      ensures !isLoggingIn
    {
      var step := LoginStep(identityConnected, onLoginLookup);
      result, looked := step.0, step.1;
      setProfile, navigateTo := None, None;
      if looked {
        isLoggingIn := true;
        if result.LoggedIn? {
          setProfile, navigateTo := Some(result.profile), Some(Store);
        }
      }
      isLoggingIn := false;
    }
  }
}
