/**
 * The site navigation bar (src/components/Navbar.tsx): the password
 * strength rule, the login/register form handler with its guard order and
 * field clearing, the active-link test and the redirect after logout.
 */
module Navbar {
  import opened Wrappers
  import opened Text

  // ----- Password strength -----

  predicate IsSymbol(c: char)
  {
    c == '!' || c == '@' || c == '#' || c == '$' || c == '%' || c == '^' || c == '&' || c == '*'
  }

  /** The class `[A-Za-z\d!@#$%^&*]`. */
  predicate IsAllowed(c: char)
  {
    IsAsciiLower(c) || IsAsciiUpper(c) || IsDigit(c) || IsSymbol(c)
  }

  /** The rule the regular expression states, written out: length, alphabet and one of each kind. */
  predicate StrongSpec(p: string)
  {
    && |p| >= 8
    && (forall i :: 0 <= i < |p| ==> IsAllowed(p[i]))
    && (exists i :: 0 <= i < |p| && IsAsciiLower(p[i]))
    && (exists i :: 0 <= i < |p| && IsAsciiUpper(p[i]))
    && (exists i :: 0 <= i < |p| && IsDigit(p[i]))
    && (exists i :: 0 <= i < |p| && IsSymbol(p[i]))
  }

  /** What one pass over a password finds: whether every character is allowed, and which kinds occur. */
  datatype Kinds = Kinds(allAllowed: bool, lower: bool, upper: bool, digit: bool, symbol: bool)

  function Scan(p: string): (k: Kinds)
    ensures k.allAllowed <==> forall i :: 0 <= i < |p| ==> IsAllowed(p[i])
    ensures k.lower <==> exists i :: 0 <= i < |p| && IsAsciiLower(p[i])
    ensures k.upper <==> exists i :: 0 <= i < |p| && IsAsciiUpper(p[i])
    ensures k.digit <==> exists i :: 0 <= i < |p| && IsDigit(p[i])
    ensures k.symbol <==> exists i :: 0 <= i < |p| && IsSymbol(p[i])
  {
    if p == [] then Kinds(true, false, false, false, false)
    else
      var init := p[..|p| - 1];
      var c := p[|p| - 1];
      var k := Scan(init);
      assert forall i :: 0 <= i < |init| ==> init[i] == p[i];
      Kinds(k.allAllowed && IsAllowed(c), k.lower || IsAsciiLower(c), k.upper || IsAsciiUpper(c),
        k.digit || IsDigit(c), k.symbol || IsSymbol(c))
  }

  /** `isPasswordStrong`: the lookaheads and the anchored `{8,}` repetition, evaluated by one scan. */
  function IsPasswordStrong(p: string): bool
  {
    var k := Scan(p);
    |p| >= 8 && k.allAllowed && k.lower && k.upper && k.digit && k.symbol
  }

  lemma StrengthMeetsSpec(p: string)
    ensures IsPasswordStrong(p) <==> StrongSpec(p)
  {
  }

  /** One character outside the class (a space, a '-') rejects the password, however long. */
  lemma ForeignCharacterRejects(p: string, i: nat)
    requires i < |p| && !IsAllowed(p[i])
    ensures !IsPasswordStrong(p)
  {
  }

  /** Short passwords are rejected even when every kind occurs. */
  lemma ShortPasswordRejects(p: string)
    requires |p| < 8
    ensures !IsPasswordStrong(p)
  {
  }

  lemma Examples()
    ensures IsPasswordStrong("Abcdef1!")
    ensures !IsPasswordStrong("Abcdef1 !")
    ensures !IsPasswordStrong("abcdef1!")
  {
    assert "Abcdef1!"[0] == 'A' && "Abcdef1!"[1] == 'b' && "Abcdef1!"[6] == '1' && "Abcdef1!"[7] == '!';
    ForeignCharacterRejects("Abcdef1 !", 7);
    assert forall i :: 0 <= i < |"abcdef1!"| ==> !IsAsciiUpper("abcdef1!"[i]);
  }

  // ----- The login / register form -----

  const MismatchMessage := "\U{274C} Password dan konfirmasi tidak cocok."
  const WeakPasswordMessage := "\U{26A0}\U{FE0F} Password minimal 8 karakter, mengandung huruf besar, kecil, angka, dan simbol."
  const SignedUpMessage := "\U{1F4E9} Akun berhasil dibuat! Cek email kamu dan klik tautan verifikasi sebelum login."
  const UnverifiedMessage := "\U{26A0}\U{FE0F} Email belum diverifikasi. Silakan cek email kamu."
  const LoggedInMessage := "\U{2705} Login berhasil!"
  const ErrorPrefix := "\U{274C} "

  /** A call into the auth provider. */
  datatype ProviderCall = SignUp(email: string, password: string, redirectTo: string) | SignIn(email: string, password: string) | SignOut

  /** What `signInWithPassword` answers: an error, or a (possibly missing) session whose email may be unconfirmed. */
  datatype SignInResult = SignInFailed(message: string) | SignInOk(emailConfirmed: bool)

  /** The form's state. */
  datatype AuthState = AuthState(
    isRegister: bool,
    email: string,
    password: string,
    confirmPassword: string,
    error: string,
    success: string,
    loading: bool,
    modalOpen: bool)

  datatype AuthOutcome = AuthOutcome(state: AuthState, calls: seq<ProviderCall>)

  /** The register checks that return before any provider call, in the order they run. */
  predicate StopsEarly(s: AuthState)
  {
    s.isRegister && (s.password != s.confirmPassword || !IsPasswordStrong(s.password))
  }

  /** The end of the handler: loading off, every text field cleared. */
  function Cleared(s: AuthState): AuthState
  {
    s.(loading := false, email := "", password := "", confirmPassword := "")
  }

  /** `handleAuth`, given the provider's answers. */
  function HandleAuthStep(s: AuthState, origin: string, signUpError: Option<string>, signIn: SignInResult): (r: AuthOutcome)
    ensures !r.state.loading && r.state.isRegister == s.isRegister
    ensures StopsEarly(s) ==>
      && r.calls == []
      && r.state.error == (if s.password != s.confirmPassword then MismatchMessage else WeakPasswordMessage)
      && r.state.success == ""
      && r.state.email == s.email && r.state.password == s.password && r.state.confirmPassword == s.confirmPassword
      && r.state.modalOpen == s.modalOpen
    ensures !StopsEarly(s) ==>
      && r.state.email == "" && r.state.password == "" && r.state.confirmPassword == ""
      && |r.calls| >= 1
      && r.calls[0] == (if s.isRegister then SignUp(s.email, s.password, origin + "/verify-success") else SignIn(s.email, s.password))
    ensures r.state.modalOpen == (s.modalOpen && !(!s.isRegister && signIn == SignInOk(true)))
    ensures !s.isRegister && signIn == SignInOk(false) ==>
      r.calls == [SignIn(s.email, s.password), SignOut] && r.state.error == UnverifiedMessage && r.state.success == ""
    ensures (r.state.error == "") == (r.state.success != "")
  {
    var s := s.(error := "", success := "", loading := true);
    if s.isRegister then RegisterAttempt(s, origin, signUpError) else LoginAttempt(s, signIn)
  }

  /** The register branch of `handleAuth`: the mismatch check, then the strength check, then `signUp`. */
  function RegisterAttempt(s: AuthState, origin: string, signUpError: Option<string>): AuthOutcome
  {
    if s.password != s.confirmPassword then
      AuthOutcome(s.(error := MismatchMessage, loading := false), [])
    else if !IsPasswordStrong(s.password) then
      AuthOutcome(s.(error := WeakPasswordMessage, loading := false), [])
    else
      var calls := [SignUp(s.email, s.password, origin + "/verify-success")];
      if signUpError.Some? then AuthOutcome(Cleared(s.(error := ErrorPrefix + signUpError.value)), calls)
      else AuthOutcome(Cleared(s.(success := SignedUpMessage)), calls)
  }

  /** The login branch of `handleAuth`: an unconfirmed email is signed out again. */
  function LoginAttempt(s: AuthState, signIn: SignInResult): AuthOutcome
  {
    match signIn
    case SignInFailed(m) =>
      AuthOutcome(Cleared(s.(error := ErrorPrefix + m)), [SignIn(s.email, s.password)])
    case SignInOk(confirmed) =>
      if !confirmed then
        AuthOutcome(Cleared(s.(error := UnverifiedMessage)), [SignIn(s.email, s.password), SignOut])
      else
        AuthOutcome(Cleared(s.(success := LoggedInMessage, modalOpen := false)), [SignIn(s.email, s.password)])
  }

  /** A sign-up request is made exactly when registering with a matching password that meets the rule. */
  lemma SignUpOnlyForStrongMatchingPasswords(s: AuthState, origin: string, signUpError: Option<string>, signIn: SignInResult)
    ensures var r := HandleAuthStep(s, origin, signUpError, signIn);
            (exists i :: 0 <= i < |r.calls| && r.calls[i].SignUp?)
            <==> s.isRegister && s.password == s.confirmPassword && StrongSpec(s.password)
  {
    StrengthMeetsSpec(s.password);
    var r := HandleAuthStep(s, origin, signUpError, signIn);
    if s.isRegister && s.password == s.confirmPassword && StrongSpec(s.password) {
      assert r.calls[0].SignUp?;
    }
  }

  // ----- Links and logout -----

  /** `isActive`: the home link only on "/" itself, every other link on any path it prefixes. */
  function IsActive(path: string, pathname: string): (r: bool)
    ensures path == "/" ==> (r <==> pathname == "/")
    ensures path != "/" ==> (r <==> StartsWith(pathname, path))
  {
    if path == "/" then pathname == "/" else StartsWith(pathname, path)
  }

  /** The pages that need a session: logging out there leads back home. */
  predicate NeedsSession(pathname: string)
  {
    StartsWith(pathname, "/booking") || StartsWith(pathname, "/payment")
  }

  /** Where `handleLogout` navigates to, if anywhere. */
  function LogoutRedirect(pathname: string): (r: Option<string>)
    ensures r.Some? <==> NeedsSession(pathname)
    ensures r.Some? ==> r.value == "/"
  {
    if NeedsSession(pathname) then Some("/") else None
  }

  lemma LogoutExamples()
    ensures LogoutRedirect("/booking/42") == Some("/")
    ensures LogoutRedirect("/payment") == Some("/")
    ensures LogoutRedirect("/bimbel") == None
    ensures IsActive("/bimbel", "/bimbel/kos") && !IsActive("/", "/bimbel")
  {
    assert "/booking/42"[..8] == "/booking";
    assert "/bimbel/kos"[..7] == "/bimbel";
    assert |"/bimbel"| < |"/booking"| && |"/bimbel"| < |"/payment"|;
  }

  /** The navigation bar's state: the form, the session, the drawer, the current path and the provider calls made. */
  class NavbarState {
    const origin: string
    var isRegister: bool
    var email: string
    var password: string
    var confirmPassword: string
    var error: string
    var success: string
    var loading: bool
    var modalOpen: bool
    var signedIn: bool
    var mobileOpen: bool
    var pathname: string
    var calls: seq<ProviderCall>

    function Form(): AuthState
      reads this
    {
      AuthState(isRegister, email, password, confirmPassword, error, success, loading, modalOpen)
    }

    constructor (origin: string, pathname: string)
      ensures this.origin == origin && this.pathname == pathname
      ensures Form() == AuthState(false, "", "", "", "", "", false, false)
      ensures !signedIn && !mobileOpen && calls == []
    {
      this.origin, this.pathname := origin, pathname;
      isRegister, email, password, confirmPassword := false, "", "", "";
      error, success, loading, modalOpen := "", "", false, false;
      signedIn, mobileOpen, calls := false, false, [];
    }

    /** `handleAuth`: the steps of `HandleAuthStep`; it records the provider calls. */
    method HandleAuth(signUpError: Option<string>, signIn: SignInResult)
      modifies this
      ensures var r := HandleAuthStep(old(Form()), origin, signUpError, signIn);
              Form() == r.state && calls == old(calls) + r.calls
      ensures signedIn == if !old(isRegister) && signIn.SignInOk? then signIn.emailConfirmed else old(signedIn)
      ensures mobileOpen == old(mobileOpen) && pathname == old(pathname)
    {
      error, success, loading := "", "", true;
      if isRegister {
        Register(signUpError);
      } else {
        Login(signIn);
      }
    }

    method Register(signUpError: Option<string>)
      requires isRegister && loading && error == "" && success == ""
      modifies this
      ensures var r := RegisterAttempt(old(Form()), origin, signUpError);
              Form() == r.state && calls == old(calls) + r.calls
      ensures signedIn == old(signedIn) && mobileOpen == old(mobileOpen) && pathname == old(pathname)
    {
      if password != confirmPassword {
        error, loading := MismatchMessage, false;
      } else if !IsPasswordStrong(password) {
        error, loading := WeakPasswordMessage, false;
      } else {
        RequestSignUp(signUpError);
      }
    }

    /** The `signUp` call of a register attempt that passed both checks. */
    method RequestSignUp(signUpError: Option<string>)
      requires isRegister && loading && error == "" && success == ""
      requires password == confirmPassword && IsPasswordStrong(password)
      modifies this
      ensures var r := RegisterAttempt(old(Form()), origin, signUpError);
              Form() == r.state && calls == old(calls) + r.calls
      ensures signedIn == old(signedIn) && mobileOpen == old(mobileOpen) && pathname == old(pathname)
    {
      calls := calls + [SignUp(email, password, origin + "/verify-success")];
      if signUpError.Some? {
        error := ErrorPrefix + signUpError.value;
      } else {
        success := SignedUpMessage;
      }
      loading, email, password, confirmPassword := false, "", "", "";
    }

    /**
     * A confirmed login also brings the session, which the provider's auth listener delivers;
     * an unconfirmed one is ended again by the `signOut` call, so no session remains.
     */
    method Login(signIn: SignInResult)
      requires !isRegister && loading && error == "" && success == ""
      modifies this
      ensures var r := LoginAttempt(old(Form()), signIn);
              Form() == r.state && calls == old(calls) + r.calls
      ensures signedIn == if signIn.SignInOk? then signIn.emailConfirmed else old(signedIn)
      ensures mobileOpen == old(mobileOpen) && pathname == old(pathname)
    {
      calls := calls + [SignIn(email, password)];
      match signIn {
        case SignInFailed(m) =>
          error := ErrorPrefix + m;
        case SignInOk(confirmed) =>
          if !confirmed {
            error, signedIn := UnverifiedMessage, false;
            calls := calls + [SignOut];
          } else {
            success, signedIn, modalOpen := LoggedInMessage, true, false;
          }
      }
      loading, email, password, confirmPassword := false, "", "", "";
    }

    /** `handleLogout`: signs out, goes home from a session-only page and closes the drawer. */
    method Logout()
      modifies this
      ensures !signedIn && !mobileOpen && calls == old(calls) + [SignOut]
      ensures pathname == (if NeedsSession(old(pathname)) then "/" else old(pathname))
      ensures Form() == old(Form())
    {
      calls := calls + [SignOut];
      signedIn := false;
      var target := LogoutRedirect(pathname);
      if target.Some? {
        pathname := target.value;
      }
      mobileOpen := false;
    }
  }
}
