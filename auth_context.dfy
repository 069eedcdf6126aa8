/** The client's authentication context: the decisions it takes around the
    hosted identity provider. The provider's own calls (sign-in, sign-up,
    OAuth redirect, token fetch) and the backend's role lookup are not
    modelled; their outcomes are parameters. */
module AuthContext {

  import opened Common

  // ---------------------------------------------------------------------------
  // `name.split(' ')` and `parts.slice(1).join(' ')` in `register`.

  /** JavaScript's `split(' ')`: the pieces between single spaces, empty
      pieces included; never an empty list. */
  function SplitOnSpace(s: string): (parts: seq<string>)
    ensures |parts| >= 1
    ensures forall i :: 0 <= i < |parts| ==> ' ' !in parts[i]
    ensures |parts| == 1 <==> ' ' !in s
  {
    if s == [] then [[]]
    else if s[0] == ' ' then [[]] + SplitOnSpace(s[1..])
    else
      var rest := SplitOnSpace(s[1..]);
      [[s[0]] + rest[0]] + rest[1..]
  }

  /** JavaScript's `join(' ')`; the empty list joins to the empty string, and
      two or more pieces are separated by a space. */
  function JoinWithSpace(parts: seq<string>): (s: string)
    ensures parts == [] ==> s == []
    ensures |parts| >= 2 ==> |parts[0]| < |s| && s[|parts[0]|] == ' '
  {
    if |parts| == 0 then []
    else if |parts| == 1 then parts[0]
    else parts[0] + " " + JoinWithSpace(parts[1..])
  }

  /** `name.split(' ')[0]`: never holds a space. */
  function FirstName(name: string): (first: string)
    ensures ' ' !in first
  {
    SplitOnSpace(name)[0]
  }

  /** `name.split(' ').slice(1).join(' ')`: empty for a name without a space,
      and shorter than the name otherwise. */
  function LastName(name: string): (last: string)
    ensures ' ' !in name ==> last == ""
    ensures ' ' in name ==> |last| < |name|
  {
    JoinSplit(name);
    var parts := SplitOnSpace(name);
    if |parts| > 1 then
      assert name == parts[0] + " " + JoinWithSpace(parts[1..]);
      JoinWithSpace(parts[1..])
    else
      JoinWithSpace(parts[1..])
  }

  lemma {:induction false} JoinSplit(s: string)
    ensures JoinWithSpace(SplitOnSpace(s)) == s
    decreases |s|
  {
    if s != [] {
      var rest := SplitOnSpace(s[1..]);
      JoinSplit(s[1..]);
      if s[0] == ' ' {
        JoinAfterEmpty(rest);
      } else {
        JoinExtendFirst(s[0], rest);
      }
      assert s == [s[0]] + s[1..];
    }
  }

  lemma {:induction false} JoinCons(first: string, rest: seq<string>)
    requires |rest| >= 1
    ensures JoinWithSpace([first] + rest) == first + " " + JoinWithSpace(rest)
  {
    assert ([first] + rest)[1..] == rest;
  }

  lemma {:induction false} JoinAfterEmpty(rest: seq<string>)
    requires |rest| >= 1
    ensures JoinWithSpace([[]] + rest) == " " + JoinWithSpace(rest)
  {
    JoinCons([], rest);
  }

  lemma {:induction false} JoinExtendFirst(c: char, rest: seq<string>)
    requires |rest| >= 1
    ensures JoinWithSpace([[c] + rest[0]] + rest[1..]) == [c] + JoinWithSpace(rest)
  {
    if |rest| == 1 {
      assert [[c] + rest[0]] + rest[1..] == [[c] + rest[0]];
    } else {
      var tail := rest[1..];
      JoinCons([c] + rest[0], tail);
      assert rest == [rest[0]] + tail;
      JoinCons(rest[0], tail);
      assert ([c] + rest[0]) + " " + JoinWithSpace(tail) == [c] + (rest[0] + " " + JoinWithSpace(tail));
    }
  }

  /** The first name is everything before the first space, and holds no space. */
  lemma {:induction false} FirstNameIsPrefix(name: string)
    ensures ' ' !in FirstName(name)
    ensures FirstName(name) <= name
    ensures |FirstName(name)| < |name| ==> name[|FirstName(name)|] == ' '
  {
    var parts := SplitOnSpace(name);
    JoinSplit(name);
    if |parts| > 1 {
      assert name == parts[0] + " " + JoinWithSpace(parts[1..]);
    }
  }

  /** A name with a space splits and rejoins to itself; a name without one is
      all first name and an empty last name. */
  lemma {:induction false} NameRoundTrip(name: string)
    ensures ' ' in name ==> FirstName(name) + " " + LastName(name) == name
    ensures ' ' !in name ==> FirstName(name) == name && LastName(name) == ""
  {
    JoinSplit(name);
  }

  // ---------------------------------------------------------------------------
  // Role resolution after the backend's `/api/users/me` lookup.

  datatype ClerkUser = ClerkUser(id: string, email: string)

  /** The provider's user spread into a record with a role added. */
  datatype ContextUser = ContextUser(clerk: ClerkUser, role: string)

  /** How the role lookup ended. `TokenRejected` is the token promise failing,
      outside the `try`: the user state is then never set. */
  datatype RoleLookup =
    | TokenRejected
    | FetchThrew
    | NotOk
    | OkUnparsable
    | OkJson(role: Option<string>)

  /** `data?.role || 'user'` on a successful lookup; `'user'` on every failure. */
  function ResolvedRole(lookup: RoleLookup): (role: string)
    requires !lookup.TokenRejected?
    ensures role != ""
    ensures role != "user" ==> lookup.OkJson? && lookup.role == Some(role)
    ensures lookup.OkJson? && Truthy(lookup.role) ==> role == lookup.role.value
  {
    match lookup
    case OkJson(r) => if Truthy(r) then r.value else "user"
    case _ => "user"
  }

  /** The context user after the effect on a change of the provider's user:
      `None` on the outer level means the state is not set. */
  function UserUpdate(clerkUser: Option<ClerkUser>, lookup: RoleLookup): (u: Option<Option<ContextUser>>)
    ensures clerkUser.None? ==> u == Some(None)
    ensures u == None <==> clerkUser.Some? && lookup.TokenRejected?
    ensures u.Some? && u.value.Some? ==>
      clerkUser.Some? && u.value.value.clerk == clerkUser.value && u.value.value.role == ResolvedRole(lookup)
    ensures clerkUser.Some? && !lookup.TokenRejected? ==> u.Some? && u.value.Some?
  {
    match clerkUser
    case None => Some(None)
    case Some(c) =>
      if lookup.TokenRejected? then None else Some(Some(ContextUser(c, ResolvedRole(lookup))))
  }

  // ---------------------------------------------------------------------------
  // `login`, `register` and `loginWithProvider`.

  /** How the provider's `create` call ended. */
  datatype Attempt = Complete(sessionId: string) | Incomplete | Rejected(longMessage: Option<string>)

  /** What the context does: nothing, activate the session (when `setActive`
      is available) and go to the dashboard, or throw. */
  datatype Effect = NoEffect | ToDashboard(activated: Option<string>) | Throw(message: string)

  datatype SignUpFields = SignUpFields(emailAddress: string, password: string, firstName: string, lastName: string)

  /** How the awaited `setActive` call ended, when `setActive` exists. */
  datatype Activation = Activated | ActivationRejected(longMessage: Option<string>)

  /** The message of `new Error(longMessage)`: empty when the message is undefined. */
  function ErrorText(longMessage: Option<string>): string
  {
    if longMessage.Some? then longMessage.value else ""
  }

  /** The outcome of a provider attempt inside `login`'s or `register`'s `try`:
      a complete attempt activates its session, when `setActive` exists, and
      goes to the dashboard; an incomplete one does nothing; a rejected
      attempt or a rejected activation throws the error's long message. */
  function AttemptEffect(attempt: Attempt, setActiveAvailable: bool, activation: Activation): (e: Effect)
    ensures e.ToDashboard? <==> attempt.Complete? && (setActiveAvailable ==> activation.Activated?)
    ensures e.ToDashboard? ==>
      e.activated == if setActiveAvailable then Some(attempt.sessionId) else None
    ensures attempt.Incomplete? ==> e == NoEffect
    ensures attempt.Rejected? ==> e == Throw(ErrorText(attempt.longMessage))
    ensures attempt.Complete? && setActiveAvailable && activation.ActivationRejected? ==>
      e == Throw(ErrorText(activation.longMessage))
  {
    match attempt
    case Complete(sid) =>
      if !setActiveAvailable then ToDashboard(None)
      else if activation.Activated? then ToDashboard(Some(sid))
      else Throw(ErrorText(activation.longMessage))
    case Incomplete => NoEffect
    case Rejected(m) => Throw(ErrorText(m))
  }

  datatype SignInFields = SignInFields(identifier: string, password: string)

  /** A handler's run: the request it sends to the provider, if any, and
      what it does with the provider's answer. */
  datatype Call<F> = Call(request: Option<F>, effect: Effect)

  /** `login`: returns at once while sign-in is not ready; otherwise signs in
      with the email as identifier and acts on the outcome. */
  function Login(email: string, password: string, signInLoaded: bool, hasSignIn: bool,
                 setActiveAvailable: bool, attempt: Attempt, activation: Activation): (c: Call<SignInFields>)
    ensures c.request.Some? <==> signInLoaded && hasSignIn
    ensures c.request.Some? ==> c.request.value == SignInFields(email, password)
    ensures c.request.None? ==> c.effect == NoEffect
    ensures c.request.Some? ==> c.effect == AttemptEffect(attempt, setActiveAvailable, activation)
  {
    if !signInLoaded || !hasSignIn then Call(None, NoEffect)
    else Call(Some(SignInFields(email, password)), AttemptEffect(attempt, setActiveAvailable, activation))
  }

  /** The fields `register` sends to the provider's sign-up. */
  function SignUpRequest(name: string, email: string, password: string): (f: SignUpFields)
    ensures f.emailAddress == email && f.password == password
    ensures ' ' !in f.firstName
    ensures ' ' in name ==> f.firstName + " " + f.lastName == name
    ensures ' ' !in name ==> f.firstName == name && f.lastName == ""
  {
    NameRoundTrip(name);
    FirstNameIsPrefix(name);
    SignUpFields(email, password, FirstName(name), LastName(name))
  }

  /** `register`: returns at once while sign-up is not ready; otherwise signs
      up with the name split into first and last name and acts on the outcome. */
  function Register(name: string, email: string, password: string, signUpLoaded: bool, hasSignUp: bool,
                    setActiveAvailable: bool, attempt: Attempt, activation: Activation): (c: Call<SignUpFields>)
    ensures c.request.Some? <==> signUpLoaded && hasSignUp
    ensures c.request.Some? ==> c.request.value == SignUpRequest(name, email, password)
    ensures c.request.None? ==> c.effect == NoEffect
    ensures c.request.Some? ==> c.effect == AttemptEffect(attempt, setActiveAvailable, activation)
  {
    if !signUpLoaded || !hasSignUp then Call(None, NoEffect)
    else Call(Some(SignUpRequest(name, email, password)), AttemptEffect(attempt, setActiveAvailable, activation))
  }

  datatype Provider = OAuthGoogle | OAuthGithub | OAuthFacebook

  /** How `authenticateWithRedirect` ended: the browser leaves for the
      provider, or it throws an error whose first entry may carry a code. */
  datatype RedirectAttempt = Redirected | RedirectFailed(code: Option<string>)

  datatype ProviderEffect =
    | Skipped
    | PushDashboard(oauthStarted: bool)
    | LeaveForProvider(strategy: Provider, redirectUrl: string, redirectUrlComplete: string)
    | Rethrow(code: Option<string>)

  /** `loginWithProvider`: nothing while sign-in is not ready; straight to the
      dashboard, without OAuth, when a user is already signed in; otherwise
      OAuth, where a `session_exists` failure also goes to the dashboard and
      any other failure is rethrown. */
  function LoginWithProviderEffect(signInLoaded: bool, hasSignIn: bool, signedIn: bool,
                                   provider: Provider, attempt: RedirectAttempt): (e: ProviderEffect)
    ensures !(signInLoaded && hasSignIn) ==> e == Skipped
    ensures signInLoaded && hasSignIn && signedIn ==> e == PushDashboard(false)
    ensures signInLoaded && hasSignIn && !signedIn ==>
      (attempt.Redirected? <==> e == LeaveForProvider(provider, "/sso-callback", "/dashboard"))
    ensures signInLoaded && hasSignIn && !signedIn ==>
      (attempt == RedirectFailed(Some("session_exists")) <==> e == PushDashboard(true))
    ensures signInLoaded && hasSignIn && !signedIn ==>
      (attempt.RedirectFailed? && attempt.code != Some("session_exists") <==> e.Rethrow?)
    ensures e.Rethrow? ==> attempt.RedirectFailed? && e.code == attempt.code
    ensures e.PushDashboard? && e.oauthStarted ==> attempt == RedirectFailed(Some("session_exists"))
    ensures e.LeaveForProvider? ==> e.strategy == provider && attempt.Redirected?
  {
    if !signInLoaded || !hasSignIn then Skipped
    else if signedIn then PushDashboard(false)
    else match attempt
      case Redirected => LeaveForProvider(provider, "/sso-callback", "/dashboard")
      case RedirectFailed(code) =>
        if code == Some("session_exists") then PushDashboard(true) else Rethrow(code)
  }

  // ---------------------------------------------------------------------------
  // `useAuth`

  datatype Result<T> = Success(value: T) | Failure(message: string)

  /** `useAuth` returns the context value, and throws exactly when there is no provider. */
  function UseAuth<T>(context: Option<T>): (r: Result<T>)
    ensures r.Failure? <==> context.None?
    ensures r.Success? ==> r.value == context.value
    ensures r.Failure? ==> r.message == "useAuth must be used within an AuthProvider"
  {
    match context
    case None => Failure("useAuth must be used within an AuthProvider")
    case Some(c) => Success(c)
  }

  // ---------------------------------------------------------------------------
  // The provider's `user` state.

  class AuthState {
    var user: Option<ContextUser>

    constructor ()
      ensures user == None
    {
      user := None;
    }

    /** The effect that runs when the provider's user changes, with the role
        lookup already finished. */
    method OnClerkUserChange(clerkUser: Option<ClerkUser>, lookup: RoleLookup)
      modifies this
      ensures var u := UserUpdate(clerkUser, lookup);
        user == if u.Some? then u.value else old(user)
      ensures clerkUser.None? ==> user == None
    {
      match clerkUser
      case None =>
        user := None;
      case Some(c) =>
        if !lookup.TokenRejected? {
          user := Some(ContextUser(c, ResolvedRole(lookup)));
        }
    }
  }
}
