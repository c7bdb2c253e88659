/** The authentication flow's state machine: its states, its events and its
    reducer. The signed-in user and the auth-service error are opaque: they
    are type parameters `U` and `X`, carried from events into states and
    never inspected. */
module Authentication {
  import opened Wrappers
  import Engine

  datatype State<U, X> =
    | Idle
    | Loading
    | AutoLogin
    | Login
    | Confirmation
    | Signup
    | Loaded(user: U)
    | Error(error: X)

  datatype Event<U, X> =
    | OnAppear
    | OnConfirmation(username: string, confirmationCode: string)
    | OnCheckAutoLogin
    | OnLoaded(user: U)
    | OnShowLogin
    | OnShowSignUp
    | OnAlreadyLoggedIn(user: U)
    | OnLogin(email: string, password: string)
    | OnNotLoggedIn
    | OnLogInError(error: X)
    | OnCreateAccount(username: string, email: string, password: string)

  /** The reducer: one nested switch, first on the state, then on the event;
      every pair it does not list returns the state unchanged. */
  function Reduce<U, X>(s: State<U, X>, e: Event<U, X>): (r: State<U, X>)
    // `loaded` and `error` are terminal
    ensures s.Loaded? || s.Error? ==> r == s
    // no branch constructs `idle`, `loading` or `confirmation`
    ensures r.Idle? || r.Loading? || r.Confirmation? ==> r == s
    // a new signed-in user always comes from the event that announces it
    ensures r.Loaded? && r != s ==> (e.OnAlreadyLoggedIn? || e.OnLoaded?) && r.user == e.user
    // a new error always comes from the event that reports it
    ensures r.Error? && r != s ==> e.OnLogInError? && r.error == e.error
  {
    match s
    case Idle =>
      (match e
       case OnAppear => AutoLogin
       case _ => s)
    case AutoLogin =>
      (match e
       case OnAlreadyLoggedIn(user) => Loaded(user)
       case OnNotLoggedIn => Login
       case _ => s)
    case Loading => s
    case Login =>
      (match e
       case OnShowSignUp => Signup
       case OnLoaded(user) => Loaded(user)
       case _ => s)
    case Confirmation =>
      (match e
       case OnShowLogin => Login
       case _ => s)
    case Signup =>
      (match e
       case OnCreateAccount(_, _, _) => Signup
       case OnConfirmation(_, _) => Login
       case OnShowLogin => Login
       case OnLogInError(error) => Error(error)
       case _ => s)
    case Loaded(_) => s
    case Error(_) => s
  }

  /** The transition table of the authentication flow, one disjunct per row:
      `s` on `e` moves to `t`. */
  ghost predicate Step<U, X>(s: State<U, X>, e: Event<U, X>, t: State<U, X>) {
    || (s == Idle && e == OnAppear && t == AutoLogin)
    || (s == AutoLogin && e.OnAlreadyLoggedIn? && t == Loaded(e.user))
    || (s == AutoLogin && e == OnNotLoggedIn && t == Login)
    || (s == Login && e == OnShowSignUp && t == Signup)
    || (s == Login && e.OnLoaded? && t == Loaded(e.user))
    || (s == Confirmation && e == OnShowLogin && t == Login)
    || (s == Signup && e.OnCreateAccount? && t == Signup)
    || (s == Signup && e.OnConfirmation? && t == Login)
    || (s == Signup && e == OnShowLogin && t == Login)
    || (s == Signup && e.OnLogInError? && t == Error(e.error))
  }

  /** The pair (`s`, `e`) is a row of the table. */
  ghost predicate Listed<U(!new), X(!new)>(s: State<U, X>, e: Event<U, X>) {
    exists t :: Step(s, e, t)
  }

  /** The reducer implements the table exactly: a listed pair moves to the one
      state its row names, and an unlisted pair is a no-op. */
  lemma ReduceFollowsTable<U(!new), X(!new)>(s: State<U, X>, e: Event<U, X>)
    ensures forall t :: Step(s, e, t) <==> Listed(s, e) && t == Reduce(s, e)
    ensures !Listed(s, e) ==> Reduce(s, e) == s
  {
    if !Listed(s, e) {
      assert !Step(s, e, Reduce(s, e));
    }
  }

  /** Events the interface sends that the reducer deliberately ignores: the
      manual auto-login check, the sign-in request (the service call is not
      wired in) and account creation, which stays on the sign-up screen. */
  lemma IgnoredRequests<U, X>(email: string, password: string, username: string)
    ensures Reduce(AutoLogin, OnCheckAutoLogin) == State<U, X>.AutoLogin
    ensures Reduce(Login, OnLogin(email, password)) == State<U, X>.Login
    ensures Reduce(Signup, OnCreateAccount(username, email, password)) == State<U, X>.Signup
  {
  }

  /** `loaded(user)` and `error(e)` absorb every sequence of events. */
  lemma {:induction false} TerminalAbsorbs<U, X>(s: State<U, X>, events: seq<Event<U, X>>)
    requires s.Loaded? || s.Error?
    ensures Engine.Run(Reduce, s, events) == s
  {
    Engine.RunFixpoint(Reduce, s, events);
  }

  /** `idle`, `loading` and `confirmation` can only be occupied as the initial
      state: whenever a run ends in one of them, it ends where it started. */
  lemma {:induction false} NeverEnteredLater<U, X>(s: State<U, X>, events: seq<Event<U, X>>)
    ensures var r := Engine.Run(Reduce, s, events);
      r.Idle? || r.Loading? || r.Confirmation? ==> r == s
  {
    var inv := (t: State<U, X>) => t.Idle? || t.Loading? || t.Confirmation? ==> t == s;
    Engine.RunPreserves(Reduce, inv, s, events);
  }

  /** Starting from `idle`, the flow never reaches `loading` or `confirmation`:
      both screens are dead in this version of the reducer. */
  lemma {:induction false} UnreachableFromIdle<U, X>(events: seq<Event<U, X>>)
    ensures !Engine.Run(Reduce, Idle, events).Loading?
    ensures !Engine.Run(Reduce, Idle, events).Confirmation?
  {
    NeverEnteredLater(Idle, events);
  }

  /** The flow stays `idle` exactly until the screen appears. */
  lemma {:induction false} IdleUntilAppear<U, X>(events: seq<Event<U, X>>)
    ensures Engine.Run(Reduce, Idle, events) == Idle <==> OnAppear !in events
    decreases |events|
  {
    if events != [] {
      assert events == [events[0]] + events[1..];
      if events[0] == OnAppear {
        NeverEnteredLater(AutoLogin, events[1..]);
      } else {
        IdleUntilAppear(events[1..]);
      }
    }
  }

  /** A run that ends signed in as `u` either started there or received an
      event announcing `u`. */
  lemma {:induction false} LoadedUserProvenance<U, X>(s: State<U, X>, events: seq<Event<U, X>>, u: U)
    ensures Engine.Run(Reduce, s, events) == Loaded(u) ==>
      s == Loaded(u) || OnAlreadyLoggedIn(u) in events || OnLoaded(u) in events
    decreases |events|
  {
    if events != [] {
      assert events == [events[0]] + events[1..];
      LoadedUserProvenance(Reduce(s, events[0]), events[1..], u);
    }
  }

  /** A run that ends in `error(x)` either started there or received the
      sign-in error `x`. */
  lemma {:induction false} ErrorProvenance<U, X>(s: State<U, X>, events: seq<Event<U, X>>, x: X)
    ensures Engine.Run(Reduce, s, events) == Error(x) ==>
      s == Error(x) || OnLogInError(x) in events
    decreases |events|
  {
    if events != [] {
      assert events == [events[0]] + events[1..];
      ErrorProvenance(Reduce(s, events[0]), events[1..], x);
    }
  }

  /** Auto-login succeeds: the screen appears, and the session result
      `onAlreadyLoggedIn(u)` is injected directly (nothing in the app sends it). */
  lemma AutoLoginScenario<U, X>(u: U)
    ensures Engine.Run(Reduce, Idle, [OnAppear, OnAlreadyLoggedIn(u)]) == State<U, X>.Loaded(u)
  {
    var last: seq<Event<U, X>> := [OnAlreadyLoggedIn(u)];
    assert Engine.Run(Reduce, AutoLogin, last) == Engine.Run(Reduce, Loaded(u), []);
    assert [OnAppear, OnAlreadyLoggedIn(u)][1..] == last;
  }

  /** No session: the screen appears, `onNotLoggedIn` is injected directly,
      and the user opens the sign-up form. */
  lemma SignUpScenario<U, X>()
    ensures Engine.Run(Reduce, Idle, [OnAppear, OnNotLoggedIn, OnShowSignUp]) == State<U, X>.Signup
  {
  }

  /** The events the sign-in screens send: when the flow appears, when the
      splash screen appears, and from the buttons of the login, sign-up and
      confirmation forms. No screen and no registered feedback sends the
      session, sign-in or error events. */
  predicate SentByScreens<U, X>(e: Event<U, X>) {
    e.OnAppear? || e.OnCheckAutoLogin? || e.OnLogin? ||
    e.OnShowSignUp? || e.OnShowLogin? || e.OnConfirmation?
  }

  /** As wired, the flow never gets past the splash screen: with only the
      events the screens send, a run from `idle` or `autoLogin` ends in one
      of those two states. */
  lemma {:induction false} StuckInAutoLogin<U, X>(s: State<U, X>, events: seq<Event<U, X>>)
    requires s.Idle? || s.AutoLogin?
    requires forall i :: 0 <= i < |events| ==> SentByScreens(events[i])
    ensures var r := Engine.Run(Reduce, s, events); r.Idle? || r.AutoLogin?
    decreases |events|
  {
    if events != [] {
      StuckInAutoLogin(Reduce(s, events[0]), events[1..]);
    }
  }

  /** The session check the splash screen waits for: active in `autoLogin`,
      it turns the auth service's answer into one event. `session` is the
      signed-in user, `None` when nobody is signed in, or the service's error. */
  function CheckSession<U, X>(s: State<U, X>, session: Result<Option<U>, X>): (events: seq<Event<U, X>>)
    ensures |events| <= 1
    ensures events == [] <==> !s.AutoLogin?
  {
    if !s.AutoLogin? then []
    else
      match session
      case Success(Some(user)) => [OnAlreadyLoggedIn(user)]
      case Success(None) => [OnNotLoggedIn]
      case Failure(error) => [OnLogInError(error)]
  }

  /** With the session check in place, the flow leaves the splash screen
      whenever the service answers: signed in as `u` it is `loaded(u)`, and
      signed out it is `login`. A service error is still ignored in
      `autoLogin`, so that case stays on the splash screen. */
  lemma AutoLoginSettles<U, X>(session: Result<Option<U>, X>)
    ensures var s := Engine.Run(Reduce, Idle, [OnAppear]);
      s == AutoLogin &&
      Engine.Run(Reduce, s, CheckSession(s, session)) ==
        match session
        case Success(Some(u)) => Loaded(u)
        case Success(None) => Login
        case Failure(_) => AutoLogin
  {
  }
}
