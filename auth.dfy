/**
  The session store of reelapps-shared/auth: six fields (user, profile,
  isAuthenticated, isLoading, isInitializing, error), the operations that
  write them, and the listener that turns provider auth events into calls of
  `initialize`.

  Every `set({...})` call of the source is one step function on a `Snapshot`
  below; an operation is its start step followed by the step that settles it.
  The provider and the profiles table are not called: what they would answer
  is a parameter (`Reply`, `ProfileReply`).
 */
module Auth {
  import opened Wrappers

  // ---------------------------------------------------------------------
  // Records

  datatype Role = Recruiter | Candidate | Admin

  /** The identity record; provider-supplied extra fields are not modelled. */
  datatype User = User(id: string, email: string)

  /** A row of the `profiles` table, named fields only. */
  datatype Profile = Profile(
    id: string,
    userId: string,
    role: Role,
    firstName: Option<string>,
    lastName: Option<string>)

  datatype AuthError = AuthError(message: string, status: Option<int>)

  /** What a `catch` receives: an `Error` instance (with its message) or any other value. */
  datatype Thrown = ErrorInstance(message: string) | NonError

  /** The answer of a provider call: a value, or something thrown on its behalf. */
  datatype Reply<T> = Ok(value: T) | Err(thrown: Thrown)

  /** The answer of the `profiles` query: the row, or an error with its code. */
  datatype ProfileReply = ProfileRow(row: Profile) | ProfileError(code: string)

  /** How an operation's promise settles: resolved, or rejected with a value. */
  datatype Completion = Returned | Threw(thrown: Thrown)

  /** The events the provider's `onAuthStateChange` reports. */
  datatype AuthEvent =
    | InitialSession
    | SignedIn
    | SignedOut
    | TokenRefreshed
    | UserUpdated
    | PasswordRecovery
    | MfaChallengeVerified

  const ClientMissingMessage: string := "Supabase client not initialized. Call initializeSupabase first."
  const InitializeFallback: string := "Authentication initialization failed"
  const LoginFallback: string := "Login failed"
  const SignupFallback: string := "Signup failed"
  const LogoutFallback: string := "Logout failed"
  const PasswordResetFallback: string := "Password reset failed"

  // ---------------------------------------------------------------------
  // The store's state

  datatype Snapshot = Snapshot(
    user: Option<User>,
    profile: Option<Profile>,
    isAuthenticated: bool,
    isLoading: bool,
    isInitializing: bool,
    error: Option<AuthError>)

  /** The state the store is created with. */
  const Initial: Snapshot := Snapshot(None, None, false, false, true, None)

  /** The invariant: the authentication flag is set exactly when a user is held. */
  predicate Coupled(s: Snapshot) {
    s.isAuthenticated <==> s.user.Some?
  }

  /** `a` and `b` hold the same identity: user, profile and authentication flag. */
  predicate SameIdentity(a: Snapshot, b: Snapshot) {
    a.user == b.user && a.profile == b.profile && a.isAuthenticated == b.isAuthenticated
  }

  /** `error instanceof Error ? error.message : fallback` */
  function MessageOf(t: Thrown, fallback: string): string {
    match t
    case ErrorInstance(m) => m
    case NonError => fallback
  }

  /** The `error` field a catch block writes. */
  function Failure(t: Thrown, fallback: string): Option<AuthError> {
    Some(AuthError(MessageOf(t, fallback), None))
  }

  /**
    `getSupabaseClient()` followed by a provider call: with no client the
    guard throws its own `Error` before the provider is reached.
   */
  function WithClient<T>(clientReady: bool, reply: Reply<T>): (r: Reply<T>)
    ensures clientReady ==> r == reply
    ensures !clientReady ==> r == Err(ErrorInstance(ClientMissingMessage))
  {
    if clientReady then reply else Err(ErrorInstance(ClientMissingMessage))
  }

  /** `profile as Profile`: the row, or null when the query answered an error. */
  function FetchedProfile(p: ProfileReply): Option<Profile> {
    match p
    case ProfileRow(row) => Some(row)
    case ProfileError(_) => None
  }

  // ---------------------------------------------------------------------
  // The `set` steps, one function per call site

  /** initialize's first step: raise the initializing flag and clear the error, nothing else. */
  function StartInitialize(s: Snapshot): (r: Snapshot)
    ensures r.isInitializing && r.error == None
    ensures r.(isInitializing := s.isInitializing, error := s.error) == s
  {
    s.(isInitializing := true, error := None)
  }

  /** initialize's second step: the session branch, the no-session branch, or the catch. */
  function SettleInitialize(s: Snapshot, session: Reply<Option<User>>, fetched: ProfileReply): (r: Snapshot)
    ensures !r.isInitializing
    ensures session.Err? ==>
      && r.error == Failure(session.thrown, InitializeFallback)
      && r.(error := s.error, isInitializing := s.isInitializing) == s
    ensures session.Ok? ==>
      && r.user == session.value
      && r.profile == (if session.value.Some? then FetchedProfile(fetched) else None)
      && r.isAuthenticated == session.value.Some?
      && r.(user := s.user, profile := s.profile, isAuthenticated := s.isAuthenticated,
            isInitializing := s.isInitializing) == s
  {
    match session
    case Err(t) =>
      s.(error := Failure(t, InitializeFallback), isInitializing := false)
    case Ok(Some(u)) =>
      s.(user := Some(u), profile := FetchedProfile(fetched), isAuthenticated := true, isInitializing := false)
    case Ok(None) =>
      s.(user := None, profile := None, isAuthenticated := false, isInitializing := false)
  }

  /**
    The first step shared by login, signup, logout and sendPasswordResetEmail:
    raise the loading flag and clear the error, nothing else.
   */
  function StartRequest(s: Snapshot): (r: Snapshot)
    ensures r.isLoading && r.error == None
    ensures r.(isLoading := s.isLoading, error := s.error) == s
  {
    s.(isLoading := true, error := None)
  }

  /** login's second step; with no error and no user there is no second `set` at all. */
  function SettleLogin(s: Snapshot, signIn: Reply<Option<User>>, fetched: ProfileReply): (r: Snapshot)
    ensures signIn.Err? ==>
      && r.error == Failure(signIn.thrown, LoginFallback) && !r.isLoading
      && r.(error := s.error, isLoading := s.isLoading) == s
    ensures signIn.Ok? && signIn.value.Some? ==>
      && r.user == signIn.value && r.profile == FetchedProfile(fetched) && r.isAuthenticated && !r.isLoading
      && r.(user := s.user, profile := s.profile, isAuthenticated := s.isAuthenticated,
            isLoading := s.isLoading) == s
    ensures signIn == Ok(None) ==> r == s
  {
    match signIn
    case Err(t) => s.(error := Failure(t, LoginFallback), isLoading := false)
    case Ok(Some(u)) =>
      s.(user := Some(u), profile := FetchedProfile(fetched), isAuthenticated := true, isLoading := false)
    case Ok(None) => s
  }

  /**
    The second step of signup and of sendPasswordResetEmail, which differ
    only in the fallback message: clear the loading flag, and on failure
    record the error.
   */
  function SettleRequest(s: Snapshot, reply: Reply<()>, fallback: string): (r: Snapshot)
    ensures !r.isLoading
    ensures reply.Err? ==>
      r.error == Failure(reply.thrown, fallback) && r.(error := s.error, isLoading := s.isLoading) == s
    ensures reply.Ok? ==> r.(isLoading := s.isLoading) == s
  {
    match reply
    case Err(t) => s.(error := Failure(t, fallback), isLoading := false)
    case Ok(_) => s.(isLoading := false)
  }

  /** logout's second step: reset the identity, or record the failure. */
  function SettleLogout(s: Snapshot, reply: Reply<()>): (r: Snapshot)
    ensures !r.isLoading
    ensures reply.Err? ==>
      r.error == Failure(reply.thrown, LogoutFallback) && r.(error := s.error, isLoading := s.isLoading) == s
    ensures reply.Ok? ==>
      && r.user == None && r.profile == None && !r.isAuthenticated
      && r.(user := s.user, profile := s.profile, isAuthenticated := s.isAuthenticated,
            isLoading := s.isLoading) == s
  {
    match reply
    case Err(t) => s.(error := Failure(t, LogoutFallback), isLoading := false)
    case Ok(_) => s.(user := None, profile := None, isAuthenticated := false, isLoading := false)
  }

  /** `clearError`. */
  function ErrorCleared(s: Snapshot): (r: Snapshot)
    ensures r.error == None
    ensures r.(error := s.error) == s
  {
    s.(error := None)
  }

  /** Whether a promise that ran the given provider call rethrows. */
  function Rethrown<T>(reply: Reply<T>): Completion {
    match reply
    case Err(t) => Threw(t)
    case Ok(_) => Returned
  }

  // ---------------------------------------------------------------------
  // The operations, each its start step followed by its settle step

  /** The state after `initialize`, given what `getSession` and the profile query answer. */
  function AfterInitialize(s: Snapshot, session: Reply<Option<User>>, fetched: ProfileReply): (r: Snapshot)
    ensures !r.isInitializing
    ensures r.isLoading == s.isLoading
    ensures Coupled(s) ==> Coupled(r)
    ensures session.Err? ==>
      SameIdentity(r, s) && r.error == Failure(session.thrown, InitializeFallback)
    ensures session.Ok? ==>
      && r.error == None
      && r.user == session.value
      && r.isAuthenticated == session.value.Some?
      && r.profile == (if session.value.Some? then FetchedProfile(fetched) else None)
  {
    SettleInitialize(StartInitialize(s), session, fetched)
  }

  /** The state after `login` and whether its promise rejects. */
  function AfterLogin(s: Snapshot, signIn: Reply<Option<User>>, fetched: ProfileReply): (r: (Snapshot, Completion))
    ensures r.0.isInitializing == s.isInitializing
    ensures Coupled(s) ==> Coupled(r.0)
    ensures r.1 == Rethrown(signIn)
    ensures signIn.Err? ==>
      SameIdentity(r.0, s) && !r.0.isLoading && r.0.error == Failure(signIn.thrown, LoginFallback)
    ensures signIn.Ok? && signIn.value.Some? ==>
      && r.0.user == signIn.value
      && r.0.isAuthenticated
      && r.0.profile == FetchedProfile(fetched)
      && !r.0.isLoading
      && r.0.error == None
    ensures signIn == Ok(None) ==>
      SameIdentity(r.0, s) && r.0.isLoading && r.0.error == None
  {
    (SettleLogin(StartRequest(s), signIn, fetched), Rethrown(signIn))
  }

  /** The state after `signup` and whether its promise rejects. */
  function AfterSignup(s: Snapshot, reply: Reply<()>): (r: (Snapshot, Completion))
    ensures SameIdentity(r.0, s) && r.0.isInitializing == s.isInitializing
    ensures !r.0.isLoading
    ensures r.1 == Rethrown(reply)
    ensures r.0.error == (if reply.Err? then Failure(reply.thrown, SignupFallback) else None)
  {
    (SettleRequest(StartRequest(s), reply, SignupFallback), Rethrown(reply))
  }

  /** The state after `logout`; its promise never rejects. */
  function AfterLogout(s: Snapshot, reply: Reply<()>): (r: Snapshot)
    ensures r.isInitializing == s.isInitializing
    ensures !r.isLoading
    ensures Coupled(s) ==> Coupled(r)
    ensures reply.Ok? ==>
      r.user == None && r.profile == None && !r.isAuthenticated && r.error == None
    ensures reply.Err? ==>
      SameIdentity(r, s) && r.error == Failure(reply.thrown, LogoutFallback)
  {
    SettleLogout(StartRequest(s), reply)
  }

  /** The state after `sendPasswordResetEmail` and whether its promise rejects. */
  function AfterPasswordReset(s: Snapshot, reply: Reply<()>): (r: (Snapshot, Completion))
    ensures SameIdentity(r.0, s) && r.0.isInitializing == s.isInitializing
    ensures !r.0.isLoading
    ensures r.1 == Rethrown(reply)
    ensures r.0.error == (if reply.Err? then Failure(reply.thrown, PasswordResetFallback) else None)
  {
    (SettleRequest(StartRequest(s), reply, PasswordResetFallback), Rethrown(reply))
  }

  /** The events on which the listener calls `initialize`. */
  predicate TriggersInitialize(e: AuthEvent) {
    e == SignedIn || e == SignedOut || e == TokenRefreshed
  }

  /**
    The state after the listener handles event `e`. The session the event
    carries is not used: `initialize` asks the provider again.
   */
  function AfterAuthEvent(s: Snapshot, e: AuthEvent, session: Reply<Option<User>>, fetched: ProfileReply): (r: Snapshot)
    ensures TriggersInitialize(e) ==> r == AfterInitialize(s, session, fetched)
    ensures !TriggersInitialize(e) ==> r == s
  {
    if TriggersInitialize(e) then AfterInitialize(s, session, fetched) else s
  }

  // ---------------------------------------------------------------------
  // Any order of writes

  /**
    One `set` call of the store. Interleaved operations write the store one
    such step at a time, in an order the source does not control.
   */
  datatype Write =
    | SetInitializing
    | SetSession(session: Reply<Option<User>>, fetched: ProfileReply)
    | SetLoading
    | SetLoginResult(signIn: Reply<Option<User>>, fetched: ProfileReply)
    | SetSignupResult(reply: Reply<()>)
    | SetLogoutResult(reply: Reply<()>)
    | SetPasswordResetResult(reply: Reply<()>)
    | SetNoError

  function Apply(s: Snapshot, w: Write): Snapshot {
    match w
    case SetInitializing => StartInitialize(s)
    case SetSession(session, fetched) => SettleInitialize(s, session, fetched)
    case SetLoading => StartRequest(s)
    case SetLoginResult(signIn, fetched) => SettleLogin(s, signIn, fetched)
    case SetSignupResult(reply) => SettleRequest(s, reply, SignupFallback)
    case SetLogoutResult(reply) => SettleLogout(s, reply)
    case SetPasswordResetResult(reply) => SettleRequest(s, reply, PasswordResetFallback)
    case SetNoError => ErrorCleared(s)
  }

  function Replay(s: Snapshot, ws: seq<Write>): Snapshot
    decreases |ws|
  {
    if ws == [] then s else Replay(Apply(s, ws[0]), ws[1..])
  }

  /** Every single write keeps the flag and the user together. */
  lemma ApplyKeepsCoupling(s: Snapshot, w: Write)
    requires Coupled(s)
    ensures Coupled(Apply(s, w))
  {
  }

  /** However the steps of concurrent operations interleave, the flag and the user stay together. */
  lemma {:induction false} ReplayKeepsCoupling(s: Snapshot, ws: seq<Write>)
    requires Coupled(s)
    ensures Coupled(Replay(s, ws))
    decreases |ws|
  {
    if ws != [] {
      ApplyKeepsCoupling(s, ws[0]);
      ReplayKeepsCoupling(Apply(s, ws[0]), ws[1..]);
    }
  }

  /** From the store's initial state, every sequence of writes keeps the coupling. */
  lemma CoupledFromInitial(ws: seq<Write>)
    ensures Coupled(Replay(Initial, ws))
  {
    ReplayKeepsCoupling(Initial, ws);
  }

  /**
    Once `isInitializing` is false, only initialize's start step raises it
    again: a run of writes without that step leaves it false.
   */
  lemma {:induction false} InitializingRaisedOnlyByInitialize(s: Snapshot, ws: seq<Write>)
    requires !s.isInitializing
    requires SetInitializing !in ws
    ensures !Replay(s, ws).isInitializing
    decreases |ws|
  {
    if ws != [] {
      assert ws[0] != SetInitializing;
      assert SetInitializing !in ws[1..] by {
        assert forall k :: 0 <= k < |ws[1..]| ==> ws[1..][k] == ws[k + 1];
      }
      InitializingRaisedOnlyByInitialize(Apply(s, ws[0]), ws[1..]);
    }
  }

  /**
    Every event the listener reacts to, SIGNED_OUT included, runs both
    `set` steps of `initialize`, the first of which raises `isInitializing`
    again; SIGNED_OUT with a provider error then keeps the old identity.
   */
  lemma ListenerEventReraisesInitializing(s: Snapshot, e: AuthEvent, session: Reply<Option<User>>, fetched: ProfileReply)
    requires TriggersInitialize(e)
    ensures AfterAuthEvent(s, e, session, fetched) == Replay(s, [SetInitializing, SetSession(session, fetched)])
    ensures Apply(s, SetInitializing).isInitializing
    ensures e == SignedOut && session.Err? ==> SameIdentity(AfterAuthEvent(s, e, session, fetched), s)
  {
    var w := [SetInitializing, SetSession(session, fetched)];
    assert w[1..] == [SetSession(session, fetched)] && w[1..][1..] == [];
    assert Replay(s, w) == Replay(Apply(s, SetInitializing), w[1..]);
    assert Replay(Apply(s, SetInitializing), w[1..])
        == Replay(Apply(Apply(s, SetInitializing), SetSession(session, fetched)), []);
  }

  // ---------------------------------------------------------------------
  // The store object

  /**
    The zustand store: the six state fields, plus the module-level client
    variable that `getSupabaseClient` checks.
   */
  class AuthStore {
    var user: Option<User>
    var profile: Option<Profile>
    var isAuthenticated: bool
    var isLoading: bool
    var isInitializing: bool
    var error: Option<AuthError>
    var clientInitialized: bool
    /** Whether `initializeAuthListener` has subscribed the callback. */
    var listening: bool

    function State(): Snapshot
      reads this
    {
      Snapshot(user, profile, isAuthenticated, isLoading, isInitializing, error)
    }

    ghost predicate Valid()
      reads this
    {
      Coupled(State()) && (listening ==> clientInitialized)
    }

    /** The store as `create` builds it, before `initializeSupabase` runs. */
    constructor ()
      ensures Valid() && State() == Initial && !clientInitialized && !listening
    {
      user, profile, isAuthenticated := None, None, false;
      isLoading, isInitializing, error := false, true, None;
      clientInitialized, listening := false, false;
    }

    /** `initializeSupabase`: creating the client is left to the provider. */
    method InitializeSupabase()
      requires Valid()
      modifies this
      ensures Valid() && clientInitialized && listening == old(listening)
      ensures State() == old(State())
    {
      clientInitialized := true;
    }

    method Initialize(session: Reply<Option<User>>, fetched: ProfileReply)
      requires Valid()
      modifies this
      ensures Valid() && clientInitialized == old(clientInitialized) && listening == old(listening)
      ensures State() == AfterInitialize(old(State()), WithClient(clientInitialized, session), fetched)
    {
      isInitializing, error := true, None;
      var reply := WithClient(clientInitialized, session);
      match reply
      case Err(t) =>
        error, isInitializing := Failure(t, InitializeFallback), false;
      case Ok(Some(u)) =>
        user, profile, isAuthenticated, isInitializing := Some(u), FetchedProfile(fetched), true, false;
      case Ok(None) =>
        user, profile, isAuthenticated, isInitializing := None, None, false, false;
    }

    method Login(signIn: Reply<Option<User>>, fetched: ProfileReply) returns (c: Completion)
      requires Valid()
      modifies this
      ensures Valid() && clientInitialized == old(clientInitialized) && listening == old(listening)
      ensures (State(), c) == AfterLogin(old(State()), WithClient(clientInitialized, signIn), fetched)
    {
      isLoading, error := true, None;
      var reply := WithClient(clientInitialized, signIn);
      match reply
      case Err(t) =>
        error, isLoading := Failure(t, LoginFallback), false;
        c := Threw(t);
      case Ok(Some(u)) =>
        user, profile, isAuthenticated, isLoading := Some(u), FetchedProfile(fetched), true, false;
        c := Returned;
      case Ok(None) =>
        c := Returned;
    }

    /** `signup`: the user data goes to the provider as metadata only. */
    method Signup(reply: Reply<()>) returns (c: Completion)
      requires Valid()
      modifies this
      ensures Valid() && clientInitialized == old(clientInitialized) && listening == old(listening)
      ensures (State(), c) == AfterSignup(old(State()), WithClient(clientInitialized, reply))
    {
      isLoading, error := true, None;
      match WithClient(clientInitialized, reply)
      case Err(t) =>
        error, isLoading := Failure(t, SignupFallback), false;
        c := Threw(t);
      case Ok(_) =>
        isLoading := false;
        c := Returned;
    }

    method Logout(reply: Reply<()>)
      requires Valid()
      modifies this
      ensures Valid() && clientInitialized == old(clientInitialized) && listening == old(listening)
      ensures State() == AfterLogout(old(State()), WithClient(clientInitialized, reply))
    {
      isLoading, error := true, None;
      match WithClient(clientInitialized, reply)
      case Err(t) =>
        error, isLoading := Failure(t, LogoutFallback), false;
      case Ok(_) =>
        user, profile, isAuthenticated, isLoading := None, None, false, false;
    }

    method SendPasswordResetEmail(reply: Reply<()>) returns (c: Completion)
      requires Valid()
      modifies this
      ensures Valid() && clientInitialized == old(clientInitialized) && listening == old(listening)
      ensures (State(), c) == AfterPasswordReset(old(State()), WithClient(clientInitialized, reply))
    {
      isLoading, error := true, None;
      match WithClient(clientInitialized, reply)
      case Err(t) =>
        error, isLoading := Failure(t, PasswordResetFallback), false;
        c := Threw(t);
      case Ok(_) =>
        isLoading := false;
        c := Returned;
    }

    method ClearError()
      requires Valid()
      modifies this
      ensures Valid() && clientInitialized == old(clientInitialized) && listening == old(listening)
      ensures State() == ErrorCleared(old(State()))
    {
      error := None;
    }

    /**
      `initializeAuthListener`: it reaches for the client first, so with no
      client it throws and nothing is subscribed.
     */
    method InitializeAuthListener() returns (c: Completion)
      requires Valid()
      modifies this
      ensures Valid() && State() == old(State()) && clientInitialized == old(clientInitialized)
      ensures c.Returned? <==> clientInitialized
      ensures c.Threw? ==> c.thrown == ErrorInstance(ClientMissingMessage)
      ensures listening == (old(listening) || clientInitialized)
    {
      if clientInitialized {
        listening := true;
        c := Returned;
      } else {
        c := Threw(ErrorInstance(ClientMissingMessage));
      }
    }

    /**
      The callback the listener subscribes: event `e` arrives, with what
      `initialize` would then see. It runs only once subscribed, so the
      client exists.
     */
    method HandleAuthEvent(e: AuthEvent, session: Reply<Option<User>>, fetched: ProfileReply)
      requires Valid() && listening
      modifies this
      ensures Valid() && clientInitialized == old(clientInitialized) && listening == old(listening)
      ensures State() == AfterAuthEvent(old(State()), e, session, fetched)
      ensures !TriggersInitialize(e) ==> unchanged(this)
    {
      if e == SignedIn || e == SignedOut || e == TokenRefreshed {
        Initialize(session, fetched);
      }
    }
  }
}
