/**
 * The client's session store (client/src/contexts/AuthContext.tsx): the state,
 * its reducer, and the provider's `restoreUser`, `login`, `register` and
 * `logout`, each a short sequence of dispatches. Secure-storage reads and
 * writes and the server calls are parameters: what they returned or that they
 * failed.
 */
module AuthState {
  import opened Wrappers
  import opened ClientTypes

  datatype State = State(user: Option<AppUser>, isLoading: bool, isAuthenticated: bool)

  const Initial: State := State(None, true, false)

  datatype Action =
    | SetLoading(loading: bool)
    | SetUser(user: AppUser)
    | ClearUser
    | RestoreUser(user: AppUser)

  /** The session invariant: authenticated exactly when a user is present. */
  predicate Consistent(s: State) {
    s.isAuthenticated <==> s.user.Some?
  }

  /** `authReducer`. */
  function Reduce(s: State, a: Action): (r: State)
    ensures Consistent(s) ==> Consistent(r)
    ensures a.SetLoading? ==> r.isLoading == a.loading && r.user == s.user && r.isAuthenticated == s.isAuthenticated
    ensures a.SetUser? || a.RestoreUser? ==> r.user == Some(a.user) && r.isAuthenticated && !r.isLoading
    ensures a.ClearUser? ==> r.user == None && !r.isAuthenticated && !r.isLoading
  {
    match a
    case SetLoading(b) => s.(isLoading := b)
    case SetUser(u) => s.(user := Some(u), isAuthenticated := true, isLoading := false)
    case RestoreUser(u) => s.(user := Some(u), isAuthenticated := true, isLoading := false)
    case ClearUser => s.(user := None, isAuthenticated := false, isLoading := false)
  }

  /** The state after dispatching `actions` in order. */
  function Run(s: State, actions: seq<Action>): State
    decreases |actions|
  {
    if actions == [] then s else Run(Reduce(s, actions[0]), actions[1..])
  }

  lemma {:induction false} RunPreservesConsistency(s: State, actions: seq<Action>)
    requires Consistent(s)
    ensures Consistent(Run(s, actions))
    decreases |actions|
  {
    if actions != [] {
      RunPreservesConsistency(Reduce(s, actions[0]), actions[1..]);
    }
  }

  /** Whatever the app dispatches, authenticated means a user is present. */
  lemma EveryReachableStateConsistent(actions: seq<Action>)
    ensures Consistent(Run(Initial, actions))
  {
    RunPreservesConsistency(Initial, actions);
  }

  // ---------------------------------------------------------------------
  // Provider actions
  // ---------------------------------------------------------------------

  /** A JavaScript string in a condition: absent and empty are both false. */
  predicate Truthy(s: Option<string>) {
    s.Some? && s.value != ""
  }

  /** `restoreUser`. `token` and `userData` are what secure storage returned (`None` also when
      reading failed); `parsed` is `JSON.parse(userData)`, `None` when it threw. */
  function Restore(s: State, token: Option<string>, userData: Option<string>, parsed: Option<AppUser>): (r: State)
    ensures !r.isLoading
    ensures Truthy(token) && Truthy(userData) && parsed.Some? ==> r.user == parsed && r.isAuthenticated
    ensures !(Truthy(token) && Truthy(userData) && parsed.Some?) ==> r.user == s.user && r.isAuthenticated == s.isAuthenticated
  {
    var loading := Reduce(s, SetLoading(true));
    if Truthy(token) && Truthy(userData) && parsed.Some? then Reduce(loading, RestoreUser(parsed.value))
    else Reduce(loading, SetLoading(false))
  }

  /** At start-up the session is restored exactly when both stored items are there and parse. */
  lemma RestoreAtStartup(token: Option<string>, userData: Option<string>, parsed: Option<AppUser>)
    ensures var r := Restore(Initial, token, userData, parsed);
      && Consistent(r) && !r.isLoading
      && (r.isAuthenticated <==> Truthy(token) && Truthy(userData) && parsed.Some?)
  {
  }

  /** Where `login` or `register` leaves the store, and the message of the error it threw, if any. */
  datatype Settled = Settled(state: State, thrown: Option<string>)

  /** `login`. The outcome covers the server call and the two storage writes; a failure's
      message is the server's message (`""` when there is none). */
  function Login(s: State, outcome: Outcome<AppUser>): (r: Settled)
    ensures !r.state.isLoading
    ensures outcome.Success? ==> r.state.user == Some(outcome.value) && r.state.isAuthenticated && r.thrown == None
    ensures outcome.Failure? ==> r.state.user == s.user && r.state.isAuthenticated == s.isAuthenticated
    ensures outcome.Failure? ==> r.thrown == Some(ErrorText(outcome.message, "Login failed"))
  {
    var loading := Reduce(s, SetLoading(true));
    match outcome
    case Success(u) => Settled(Reduce(loading, SetUser(u)), None)
    case Failure(m) => Settled(Reduce(loading, SetLoading(false)), Some(ErrorText(m, "Login failed")))
  }

  /** `register`: the same sequence as `login` with its own fallback message. */
  function Register(s: State, outcome: Outcome<AppUser>): (r: Settled)
    ensures !r.state.isLoading
    ensures outcome.Success? ==> r.state.user == Some(outcome.value) && r.state.isAuthenticated && r.thrown == None
    ensures outcome.Failure? ==> r.state.user == s.user && r.state.isAuthenticated == s.isAuthenticated
    ensures outcome.Failure? ==> r.thrown == Some(ErrorText(outcome.message, "Registration failed"))
  {
    var loading := Reduce(s, SetLoading(true));
    match outcome
    case Success(u) => Settled(Reduce(loading, SetUser(u)), None)
    case Failure(m) => Settled(Reduce(loading, SetLoading(false)), Some(ErrorText(m, "Registration failed")))
  }

  /** A failed login from the signed-out screen stays signed out and stops loading. */
  lemma FailedLoginStaysSignedOut(s: State, message: string)
    requires Consistent(s) && !s.isAuthenticated
    ensures var r := Login(s, Failure(message));
      r.state.user == None && !r.state.isAuthenticated && !r.state.isLoading && r.thrown.Some?
  {
  }

  /** `logout`: the session is cleared unless deleting the stored items failed, in which case
      the error is logged and nothing changes. */
  function Logout(s: State, storageFails: bool): (r: State)
    ensures storageFails ==> r == s
    ensures !storageFails ==> r.user == None && !r.isAuthenticated && !r.isLoading
  {
    if storageFails then s else Reduce(s, ClearUser)
  }
}
