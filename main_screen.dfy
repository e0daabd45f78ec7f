/**
 * The activity-level state holder (presentation/MainViewModel.kt): the
 * signed-in user and a loading flag, fed by one subscription to the
 * authentication repository that starts as soon as the holder is built.
 */
module MainScreen {
  import opened Resources

  /** The identity of a user (domain/model/User.kt); no other field is read here. */
  datatype User = User(id: string)

  /** A call the holder makes on its authentication repository. */
  datatype AuthRequest = GetCurrentUser

  /** The observable state of the holder. */
  datatype SessionState = SessionState(currentUser: Option<User>, isLoading: bool)

  const InitialSession: SessionState := SessionState(None, false)

  /**
   * The collector of `loadCurrentUser`. A success stores the user it carries,
   * null included; an error keeps the user and only lowers the flag, since the
   * holder has no error field.
   */
  function OnUserEvent(s: SessionState, r: Resource<User>): (t: SessionState)
    ensures t.isLoading <==> r.Loading?
    ensures t.currentUser == (if r.Success? then r.data else s.currentUser)
  {
    match r
    case Loading => s.(isLoading := true)
    case Success(data) => SessionState(data, false)
    case Error(_) => s.(isLoading := false)
  }

  /** The state after the notifications of the current-user flow. */
  function AfterCurrentUserEvents(s: SessionState, es: seq<Resource<User>>): SessionState
    decreases es
  {
    if es == [] then s else AfterCurrentUserEvents(OnUserEvent(s, es[0]), es[1..])
  }

  /**
   * After any notifications, the holder is loading exactly when the last one
   * is `Loading`, and the user is the one the last `Success` carried (null
   * included), or the one before if no `Success` came.
   */
  lemma {:induction false} CurrentUserEventsOutcome(s: SessionState, es: seq<Resource<User>>)
    ensures AfterCurrentUserEvents(s, es).isLoading ==
      (if es == [] then s.isLoading else es[|es| - 1].Loading?)
    ensures AfterCurrentUserEvents(s, es).currentUser ==
      (match LastSuccess(es) case Some(user) => user case None => s.currentUser)
    decreases es
  {
    if es != [] {
      CurrentUserEventsOutcome(OnUserEvent(s, es[0]), es[1..]);
    }
  }

  /**
   * The authentication provider as the holder sees it: the calls made on it,
   * and its answer to "is a user signed in".
   */
  class AuthRepository {
    ghost var log: seq<AuthRequest>
    var userLoggedIn: bool

    constructor (userLoggedIn: bool)
      ensures log == [] && this.userLoggedIn == userLoggedIn
    {
      log := [];
      this.userLoggedIn := userLoggedIn;
    }

    method Issue(q: AuthRequest)
      modifies this`log
      ensures log == old(log) + [q]
    {
      log := log + [q];
    }

    method IsUserLoggedIn() returns (loggedIn: bool)
      ensures loggedIn == userLoggedIn
    {
      loggedIn := userLoggedIn;
    }
  }

  class MainViewModel {
    const authRepository: AuthRepository
    var currentUser: Option<User>
    var isLoading: bool

    function State(): SessionState
      reads this
    {
      SessionState(currentUser, isLoading)
    }

    /** Starts with no user, not loading, and subscribes to the current user at once. */
    constructor (authRepository: AuthRepository)
      modifies authRepository`log
      ensures this.authRepository == authRepository
      ensures State() == InitialSession
      ensures authRepository.log == old(authRepository.log) + [GetCurrentUser]
    {
      this.authRepository := authRepository;
      currentUser := None;
      isLoading := false;
      new;
      authRepository.Issue(GetCurrentUser);
    }

    /** One notification of the current-user flow. */
    method OnCurrentUserEvent(r: Resource<User>)
      modifies this
      ensures State() == OnUserEvent(old(State()), r)
    {
      match r
      case Loading => isLoading := true;
      case Success(data) =>
        isLoading := false;
        currentUser := data;
      case Error(_) => isLoading := false;
    }

    /** Passes the repository's answer on unchanged. */
    method IsUserLoggedIn() returns (loggedIn: bool)
      ensures loggedIn == authRepository.userLoggedIn
    {
      loggedIn := authRepository.IsUserLoggedIn();
    }
  }
}
