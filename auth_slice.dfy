/**
 * The authentication store of the client (a Redux slice) and the two
 * thunks that sign in: the signed-in user, whether there is a session, and
 * the token and user the browser keeps in local storage.
 */
module AuthSlice {
  import opened Common
  import opened ClientModel

  /** The body of a successful login or registration reply. */
  datatype AuthPayload = AuthPayload(token: string, user: AuthUser)

  const LoginFailed: string := "Login failed"
  const LoginError: string := "An error occurred during login"
  const RegistrationFailed: string := "Registration failed"
  const RegistrationError: string := "An error occurred during registration"

  /**
   * The thunk shared by loginUser and registerUser: on success the token
   * and the user are written to storage before the thunk fulfils with the
   * reply; on failure storage is untouched and the thunk is rejected with
   * the server's or the error's message, or its own default.
   */
  method SignIn(storage: LocalStorage, outcome: CallOutcome<AuthPayload>, failedMessage: string, errorMessage: string)
    returns (s: Settled<AuthPayload>)
    modifies storage
    ensures s == Settle(outcome, failedMessage, errorMessage)
    ensures outcome.Succeeded? ==>
      storage.token == Some(outcome.payload.token) && storage.user == Some(outcome.payload.user)
    ensures !outcome.Succeeded? ==> storage.token == old(storage.token) && storage.user == old(storage.user)
  {
    if outcome.Succeeded? {
      storage.token := Some(outcome.payload.token);
      storage.user := Some(outcome.payload.user);
    }
    s := Settle(outcome, failedMessage, errorMessage);
  }

  /** loginUser, with its own default messages. */
  method LoginUser(storage: LocalStorage, outcome: CallOutcome<AuthPayload>) returns (s: Settled<AuthPayload>)
    modifies storage
    ensures s == Settle(outcome, LoginFailed, LoginError)
    ensures outcome.Succeeded? ==>
      storage.token == Some(outcome.payload.token) && storage.user == Some(outcome.payload.user)
    ensures !outcome.Succeeded? ==> storage.token == old(storage.token) && storage.user == old(storage.user)
  {
    s := SignIn(storage, outcome, LoginFailed, LoginError);
  }

  /** registerUser, with its own default messages. */
  method RegisterUser(storage: LocalStorage, outcome: CallOutcome<AuthPayload>) returns (s: Settled<AuthPayload>)
    modifies storage
    ensures s == Settle(outcome, RegistrationFailed, RegistrationError)
    ensures outcome.Succeeded? ==>
      storage.token == Some(outcome.payload.token) && storage.user == Some(outcome.payload.user)
    ensures !outcome.Succeeded? ==> storage.token == old(storage.token) && storage.user == old(storage.user)
  {
    s := SignIn(storage, outcome, RegistrationFailed, RegistrationError);
  }

  /**
   * A rejected login carries the server's message when it sent a non-empty
   * one, and "Login failed" otherwise; a failed reply and an unknown email
   * reply are therefore told apart only by the server's text.
   */
  lemma LoginRejectionReason(message: Option<string>)
    ensures Settle<AuthPayload>(Failed(message), LoginFailed, LoginError)
         == Rejected(if Truthy(message) then message.value else "Login failed")
    ensures Settle<AuthPayload>(Threw(message), LoginFailed, LoginError)
         == Rejected(if Truthy(message) then message.value else "An error occurred during login")
  {
  }

  class AuthState {
    var user: Option<AuthUser>
    var isAuthenticated: bool
    var loading: bool

    /** The state agrees with storage: a session exactly when a non-empty token is stored, and the stored user. */
    predicate Reflects(storage: LocalStorage)
      reads this, storage
    {
      isAuthenticated == Truthy(storage.token) && user == storage.user
    }

    /** The initial state is read from storage: its user, and a session exactly when a non-empty token is kept. */
    constructor (storage: LocalStorage)
      ensures user == storage.user
      ensures isAuthenticated <==> storage.token.Some? && storage.token.value != ""
      ensures !loading
      ensures Reflects(storage)
    {
      user := storage.user;
      isAuthenticated := Truthy(storage.token);
      loading := false;
    }

    /** logout: storage forgets the token and the user, and so does the state. */
    method Logout(storage: LocalStorage)
      modifies this`user, this`isAuthenticated, storage
      ensures storage.token.None? && storage.user.None?
      ensures user.None? && !isAuthenticated
      ensures Reflects(storage)
    {
      storage.token := None;
      storage.user := None;
      user := None;
      isAuthenticated := false;
    }

    /** loginUser.fulfilled and registerUser.fulfilled: a session for the reply's user. */
    method SignInFulfilled(payload: AuthPayload)
      modifies this`user, this`isAuthenticated, this`loading
      ensures isAuthenticated && user == Some(payload.user) && !loading
    {
      isAuthenticated := true;
      user := Some(payload.user);
      loading := false;
    }
  }

  /**
   * A successful sign-in that the reducer then records leaves the state in
   * agreement with storage, provided the server's token is non-empty.
   */
  method SignInAndRecord(state: AuthState, storage: LocalStorage, outcome: CallOutcome<AuthPayload>, isLogin: bool)
    returns (s: Settled<AuthPayload>)
    modifies state, storage
    ensures s.Fulfilled? <==> outcome.Succeeded?
    ensures s.Fulfilled? && outcome.payload.token != "" ==> state.Reflects(storage)
    ensures s.Rejected? ==> state.user == old(state.user) && state.isAuthenticated == old(state.isAuthenticated)
  {
    if isLogin {
      s := LoginUser(storage, outcome);
    } else {
      s := RegisterUser(storage, outcome);
    }
    if s.Fulfilled? {
      state.SignInFulfilled(s.value);
    }
  }
}
