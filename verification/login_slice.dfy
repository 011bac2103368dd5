/** The login slice of the Redux store: who is logged in, whether the login
    modal is open, and the message shown on it. Each reducer is a function
    from the old state (and the action's payload) to the new one. */
module LoginSlice {
  import opened Wrappers

  datatype User = User(username: string)

  datatype LoginState = LoginState(
    user: Option<User>,
    isLoginModalOpen: bool,
    loginMessage: Option<string>)

  const InitialLoginState: LoginState := LoginState(None, false, None)

  function SetUser(s: LoginState, user: Option<User>): (r: LoginState)
    ensures r.user == user
    ensures r.isLoginModalOpen == s.isLoginModalOpen && r.loginMessage == s.loginMessage
  {
    s.(user := user)
  }

  function SetLoginModalOpen(s: LoginState, open: bool): (r: LoginState)
    ensures r.isLoginModalOpen == open
    ensures r.user == s.user && r.loginMessage == s.loginMessage
  {
    s.(isLoginModalOpen := open)
  }

  function SetLoginMessage(s: LoginState, message: Option<string>): (r: LoginState)
    ensures r.loginMessage == message
    ensures r.user == s.user && r.isLoginModalOpen == s.isLoginModalOpen
  {
    s.(loginMessage := message)
  }

  /** `login(name)`: the user becomes `name` (kept as given), and the modal
      closes without a message, whatever the state was. */
  function Login(s: LoginState, name: string): (r: LoginState)
    ensures r.user == Some(User(name)) && !r.isLoginModalOpen && r.loginMessage.None?
  {
    s.(user := Some(User(name)), isLoginModalOpen := false, loginMessage := None)
  }

  /** `logout`: only the user is cleared. */
  function Logout(s: LoginState): (r: LoginState)
    ensures r.user.None?
    ensures r.isLoginModalOpen == s.isLoginModalOpen && r.loginMessage == s.loginMessage
  {
    s.(user := None)
  }

  /** `payload || null`: an absent or empty message is stored as null. */
  function NormalizeMessage(m: Option<string>): (r: Option<string>)
    ensures r.Some? <==> m.Some? && m.value != ""
    ensures r.Some? ==> r == m
  {
    if m.Some? && m.value != "" then m else None
  }

  /** `openLoginModal(message)`. */
  function OpenLoginModal(s: LoginState, message: Option<string>): (r: LoginState)
    ensures r.isLoginModalOpen
    ensures r.loginMessage == NormalizeMessage(message)
    ensures r.user == s.user
  {
    s.(isLoginModalOpen := true, loginMessage := NormalizeMessage(message))
  }

  /** `closeLoginModal`. */
  function CloseLoginModal(s: LoginState): (r: LoginState)
    ensures !r.isLoginModalOpen && r.loginMessage.None?
    ensures r.user == s.user
  {
    s.(isLoginModalOpen := false, loginMessage := None)
  }

  lemma LogoutIdempotent(s: LoginState)
    ensures Logout(Logout(s)) == Logout(s)
  {
  }

  /** Opening and then closing the modal leaves the user and the modal as
      they would be after closing it directly. */
  lemma OpenThenCloseIsClose(s: LoginState, message: Option<string>)
    ensures CloseLoginModal(OpenLoginModal(s, message)) == CloseLoginModal(s)
  {
  }

  /** Logging in and out leaves a closed modal with no user and no message,
      as at start-up. */
  lemma LoginThenLogoutIsInitial(s: LoginState, name: string)
    ensures Logout(Login(s, name)) == InitialLoginState
  {
  }
}
