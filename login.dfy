/**
 * The login screen: signing in (session cells, storage and the landing
 * page) and self-registration (the password-confirmation guard and the
 * register payload).
 */
module Login {
  import opened Tickets
  import App
  import TicketBoard

  /** The server's answer to the login request. */
  datatype LoginReply = LoginOk(role: string) | LoginFailed

  /** Where a signed-in user is sent. */
  function LandingPath(role: string): (p: string)
    ensures p == "/admin" <==> role == "admin"
    ensures p == "/" <==> role != "admin"
  {
    if role == "admin" then "/admin" else "/"
  }

  /** The storage after a successful login. */
  function PersistLogin(storage: Storage, role: string): (r: Storage)
    ensures r.Keys == storage.Keys + {"isAuthenticated", "role"}
    ensures r["isAuthenticated"] == "true" && r["role"] == role
    ensures forall k :: k in storage && k != "isAuthenticated" && k != "role" ==> r[k] == storage[k]
  {
    storage["isAuthenticated" := "true"]["role" := role]
  }

  /** The storage after a failed login: the same two keys the board's
      logout removes. */
  function ClearLogin(storage: Storage): (r: Storage)
    ensures r.Keys == storage.Keys - {"isAuthenticated", "role"}
    ensures forall k :: k in r ==> r[k] == storage[k]
  {
    TicketBoard.BoardLogout(storage).storage
  }

  /** `handleLogin`, given the server's reply. On success: set both session
      cells, persist them, then navigate by role. On failure: remove both
      keys and sign out, leaving the role cell as it was. */
  method HandleLogin(session: App.Session, storage: Storage, reply: LoginReply)
    returns (newStorage: Storage, navigateTo: Option<string>)
    modifies session
    ensures reply.LoginOk? ==> session.isAuthenticated && session.role == reply.role
    ensures reply.LoginOk? ==> newStorage == PersistLogin(storage, reply.role)
    ensures reply.LoginOk? ==> navigateTo == Some(LandingPath(reply.role))
    ensures reply.LoginFailed? ==> !session.isAuthenticated && session.role == old(session.role)
    ensures reply.LoginFailed? ==> newStorage == ClearLogin(storage) && navigateTo == None
  {
    match reply {
      case LoginOk(userRole) =>
        session.isAuthenticated := true;
        session.role := userRole;
        newStorage := PersistLogin(storage, userRole);
        navigateTo := Some(LandingPath(userRole));
      case LoginFailed =>
        newStorage := ClearLogin(storage);
        session.isAuthenticated := false;
        navigateTo := None;
    }
  }

  /** A reload after a successful login restores the same session. */
  lemma LoginSurvivesReload(storage: Storage, role: string)
    ensures App.StoredAuth(PersistLogin(storage, role))
    ensures App.StoredRole(PersistLogin(storage, role)) == role
  {
  }

  /** A reload after a failed login starts signed out with no role. */
  lemma FailedLoginSurvivesReload(storage: Storage)
    ensures !App.StoredAuth(ClearLogin(storage))
    ensures App.StoredRole(ClearLogin(storage)) == ""
  {
  }

  /** The landing page renders a screen for the roles "admin", "user" and
      "manager"; any other role is sent on to the login screen. */
  lemma LandingPageRenders(role: string)
    ensures role == "admin" ==> App.Route(LandingPath(role), true, role) == App.AdminPanelPage
    ensures role == "user" || role == "manager" ==> App.Route(LandingPath(role), true, role) == App.TicketBoardPage
    ensures role !in {"admin", "user", "manager"} ==> App.Route(LandingPath(role), true, role) == App.Redirect("/login")
  {
    App.PatternKeys();
  }

  // ---------------------------------------------------------------------
  // Registration.

  datatype RegisterForm = RegisterForm(
    firstName: string,
    lastName: string,
    registerEmail: string,
    company: string,
    registerPassword: string,
    confirmPassword: string)

  const EmptyRegisterForm: RegisterForm := RegisterForm("", "", "", "", "", "")

  /** The body `handleRegister` posts, or `None` when the two passwords
      differ and it returns before building one. */
  function RegisterPayload(f: RegisterForm): (r: Option<map<string, string>>)
    ensures r.Some? <==> f.registerPassword == f.confirmPassword
    ensures r.Some? ==> r.value.Keys == {"first_name", "last_name", "email", "company", "password"}
    ensures r.Some? ==> && r.value["first_name"] == f.firstName
                        && r.value["last_name"] == f.lastName
                        && r.value["email"] == f.registerEmail
                        && r.value["company"] == f.company
                        && r.value["password"] == f.registerPassword == f.confirmPassword
  {
    if f.registerPassword != f.confirmPassword then None
    else Some(map[
      "first_name" := f.firstName,
      "last_name" := f.lastName,
      "email" := f.registerEmail,
      "company" := f.company,
      "password" := f.registerPassword])
  }

  /** The login screen's own state for the register modal. */
  class LoginScreen {
    var showRegister: bool
    var form: RegisterForm

    constructor ()
      ensures !showRegister && form == EmptyRegisterForm
    {
      showRegister := false;
      form := EmptyRegisterForm;
    }

    /** `handleRegister`; `accepted` is the server's answer, which only
        matters when a request was sent. Success closes the modal. */
    method HandleRegister(accepted: bool) returns (sent: Option<map<string, string>>)
      modifies this`showRegister
      ensures sent == RegisterPayload(form)
      ensures showRegister == if sent.Some? && accepted then false else old(showRegister)
    {
      sent := RegisterPayload(form);
      if sent.Some? && accepted {
        showRegister := false;
      }
    }
  }
}
