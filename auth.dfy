/** The session store (src/context/AuthContext.jsx): who is signed in, whether the startup check
    is still running, and the `'user'` key of local storage. Only the buyer role may use this
    client. */
module Auth {
  import opened Wrappers

  const BuyerRole: string := "buyer"

  /** A signed-in identity. The five picture fields are the places the backend may put an avatar
      url; an absent field is "". */
  datatype User = User(
    id: string, name: string, email: string, role: string,
    pictureUrl: string, avatar: string, profileImage: string, photoUrl: string, profilePic: string)

  /** The reply to the session check: it threw, or it answered with `success`, `authenticated`
      and the identity. */
  datatype CheckReply = CheckThrew | CheckReplied(success: bool, authenticated: bool, user: User)

  /** The reply to a login: a thrown error carries the server's message and the error's own
      message ("" when absent). */
  datatype LoginReply = LoginThrew(serverMessage: string, errorMessage: string) | LoginReplied(success: bool, user: User)

  datatype RegisterReply = RegisterThrew(serverMessage: string) | RegisterReplied(success: bool, user: User)

  /** What login and register hand back to the form. */
  datatype AuthResult = Succeeded(user: Option<User>) | Failed(message: string)

  /** The body sent to the login endpoint; `isBuyerFrontend` asks the server to admit buyers only. */
  datatype LoginRequest = LoginRequest(email: string, password: string, isBuyerFrontend: bool)

  /** The body sent to the register endpoint. */
  datatype RegisterRequest = RegisterRequest(name: string, email: string, password: string, role: string)

  /** The identity a session check admits: an authenticated buyer, and nobody else. */
  function AdmittedUser(reply: CheckReply): (r: Option<User>)
    ensures r.Some? <==> reply.CheckReplied? && reply.success && reply.authenticated && reply.user.role == BuyerRole
    ensures r.Some? ==> r.value == reply.user && r.value.role == BuyerRole
  {
    if reply.CheckReplied? && reply.success && reply.authenticated && reply.user.role == BuyerRole
    then Some(reply.user) else None
  }

  /** The check found a signed-in user of another role: the client logs out and sends the
      browser to the admin panel. */
  predicate RejectsRole(reply: CheckReply) {
    reply.CheckReplied? && reply.success && reply.authenticated && reply.user.role != BuyerRole
  }

  /** The message a failed login shows: the server's, else the error's, else a fixed text. */
  function LoginErrorMessage(serverMessage: string, errorMessage: string): (m: string)
    ensures m != ""
    ensures serverMessage != "" ==> m == serverMessage
    ensures serverMessage == "" && errorMessage != "" ==> m == errorMessage
    ensures serverMessage == "" && errorMessage == "" ==> m == "Invalid email or password"
  {
    if serverMessage != "" then serverMessage
    else if errorMessage != "" then errorMessage
    else "Invalid email or password"
  }

  /** The login request always carries the buyer-client flag. */
  function LoginBody(email: string, password: string): (r: LoginRequest)
    ensures r.isBuyerFrontend
    ensures r.email == email && r.password == password
  {
    LoginRequest(email, password, true)
  }

  /** The register request always asks for the buyer role. */
  function RegisterBody(name: string, email: string, password: string): (r: RegisterRequest)
    ensures r.role == BuyerRole
    ensures r.name == name && r.email == email && r.password == password
  {
    RegisterRequest(name, email, password, BuyerRole)
  }

  class Session {
    var user: Option<User>
    var isAuthenticated: bool
    var loading: bool
    /** The `'user'` key of local storage. */
    var stored: Option<User>

    /** The provider at mount: nobody signed in, the check pending, storage as the browser has it. */
    constructor (storedAtStart: Option<User>)
      ensures user == None && !isAuthenticated && loading && stored == storedAtStart
    {
      user := None;
      isAuthenticated := false;
      loading := true;
      stored := storedAtStart;
    }

    /** checkAuthStatus: an authenticated buyer is signed in and stored; every other outcome,
        a rejected role included, ends signed out with storage cleared; `loading` ends false. */
    method CheckAuthStatus(reply: CheckReply, logoutReplied: bool) returns (redirectToAdmin: bool)
      modifies this
      ensures redirectToAdmin == RejectsRole(reply)
      ensures user == AdmittedUser(reply) && stored == AdmittedUser(reply)
      ensures isAuthenticated <==> AdmittedUser(reply).Some?
      ensures !loading
    {
      redirectToAdmin := false;
      if reply.CheckReplied? && reply.success && reply.authenticated {
        var userData := reply.user;
        if userData.role != BuyerRole {
          Logout(logoutReplied);
          redirectToAdmin := true;
          loading := false;
          return;
        }
        user := Some(userData);
        isAuthenticated := true;
        stored := Some(userData);
      } else {
        user := None;
        isAuthenticated := false;
        stored := None;
      }
      loading := false;
    }

    /** login: sends the credentials with the buyer-client flag; a successful reply signs the
        user in without writing storage; a failure changes nothing and reports a message. */
    method Login(email: string, password: string, reply: LoginReply)
      returns (request: LoginRequest, result: AuthResult)
      modifies this
      ensures request == LoginBody(email, password)
      ensures reply.LoginReplied? && reply.success ==>
        result == Succeeded(None) && user == Some(reply.user) && isAuthenticated
      ensures reply.LoginReplied? && !reply.success ==>
        result == Failed("Login failed") && user == old(user) && isAuthenticated == old(isAuthenticated)
      ensures reply.LoginThrew? ==>
        result == Failed(LoginErrorMessage(reply.serverMessage, reply.errorMessage))
        && user == old(user) && isAuthenticated == old(isAuthenticated)
      ensures stored == old(stored) && loading == old(loading)
    {
      request := LoginBody(email, password);
      match reply
      case LoginReplied(success, u) =>
        if success {
          user := Some(u);
          isAuthenticated := true;
          result := Succeeded(None);
        } else {
          result := Failed("Login failed");
        }
      case LoginThrew(serverMessage, errorMessage) =>
        result := Failed(LoginErrorMessage(serverMessage, errorMessage));
    }

    /** register: sends the buyer role; a successful reply signs in and stores the user. An
        unsuccessful reply that did not throw returns nothing at all (`undefined`). */
    method Register(name: string, email: string, password: string, reply: RegisterReply)
      returns (request: RegisterRequest, result: Option<AuthResult>)
      modifies this
      ensures request == RegisterBody(name, email, password)
      ensures reply.RegisterReplied? && reply.success ==>
        result == Some(Succeeded(Some(reply.user)))
        && user == Some(reply.user) && isAuthenticated && stored == Some(reply.user)
      ensures reply.RegisterReplied? && !reply.success ==> result == None
      ensures reply.RegisterThrew? ==> result == Some(Failed(
        if reply.serverMessage != "" then reply.serverMessage else "Registration failed"))
      ensures !(reply.RegisterReplied? && reply.success) ==>
        user == old(user) && isAuthenticated == old(isAuthenticated) && stored == old(stored)
      ensures loading == old(loading)
    {
      request := RegisterBody(name, email, password);
      result := None;
      match reply
      case RegisterReplied(success, u) =>
        if success {
          user := Some(u);
          isAuthenticated := true;
          stored := Some(u);
          result := Some(Succeeded(Some(u)));
        }
      case RegisterThrew(serverMessage) =>
        result := Some(Failed(if serverMessage != "" then serverMessage else "Registration failed"));
    }

    /** logout: whatever the backend answers, the session and the stored user are gone. */
    method Logout(remoteReplied: bool)
      modifies this
      ensures user == None && !isAuthenticated && stored == None
      ensures loading == old(loading)
    {
      user := None;
      isAuthenticated := false;
      stored := None;
    }

    /** updateUser: an absent argument is ignored; otherwise the user is signed in and stored.
        `loading` is never touched. */
    method UpdateUser(userData: Option<User>)
      modifies this
      ensures userData.None? ==>
        user == old(user) && isAuthenticated == old(isAuthenticated) && stored == old(stored)
      ensures userData.Some? ==> user == userData && isAuthenticated && stored == userData
      ensures loading == old(loading)
    {
      if userData.None? {
        return;
      }
      user := userData;
      isAuthenticated := true;
      stored := userData;
    }
  }
}
