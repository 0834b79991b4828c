/**
 * The login page: the listener for the handoff message posted by the
 * federated-login popup, the local login and registration forms with their
 * input checks and reply handling, the provider buttons' URLs, and the tab
 * switch between logging in and registering.
 */
module LoginPage {
  import opened Wrappers
  import Server

  /** The back end's base URL. */
  const ApiUrl := "http://localhost:5000"

  const FillAllFields := "Please enter all fields"
  const LoginFailed := "Login failed"
  const RegistrationFailed := "Registration failed"
  const ServerErrorText := "Server error. Please try again."
  const RegistrationSucceeded := "Registration successful! Please login now."

  datatype NoticeKind = SuccessNotice | ErrorNotice

  /** The message shown above the form. */
  datatype Notice = Notice(kind: NoticeKind, text: string)

  /** The arguments `onLogin` is called with (either may be missing in a malformed reply). */
  datatype LoginCall = LoginCall(token: Option<Server.Token>, user: Option<Server.UserInfo>)

  /** What the page does in answer to a message or a reply. */
  datatype Action = CallOnLogin(call: LoginCall) | ShowError(text: string) | Ignore

  // ---------------------------------------------------------------------------
  // Handoff message listener
  // ---------------------------------------------------------------------------

  /** The origin check: a message from elsewhere than the back end or this window only logs a warning. */
  predicate WarnsAboutOrigin(origin: string, windowOrigin: string)
  {
    origin != ApiUrl && origin != windowOrigin
  }

  /**
   * `handleAuthMessage`: a token together with a user logs in, whatever else
   * the message holds; otherwise a non-empty error is shown; otherwise
   * nothing happens. The sender's origin does not take part.
   */
  function Dispatch(origin: string, data: Server.Payload): (a: Action)
    ensures a.CallOnLogin? <==> data.token.Some? && data.user.Some?
    ensures a.CallOnLogin? ==> a.call == LoginCall(data.token, data.user)
    ensures a.ShowError? <==> !(data.token.Some? && data.user.Some?) && Truthy(data.error)
    ensures a.ShowError? ==> a.text == data.error.value
  {
    if data.token.Some? && data.user.Some? then CallOnLogin(LoginCall(data.token, data.user))
    else if Truthy(data.error) then ShowError(data.error.value)
    else Ignore
  }

  /**
   * Messages from any origin are dispatched alike: the origin check only
   * warns, and it never warns about the back end, which sends the handoff.
   */
  lemma DispatchIgnoresOrigin(origin: string, other: string, windowOrigin: string, data: Server.Payload)
    ensures Dispatch(origin, data) == Dispatch(other, data)
    ensures !WarnsAboutOrigin(ApiUrl, windowOrigin) && !WarnsAboutOrigin(windowOrigin, windowOrigin)
  {
  }

  /** The success handoff page logs the opener in with exactly the token and user it carries. */
  lemma SuccessHandoffLogsIn(u: Server.User, now: nat, origin: string)
    ensures var h := Server.SuccessHandoff(u, now);
            h.targetOrigin == "http://localhost:3000" &&
            Dispatch(origin, h.data) ==
              CallOnLogin(LoginCall(Some(Server.Issue(u.id, now)), Some(Server.UserInfo(u.name, u.email))))
  {
  }

  /** The failure page makes the opener show the fixed failure text and log nobody in. */
  lemma FailureHandoffShowsError(origin: string)
    ensures Dispatch(origin, Server.FailureHandoff().data) == ShowError("Authentication failed. Please try again.")
  {
  }

  // ---------------------------------------------------------------------------
  // Form checks and reply handling
  // ---------------------------------------------------------------------------

  /** The login form's check before any request: both fields filled in. */
  predicate LoginFieldsFilled(email: string, password: string)
  {
    email != "" && password != ""
  }

  /** The registration form's check before any request: all three fields filled in. */
  predicate RegisterFieldsFilled(name: string, email: string, password: string)
  {
    name != "" && email != "" && password != ""
  }

  /** What a request produced: an answer with its status and JSON body, or a failed fetch. */
  datatype Reply = Answered(status: nat, body: Server.Payload) | Unreachable

  /** `res.ok`. */
  predicate ReplyOk(reply: Reply)
  {
    reply.Answered? && 200 <= reply.status <= 299
  }

  /** The server's error text, or `fallback` when there is none. */
  function ErrorText(body: Server.Payload, fallback: string): (t: string)
    ensures Truthy(body.error) ==> t == body.error.value
    ensures !Truthy(body.error) ==> t == fallback
  {
    if Truthy(body.error) then body.error.value else fallback
  }

  /** How `handleLogin` answers the login reply. */
  function LoginReplyAction(reply: Reply): (a: Action)
    ensures a.CallOnLogin? <==> ReplyOk(reply)
    ensures a.CallOnLogin? ==> a.call == LoginCall(reply.body.token, reply.body.user)
    ensures reply.Unreachable? ==> a == ShowError(ServerErrorText)
    ensures reply.Answered? && !ReplyOk(reply) ==> a == ShowError(ErrorText(reply.body, LoginFailed))
  {
    match reply
    case Unreachable => ShowError(ServerErrorText)
    case Answered(_, body) =>
      if ReplyOk(reply) then CallOnLogin(LoginCall(body.token, body.user))
      else ShowError(ErrorText(body, LoginFailed))
  }

  /** How `handleRegister` answers the registration reply: the notice, and whether to switch to the login tab. */
  function RegisterReplyNotice(reply: Reply): (n: Notice)
    ensures n.kind == SuccessNotice <==> ReplyOk(reply)
    ensures ReplyOk(reply) ==> n.text == RegistrationSucceeded
    ensures reply.Unreachable? ==> n.text == ServerErrorText
    ensures reply.Answered? && !ReplyOk(reply) ==> n.text == ErrorText(reply.body, RegistrationFailed)
  {
    match reply
    case Unreachable => Notice(ErrorNotice, ServerErrorText)
    case Answered(_, body) =>
      if ReplyOk(reply) then Notice(SuccessNotice, RegistrationSucceeded)
      else Notice(ErrorNotice, ErrorText(body, RegistrationFailed))
  }

  // ---------------------------------------------------------------------------
  // Provider buttons
  // ---------------------------------------------------------------------------

  /** `toLowerCase` on one character (ASCII letters). */
  function LowerChar(c: char): char
  {
    if 'A' <= c <= 'Z' then (c as int + 32) as char else c
  }

  /** `toLowerCase` (ASCII letters). */
  function Lower(s: string): (r: string)
    ensures |r| == |s| && forall i :: 0 <= i < |s| ==> r[i] == LowerChar(s[i])
  {
    if s == [] then [] else [LowerChar(s[0])] + Lower(s[1..])
  }

  /** `handleOAuth(provider)`: the URL the popup opens. */
  function OAuthUrl(provider: string): string
  {
    ApiUrl + "/auth/" + Lower(provider)
  }

  /** The provider name each button passes. */
  function ButtonLabel(p: Server.Provider): string
  {
    match p
    case Google => "Google"
    case GitHub => "GitHub"
    case Facebook => "Facebook"
  }

  /** Lowering agrees with a character-by-character expectation. */
  lemma LowerIs(s: string, t: string)
    requires |s| == |t| && forall i :: 0 <= i < |s| ==> LowerChar(s[i]) == t[i]
    ensures Lower(s) == t
  {
  }

  /** "GitHub" opens `http://localhost:5000/auth/github`. */
  lemma OAuthUrlGitHub()
    ensures OAuthUrl("GitHub") == "http://localhost:5000/auth/github"
  {
    LowerIs("GitHub", "github");
  }

  /** Every provider button opens the back end's start route for that provider. */
  lemma ButtonsOpenStartRoutes(p: Server.Provider)
    ensures OAuthUrl(ButtonLabel(p)) == ApiUrl + Server.StartPath(p)
  {
    match p
    case Google => LowerIs("Google", "google");
    case GitHub => LowerIs("GitHub", "github");
    case Facebook => LowerIs("Facebook", "facebook");
  }

  // ---------------------------------------------------------------------------
  // Against the back end
  // ---------------------------------------------------------------------------

  /**
   * Every reply of the login route is handled as the server meant it: a
   * session logs in with its token and user, and each error is shown with the
   * server's own text, never the "Login failed" fallback.
   */
  lemma LoginRepliesHandled(users: seq<Server.User>, email: string, password: string, now: nat)
    ensures var r := Server.Login(users, email, password, now);
            var a := LoginReplyAction(Answered(r.status, r.body));
            (r.status == 200 ==> a == CallOnLogin(LoginCall(r.body.token, r.body.user)) &&
                                 r.body.token.Some? && r.body.user.Some?) &&
            (r.status != 200 ==> a == ShowError(r.body.error.value) && a.text != LoginFailed)
  {
  }

  /** Input the registration form accepts never meets the server's "all fields" rejection. */
  lemma FilledFormPassesServerCheck(users: seq<Server.User>, nextId: nat, name: string, email: string,
                                    password: string, salt: nat)
    requires RegisterFieldsFilled(name, email, password)
    ensures var reg := Server.RegisterOutcome(users, nextId, Some(name), Some(email), Some(password), salt);
            reg.response.body.error != Some(Server.FillAllFields) &&
            RegisterReplyNotice(Answered(reg.response.status, reg.response.body)) ==
              if reg.response.status == 201 then Notice(SuccessNotice, RegistrationSucceeded)
              else Notice(ErrorNotice, Server.EmailExists)
  {
  }

  // ---------------------------------------------------------------------------
  // The component state
  // ---------------------------------------------------------------------------

  /** The request a form submission sends, if any. */
  datatype Request = LoginRequest(email: string, password: string)
                   | RegisterRequest(name: string, email: string, password: string)
                   | NoRequest

  class LoginForm {
    var email: string
    var password: string
    var name: string
    var isRegister: bool
    var message: Option<Notice>

    constructor ()
      ensures email == "" && password == "" && name == "" && !isRegister && message == None
    {
      email := "";
      password := "";
      name := "";
      isRegister := false;
      message := None;
    }

    /** The inputs' change handlers. */
    method Edit(newName: string, newEmail: string, newPassword: string)
      modifies this`name, this`email, this`password
      ensures name == newName && email == newEmail && password == newPassword
    {
      name, email, password := newName, newEmail, newPassword;
    }

    /** The message listener: returns the `onLogin` call it makes, if any. */
    method OnAuthMessage(origin: string, data: Server.Payload) returns (login: Option<LoginCall>)
      modifies this`message
      ensures Dispatch(origin, data).CallOnLogin? ==> login == Some(Dispatch(origin, data).call) && message == old(message)
      ensures Dispatch(origin, data).ShowError? ==>
        login == None && message == Some(Notice(ErrorNotice, Dispatch(origin, data).text))
      ensures Dispatch(origin, data).Ignore? ==> login == None && message == old(message)
    {
      var action := Dispatch(origin, data);
      login := None;
      match action
      case CallOnLogin(call) =>
        login := Some(call);
      case ShowError(text) =>
        message := Some(Notice(ErrorNotice, text));
      case Ignore =>
    }

    /** `handleLogin` up to the request: the message is cleared, then the fields are checked. */
    method SubmitLogin() returns (request: Request)
      modifies this`message
      ensures LoginFieldsFilled(email, password) ==> request == LoginRequest(email, password) && message == None
      ensures !LoginFieldsFilled(email, password) ==>
        request == NoRequest && message == Some(Notice(ErrorNotice, FillAllFields))
    {
      message := None;
      if email == "" || password == "" {
        message := Some(Notice(ErrorNotice, FillAllFields));
        return NoRequest;
      }
      return LoginRequest(email, password);
    }

    /** The rest of `handleLogin`: returns the `onLogin` call it makes, if any. */
    method ReceiveLogin(reply: Reply) returns (login: Option<LoginCall>)
      modifies this`message
      ensures ReplyOk(reply) ==> login == Some(LoginCall(reply.body.token, reply.body.user)) && message == old(message)
      ensures !ReplyOk(reply) ==> login == None && message == Some(Notice(ErrorNotice, LoginReplyAction(reply).text))
    {
      login := None;
      match LoginReplyAction(reply)
      case CallOnLogin(call) =>
        login := Some(call);
      case ShowError(text) =>
        message := Some(Notice(ErrorNotice, text));
      case Ignore =>
    }

    /** `handleRegister` up to the request. */
    method SubmitRegister() returns (request: Request)
      modifies this`message
      ensures RegisterFieldsFilled(name, email, password) ==>
        request == RegisterRequest(name, email, password) && message == None
      ensures !RegisterFieldsFilled(name, email, password) ==>
        request == NoRequest && message == Some(Notice(ErrorNotice, FillAllFields))
    {
      message := None;
      if name == "" || email == "" || password == "" {
        message := Some(Notice(ErrorNotice, FillAllFields));
        return NoRequest;
      }
      return RegisterRequest(name, email, password);
    }

    /** The rest of `handleRegister`: a success switches to the login tab. */
    method ReceiveRegister(reply: Reply)
      modifies this`message, this`isRegister
      ensures message == Some(RegisterReplyNotice(reply))
      ensures isRegister == (if ReplyOk(reply) then false else old(isRegister))
    {
      message := Some(RegisterReplyNotice(reply));
      if ReplyOk(reply) {
        isRegister := false;
      }
    }

    /** The form's submit handler: registration on the register tab, login otherwise. */
    method SubmitForm() returns (request: Request)
      modifies this`message
      ensures isRegister && RegisterFieldsFilled(name, email, password) ==> request == RegisterRequest(name, email, password)
      ensures !isRegister && LoginFieldsFilled(email, password) ==> request == LoginRequest(email, password)
      ensures request.NoRequest? <==>
        (if isRegister then !RegisterFieldsFilled(name, email, password) else !LoginFieldsFilled(email, password))
      ensures request.NoRequest? ==> message == Some(Notice(ErrorNotice, FillAllFields))
      ensures !request.NoRequest? ==> message == None
    {
      if isRegister {
        request := SubmitRegister();
      } else {
        request := SubmitLogin();
      }
    }

    /** The tab switch: flips between login and registration and clears the message. */
    method ToggleTab()
      modifies this`isRegister, this`message
      ensures isRegister == !old(isRegister) && message == None
    {
      isRegister := !isRegister;
      message := None;
    }
  }
}
