/** POST /auth/login: both credentials must be present, the auth service's
    falsy answer is a 401, its result a 200, and an exception a 500. The auth
    service is a function parameter: what it returns (a session or nothing)
    or throws for the credentials it is given. */
module AuthController {
  import opened Js
  import opened Logging
  import opened Http

  const CredentialsRequired := "Email and password are required"
  const InvalidCredentials := "Invalid credentials"

  /** The arguments handed to the auth service's login. */
  datatype Credentials = Credentials(email: string, password: string)

  function LoginOutcome<S>(email: Option<string>, password: Option<string>,
                           login: Credentials -> Outcome<Option<S>>): (h: Handled<Credentials, S>)
    ensures Consistent(h)
    ensures h.audit.route == "/auth/login" && h.audit.httpMethod == "POST"
    ensures h.serviceCall.None? <==> !Truthy(email) || !Truthy(password)
    ensures h.serviceCall.None? ==> h.reply == Reply(400, ErrorJson(CredentialsRequired))
    ensures h.serviceCall.Some? ==> h.serviceCall.value == Credentials(email.value, password.value)
    ensures h.serviceCall.Some? && login(h.serviceCall.value) == Returned(None) ==>
      h.reply == Reply(401, ErrorJson(InvalidCredentials))
    ensures h.serviceCall.Some? && login(h.serviceCall.value).Returned?
            && login(h.serviceCall.value).value.Some? ==>
      h.reply == Reply(200, Json(login(h.serviceCall.value).value.value))
    ensures h.serviceCall.Some? && login(h.serviceCall.value).Threw? ==>
      h.reply.status == 500 && h.audit.errorMessage == Some(login(h.serviceCall.value).message)
  {
    if !Truthy(email) || !Truthy(password) then
      Rejected(None, "/auth/login", "POST", 400, CredentialsRequired)
    else
      var call := Credentials(email.value, password.value);
      match login(call)
      case Returned(Some(session)) => Succeeded(Some(call), "/auth/login", "POST", 200, session)
      case Returned(None) => Rejected(Some(call), "/auth/login", "POST", 401, InvalidCredentials)
      case Threw(m) => Failed(Some(call), "/auth/login", "POST", m)
  }

  /** The reply depends on the auth service only once both credentials are
      present: with one missing, any two services give the same outcome. */
  lemma MissingCredentialsIgnoreService<S>(email: Option<string>, password: Option<string>,
                                           login1: Credentials -> Outcome<Option<S>>,
                                           login2: Credentials -> Outcome<Option<S>>)
    requires !Truthy(email) || !Truthy(password)
    ensures LoginOutcome(email, password, login1) == LoginOutcome(email, password, login2)
  {
  }

  /** The login handler: the counter goes up by one and the entry line is
      written before the credentials are looked at; the rest is the path
      `LoginOutcome` chose. */
  method Login<S>(logger: Logger, email: Option<string>, password: Option<string>,
                  login: Credentials -> Outcome<Option<S>>, durationMs: nat, sinkAccepts: bool)
    returns (reply: Reply<S>)
    modifies logger
    ensures reply == LoginOutcome(email, password, login).reply
    ensures Served(logger, LoginOutcome(email, password, login), durationMs, sinkAccepts)
  {
    var requestCount := logger.IncrementRequestCount();
    logger.Info();
    reply := Complete(logger, LoginOutcome(email, password, login), durationMs, sinkAccepts);
  }
}
