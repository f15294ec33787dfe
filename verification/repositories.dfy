/**
 * The repositories: each makes one remote call and turns its outcome into a
 * `Resource`, never throwing. Login and register decode an error body for its
 * `message`, each with its own fallbacks; net worth and portfolio return the raw
 * error-body text.
 */
module Repositories {
  import opened Common
  import opened Domain
  import Remote

  const AN_ERROR_OCCURRED := "An error occurred"
  const LOGIN_FAILED := "Login failed"
  const INVALID_CREDENTIALS := "Invalid email or password"
  const REGISTRATION_FAILED := "Registration failed"
  const NET_WORTH_FAILED := "Failed to fetch net worth"
  const PORTFOLIO_FAILED := "Failed to fetch portfolio summary"

  /**
   * What every repository promises of its result: it is never Loading; it is a
   * Success exactly when a 2xx response carried a body, and then holds that body
   * unchanged; an Error always carries a message.
   */
  ghost predicate Settles<T>(o: HttpOutcome<T>, r: Resource<T>) {
    && !r.Loading?
    && (r.Success? <==> Delivered(o))
    && (r.Success? ==> r.data == o.body)
    && (r.Error? ==> r.message.Some?)
  }

  /** The call threw, or reading the error body of a failed response threw, with that exception's message. */
  ghost predicate FailsInTransport<T>(o: HttpOutcome<T>, cause: Option<string>) {
    || o == Threw(cause)
    || (o.Responded? && !Delivered(o) && o.errorBody == ErrorUnreadable(cause))
  }

  /** The message of the outer `catch`: the exception's message, or the generic one. */
  function ThrownMessage(cause: Option<string>): string {
    cause.GetOr(AN_ERROR_OCCURRED)
  }

  /** `AuthRepositoryImpl.login` after the call returned or threw. */
  function LoginResult(o: HttpOutcome<AuthResponse>, gson: string -> ErrorDecoding): (r: Resource<AuthResponse>)
    ensures Settles(o, r)
  {
    match o
    case Threw(cause) => Error(Some(ThrownMessage(cause)))
    case Responded(_, _, errorBody, _) =>
      if Delivered(o) then Success(o.body)
      else match errorBody
        case ErrorUnreadable(cause) => Error(Some(ThrownMessage(cause)))
        case NoErrorBody => Error(Some(LOGIN_FAILED))
        case ErrorText(text) =>
          match gson(text)
          case DecodeFailed => Error(Some(INVALID_CREDENTIALS))
          case Decoded(message) => Error(Some(message.GetOr(LOGIN_FAILED)))
  }

  /** `AuthRepositoryImpl.register` after the call returned or threw. */
  function RegisterResult(o: HttpOutcome<AuthResponse>, gson: string -> ErrorDecoding): (r: Resource<AuthResponse>)
    ensures Settles(o, r)
  {
    match o
    case Threw(cause) => Error(Some(ThrownMessage(cause)))
    case Responded(_, _, errorBody, reasonPhrase) =>
      if Delivered(o) then Success(o.body)
      else match errorBody
        case ErrorUnreadable(cause) => Error(Some(ThrownMessage(cause)))
        case NoErrorBody => Error(Some(reasonPhrase.GetOr(REGISTRATION_FAILED)))
        case ErrorText(text) =>
          match gson(text)
          case DecodeFailed => Error(Some(reasonPhrase.GetOr(REGISTRATION_FAILED)))
          case Decoded(message) => Error(Some(message.GetOr(REGISTRATION_FAILED)))
  }

  /** The shared shape of the net-worth and portfolio repositories. */
  function SummaryResult<T>(o: HttpOutcome<T>, fallback: string): (r: Resource<T>)
    ensures Settles(o, r)
  {
    match o
    case Threw(cause) => Error(Some(ThrownMessage(cause)))
    case Responded(_, _, errorBody, _) =>
      if Delivered(o) then Success(o.body)
      else match errorBody
        case ErrorUnreadable(cause) => Error(Some(ThrownMessage(cause)))
        case NoErrorBody => Error(Some(fallback))
        case ErrorText(text) => Error(Some(text))
  }

  /** `NetWorthRepositoryImpl.getNetWorth` after the call returned or threw. */
  function NetWorthResult(o: HttpOutcome<NetWorthResponse>): (r: Resource<NetWorthResponse>)
    ensures Settles(o, r)
  {
    SummaryResult(o, NET_WORTH_FAILED)
  }

  /** `PortfolioRepositoryImpl.getPortfolioSummary` after the call returned or threw. */
  function PortfolioResult(o: HttpOutcome<PortfolioResponse>): (r: Resource<PortfolioResponse>)
    ensures Settles(o, r)
  {
    SummaryResult(o, PORTFOLIO_FAILED)
  }

  /** A failed login takes its message from the decoded error body, with "Login failed" for a null one. */
  lemma LoginDecodedMessage(o: HttpOutcome<AuthResponse>, gson: string -> ErrorDecoding, m: Option<string>)
    requires o.Responded? && !Delivered(o) && o.errorBody.ErrorText?
    requires gson(o.errorBody.text) == Decoded(m)
    ensures LoginResult(o, gson) == Error(Some(if m.Some? then m.value else LOGIN_FAILED))
  {
  }

  /** Without an error body a failed login says "Login failed"; an undecodable one gives the credentials message. */
  lemma LoginFallbacks(o: HttpOutcome<AuthResponse>, gson: string -> ErrorDecoding)
    requires o.Responded? && !Delivered(o)
    ensures o.errorBody.NoErrorBody? ==> LoginResult(o, gson) == Error(Some(LOGIN_FAILED))
    ensures o.errorBody.ErrorText? && gson(o.errorBody.text).DecodeFailed? ==>
      LoginResult(o, gson) == Error(Some(INVALID_CREDENTIALS))
  {
  }

  /** A failed registration takes its message from the decoded error body, with "Registration failed" for a null one. */
  lemma RegisterDecodedMessage(o: HttpOutcome<AuthResponse>, gson: string -> ErrorDecoding, m: Option<string>)
    requires o.Responded? && !Delivered(o) && o.errorBody.ErrorText?
    requires gson(o.errorBody.text) == Decoded(m)
    ensures RegisterResult(o, gson) == Error(Some(if m.Some? then m.value else REGISTRATION_FAILED))
  {
  }

  /**
   * Without an error body, or with one that does not decode, a failed registration
   * reports the reason phrase, or "Registration failed" when there is none.
   */
  lemma RegisterFallbacks(o: HttpOutcome<AuthResponse>, gson: string -> ErrorDecoding)
    requires o.Responded? && !Delivered(o)
    requires o.errorBody.NoErrorBody? || (o.errorBody.ErrorText? && gson(o.errorBody.text).DecodeFailed?)
    ensures RegisterResult(o, gson) == Error(Some(o.reasonPhrase.GetOr(REGISTRATION_FAILED)))
  {
  }

  /**
   * A call that threw, or an error body that could not be read, gives the
   * exception's message or "An error occurred", in all four repositories alike.
   */
  lemma TransportFailures(o: HttpOutcome<AuthResponse>, gson: string -> ErrorDecoding,
                          n: HttpOutcome<NetWorthResponse>, p: HttpOutcome<PortfolioResponse>, cause: Option<string>)
    requires FailsInTransport(o, cause)
    requires FailsInTransport(n, cause)
    requires FailsInTransport(p, cause)
    ensures LoginResult(o, gson) == RegisterResult(o, gson) == Error(Some(ThrownMessage(cause)))
    ensures NetWorthResult(n) == Error(Some(ThrownMessage(cause)))
    ensures PortfolioResult(p) == Error(Some(ThrownMessage(cause)))
    ensures cause == None ==> ThrownMessage(cause) == AN_ERROR_OCCURRED
  {
  }

  /**
   * Login and register differ only in their fallbacks: on a delivered body, a
   * transport failure or an error body that decodes to a message they agree.
   */
  lemma LoginRegisterAgree(o: HttpOutcome<AuthResponse>, gson: string -> ErrorDecoding)
    requires || Delivered(o)
             || o.Threw?
             || o.errorBody.ErrorUnreadable?
             || (o.errorBody.ErrorText? && gson(o.errorBody.text).Decoded? && gson(o.errorBody.text).message.Some?)
    ensures LoginResult(o, gson) == RegisterResult(o, gson)
  {
  }

  /** With a decoded null message the two fallbacks differ. */
  lemma LoginRegisterFallbacksDiffer(o: HttpOutcome<AuthResponse>, gson: string -> ErrorDecoding)
    requires o.Responded? && !Delivered(o) && o.errorBody.ErrorText? && gson(o.errorBody.text) == Decoded(None)
    ensures LoginResult(o, gson) == Error(Some(LOGIN_FAILED))
    ensures RegisterResult(o, gson) == Error(Some(REGISTRATION_FAILED))
    ensures LoginResult(o, gson) != RegisterResult(o, gson)
  {
  }

  /** The summary repositories report the error-body text verbatim, and their own literal without one. */
  lemma SummaryErrorMessages(n: HttpOutcome<NetWorthResponse>, p: HttpOutcome<PortfolioResponse>)
    requires n.Responded? && !Delivered(n) && p.Responded? && !Delivered(p)
    ensures n.errorBody.ErrorText? ==> NetWorthResult(n) == Error(Some(n.errorBody.text))
    ensures n.errorBody.NoErrorBody? ==> NetWorthResult(n) == Error(Some(NET_WORTH_FAILED))
    ensures p.errorBody.ErrorText? ==> PortfolioResult(p) == Error(Some(p.errorBody.text))
    ensures p.errorBody.NoErrorBody? ==> PortfolioResult(p) == Error(Some(PORTFOLIO_FAILED))
  {
  }

  class AuthRepositoryImpl {
    const api: Remote.AuthApiService
    /** The JSON decoder applied to error bodies. */
    const gson: string -> ErrorDecoding

    constructor (api: Remote.AuthApiService, gson: string -> ErrorDecoding)
      ensures this.api == api && this.gson == gson
    {
      this.api := api;
      this.gson := gson;
    }

    /** One login round trip, never retried. */
    method Login(request: LoginRequest) returns (r: Resource<AuthResponse>)
      modifies api
      ensures api.loginCalls == old(api.loginCalls) + [request] && api.registerCalls == old(api.registerCalls)
      ensures r == LoginResult(api.loginReply(request), gson)
    {
      var o := api.Login(request);
      r := LoginResult(o, gson);
    }

    /** One registration round trip, never retried. */
    method Register(request: RegisterRequest) returns (r: Resource<AuthResponse>)
      modifies api
      ensures api.registerCalls == old(api.registerCalls) + [request] && api.loginCalls == old(api.loginCalls)
      ensures r == RegisterResult(api.registerReply(request), gson)
    {
      var o := api.Register(request);
      r := RegisterResult(o, gson);
    }
  }

  class NetWorthRepositoryImpl {
    const api: Remote.NetWorthApiService

    constructor (api: Remote.NetWorthApiService)
      ensures this.api == api
    {
      this.api := api;
    }

    /** One round trip for `userId`, passed on unchanged. */
    method GetNetWorth(userId: Long) returns (r: Resource<NetWorthResponse>)
      modifies api
      ensures api.calls == old(api.calls) + [userId]
      ensures r == NetWorthResult(api.reply(userId))
    {
      var o := api.GetNetWorth(userId);
      r := NetWorthResult(o);
    }
  }

  class PortfolioRepositoryImpl {
    const api: Remote.PortfolioApiService

    constructor (api: Remote.PortfolioApiService)
      ensures this.api == api
    {
      this.api := api;
    }

    /** One round trip for `userId`, passed on unchanged. */
    method GetPortfolioSummary(userId: Long) returns (r: Resource<PortfolioResponse>)
      modifies api
      ensures api.calls == old(api.calls) + [userId]
      ensures r == PortfolioResult(api.reply(userId))
    {
      var o := api.GetPortfolioSummary(userId);
      r := PortfolioResult(o);
    }
  }
}
