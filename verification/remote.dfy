/**
 * The remote endpoints. Each service is a stand-in for the Retrofit interface: the
 * server's answer is a fixed function of the request, and every call is recorded,
 * so that callers can state how many round trips they made and with what.
 */
module Remote {
  import opened Common
  import opened Domain

  /** `POST api/auth/login` and `POST api/auth/register`. */
  class AuthApiService {
    const loginReply: LoginRequest -> HttpOutcome<AuthResponse>
    const registerReply: RegisterRequest -> HttpOutcome<AuthResponse>
    var loginCalls: seq<LoginRequest>
    var registerCalls: seq<RegisterRequest>

    constructor (loginReply: LoginRequest -> HttpOutcome<AuthResponse>,
                 registerReply: RegisterRequest -> HttpOutcome<AuthResponse>)
      ensures this.loginReply == loginReply && this.registerReply == registerReply
      ensures loginCalls == [] && registerCalls == []
    {
      this.loginReply := loginReply;
      this.registerReply := registerReply;
      loginCalls, registerCalls := [], [];
    }

    method Login(request: LoginRequest) returns (o: HttpOutcome<AuthResponse>)
      modifies this
      ensures loginCalls == old(loginCalls) + [request] && registerCalls == old(registerCalls)
      ensures o == loginReply(request)
    {
      loginCalls := loginCalls + [request];
      o := loginReply(request);
    }

    method Register(request: RegisterRequest) returns (o: HttpOutcome<AuthResponse>)
      modifies this
      ensures registerCalls == old(registerCalls) + [request] && loginCalls == old(loginCalls)
      ensures o == registerReply(request)
    {
      registerCalls := registerCalls + [request];
      o := registerReply(request);
    }
  }

  /** `GET api/v1/net-worth/{userId}`. */
  class NetWorthApiService {
    const reply: Long -> HttpOutcome<NetWorthResponse>
    var calls: seq<Long>

    constructor (reply: Long -> HttpOutcome<NetWorthResponse>)
      ensures this.reply == reply && calls == []
    {
      this.reply := reply;
      calls := [];
    }

    method GetNetWorth(userId: Long) returns (o: HttpOutcome<NetWorthResponse>)
      modifies this
      ensures calls == old(calls) + [userId]
      ensures o == reply(userId)
    {
      calls := calls + [userId];
      o := reply(userId);
    }
  }

  /** `GET api/v1/portfolio/summary/{userId}`. */
  class PortfolioApiService {
    const reply: Long -> HttpOutcome<PortfolioResponse>
    var calls: seq<Long>

    constructor (reply: Long -> HttpOutcome<PortfolioResponse>)
      ensures this.reply == reply && calls == []
    {
      this.reply := reply;
      calls := [];
    }

    method GetPortfolioSummary(userId: Long) returns (o: HttpOutcome<PortfolioResponse>)
      modifies this
      ensures calls == old(calls) + [userId]
      ensures o == reply(userId)
    {
      calls := calls + [userId];
      o := reply(userId);
    }
  }
}
