/**
 * The login and register use cases: ordered blank-field checks with fixed
 * messages, the first failing check wins, and only when every check passes is
 * the repository called, once, with the fields exactly as given.
 */
module UseCases {
  import opened Common
  import opened Text
  import opened Domain
  import Repositories

  const NAME_EMPTY := "Name cannot be empty"
  const EMAIL_EMPTY := "Email cannot be empty"
  const PASSWORD_EMPTY := "Password cannot be empty"

  /** The position of the first blank field, or the number of fields when none is blank. */
  function FirstBlank(fields: seq<string>): (k: nat)
    ensures k <= |fields|
    ensures forall j :: 0 <= j < k ==> !IsBlank(fields[j])
    ensures k < |fields| ==> IsBlank(fields[k])
  {
    if fields == [] then 0
    else if IsBlank(fields[0]) then 0
    else 1 + FirstBlank(fields[1..])
  }

  /**
   * Checks run in order, each guarding one field with one message: the message of
   * the first blank field, or None when every field passes.
   */
  function Rejection(fields: seq<string>, messages: seq<string>): (m: Option<string>)
    requires |fields| == |messages|
    ensures m == None <==> forall j :: 0 <= j < |fields| ==> !IsBlank(fields[j])
    ensures m.Some? ==> m.value in messages
    ensures forall k :: 0 <= k < |fields| && IsBlank(fields[k]) && (forall j :: 0 <= j < k ==> !IsBlank(fields[j]))
                        ==> m == Some(messages[k])
  {
    var k := FirstBlank(fields);
    if k < |fields| then Some(messages[k]) else None
  }

  /** `LoginUseCase`'s guards: email, then password. */
  function LoginRejection(email: string, password: string): (m: Option<string>)
    ensures m == None <==> !IsBlank(email) && !IsBlank(password)
    ensures m.Some? ==> m.value == EMAIL_EMPTY || m.value == PASSWORD_EMPTY
  {
    var fields := [email, password];
    assert fields[0] == email && fields[1] == password;
    Rejection(fields, [EMAIL_EMPTY, PASSWORD_EMPTY])
  }

  /** `RegisterUseCase`'s guards: name, then email, then password; the mobile number is not checked. */
  function RegisterRejection(name: string, email: string, password: string): (m: Option<string>)
    ensures m == None <==> !IsBlank(name) && !IsBlank(email) && !IsBlank(password)
    ensures m.Some? ==> m.value == NAME_EMPTY || m.value == EMAIL_EMPTY || m.value == PASSWORD_EMPTY
  {
    var fields := [name, email, password];
    assert fields[0] == name && fields[1] == email && fields[2] == password;
    Rejection(fields, [NAME_EMPTY, EMAIL_EMPTY, PASSWORD_EMPTY])
  }

  /** The login use case's result, given the server's replies and the error-body decoder. */
  function LoginUseCaseResult(email: string, password: string,
                              reply: LoginRequest -> HttpOutcome<AuthResponse>,
                              gson: string -> ErrorDecoding): (r: Resource<AuthResponse>)
    ensures !r.Loading?
    ensures r.Error? ==> r.message.Some?
    ensures r.Success? <==> LoginRejection(email, password) == None && Delivered(reply(LoginRequest(email, password)))
  {
    match LoginRejection(email, password)
    case Some(m) => Error(Some(m))
    case None => Repositories.LoginResult(reply(LoginRequest(email, password)), gson)
  }

  /** The register use case's result, given the server's replies and the error-body decoder. */
  function RegisterUseCaseResult(name: string, email: string, mobileNumber: string, password: string,
                                 reply: RegisterRequest -> HttpOutcome<AuthResponse>,
                                 gson: string -> ErrorDecoding): (r: Resource<AuthResponse>)
    ensures !r.Loading?
    ensures r.Error? ==> r.message.Some?
    ensures r.Success? <==>
      RegisterRejection(name, email, password) == None && Delivered(reply(RegisterRequest(name, email, mobileNumber, password)))
  {
    match RegisterRejection(name, email, password)
    case Some(m) => Error(Some(m))
    case None => Repositories.RegisterResult(reply(RegisterRequest(name, email, mobileNumber, password)), gson)
  }

  /** The email check comes first, so it wins when both fields are blank. */
  lemma LoginChecks(email: string, password: string)
    ensures IsBlank(email) ==> LoginRejection(email, password) == Some(EMAIL_EMPTY)
    ensures !IsBlank(email) && IsBlank(password) ==> LoginRejection(email, password) == Some(PASSWORD_EMPTY)
    ensures LoginRejection(email, password) == None <==> !IsBlank(email) && !IsBlank(password)
  {
    assert [email, password][0] == email && [email, password][1] == password;
  }

  /** Name, then email, then password; whatever the mobile number, it plays no part. */
  lemma RegisterChecks(name: string, email: string, password: string)
    ensures IsBlank(name) ==> RegisterRejection(name, email, password) == Some(NAME_EMPTY)
    ensures !IsBlank(name) && IsBlank(email) ==> RegisterRejection(name, email, password) == Some(EMAIL_EMPTY)
    ensures !IsBlank(name) && !IsBlank(email) && IsBlank(password) ==>
      RegisterRejection(name, email, password) == Some(PASSWORD_EMPTY)
    ensures RegisterRejection(name, email, password) == None <==> !IsBlank(name) && !IsBlank(email) && !IsBlank(password)
  {
    var fields := [name, email, password];
    assert fields[0] == name && fields[1] == email && fields[2] == password;
  }

  /** A rejected login does not depend on the server at all; an accepted one is the repository's result unmodified. */
  lemma LoginDelegation(email: string, password: string,
                        reply1: LoginRequest -> HttpOutcome<AuthResponse>,
                        reply2: LoginRequest -> HttpOutcome<AuthResponse>,
                        gson: string -> ErrorDecoding)
    ensures LoginRejection(email, password).Some? ==>
      LoginUseCaseResult(email, password, reply1, gson) == LoginUseCaseResult(email, password, reply2, gson)
    ensures LoginRejection(email, password) == None ==>
      LoginUseCaseResult(email, password, reply1, gson)
        == Repositories.LoginResult(reply1(LoginRequest(email, password)), gson)
  {
  }

  /** A rejected registration does not depend on the server; an accepted one is the repository's result unmodified. */
  lemma RegisterDelegation(name: string, email: string, mobileNumber: string, password: string,
                           reply1: RegisterRequest -> HttpOutcome<AuthResponse>,
                           reply2: RegisterRequest -> HttpOutcome<AuthResponse>,
                           gson: string -> ErrorDecoding)
    ensures RegisterRejection(name, email, password).Some? ==>
      RegisterUseCaseResult(name, email, mobileNumber, password, reply1, gson)
        == RegisterUseCaseResult(name, email, mobileNumber, password, reply2, gson)
    ensures RegisterRejection(name, email, password) == None ==>
      RegisterUseCaseResult(name, email, mobileNumber, password, reply1, gson)
        == Repositories.RegisterResult(reply1(RegisterRequest(name, email, mobileNumber, password)), gson)
  {
  }

  class LoginUseCase {
    const repository: Repositories.AuthRepositoryImpl

    constructor (repository: Repositories.AuthRepositoryImpl)
      ensures this.repository == repository
    {
      this.repository := repository;
    }

    /** `invoke`: the server is reached exactly when both checks pass, and then exactly once. */
    method Invoke(email: string, password: string) returns (r: Resource<AuthResponse>)
      modifies repository.api
      ensures r == LoginUseCaseResult(email, password, repository.api.loginReply, repository.gson)
      ensures repository.api.loginCalls ==
        old(repository.api.loginCalls) + (if LoginRejection(email, password) == None then [LoginRequest(email, password)] else [])
      ensures repository.api.registerCalls == old(repository.api.registerCalls)
    {
      LoginChecks(email, password);
      if IsBlank(email) {
        return Error(Some(EMAIL_EMPTY));
      }
      if IsBlank(password) {
        return Error(Some(PASSWORD_EMPTY));
      }
      r := repository.Login(LoginRequest(email, password));
    }
  }

  class RegisterUseCase {
    const repository: Repositories.AuthRepositoryImpl

    constructor (repository: Repositories.AuthRepositoryImpl)
      ensures this.repository == repository
    {
      this.repository := repository;
    }

    /** `invoke`: the server is reached exactly when the three checks pass, and then exactly once. */
    method Invoke(name: string, email: string, mobileNumber: string, password: string) returns (r: Resource<AuthResponse>)
      modifies repository.api
      ensures r == RegisterUseCaseResult(name, email, mobileNumber, password, repository.api.registerReply, repository.gson)
      ensures repository.api.registerCalls ==
        old(repository.api.registerCalls)
          + (if RegisterRejection(name, email, password) == None then [RegisterRequest(name, email, mobileNumber, password)] else [])
      ensures repository.api.loginCalls == old(repository.api.loginCalls)
    {
      RegisterChecks(name, email, password);
      if IsBlank(name) {
        return Error(Some(NAME_EMPTY));
      }
      if IsBlank(email) {
        return Error(Some(EMAIL_EMPTY));
      }
      if IsBlank(password) {
        return Error(Some(PASSWORD_EMPTY));
      }
      r := repository.Register(RegisterRequest(name, email, mobileNumber, password));
    }
  }
}
