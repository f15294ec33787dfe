/**
 * The login screen's state holder: publishes Loading, runs the use case, writes
 * the returned session fields on a successful result, then publishes the result.
 */
module LoginViewModels {
  import opened Common
  import opened Domain
  import opened Preferences
  import opened ViewState
  import UseCases

  class LoginViewModel {
    const useCase: UseCases.LoginUseCase
    const store: UserPreferences
    /** The observable state: None until the first publication. */
    var loginState: Option<Resource<AuthResponse>>
    /** Every publication so far, oldest first. */
    ghost var published: seq<Publication<AuthResponse>>

    constructor (useCase: UseCases.LoginUseCase, store: UserPreferences)
      ensures this.useCase == useCase && this.store == store
      ensures loginState == None && published == []
    {
      this.useCase := useCase;
      this.store := store;
      loginState := None;
      published := [];
    }

    method Publish(state: Resource<AuthResponse>)
      requires store.Valid()
      modifies this
      ensures loginState == Some(state)
      ensures published == old(published) + [Publication(state, store.View(), |useCase.repository.api.loginCalls|)]
    {
      loginState := Some(state);
      published := published + [Publication(state, store.View(), |useCase.repository.api.loginCalls|)];
    }

    /**
     * `login`: Loading is published before the server is reached; the final state
     * is the use case's result as it is; the session is written only on a Success
     * with data, and before that result is published.
     */
    method Login(email: string, password: string)
      requires store.Valid()
      modifies this, store, useCase.repository.api
      ensures store.Valid()
      ensures var result := UseCases.LoginUseCaseResult(email, password, useCase.repository.api.loginReply, useCase.repository.gson);
        && loginState == Some(result)
        && store.prefs == AfterAuth(old(store.prefs), result)
        && published == old(published) + [
             Publication(Loading, old(store.View()), |old(useCase.repository.api.loginCalls)|),
             Publication(result, store.View(), |useCase.repository.api.loginCalls|)]
      ensures useCase.repository.api.loginCalls == old(useCase.repository.api.loginCalls)
        + (if UseCases.LoginRejection(email, password) == None then [LoginRequest(email, password)] else [])
      ensures useCase.repository.api.registerCalls == old(useCase.repository.api.registerCalls)
    {
      Publish(Loading);
      var result := useCase.Invoke(email, password);
      if result.Success? && result.data.Some? {
        SaveAuthFields(store, result.data.value);
      }
      Publish(result);
    }
  }
}
