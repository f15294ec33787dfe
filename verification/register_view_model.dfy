/**
 * The registration screen's state holder: the same shape as the login holder,
 * around the register use case.
 */
module RegisterViewModels {
  import opened Common
  import opened Domain
  import opened Preferences
  import opened ViewState
  import UseCases

  class RegisterViewModel {
    const useCase: UseCases.RegisterUseCase
    const store: UserPreferences
    /** The observable state: None until the first publication. */
    var registerState: Option<Resource<AuthResponse>>
    /** Every publication so far, oldest first. */
    ghost var published: seq<Publication<AuthResponse>>

    constructor (useCase: UseCases.RegisterUseCase, store: UserPreferences)
      ensures this.useCase == useCase && this.store == store
      ensures registerState == None && published == []
    {
      this.useCase := useCase;
      this.store := store;
      registerState := None;
      published := [];
    }

    method Publish(state: Resource<AuthResponse>)
      requires store.Valid()
      modifies this
      ensures registerState == Some(state)
      ensures published == old(published) + [Publication(state, store.View(), |useCase.repository.api.registerCalls|)]
    {
      registerState := Some(state);
      published := published + [Publication(state, store.View(), |useCase.repository.api.registerCalls|)];
    }

    /**
     * `register`: Loading is published before the server is reached; the final
     * state is the use case's result as it is; the session is written only on a
     * Success with data, and before that result is published.
     */
    method Register(name: string, email: string, mobileNumber: string, password: string)
      requires store.Valid()
      modifies this, store, useCase.repository.api
      ensures store.Valid()
      ensures var result := UseCases.RegisterUseCaseResult(name, email, mobileNumber, password,
                                                           useCase.repository.api.registerReply, useCase.repository.gson);
        && registerState == Some(result)
        && store.prefs == AfterAuth(old(store.prefs), result)
        && published == old(published) + [
             Publication(Loading, old(store.View()), |old(useCase.repository.api.registerCalls)|),
             Publication(result, store.View(), |useCase.repository.api.registerCalls|)]
      ensures useCase.repository.api.registerCalls == old(useCase.repository.api.registerCalls)
        + (if UseCases.RegisterRejection(name, email, password) == None
           then [RegisterRequest(name, email, mobileNumber, password)] else [])
      ensures useCase.repository.api.loginCalls == old(useCase.repository.api.loginCalls)
    {
      Publish(Loading);
      var result := useCase.Invoke(name, email, mobileNumber, password);
      if result.Success? && result.data.Some? {
        SaveAuthFields(store, result.data.value);
      }
      Publish(result);
    }
  }
}
