/**
 * The net-worth screen's state holder: loads once on construction and again on
 * each refresh; a stored user id of -1 short-circuits to "User not logged in".
 */
module NetWorthViewModels {
  import opened Common
  import opened Domain
  import opened Preferences
  import opened ViewState
  import Repositories

  const USER_NOT_LOGGED_IN := "User not logged in"

  /** The terminal state of one load, given the stored user id and the server's replies. */
  function LoadResult(userId: Long, reply: Long -> HttpOutcome<NetWorthResponse>): (r: Resource<NetWorthResponse>)
    ensures !r.Loading?
    ensures userId == NO_USER_ID ==> r == Error(Some(USER_NOT_LOGGED_IN))
    ensures userId != NO_USER_ID ==> Repositories.Settles(reply(userId), r)
  {
    if userId == NO_USER_ID then Error(Some(USER_NOT_LOGGED_IN))
    else Repositories.NetWorthResult(reply(userId))
  }

  class NetWorthViewModel {
    /** The repository behind the pass-through `GetNetWorthUseCase`. */
    const repository: Repositories.NetWorthRepositoryImpl
    const store: UserPreferences
    /** The observable state: None until the first publication. */
    var netWorthState: Option<Resource<NetWorthResponse>>
    /** Every publication so far, oldest first. */
    ghost var published: seq<Publication<NetWorthResponse>>

    /** Construction runs exactly one load. */
    constructor (repository: Repositories.NetWorthRepositoryImpl, store: UserPreferences)
      requires store.Valid()
      modifies repository.api
      ensures this.repository == repository && this.store == store
      ensures var result := LoadResult(store.GetUserId(), repository.api.reply);
        && netWorthState == Some(result)
        && published == [Publication(Loading, store.View(), |old(repository.api.calls)|),
                         Publication(result, store.View(), |repository.api.calls|)]
      ensures repository.api.calls == old(repository.api.calls)
        + (if store.GetUserId() == NO_USER_ID then [] else [store.GetUserId()])
    {
      this.repository := repository;
      this.store := store;
      netWorthState := None;
      published := [];
      new;
      LoadNetWorth();
    }

    method Publish(state: Resource<NetWorthResponse>)
      requires store.Valid()
      modifies this
      ensures netWorthState == Some(state)
      ensures published == old(published) + [Publication(state, store.View(), |repository.api.calls|)]
    {
      netWorthState := Some(state);
      published := published + [Publication(state, store.View(), |repository.api.calls|)];
    }

    /**
     * `loadNetWorth`: Loading first, then one terminal state. Only the user
     * id is checked: with -1 the server is not reached; otherwise it is reached
     * once with that id, whether or not a token is stored, and its result is
     * published as it is.
     */
    method LoadNetWorth()
      requires store.Valid()
      modifies this, repository.api
      ensures var result := LoadResult(store.GetUserId(), repository.api.reply);
        && netWorthState == Some(result)
        && published == old(published) + [
             Publication(Loading, store.View(), |old(repository.api.calls)|),
             Publication(result, store.View(), |repository.api.calls|)]
      ensures repository.api.calls == old(repository.api.calls)
        + (if store.GetUserId() == NO_USER_ID then [] else [store.GetUserId()])
    {
      Publish(Loading);
      var userId := store.GetUserId();
      if userId == NO_USER_ID {
        Publish(Error(Some(USER_NOT_LOGGED_IN)));
        return;
      }
      var result := repository.GetNetWorth(userId);
      Publish(result);
    }
  }
}
