/**
 * The profile screen's state holder: the dark-mode flag, and the user's name and
 * email read from the session store with guest defaults; logout clears the store.
 */
module ProfileViewModels {
  import opened Common
  import opened Preferences

  const GUEST_NAME := "Guest User"
  const GUEST_EMAIL := "guest@example.com"

  /** The theme store the dark-mode switch writes to; only its writes are modelled. */
  class ThemePreferences {
    /** Every value passed to `setDarkMode`, oldest first. */
    var writes: seq<bool>

    constructor ()
      ensures writes == []
    {
      writes := [];
    }

    method SetDarkMode(enabled: bool)
      modifies this
      ensures writes == old(writes) + [enabled]
    {
      writes := writes + [enabled];
    }
  }

  /** The name shown on the profile: the stored one, or the guest name. */
  function DisplayName(s: Session): (name: string)
    ensures s.name.Some? ==> name == s.name.value
    ensures s.name == None ==> name == GUEST_NAME
  {
    s.name.GetOr(GUEST_NAME)
  }

  /** The email shown on the profile: the stored one, or the guest email. */
  function DisplayEmail(s: Session): (email: string)
    ensures s.email.Some? ==> email == s.email.value
    ensures s.email == None ==> email == GUEST_EMAIL
  {
    s.email.GetOr(GUEST_EMAIL)
  }

  class ProfileViewModel {
    const themePreferences: ThemePreferences
    const store: UserPreferences
    var isDarkMode: bool
    var userName: string
    var userEmail: string
    /** Every value the name and the email state held, oldest first. */
    ghost var nameHistory: seq<string>
    ghost var emailHistory: seq<string>

    /**
     * Starts as a light-mode guest, then loads the stored name and email, each
     * falling back to its guest default.
     */
    constructor (themePreferences: ThemePreferences, store: UserPreferences)
      requires store.Valid()
      ensures this.themePreferences == themePreferences && this.store == store
      ensures !isDarkMode
      ensures userName == DisplayName(store.View()) && userEmail == DisplayEmail(store.View())
      ensures nameHistory == [GUEST_NAME, userName] && emailHistory == [GUEST_EMAIL, userEmail]
    {
      this.themePreferences := themePreferences;
      this.store := store;
      isDarkMode := false;
      userName := GUEST_NAME;
      userEmail := GUEST_EMAIL;
      nameHistory := [GUEST_NAME];
      emailHistory := [GUEST_EMAIL];
      new;
      LoadUserData();
    }

    method LoadUserData()
      requires store.Valid()
      modifies this
      ensures isDarkMode == old(isDarkMode)
      ensures userName == DisplayName(store.View()) && userEmail == DisplayEmail(store.View())
      ensures nameHistory == old(nameHistory) + [userName] && emailHistory == old(emailHistory) + [userEmail]
    {
      var name := store.GetName().GetOr(GUEST_NAME);
      var email := store.GetEmail().GetOr(GUEST_EMAIL);
      userName := name;
      userEmail := email;
      nameHistory := nameHistory + [name];
      emailHistory := emailHistory + [email];
    }

    /** Forwards the switch position to the theme store unchanged. */
    method ToggleDarkMode(enabled: bool)
      modifies themePreferences
      ensures themePreferences.writes == old(themePreferences.writes) + [enabled]
    {
      themePreferences.SetDarkMode(enabled);
    }

    /** Clears the whole session store, so the user is no longer logged in. */
    method Logout()
      requires store.Valid()
      modifies store
      ensures store.Valid()
      ensures store.prefs == map[] && store.View() == EMPTY_SESSION
      ensures !store.IsLoggedIn()
    {
      store.ClearAll();
    }
  }
}
