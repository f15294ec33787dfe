/**
 * What the view-state holders share: the log of published states, and the
 * session writes the login and register holders make after a successful result.
 */
module ViewState {
  import opened Common
  import opened Domain
  import opened Preferences

  /**
   * One publication to the observable state: the state published, the session
   * as the store reported it at that moment, and how many calls the holder's
   * endpoint had received by then.
   */
  datatype Publication<T> = Publication(state: Resource<T>, session: Session, serverCalls: nat)

  /** `x?.let { save(it) }`: a stored value is replaced only by a non-null one. */
  function Overwrite<T>(stored: Option<T>, incoming: Option<T>): Option<T> {
    if incoming.Some? then incoming else stored
  }

  /** The bucket after saving the token, user id, name and email of `d` that are not null, in that order. */
  function StoreAuth(m: map<string, PrefValue>, d: AuthResponse): (m': map<string, PrefValue>)
    requires WellTyped(m)
    ensures WellTyped(m')
  {
    var m1 := if d.token.Some? then m[KEY_TOKEN := StringPref(d.token.value)] else m;
    var m2 := if d.userId.Some? then m1[KEY_USER_ID := LongPref(d.userId.value)] else m1;
    var m3 := if d.name.Some? then m2[KEY_NAME := StringPref(d.name.value)] else m2;
    if d.email.Some? then m3[KEY_EMAIL := StringPref(d.email.value)] else m3
  }

  /** The bucket after a login or register result: only a Success with data writes anything. */
  function AfterAuth(m: map<string, PrefValue>, r: Resource<AuthResponse>): (m': map<string, PrefValue>)
    requires WellTyped(m)
    ensures WellTyped(m')
  {
    if r.Success? && r.data.Some? then StoreAuth(m, r.data.value) else m
  }

  /**
   * Each non-null field of the response replaces the stored one, each null field
   * leaves the stored value as it was, and keys outside the session are untouched.
   */
  lemma StoreAuthSession(m: map<string, PrefValue>, d: AuthResponse)
    requires WellTyped(m)
    ensures SessionOf(StoreAuth(m, d)) ==
      Session(d.userId.GetOr(UserIdIn(m)),
              Overwrite(SessionOf(m).token, d.token),
              Overwrite(SessionOf(m).name, d.name),
              Overwrite(SessionOf(m).email, d.email))
    ensures forall k :: k in m && k !in {KEY_USER_ID, KEY_TOKEN, KEY_NAME, KEY_EMAIL} ==>
      k in StoreAuth(m, d) && StoreAuth(m, d)[k] == m[k]
  {
  }

  /** A login or register Error (or Loading, or a Success without data) writes nothing. */
  lemma NoWritesWithoutData(m: map<string, PrefValue>, r: Resource<AuthResponse>)
    requires WellTyped(m)
    requires !(r.Success? && r.data.Some?)
    ensures AfterAuth(m, r) == m
  {
  }

  /** A response carrying all four fields replaces the whole session, whatever was stored before. */
  lemma FullResponseReplacesSession(m: map<string, PrefValue>, d: AuthResponse)
    requires WellTyped(m)
    requires d.userId.Some? && d.token.Some? && d.name.Some? && d.email.Some?
    ensures SessionOf(AfterAuth(m, Success(Some(d)))) == Session(d.userId.value, d.token, d.name, d.email)
  {
    StoreAuthSession(m, d);
  }

  /**
   * After a successful result carrying a token and a user id other than -1 the
   * session counts as logged in; a result carrying the id -1 stores it and leaves
   * the session logged out.
   */
  lemma SuccessfulAuthLogsIn(m: map<string, PrefValue>, d: AuthResponse)
    requires WellTyped(m)
    requires d.userId.Some? && d.token.Some?
    ensures var s := SessionOf(AfterAuth(m, Success(Some(d))));
      (s.userId != NO_USER_ID && s.token.Some?) <==> d.userId.value != NO_USER_ID
  {
    StoreAuthSession(m, d);
  }

  /** The holders' session writes, in the source's order. */
  method SaveAuthFields(store: UserPreferences, d: AuthResponse)
    requires store.Valid()
    modifies store
    ensures store.Valid()
    ensures store.prefs == StoreAuth(old(store.prefs), d)
  {
    if d.token.Some? {
      store.SaveToken(d.token.value);
    }
    if d.userId.Some? {
      store.SaveUserId(d.userId.value);
    }
    if d.name.Some? {
      store.SaveName(d.name.value);
    }
    if d.email.Some? {
      store.SaveEmail(d.email.value);
    }
  }

  /** What a data screen shows for its holder's state (None before the first publication). */
  datatype ScreenContent<T> = ShowLoading | ShowContent(data: T) | ShowNothing | ShowError(message: string)

  /**
   * The screens' `when` over the state: Loading and "no state yet" show the
   * spinner, a Success shows its data (or nothing when it has none), and an Error
   * shows its message or the screen's fallback.
   */
  function Render<T>(state: Option<Resource<T>>, fallback: string): (v: ScreenContent<T>)
    ensures v.ShowLoading? <==> state == None || state == Some(Loading)
    ensures v.ShowContent? <==> state.Some? && state.value.Success? && state.value.data.Some?
    ensures v.ShowContent? ==> v.data == state.value.data.value
    ensures v.ShowError? <==> state.Some? && state.value.Error?
    ensures v.ShowError? ==> v.message == state.value.message.GetOr(fallback)
  {
    match state
    case None => ShowLoading
    case Some(Loading) => ShowLoading
    case Some(Success(data)) => if data.Some? then ShowContent(data.value) else ShowNothing
    case Some(Error(message)) => ShowError(message.GetOr(fallback))
  }
}
