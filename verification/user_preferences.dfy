/**
 * The session store: one private key-value bucket holding the user id, the bearer
 * token, the display name and the email. A missing key reads as a typed default
 * (-1 for the id, null for the strings); nothing here ever fails.
 */
module Preferences {
  import opened Common

  const KEY_USER_ID := "user_id"
  const KEY_TOKEN := "auth_token"
  const KEY_NAME := "user_name"
  const KEY_EMAIL := "user_email"

  /** The sentinel `getUserId` returns when no id is stored. */
  const NO_USER_ID: Long := -1

  /** A stored preference value: `putLong` or `putString`. */
  datatype PrefValue = LongPref(n: Long) | StringPref(s: string)

  /** The four session fields as the getters report them. */
  datatype Session = Session(userId: Long, token: Option<string>, name: Option<string>, email: Option<string>)

  /** The session of an empty bucket. */
  const EMPTY_SESSION := Session(NO_USER_ID, None, None, None)

  /** Each session key holds the kind of value its getter reads back. */
  ghost predicate WellTyped(m: map<string, PrefValue>) {
    && (KEY_USER_ID in m ==> m[KEY_USER_ID].LongPref?)
    && (KEY_TOKEN in m ==> m[KEY_TOKEN].StringPref?)
    && (KEY_NAME in m ==> m[KEY_NAME].StringPref?)
    && (KEY_EMAIL in m ==> m[KEY_EMAIL].StringPref?)
  }

  /** `prefs.getLong(KEY_USER_ID, -1L)`. */
  function UserIdIn(m: map<string, PrefValue>): Long
    requires WellTyped(m)
  {
    if KEY_USER_ID in m then m[KEY_USER_ID].n else NO_USER_ID
  }

  /** `prefs.getString(key, null)`. */
  function StringIn(m: map<string, PrefValue>, key: string): Option<string>
    requires key in m ==> m[key].StringPref?
  {
    if key in m then Some(m[key].s) else None
  }

  function SessionOf(m: map<string, PrefValue>): Session
    requires WellTyped(m)
  {
    Session(UserIdIn(m), StringIn(m, KEY_TOKEN), StringIn(m, KEY_NAME), StringIn(m, KEY_EMAIL))
  }

  /** With nothing stored, every getter returns its default. */
  lemma NothingStoredReadsDefaults()
    ensures SessionOf(map[]) == EMPTY_SESSION
  {
  }

  class UserPreferences {
    /** The SharedPreferences bucket, kept in memory. */
    var prefs: map<string, PrefValue>

    ghost predicate Valid()
      reads this
    {
      WellTyped(prefs)
    }

    /** Opens the bucket with whatever was persisted before. */
    constructor (stored: map<string, PrefValue>)
      requires WellTyped(stored)
      ensures Valid() && prefs == stored
    {
      prefs := stored;
    }

    /** The session as the four getters currently report it. */
    function View(): Session
      reads this
      requires Valid()
    {
      SessionOf(prefs)
    }

    method SaveUserId(userId: Long)
      requires Valid()
      modifies this
      ensures Valid()
      ensures prefs == old(prefs)[KEY_USER_ID := LongPref(userId)]
      ensures View() == old(View()).(userId := userId)
    {
      prefs := prefs[KEY_USER_ID := LongPref(userId)];
    }

    function GetUserId(): (id: Long)
      reads this
      requires Valid()
      ensures KEY_USER_ID !in prefs ==> id == NO_USER_ID
      ensures KEY_USER_ID in prefs ==> id == prefs[KEY_USER_ID].n
    {
      UserIdIn(prefs)
    }

    method SaveToken(token: string)
      requires Valid()
      modifies this
      ensures Valid()
      ensures prefs == old(prefs)[KEY_TOKEN := StringPref(token)]
      ensures View() == old(View()).(token := Some(token))
    {
      prefs := prefs[KEY_TOKEN := StringPref(token)];
    }

    function GetToken(): (token: Option<string>)
      reads this
      requires Valid()
      ensures KEY_TOKEN !in prefs ==> token == None
      ensures KEY_TOKEN in prefs ==> token == Some(prefs[KEY_TOKEN].s)
    {
      StringIn(prefs, KEY_TOKEN)
    }

    method SaveName(name: string)
      requires Valid()
      modifies this
      ensures Valid()
      ensures prefs == old(prefs)[KEY_NAME := StringPref(name)]
      ensures View() == old(View()).(name := Some(name))
    {
      prefs := prefs[KEY_NAME := StringPref(name)];
    }

    function GetName(): (name: Option<string>)
      reads this
      requires Valid()
      ensures KEY_NAME !in prefs ==> name == None
      ensures KEY_NAME in prefs ==> name == Some(prefs[KEY_NAME].s)
    {
      StringIn(prefs, KEY_NAME)
    }

    method SaveEmail(email: string)
      requires Valid()
      modifies this
      ensures Valid()
      ensures prefs == old(prefs)[KEY_EMAIL := StringPref(email)]
      ensures View() == old(View()).(email := Some(email))
    {
      prefs := prefs[KEY_EMAIL := StringPref(email)];
    }

    function GetEmail(): (email: Option<string>)
      reads this
      requires Valid()
      ensures KEY_EMAIL !in prefs ==> email == None
      ensures KEY_EMAIL in prefs ==> email == Some(prefs[KEY_EMAIL].s)
    {
      StringIn(prefs, KEY_EMAIL)
    }

    /** Removes only the user id; the token, name and email stay. */
    method ClearUserId()
      requires Valid()
      modifies this
      ensures Valid()
      ensures prefs == old(prefs) - {KEY_USER_ID}
      ensures View() == old(View()).(userId := NO_USER_ID)
      ensures !IsLoggedIn()
    {
      prefs := prefs - {KEY_USER_ID};
    }

    /** Empties the whole bucket: every getter is back at its default. */
    method ClearAll()
      requires Valid()
      modifies this
      ensures Valid()
      ensures prefs == map[]
      ensures View() == EMPTY_SESSION
      ensures !IsLoggedIn()
    {
      prefs := map[];
    }

    /**
     * Logged in exactly when a user id other than -1 and a token are stored;
     * a stored id of -1 counts as logged out.
     */
    function IsLoggedIn(): (b: bool)
      reads this
      requires Valid()
      ensures b <==> KEY_USER_ID in prefs && prefs[KEY_USER_ID].n != NO_USER_ID && KEY_TOKEN in prefs
      ensures b <==> View().userId != NO_USER_ID && View().token.Some?
    {
      GetUserId() != NO_USER_ID && GetToken() != None
    }
  }
}
