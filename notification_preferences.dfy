/** The preference service: a user's stored notification preference, and
    one of its boolean settings looked up by property name. */
module NotificationPreferences {
  import opened Wrappers

  /** `NotificationPreference`. */
  datatype NotificationPreference = NotificationPreference(
    userName: string, emailEnabled: bool, inAppEnabled: bool, linksEnabled: bool, caseOwner: bool)

  /** The value of a property read by reflection. */
  datatype PropertyValue = StringValue(s: string) | BoolValue(b: bool)

  /** `preference.GetType().GetProperty(name)?.GetValue(preference)`: the
      public properties, matched by exact, case-sensitive name. */
  function GetProperty(preference: NotificationPreference, name: string): (r: Option<PropertyValue>)
    ensures r.Some? <==> name in {"UserName", "EmailEnabled", "InAppEnabled", "LinksEnabled", "CaseOwner"}
  {
    if name == "UserName" then Some(StringValue(preference.userName))
    else if name == "EmailEnabled" then Some(BoolValue(preference.emailEnabled))
    else if name == "InAppEnabled" then Some(BoolValue(preference.inAppEnabled))
    else if name == "LinksEnabled" then Some(BoolValue(preference.linksEnabled))
    else if name == "CaseOwner" then Some(BoolValue(preference.caseOwner))
    else None
  }

  /** `GetNotificationPreferenceObjectByUsernameAsync`: what the repository
      holds for the user, null when it holds nothing. */
  function GetNotificationPreferenceObjectByUsernameAsync(store: map<string, NotificationPreference>, username: string)
    : (r: Option<NotificationPreference>)
    ensures r.Some? <==> username in store
    ensures r.Some? ==> r.value == store[username]
  {
    if username in store then Some(store[username]) else None
  }

  /** `Get1BoolByUsernameAsync`: a missing preference cannot be inspected;
      a property that exists is cast to `bool`, which fails for the user
      name; a name that matches no property gives false. */
  function Get1BoolByUsernameAsync(store: map<string, NotificationPreference>, username: string, preferenceToLookup: string)
    : (r: Result<bool>)
    ensures username !in store ==> r == Err(NullReferenceException)
  {
    match GetNotificationPreferenceObjectByUsernameAsync(store, username)
    case None => Err(NullReferenceException)
    case Some(preference) =>
      match GetProperty(preference, preferenceToLookup)
      case None => Ok(false)
      case Some(BoolValue(b)) => Ok(b)
      case Some(StringValue(_)) => Err(InvalidCastException)
  }

  /** The four flags are read from the user's preference object. */
  lemma FlagsReadFromPreference(store: map<string, NotificationPreference>, username: string)
    requires username in store
    ensures var p := GetNotificationPreferenceObjectByUsernameAsync(store, username).value;
            && Get1BoolByUsernameAsync(store, username, "EmailEnabled") == Ok(p.emailEnabled)
            && Get1BoolByUsernameAsync(store, username, "InAppEnabled") == Ok(p.inAppEnabled)
            && Get1BoolByUsernameAsync(store, username, "LinksEnabled") == Ok(p.linksEnabled)
            && Get1BoolByUsernameAsync(store, username, "CaseOwner") == Ok(p.caseOwner)
  {
  }

  /** Any name that is not a property's exact name gives false; this
      includes the camel-case spelling of a property. */
  lemma UnknownNameIsFalse(store: map<string, NotificationPreference>, username: string, name: string)
    requires username in store
    requires name !in {"UserName", "EmailEnabled", "InAppEnabled", "LinksEnabled", "CaseOwner"}
    ensures Get1BoolByUsernameAsync(store, username, name) == Ok(false)
  {
  }

  lemma CamelCaseIsFalse(store: map<string, NotificationPreference>, username: string)
    requires username in store && store[username].caseOwner
    ensures Get1BoolByUsernameAsync(store, username, "caseOwner") == Ok(false)
    ensures Get1BoolByUsernameAsync(store, username, "CaseOwner") == Ok(true)
  {
    assert "caseOwner"[0] != "CaseOwner"[0];
  }

  /** The user name is a string and fails the cast to `bool`. */
  lemma UserNameCastFails(store: map<string, NotificationPreference>, username: string)
    requires username in store
    ensures Get1BoolByUsernameAsync(store, username, "UserName") == Err(InvalidCastException)
  {
  }
}
