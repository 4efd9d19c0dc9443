/** The settings screen: the profile form, the notification switches, the
    theme and interface mode, each written optimistically and put back when
    the backend refuses it, and the session clearing on 401 and logout. */
module SettingsPage {
  import opened Common
  import opened Strings
  import opened Session

  // ----- Settings record --------------------------------------------------------

  datatype Settings = Settings(
    themeColor: string,
    interfaceMode: string,
    morningReminders: bool,
    weeklyReports: bool,
    soundAlerts: bool)

  const DefaultSettings := Settings("orange", "light", true, true, false)

  /** The `type` argument of `handleNotificationToggle`. */
  datatype Notification = MorningReminders | WeeklyReports | SoundAlerts

  /** `settings[type]`. */
  function Enabled(s: Settings, n: Notification): bool {
    match n
    case MorningReminders => s.morningReminders
    case WeeklyReports => s.weeklyReports
    case SoundAlerts => s.soundAlerts
  }

  /** `{ ...prev, [type]: enabled }`: the named switch takes the value and
      everything else is kept. */
  function WithNotification(s: Settings, n: Notification, enabled: bool): (r: Settings)
    ensures Enabled(r, n) == enabled
    ensures forall m :: m != n ==> Enabled(r, m) == Enabled(s, m)
    ensures r.themeColor == s.themeColor && r.interfaceMode == s.interfaceMode
  {
    match n
    case MorningReminders => s.(morningReminders := enabled)
    case WeeklyReports => s.(weeklyReports := enabled)
    case SoundAlerts => s.(soundAlerts := enabled)
  }

  /** Two records with the same theme, mode and switches are equal. */
  lemma SettingsExtensional(a: Settings, b: Settings)
    requires a.themeColor == b.themeColor && a.interfaceMode == b.interfaceMode
    requires forall n :: Enabled(a, n) == Enabled(b, n)
    ensures a == b
  {
    assert Enabled(a, MorningReminders) == Enabled(b, MorningReminders);
    assert Enabled(a, WeeklyReports) == Enabled(b, WeeklyReports);
    assert Enabled(a, SoundAlerts) == Enabled(b, SoundAlerts);
  }

  /** The revert writes `!enabled` over the optimistic `enabled`; since every
      switch passes `!settings[type]`, that is the value the switch had. */
  lemma RevertRestoresSwitch(s: Settings, n: Notification)
    ensures var enabled := !Enabled(s, n);
      WithNotification(WithNotification(s, n, enabled), n, !enabled) == s
  {
    var enabled := !Enabled(s, n);
    SettingsExtensional(WithNotification(WithNotification(s, n, enabled), n, !enabled), s);
  }

  // ----- Profile form --------------------------------------------------------------

  datatype TempProfile = TempProfile(name: string, email: string, phone: string)

  datatype ProfileField = Name | Email | Phone

  function ProfileValue(t: TempProfile, f: ProfileField): string {
    match f
    case Name => t.name
    case Email => t.email
    case Phone => t.phone
  }

  /** `handleProfileChange`: `{ ...prev, [field]: value }`. */
  function WithProfileField(t: TempProfile, f: ProfileField, value: string): (r: TempProfile)
    ensures ProfileValue(r, f) == value
    ensures forall g :: g != f ==> ProfileValue(r, g) == ProfileValue(t, g)
  {
    match f
    case Name => t.(name := value)
    case Email => t.(email := value)
    case Phone => t.(phone := value)
  }

  /** Editing a field and then writing its old value back changes nothing,
      and edits of different fields do not interfere. */
  lemma ProfileEditsIndependent(t: TempProfile, f: ProfileField, g: ProfileField, v: string, w: string)
    ensures WithProfileField(WithProfileField(t, f, v), f, ProfileValue(t, f)) == t
    ensures f != g ==> WithProfileField(WithProfileField(t, f, v), g, w) == WithProfileField(WithProfileField(t, g, w), f, v)
  {
  }

  /** `record?.[key] || ''`. */
  function TextOrEmpty(record: Option<UserRecord>, key: string): (text: string)
    ensures text == "" <==> TextField(record, key).None?
    ensures text != "" ==> text == record.value[key]
  {
    if TextField(record, key).Some? then TextField(record, key).value else ""
  }

  // ----- Requests -------------------------------------------------------------------

  /** The fields of `GET /api/settings`. */
  datatype SettingsBody = SettingsBody(user: Option<UserRecord>, settings: Settings, profile: Option<UserRecord>)

  /** The body of the profile save: the name and the phone, never the email. */
  datatype ProfileRequest = ProfileRequest(name: string, phone: string)

  /** The profile form sends what it holds except the email. */
  function ProfileRequestOf(t: TempProfile): (r: ProfileRequest)
    ensures r.name == ProfileValue(t, Name) && r.phone == ProfileValue(t, Phone)
  {
    ProfileRequest(t.name, t.phone)
  }

  /** Editing the email field never changes what the profile save sends. */
  lemma ProfileRequestIgnoresEmail(t: TempProfile, email: string)
    ensures ProfileRequestOf(WithProfileField(t, Email, email)) == ProfileRequestOf(t)
  {
  }

  /** The stored user after a profile save: the parsed stored object (an
      empty one when nothing is stored) with only its name replaced; None
      when the stored text does not parse. */
  function RenamedStoredUser(items: map<string, Item>, name: string): (u: Option<UserRecord>)
    ensures u.None? <==> ParsedStoredUser(items).None?
    ensures u.Some? ==> "name" in u.value && u.value["name"] == name
    ensures u.Some? ==> forall k :: k != "name" ==>
      (k in u.value <==> k in ParsedStoredUser(items).value) &&
      (k in u.value ==> u.value[k] == ParsedStoredUser(items).value[k])
  {
    match ParsedStoredUser(items)
    case None => None
    case Some(stored) => Some(stored["name" := name])
  }

  const SignInAgain := "Please sign in again"
  const SessionExpired := "Session expired. Please sign in again."
  const ProfileUpdated := "Profile updated successfully!"
  const ProfileFailed := "Failed to update profile. Please try again."
  const SettingsSaved := "Settings saved successfully!"
  const SettingsFailed := "Failed to save settings. Please try again."

  function ThemeNotice(theme: string): string {
    "Theme changed to " + theme + ". Refresh page to see changes."
  }

  function ModeNotice(mode: string): string {
    "Interface mode changed to " + mode + ". Refresh page to see changes."
  }

  // ----- The component ---------------------------------------------------------------

  /** The Settings component's state hooks. */
  class SettingsView {
    var loading: bool
    var saving: bool
    var user: Option<UserRecord>
    var settings: Settings
    var profile: Option<UserRecord>
    var tempProfile: TempProfile
    const storage: LocalStorage

    constructor (storage: LocalStorage)
      ensures this.storage == storage
      ensures loading && !saving && user.None? && settings == DefaultSettings
      ensures profile == Some(map["phone" := ""]) && tempProfile == TempProfile("", "", "")
    {
      this.storage := storage;
      loading, saving, user := true, false, None;
      settings := DefaultSettings;
      profile := Some(map["phone" := ""]);
      tempProfile := TempProfile("", "", "");
    }

    /** `fetchSettings`: without a token nothing is fetched; a 401 removes
      the session; a failure whose message mentions "401" clears all of the
      storage; a decoded reply replaces user, settings and profile and fills
      the form, with "" for what is missing. */
    method FetchSettings(reply: Reply<SettingsBody>)
      modifies this, storage
      ensures !loading && saving == old(saving)
      ensures var fetched := Present(old(storage.items), TokenKey) && Decoded(reply);
        && (fetched ==>
              var body := reply.body.value;
              && user == body.user && settings == body.settings && profile == body.profile
              && tempProfile == TempProfile(TextOrEmpty(body.user, "name"), TextOrEmpty(body.user, "email"),
                                            TextOrEmpty(body.profile, "phone")))
        && (!fetched ==>
              user == old(user) && settings == old(settings) && profile == old(profile) &&
              tempProfile == old(tempProfile))
      ensures var token := Present(old(storage.items), TokenKey);
        storage.items ==
          if !token then old(storage.items)
          else if IsUnauthorized(reply) then WithoutSession(old(storage.items))
          else if Decoded(reply) then old(storage.items)
          else if Contains(FailureMessage(reply), "401") then map[]
          else old(storage.items)
    {
      loading := true;
      var token := HasToken(storage);
      if !token {
        loading := false;
        return;
      }
      if IsUnauthorized(reply) {
        ClearSession(storage);
        loading := false;
        return;
      }
      if !IsOk(reply) || reply.body.Unparsable? {
        if Contains(FailureMessage(reply), "401") {
          storage.Clear();
        }
        loading := false;
        return;
      }
      var data := reply.body.value;
      user := data.user;
      settings := data.settings;
      profile := data.profile;
      tempProfile := TempProfile(TextOrEmpty(data.user, "name"), TextOrEmpty(data.user, "email"),
                                 TextOrEmpty(data.profile, "phone"));
      loading := false;
    }

    /** `handleProfileChange`. */
    method ProfileChange(field: ProfileField, value: string)
      modifies this
      ensures tempProfile == WithProfileField(old(tempProfile), field, value)
      ensures loading == old(loading) && saving == old(saving) && user == old(user)
      ensures settings == old(settings) && profile == old(profile)
    {
      tempProfile := WithProfileField(tempProfile, field, value);
    }

    /** `handleSaveProfile`: sends the name and phone; a 401 removes the
      session; once saved, the stored user and the user on screen get the
      new name and keep every other field. `notice` is the alert shown. */
    method SaveProfile(reply: Reply<()>) returns (sent: Option<ProfileRequest>, notice: string)
      modifies this, storage
      ensures !saving
      ensures var token := Present(old(storage.items), TokenKey);
        var renamed := RenamedStoredUser(old(storage.items), tempProfile.name);
        var saved := token && Decoded(reply) && renamed.Some?;
        && sent == (if token then Some(ProfileRequestOf(tempProfile)) else None)
        && storage.items == (
              if token && IsUnauthorized(reply) then WithoutSession(old(storage.items))
              else if saved then old(storage.items)[UserKey := UserJson(renamed.value)]
              else old(storage.items))
        && user == (if saved then Some((if old(user).Some? then old(user).value else map[])["name" := tempProfile.name])
                   else old(user))
        && notice == (
              if !token then SignInAgain
              else if IsUnauthorized(reply) then SessionExpired
              else if saved then ProfileUpdated
              else ProfileFailed)
      ensures loading == old(loading) && settings == old(settings) && profile == old(profile)
      ensures tempProfile == old(tempProfile)
    {
      saving := true;
      var token := HasToken(storage);
      if !token {
        saving := false;
        return None, SignInAgain;
      }
      sent := Some(ProfileRequest(tempProfile.name, tempProfile.phone));
      if IsUnauthorized(reply) {
        ClearSession(storage);
        saving := false;
        return sent, SessionExpired;
      }
      if !IsOk(reply) || reply.body.Unparsable? {
        saving := false;
        return sent, ProfileFailed;
      }
      var item := storage.GetItem(UserKey);
      var stored: UserRecord;
      if item.None? || item.value == Text("") {
        stored := map[];
      } else if item.value.UserJson? {
        stored := item.value.user;
      } else {
        saving := false;
        return sent, ProfileFailed;
      }
      stored := stored["name" := tempProfile.name];
      storage.SetItem(UserKey, UserJson(stored));
      var prev := if user.Some? then user.value else map[];
      user := Some(prev["name" := tempProfile.name]);
      notice := ProfileUpdated;
      saving := false;
    }

    /** `handleNotificationToggle`: without a token nothing changes; the
      switch takes `enabled` at once and `!enabled` when the backend answers
      with an error status. A request that never got an answer is not put
      back. */
    method NotificationToggle(kind: Notification, enabled: bool, reply: Reply<()>)
      modifies this
      ensures settings ==
        if !Present(storage.items, TokenKey) then old(settings)
        else if reply.Response? && !IsOk(reply) then WithNotification(old(settings), kind, !enabled)
        else WithNotification(old(settings), kind, enabled)
      ensures (Present(storage.items, TokenKey) && enabled == !Enabled(old(settings), kind) &&
               reply.Response? && !IsOk(reply)) ==> settings == old(settings)
      ensures loading == old(loading) && saving == old(saving) && user == old(user)
      ensures profile == old(profile) && tempProfile == old(tempProfile)
    {
      var token := HasToken(storage);
      if !token {
        return;
      }
      settings := WithNotification(settings, kind, enabled);
      if reply.Response? && !IsOk(reply) {
        settings := WithNotification(settings, kind, !enabled);
        SettingsExtensional(settings, WithNotification(old(settings), kind, !enabled));
        RevertRestoresSwitch(old(settings), kind);
      }
    }

    /** `handleThemeChange`: sends the prior settings with the new colour,
      shows it at once and puts the prior colour back on an error status. */
    method ThemeChange(theme: string, reply: Reply<()>) returns (sent: Option<Settings>, notice: Option<string>)
      modifies this
      ensures var token := Present(storage.items, TokenKey);
        && sent == (if token then Some(old(settings).(themeColor := theme)) else None)
        && settings == (if token && !(reply.Response? && !IsOk(reply)) then old(settings).(themeColor := theme)
                        else old(settings))
        && notice == (if token && IsOk(reply) then Some(ThemeNotice(theme)) else None)
      ensures loading == old(loading) && saving == old(saving) && user == old(user)
      ensures profile == old(profile) && tempProfile == old(tempProfile)
    {
      var token := HasToken(storage);
      if !token {
        return None, None;
      }
      var previous := settings;
      settings := settings.(themeColor := theme);
      sent := Some(previous.(themeColor := theme));
      if reply.Response? && !IsOk(reply) {
        settings := settings.(themeColor := previous.themeColor);
        return sent, None;
      }
      notice := if IsOk(reply) then Some(ThemeNotice(theme)) else None;
    }

    /** `handleInterfaceModeChange`: as the theme change, for the mode. */
    method InterfaceModeChange(mode: string, reply: Reply<()>) returns (sent: Option<Settings>, notice: Option<string>)
      modifies this
      ensures var token := Present(storage.items, TokenKey);
        && sent == (if token then Some(old(settings).(interfaceMode := mode)) else None)
        && settings == (if token && !(reply.Response? && !IsOk(reply)) then old(settings).(interfaceMode := mode)
                        else old(settings))
        && notice == (if token && IsOk(reply) then Some(ModeNotice(mode)) else None)
      ensures loading == old(loading) && saving == old(saving) && user == old(user)
      ensures profile == old(profile) && tempProfile == old(tempProfile)
    {
      var token := HasToken(storage);
      if !token {
        return None, None;
      }
      var previous := settings;
      settings := settings.(interfaceMode := mode);
      sent := Some(previous.(interfaceMode := mode));
      if reply.Response? && !IsOk(reply) {
        settings := settings.(interfaceMode := previous.interfaceMode);
        return sent, None;
      }
      notice := if IsOk(reply) then Some(ModeNotice(mode)) else None;
    }

    /** `handleSaveSettings`: sends the settings; a 401 removes the session. */
    method SaveSettings(reply: Reply<()>) returns (sent: Option<Settings>, notice: string)
      modifies this, storage
      ensures !saving
      ensures var token := Present(old(storage.items), TokenKey);
        && sent == (if token then Some(settings) else None)
        && storage.items == (if token && IsUnauthorized(reply) then WithoutSession(old(storage.items))
                             else old(storage.items))
        && notice == (
              if !token then SignInAgain
              else if IsUnauthorized(reply) then SessionExpired
              else if Decoded(reply) then SettingsSaved
              else SettingsFailed)
      ensures loading == old(loading) && user == old(user) && settings == old(settings)
      ensures profile == old(profile) && tempProfile == old(tempProfile)
    {
      saving := true;
      var token := HasToken(storage);
      if !token {
        saving := false;
        return None, SignInAgain;
      }
      sent := Some(settings);
      if IsUnauthorized(reply) {
        ClearSession(storage);
        saving := false;
        return sent, SessionExpired;
      }
      notice := if IsOk(reply) && reply.body.Parsed? then SettingsSaved else SettingsFailed;
      saving := false;
    }

    /** `handleLogout`. */
    method Logout()
      modifies storage
      ensures storage.items == WithoutSession(old(storage.items))
      ensures !IsAuthenticated(storage.items)
    {
      ClearSession(storage);
      SessionLifecycle(old(storage.items), map[], "");
    }
  }
}
