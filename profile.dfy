/** The profile page of the router demo: whether the page shows someone
    else's profile, its tabs, the editable details form and the settings
    panel. */
module Profile {
  import opened Text
  import opened AuthContext

  /** `user?.id.toString()`: `None` when there is no user; a present user
      without an id makes the expression throw, modelled as `Throws`. */
  datatype IdText = NoUser | IdString(s: string) | Throws

  function UserIdText(user: Option<Record>): IdText {
    if user.None? then NoUser
    else if "id" !in user.value then Throws
    else match user.value["id"]
      case Num(n) => IdString(IntToString(n))
      case Str(s) => IdString(s)
  }

  /** `!!userId && userId !== user?.id.toString()`. `None` stands for the
      TypeError of a user without an id. The page is external when a non-empty
      `userId` route parameter differs from the current user's id as a
      string, and also when nobody is logged in. */
  function IsExternalProfile(userId: Option<string>, user: Option<Record>): (r: Option<bool>)
    ensures userId.None? || userId.value == "" ==> r == Some(false)
    ensures userId.Some? && userId.value != "" && user.Some? && "id" in user.value && user.value["id"].Num? ==>
              r == Some(userId.value != IntToString(user.value["id"].n))
    ensures userId.Some? && userId.value != "" && user.Some? && "id" in user.value && user.value["id"].Str? ==>
              r == Some(userId.value != user.value["id"].s)
    ensures userId.Some? && userId.value != "" && user.None? ==> r == Some(true)
    ensures r.None? <==> userId.Some? && userId.value != "" && user.Some? && "id" !in user.value
  {
    if userId.None? || userId.value == "" then Some(false)
    else match UserIdText(user)
      case NoUser => Some(true)
      case IdString(s) => Some(userId.value != s)
      case Throws => None
  }

  /** Visiting `/user/<own numeric id>` is not an external profile, and a
      route id that reads back as a different number is. */
  lemma OwnIdIsNotExternal(user: Record, n: int, userId: string)
    requires "id" in user && user["id"] == Num(n)
    ensures IsExternalProfile(Some(IntToString(n)), Some(user)) == Some(false)
    ensures userId != "" && ParseInt(userId) != Some(n) ==> IsExternalProfile(Some(userId), Some(user)) == Some(true)
  {
    if userId != "" && ParseInt(userId) != Some(n) {
      if userId == IntToString(n) {
        ParseIntToString(n);
      }
    }
  }

  /** A tab of the profile page: label and relative path. */
  datatype Tab = Tab(id: string, text: string, path: string)

  /** `profileTabs`: Details and Activity, then Settings unless view-only. */
  function ProfileTabs(isViewOnly: bool): (tabs: seq<Tab>)
    ensures |tabs| == if isViewOnly then 2 else 3
    ensures tabs[0] == Tab("details", "Details", "") && tabs[1] == Tab("activity", "Activity", "activity")
    ensures !isViewOnly ==> tabs[2] == Tab("settings", "Settings", "settings")
  {
    [Tab("details", "Details", ""), Tab("activity", "Activity", "activity")]
    + (if isViewOnly then [] else [Tab("settings", "Settings", "settings")])
  }

  /** The details form: name, email and bio as the user object holds them. */
  datatype DetailsForm = DetailsForm(name: Value, email: Value, bio: Value)

  datatype DetailField = NameField | EmailField | BioField

  const NoBio := "No bio added yet."

  /** `user?.[key] || fallback`. */
  function FieldOr(user: Option<Record>, key: string, fallback: Value): (v: Value)
    ensures user.Some? && key in user.value && Truthy(user.value[key]) ==> v == user.value[key]
    ensures !(user.Some? && key in user.value && Truthy(user.value[key])) ==> v == fallback
  {
    if user.Some? && key in user.value && Truthy(user.value[key]) then user.value[key] else fallback
  }

  /** The form's starting values. */
  function InitialDetails(user: Option<Record>): (f: DetailsForm)
    ensures f.name == FieldOr(user, "name", Str("")) && f.email == FieldOr(user, "email", Str(""))
    ensures f.bio == FieldOr(user, "bio", Str(NoBio))
    ensures user.None? ==> f == DetailsForm(Str(""), Str(""), Str(NoBio))
  {
    DetailsForm(FieldOr(user, "name", Str("")), FieldOr(user, "email", Str("")), FieldOr(user, "bio", Str(NoBio)))
  }

  /** `{ ...formData, [name]: value }`: only the named field changes. */
  function WithDetail(f: DetailsForm, field: DetailField, value: string): (g: DetailsForm)
    ensures field == NameField ==> g.name == Str(value) && g.email == f.email && g.bio == f.bio
    ensures field == EmailField ==> g.email == Str(value) && g.name == f.name && g.bio == f.bio
    ensures field == BioField ==> g.bio == Str(value) && g.name == f.name && g.email == f.email
  {
    match field
    case NameField => f.(name := Str(value))
    case EmailField => f.(email := Str(value))
    case BioField => f.(bio := Str(value))
  }

  /** The form as the updates object given to `updateProfile`. */
  function AsUpdates(f: DetailsForm): (r: Record)
    ensures r.Keys == {"name", "email", "bio"}
    ensures r["name"] == f.name && r["email"] == f.email && r["bio"] == f.bio
  {
    map["name" := f.name, "email" := f.email, "bio" := f.bio]
  }

  /** Saving the form changes the user's name, email and bio and nothing
      else: the id and the role survive. */
  lemma SaveKeepsOtherFields(user: Record, f: DetailsForm)
    ensures var u := Merge(user, AsUpdates(f));
            u["name"] == f.name && u["email"] == f.email && u["bio"] == f.bio
            && (forall k :: k in user && k !in {"name", "email", "bio"} ==> k in u && u[k] == user[k])
            && IsAdmin(Some(u)) == IsAdmin(Some(user))
  {
  }

  class ProfileDetails {
    var isEditing: bool
    var formData: DetailsForm

    constructor (user: Option<Record>)
      ensures !isEditing && formData == InitialDetails(user)
    {
      isEditing := false;
      formData := InitialDetails(user);
    }

    /** The Edit / Cancel button. */
    method ToggleEditing()
      modifies this
      ensures isEditing == !old(isEditing) && formData == old(formData)
    {
      isEditing := !isEditing;
    }

    /** `handleChange`: only the named field of the form changes. */
    method HandleChange(field: DetailField, value: string)
      modifies this
      ensures formData == WithDetail(old(formData), field, value) && isEditing == old(isEditing)
    {
      formData := WithDetail(formData, field, value);
    }

    /** `handleSubmit`: the whole form goes to `updateProfile`, then editing ends. */
    method HandleSubmit(auth: AuthProvider)
      modifies this, auth
      ensures !isEditing && formData == old(formData)
      ensures auth.user == Some(Merge(if old(auth.user).Some? then old(auth.user).value else map[], AsUpdates(formData)))
      ensures auth.storage == old(auth.storage)[UserKey := Serialized(auth.user.value)]
      ensures auth.loading == old(auth.loading)
    {
      var _ := auth.UpdateProfile(AsUpdates(formData));
      isEditing := false;
    }
  }

  /** The settings panel. */
  datatype Settings = Settings(notifications: bool, emailUpdates: bool, darkMode: bool, language: string)

  datatype Toggle = Notifications | EmailUpdates | DarkMode

  const InitialSettings := Settings(true, true, false, "en")

  /** `{ ...settings, [setting]: !settings[setting] }`. */
  function Toggled(s: Settings, t: Toggle): (r: Settings)
    ensures r.language == s.language
    ensures r.notifications == (if t == Notifications then !s.notifications else s.notifications)
    ensures r.emailUpdates == (if t == EmailUpdates then !s.emailUpdates else s.emailUpdates)
    ensures r.darkMode == (if t == DarkMode then !s.darkMode else s.darkMode)
  {
    match t
    case Notifications => s.(notifications := !s.notifications)
    case EmailUpdates => s.(emailUpdates := !s.emailUpdates)
    case DarkMode => s.(darkMode := !s.darkMode)
  }

  /** Toggling the same setting twice restores the settings. */
  lemma ToggleTwice(s: Settings, t: Toggle)
    ensures Toggled(Toggled(s, t), t) == s
  {
  }

  class ProfileSettings {
    var settings: Settings

    constructor ()
      ensures settings == InitialSettings
    {
      settings := InitialSettings;
    }

    method HandleToggle(t: Toggle)
      modifies this
      ensures settings == Toggled(old(settings), t)
    {
      settings := Toggled(settings, t);
    }

    /** `handleSelect`: only the language changes. */
    method HandleSelect(language: string)
      modifies this
      ensures settings == old(settings).(language := language)
    {
      settings := settings.(language := language);
    }
  }
}
