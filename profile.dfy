/**
 * The profile page (`ProfilePage`): the profile shown for the signed-in user, loaded from the
 * store with fallbacks to the identity provider's fields, edited one field at a time and saved
 * back under the user's own key.
 */
module Profile {
  import opened Wrappers
  import opened Text
  import opened Records
  import opened LocalStorage

  /** The identity provider's user; an absent display name or email is the empty string. */
  datatype AuthUser = AuthUser(uid: string, displayName: string, email: string)

  datatype Field = DisplayName | Email | Bio | PhoneNumber | Avatar

  const LoadFailure := "Failed to load profile data"
  const SaveFailure := "Failed to update profile"
  const Saved := "Profile updated successfully!"

  function FieldOf(p: UserProfile, f: Field): string {
    match f
    case DisplayName => p.displayName
    case Email => p.email
    case Bio => p.bio
    case PhoneNumber => p.phoneNumber
    case Avatar => p.avatar
  }

  /** `{ ...prev, [field]: value }`. */
  function WithField(p: UserProfile, f: Field, v: string): (r: UserProfile)
    ensures FieldOf(r, f) == v
    ensures forall h :: h != f ==> FieldOf(r, h) == FieldOf(p, h)
  {
    match f
    case DisplayName => p.(displayName := v)
    case Email => p.(email := v)
    case Bio => p.(bio := v)
    case PhoneNumber => p.(phoneNumber := v)
    case Avatar => p.(avatar := v)
  }

  /** The profile before any load: the provider's name and email, the rest empty. */
  function Initial(user: Option<AuthUser>): (p: UserProfile)
    ensures user.None? ==> p == UserProfile("", "", "", "", "")
    ensures user.Some? ==> p.displayName == user.value.displayName && p.email == user.value.email
    ensures p.bio == "" && p.phoneNumber == "" && p.avatar == ""
  {
    match user
    case None => UserProfile("", "", "", "", "")
    case Some(u) => UserProfile(u.displayName, u.email, "", "", "")
  }

  /**
   * The fields a parsed stored value offers: those of a stored profile, and for any other
   * parsed shape nothing, every field being undefined and so falsy.
   */
  function StoredFields(v: Value): UserProfile
    requires v.Parsed()
  {
    if v.ProfileRecord? then v.profile else UserProfile("", "", "", "", "")
  }

  /** The profile built from a stored one: stored name and email, else the provider's; the rest, else empty. */
  function FromStored(s: UserProfile, u: AuthUser): (p: UserProfile)
    ensures p.displayName == (if s.displayName != "" then s.displayName else u.displayName)
    ensures p.email == (if s.email != "" then s.email else u.email)
    ensures p.bio == s.bio && p.phoneNumber == s.phoneNumber && p.avatar == s.avatar
  {
    UserProfile(Or(Or(s.displayName, u.displayName), ""), Or(Or(s.email, u.email), ""),
      Or(s.bio, ""), Or(s.phoneNumber, ""), Or(s.avatar, ""))
  }

  /** Without a stored profile only the name and email are taken from the provider. */
  function FromProvider(prev: UserProfile, u: AuthUser): (p: UserProfile)
    ensures p.displayName == u.displayName && p.email == u.email
    ensures p.bio == prev.bio && p.phoneNumber == prev.phoneNumber && p.avatar == prev.avatar
  {
    prev.(displayName := Or(u.displayName, ""), email := Or(u.email, ""))
  }

  /**
   * `loadUserProfile` for a user: the profile it shows, or None when the stored text does not
   * parse or is `null`, whose field read throws (the page then reports the load failure and
   * keeps its profile).
   */
  function Loaded(prev: UserProfile, u: AuthUser, items: map<string, Value>): Option<UserProfile> {
    var key := ProfileKey(u.uid);
    if key !in items || items[key] == EmptyText then Some(FromProvider(prev, u))
    else if items[key] == Unparseable || items[key] == JsonNull then None
    else Some(FromStored(StoredFields(items[key]), u))
  }

  /** A profile whose name and email are filled in reads back exactly as it was saved. */
  lemma SaveThenLoad(prev: UserProfile, u: AuthUser, items: map<string, Value>, p: UserProfile)
    requires p.displayName != "" && p.email != ""
    ensures Loaded(prev, u, Written(items, None, ProfileKey(u.uid), ProfileRecord(p))) == Some(p)
  {
  }

  /** A saved profile with a blank name or email reads back with the provider's value in that field. */
  lemma SaveThenLoadBlank(prev: UserProfile, u: AuthUser, items: map<string, Value>, p: UserProfile)
    ensures var r := Loaded(prev, u, Written(items, None, ProfileKey(u.uid), ProfileRecord(p)));
            r.Some? && r.value == p.(displayName := Or(p.displayName, u.displayName), email := Or(p.email, u.email))
  {
  }

  /** A stored `null` profile is not read: its first field access throws, and the load fails. */
  lemma NullProfileFails(prev: UserProfile, u: AuthUser, items: map<string, Value>)
    ensures Loaded(prev, u, items[ProfileKey(u.uid) := JsonNull]) == None
  {
  }

  class ProfilePage {
    const user: Option<AuthUser>
    const store: Storage
    var profile: UserProfile
    var isEditing: bool
    var saving: bool
    var error: string
    var success: string

    /** Mounting, before the load effect runs. */
    constructor (user: Option<AuthUser>, store: Storage)
      ensures this.user == user && this.store == store && profile == Initial(user)
      ensures !isEditing && !saving && error == "" && success == ""
    {
      this.user := user;
      this.store := store;
      profile := Initial(user);
      isEditing := false;
      saving := false;
      error := "";
      success := "";
    }

    /** `loadUserProfile`: nothing without a user; a stored text that does not parse, or `null`, only sets the error. */
    method Load()
      modifies this`profile, this`error
      ensures user.None? ==> profile == old(profile) && error == old(error)
      ensures user.Some? ==> var r := Loaded(old(profile), user.value, store.items);
        (r.Some? ==> profile == r.value && error == old(error))
        && (r.None? ==> profile == old(profile) && error == LoadFailure)
    {
      if user.None? {
        return;
      }
      var u := user.value;
      var key := ProfileKey(u.uid);
      if key !in store.items || store.items[key] == EmptyText {
        profile := FromProvider(profile, u);
      } else if store.items[key] == Unparseable || store.items[key] == JsonNull {
        error := LoadFailure;
      } else {
        profile := FromStored(StoredFields(store.items[key]), u);
      }
    }

    /** `handleInputChange`: exactly the named field takes the value. */
    method Change(f: Field, v: string)
      modifies this`profile
      ensures profile == WithField(old(profile), f, v)
    {
      profile := WithField(profile, f, v);
    }

    method Edit()
      modifies this`isEditing
      ensures isEditing
    {
      isEditing := true;
    }

    /**
     * `handleSave`: nothing without a user. Otherwise the profile is written under the user's
     * key; a write that succeeds leaves edit mode with a success message, one that throws shows
     * its message (or a fixed text when the message is empty) and stays in edit mode.
     */
    method Save()
      modifies this`saving, this`error, this`success, this`isEditing, store
      ensures store.writeError == old(store.writeError)
      ensures user.None? ==>
        saving == old(saving) && error == old(error) && success == old(success) && isEditing == old(isEditing)
        && store.items == old(store.items)
      ensures user.Some? ==>
        !saving && store.items == Written(old(store.items), store.writeError, ProfileKey(user.value.uid), ProfileRecord(profile))
      ensures user.Some? && store.writeError.None? ==> success == Saved && error == "" && !isEditing
      ensures user.Some? && store.writeError.Some? ==>
        success == "" && error == Or(store.writeError.value, SaveFailure) && error != "" && isEditing == old(isEditing)
    {
      if user.None? {
        return;
      }
      saving := true;
      error := "";
      success := "";
      var err := store.TrySet(ProfileKey(user.value.uid), ProfileRecord(profile));
      if err.None? {
        success := Saved;
        isEditing := false;
      } else {
        error := Or(err.value, SaveFailure);
      }
      saving := false;
    }

    /** `handleCancel`: reload from the store, leave edit mode, clear both messages. */
    method Cancel()
      modifies this`profile, this`error, this`success, this`isEditing
      ensures !isEditing && error == "" && success == ""
      ensures user.None? ==> profile == old(profile)
      ensures user.Some? ==> var r := Loaded(old(profile), user.value, store.items);
        profile == if r.Some? then r.value else old(profile)
    {
      Load();
      isEditing := false;
      error := "";
      success := "";
    }
  }
}
