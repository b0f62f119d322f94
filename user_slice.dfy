/**
 * The client's signed-in user. `setUser` and `logout` build a fresh state by spreading;
 * the other reducers assign fields of the existing one.
 */
module UserSlice {
  import opened Wrappers

  datatype AlertFrequency = Immediate | Daily | Weekly

  datatype UserProfile = UserProfile(
    firstName: string,
    lastName: string,
    dateOfBirth: string,
    allergies: seq<string>,
    medicalConditions: seq<string>)

  datatype UserPreferences = UserPreferences(notifications: bool, alertFrequency: AlertFrequency)

  /** The whole slice state as one value. */
  datatype User = User(
    uid: string,
    email: string,
    profile: UserProfile,
    preferences: UserPreferences,
    isAuthenticated: bool,
    loading: bool,
    error: Option<string>)

  /** `Partial<User>`: `Some` marks a field present in the payload; nested objects are replaced whole. */
  datatype UserPatch = UserPatch(
    uid: Option<string>,
    email: Option<string>,
    profile: Option<UserProfile>,
    preferences: Option<UserPreferences>,
    isAuthenticated: Option<bool>,
    loading: Option<bool>,
    error: Option<Option<string>>)

  datatype ProfilePatch = ProfilePatch(
    firstName: Option<string>,
    lastName: Option<string>,
    dateOfBirth: Option<string>,
    allergies: Option<seq<string>>,
    medicalConditions: Option<seq<string>>)

  datatype PreferencesPatch = PreferencesPatch(notifications: Option<bool>, alertFrequency: Option<AlertFrequency>)

  /** `initialState`: nobody signed in, empty profile, notifications on and immediate. */
  const InitialUser := User(
    "", "",
    UserProfile("", "", "", [], []),
    UserPreferences(true, Immediate),
    false, false, None)

  /**
   * The state `setUser` returns: `{ ...state, ...payload, isAuthenticated: true, loading: false, error: null }`.
   * Present fields overwrite, absent ones stay, and the three flags are forced whatever the payload says.
   */
  function ApplySetUser(state: User, payload: UserPatch): (r: User)
    ensures r.isAuthenticated && !r.loading && r.error == None
    ensures payload.uid.None? ==> r.uid == state.uid
    ensures payload.uid.Some? ==> r.uid == payload.uid.value
    ensures payload.email.None? ==> r.email == state.email
    ensures payload.email.Some? ==> r.email == payload.email.value
    ensures payload.profile.None? ==> r.profile == state.profile
    ensures payload.profile.Some? ==> r.profile == payload.profile.value
    ensures payload.preferences.None? ==> r.preferences == state.preferences
    ensures payload.preferences.Some? ==> r.preferences == payload.preferences.value
  {
    var merged := User(
      payload.uid.GetOr(state.uid),
      payload.email.GetOr(state.email),
      payload.profile.GetOr(state.profile),
      payload.preferences.GetOr(state.preferences),
      payload.isAuthenticated.GetOr(state.isAuthenticated),
      payload.loading.GetOr(state.loading),
      payload.error.GetOr(state.error));
    merged.(isAuthenticated := true, loading := false, error := None)
  }

  /** The flags in a `setUser` payload have no effect, and repeating `setUser` changes nothing more. */
  lemma SetUserFlagsIgnored(state: User, payload: UserPatch)
    ensures ApplySetUser(state, payload) ==
      ApplySetUser(state, payload.(isAuthenticated := None, loading := None, error := None))
    ensures ApplySetUser(ApplySetUser(state, payload), payload) == ApplySetUser(state, payload)
  {
  }

  /** `{ ...profile, ...payload }`. */
  function MergeProfile(p: UserProfile, u: ProfilePatch): UserProfile {
    UserProfile(
      u.firstName.GetOr(p.firstName),
      u.lastName.GetOr(p.lastName),
      u.dateOfBirth.GetOr(p.dateOfBirth),
      u.allergies.GetOr(p.allergies),
      u.medicalConditions.GetOr(p.medicalConditions))
  }

  /** `{ ...preferences, ...payload }`. */
  function MergePreferences(p: UserPreferences, u: PreferencesPatch): UserPreferences {
    UserPreferences(u.notifications.GetOr(p.notifications), u.alertFrequency.GetOr(p.alertFrequency))
  }

  /** The user slice's state, updated in place by its reducers. */
  class UserStore {
    var uid: string
    var email: string
    var profile: UserProfile
    var preferences: UserPreferences
    var isAuthenticated: bool
    var loading: bool
    var error: Option<string>

    /** The state as a value. */
    function Snapshot(): User
      reads this
    {
      User(uid, email, profile, preferences, isAuthenticated, loading, error)
    }

    /** `initialState`. */
    constructor ()
      ensures Snapshot() == InitialUser
    {
      uid, email := "", "";
      profile := InitialUser.profile;
      preferences := InitialUser.preferences;
      isAuthenticated, loading, error := false, false, None;
    }

    /** Replaces the whole state with `next`, as returning a new state from a reducer does. */
    method Replace(next: User)
      modifies this
      ensures Snapshot() == next
    {
      uid, email := next.uid, next.email;
      profile, preferences := next.profile, next.preferences;
      isAuthenticated, loading, error := next.isAuthenticated, next.loading, next.error;
    }

    /** `setUser`: the merged state with the caller signed in. */
    method SetUser(payload: UserPatch)
      modifies this
      ensures Snapshot() == ApplySetUser(old(Snapshot()), payload)
      ensures isAuthenticated && !loading && error == None
    {
      Replace(ApplySetUser(Snapshot(), payload));
    }

    /** `updateProfile`: overwrites the supplied profile fields only. */
    method UpdateProfile(payload: ProfilePatch)
      modifies this
      ensures profile == MergeProfile(old(profile), payload)
      ensures Snapshot() == old(Snapshot()).(profile := profile)
    {
      profile := MergeProfile(profile, payload);
    }

    /** `updatePreferences`: overwrites the supplied preference fields only. */
    method UpdatePreferences(payload: PreferencesPatch)
      modifies this
      ensures preferences == MergePreferences(old(preferences), payload)
      ensures Snapshot() == old(Snapshot()).(preferences := preferences)
    {
      preferences := MergePreferences(preferences, payload);
    }

    method SetLoading(value: bool)
      modifies this
      ensures Snapshot() == old(Snapshot()).(loading := value)
    {
      loading := value;
    }

    /** `setError`: records the message and clears the loading flag. */
    method SetError(message: string)
      modifies this
      ensures Snapshot() == old(Snapshot()).(error := Some(message), loading := false)
    {
      error := Some(message);
      loading := false;
    }

    /** `logout`: back to `initialState`, whatever the state was. */
    method Logout()
      modifies this
      ensures Snapshot() == InitialUser
      ensures !isAuthenticated && uid == "" && email == ""
    {
      Replace(InitialUser);
    }
  }
}
