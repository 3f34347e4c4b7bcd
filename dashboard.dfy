/** The dashboard of src/pages/Dashboard.jsx: the all-or-nothing initial
    load, the profile edit that merges the form into the user and pushes it
    to the session, the avatar/cover upload and the logout button. */
module Dashboard {
  import opened Wrappers
  import AuthContext

  type Profile = AuthContext.Profile

  /** The channel statistics, an opaque bag of named counts. */
  type Stats = map<string, int>

  /** The editable profile fields. */
  datatype ProfileForm = ProfileForm(fullName: string, email: string)

  /** A field of the backend's user object; a missing one reads as "". */
  function Field(p: Profile, key: string): (v: string)
    ensures key in p ==> v == p[key]
    ensures key !in p ==> v == ""
  {
    if key in p then p[key] else ""
  }

  /** `{ ...user, ...form }`: the form's two fields override the user's,
      every other field is kept. */
  function MergeForm(user: Profile, form: ProfileForm): (r: Profile)
    ensures r.Keys == user.Keys + {"fullName", "email"}
    ensures r["fullName"] == form.fullName && r["email"] == form.email
    ensures forall k :: k in user && k != "fullName" && k != "email" ==> r[k] == user[k]
  {
    user + map["fullName" := form.fullName, "email" := form.email]
  }

  /** Saving the form twice in a row gives the same user as saving it once,
      and saving the fields the user already has changes nothing. */
  lemma MergeFormIdempotent(user: Profile, form: ProfileForm)
    ensures MergeForm(MergeForm(user, form), form) == MergeForm(user, form)
    ensures "fullName" in user && "email" in user && form == ProfileForm(user["fullName"], user["email"]) ==>
      MergeForm(user, form) == user
  {
    var once := MergeForm(user, form);
    assert MergeForm(once, form).Keys == once.Keys;
    if "fullName" in user && "email" in user && form == ProfileForm(user["fullName"], user["email"]) {
      assert once.Keys == user.Keys;
    }
  }

  class DashboardScreen {
    var session: AuthContext.AuthProvider
    var stats: Option<Stats>
    var localUser: Option<Profile>
    var form: ProfileForm
    var editing: bool
    var loading: bool
    var uploading: bool

    constructor (session: AuthContext.AuthProvider)
      ensures this.session == session
      ensures stats.None? && localUser.None? && form == ProfileForm("", "")
      ensures !editing && loading && !uploading
    {
      this.session := session;
      stats, localUser, form := None, None, ProfileForm("", "");
      editing, loading, uploading := false, true, false;
    }

    /** `displayUser`: the page's own copy of the user when it has one,
        else the session's. */
    function DisplayUser(): (u: Option<Profile>)
      reads this, session
      ensures localUser.Some? ==> u == localUser
      ensures localUser.None? ==> u == session.user
    {
      if localUser.Some? then localUser else session.user
    }

    /** The mount effect: statistics and current user are fetched together,
        and only when both arrive are the statistics, the user and the form
        set. Loading ends false either way. */
    method Load(statsReply: Outcome<Stats>, userReply: Outcome<Profile>)
      modifies this
      ensures !loading && session == old(session)
      ensures statsReply.Success? && userReply.Success? ==>
        && stats == Some(statsReply.value)
        && localUser == Some(userReply.value)
        && form == ProfileForm(Field(userReply.value, "fullName"), Field(userReply.value, "email"))
      ensures statsReply.Failure? || userReply.Failure? ==>
        stats == old(stats) && localUser == old(localUser) && form == old(form)
      ensures editing == old(editing) && uploading == old(uploading)
    {
      if statsReply.Success? && userReply.Success? {
        stats := Some(statsReply.value);
        localUser := Some(userReply.value);
        form := ProfileForm(Field(userReply.value, "fullName"), Field(userReply.value, "email"));
      }
      loading := false;
    }

    /** The edit button and the cancel button. */
    method SetEditing(on: bool)
      modifies this`editing
      ensures editing == on
    {
      editing := on;
    }

    /** `handleUpdate`. Without a loaded user the request is never made
        (reading its id throws) and nothing changes. On success the page's
        user becomes the user merged with the form, the session gets the
        same object, and editing ends; on failure nothing changes. */
    method HandleUpdate(response: Outcome<()>) returns (requested: bool)
      modifies this`localUser, this`editing, session
      ensures requested <==> old(localUser).Some?
      ensures !requested || response.Failure? ==>
        localUser == old(localUser) && editing == old(editing) && session.user == old(session.user)
      ensures requested && response.Success? ==>
        && localUser == Some(MergeForm(old(localUser).value, form))
        && session.user == localUser
        && !editing
      ensures session.token == old(session.token) && session.store == old(session.store)
      ensures session.loading == old(session.loading)
    {
      requested := localUser.Some?;
      if !requested {
        return;
      }
      if response.Success? {
        editing := false;
        var updated := MergeForm(localUser.value, form);
        localUser := Some(updated);
        session.UpdateUser(Some(updated));
      }
    }

    /** `handleFileUpdate`: the upload (`upload`) and then the re-fetch of
        the user (`refetch`); when both succeed the page and the session
        both get the fetched user. The busy flag ends false in every case. */
    method HandleFileUpdate(upload: Outcome<()>, refetch: Outcome<Profile>)
      modifies this`localUser, this`uploading, session
      ensures !uploading
      ensures upload.Success? && refetch.Success? ==>
        localUser == Some(refetch.value) && session.user == Some(refetch.value)
      ensures upload.Failure? || refetch.Failure? ==>
        localUser == old(localUser) && session.user == old(session.user)
      ensures session.token == old(session.token) && session.store == old(session.store)
      ensures session.loading == old(session.loading)
    {
      uploading := true;
      if upload.Success? && refetch.Success? {
        localUser := Some(refetch.value);
        session.UpdateUser(Some(refetch.value));
      }
      uploading := false;
    }

    /** `handleLogout`: the backend logout (`serverLogout`) may fail; the
        session is logged out regardless. */
    method HandleLogout(serverLogout: Outcome<()>)
      modifies session
      ensures session.LoggedOut()
      ensures session.loading == old(session.loading)
    {
      session.Logout();
    }
  }

  /** After a successful profile save the page and the session show the
      same user, with the form's name and email. */
  method SaveShowsForm(screen: DashboardScreen, f: ProfileForm) returns (shown: Option<Profile>)
    requires screen.localUser.Some?
    modifies screen, screen.session
    ensures shown == screen.session.user
    ensures shown.Some? && Field(shown.value, "fullName") == f.fullName && Field(shown.value, "email") == f.email
  {
    screen.form := f;
    var _ := screen.HandleUpdate(Success(()));
    shown := screen.DisplayUser();
  }
}
