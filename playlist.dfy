/** The playlist manager of src/pages/Playlist.jsx: the list and its
    fetch, the create/edit form and the delete button. */
module Playlist {
  import opened Wrappers
  import Text

  datatype PlaylistItem = PlaylistItem(id: string, name: string, description: string)

  datatype PlaylistForm = PlaylistForm(name: string, description: string)

  const EmptyForm := PlaylistForm("", "")

  /** The write a submit sends: an update of the playlist being edited, or
      a new playlist. */
  datatype PlaylistWrite = Create(form: PlaylistForm) | Update(id: string, form: PlaylistForm)

  const LoadError := "Failed to load playlists"
  const SubmitError := "Operation failed"
  const DeleteError := "Failed to delete playlist"

  /** A form is sent only when neither field is blank after trimming. */
  predicate Complete(f: PlaylistForm)
  {
    !Text.IsBlank(f.name) && !Text.IsBlank(f.description)
  }

  /** `if (editingId) updatePlaylist(editingId, form) else createPlaylist(form)`. */
  function WriteFor(editingId: Option<string>, f: PlaylistForm): (w: PlaylistWrite)
    ensures w.Update? <==> Truthy(editingId)
    ensures w.Update? ==> w.id == editingId.value
    ensures w.form == f
  {
    if Truthy(editingId) then Update(editingId.value, f) else Create(f)
  }

  class PlaylistScreen {
    var playlists: seq<PlaylistItem>
    var loading: bool
    var error: string
    var showForm: bool
    var form: PlaylistForm
    var editingId: Option<string>

    constructor ()
      ensures playlists == [] && loading && error == "" && !showForm
      ensures form == EmptyForm && editingId.None?
    {
      playlists, loading, error := [], true, "";
      showForm, form, editingId := false, EmptyForm, None;
    }

    /** `fetchPlaylists`: the error is cleared first; success replaces the
        list, failure sets the backend's message or the fallback and keeps
        the list. Loading ends false. The form is not touched. */
    method FetchPlaylists(response: Outcome<seq<PlaylistItem>>)
      modifies this`playlists, this`loading, this`error
      ensures !loading
      ensures response.Success? ==> playlists == response.value && error == ""
      ensures response.Failure? ==> playlists == old(playlists) && error == MessageOr(response.message, LoadError)
    {
      loading := true;
      error := "";
      match response {
        case Success(items) =>
          playlists := items;
        case Failure(message) =>
          error := MessageOr(message, LoadError);
      }
      loading := false;
    }

    /** The mount effect: the list is fetched once there is a user. */
    method Mount(hasUser: bool, response: Outcome<seq<PlaylistItem>>)
      modifies this`playlists, this`loading, this`error
      ensures !hasUser ==> playlists == old(playlists) && loading == old(loading) && error == old(error)
      ensures hasUser ==> !loading
      ensures hasUser && response.Success? ==> playlists == response.value && error == ""
      ensures hasUser && response.Failure? ==>
        playlists == old(playlists) && error == MessageOr(response.message, LoadError)
    {
      if hasUser {
        FetchPlaylists(response);
      }
    }

    /** `handleSubmit`. An incomplete form is refused with no request and
        no change. Otherwise the write `WriteFor(editingId, form)` is sent
        (`response` is its outcome): success closes and empties the form,
        forgets the edited id and re-fetches the list (`refetch`); failure
        sets the error and keeps the form. Loading ends false. */
    method HandleSubmit(response: Outcome<()>, refetch: Outcome<seq<PlaylistItem>>)
      returns (sent: Option<PlaylistWrite>)
      modifies this
      ensures sent.None? <==> !Complete(old(form))
      ensures sent.None? ==>
        && playlists == old(playlists) && loading == old(loading) && error == old(error)
        && showForm == old(showForm) && form == old(form) && editingId == old(editingId)
      ensures sent.Some? ==> sent.value == WriteFor(old(editingId), old(form)) && !loading
      ensures sent.Some? && response.Success? ==>
        && !showForm && form == EmptyForm && editingId.None?
        && (refetch.Success? ==> playlists == refetch.value && error == "")
        && (refetch.Failure? ==> playlists == old(playlists) && error == MessageOr(refetch.message, LoadError))
      ensures sent.Some? && response.Failure? ==>
        && error == MessageOr(response.message, SubmitError)
        && playlists == old(playlists) && showForm == old(showForm) && form == old(form) && editingId == old(editingId)
    {
      if !Complete(form) {
        return None;
      }
      loading := true;
      sent := Some(WriteFor(editingId, form));
      match response {
        case Success(_) =>
          showForm := false;
          form := EmptyForm;
          editingId := None;
          FetchPlaylists(refetch);
        case Failure(message) =>
          error := MessageOr(message, SubmitError);
      }
      loading := false;
    }

    /** `handleDelete(id)`: a declined confirmation changes nothing; after
        a successful delete the list is re-fetched, after a failed one the
        error is set. Loading ends false. */
    method HandleDelete(id: string, confirmed: bool, response: Outcome<()>, refetch: Outcome<seq<PlaylistItem>>)
      modifies this`playlists, this`loading, this`error
      ensures !confirmed ==> playlists == old(playlists) && loading == old(loading) && error == old(error)
      ensures confirmed ==> !loading
      ensures confirmed && response.Success? && refetch.Success? ==> playlists == refetch.value && error == ""
      ensures confirmed && response.Success? && refetch.Failure? ==>
        playlists == old(playlists) && error == MessageOr(refetch.message, LoadError)
      ensures confirmed && response.Failure? ==>
        playlists == old(playlists) && error == MessageOr(response.message, DeleteError)
    {
      if !confirmed {
        return;
      }
      loading := true;
      match response {
        case Success(_) =>
          FetchPlaylists(refetch);
        case Failure(message) =>
          error := MessageOr(message, DeleteError);
      }
      loading := false;
    }

    /** `startEdit(playlist)`, and the card's edit button: the form holds
        the playlist's name and description, its id is remembered and the
        form opens. */
    method StartEdit(p: PlaylistItem)
      modifies this`form, this`editingId, this`showForm
      ensures form == PlaylistForm(p.name, p.description) && editingId == Some(p.id) && showForm
    {
      form := PlaylistForm(p.name, p.description);
      editingId := Some(p.id);
      showForm := true;
    }

    /** The "new playlist" button: an empty form with no edited id. */
    method OpenNew()
      modifies this`form, this`editingId, this`showForm
      ensures form == EmptyForm && editingId.None? && showForm
    {
      showForm := true;
      editingId := None;
      form := EmptyForm;
    }

    /** The cancel button: the form closes, its contents stay. */
    method CloseForm()
      modifies this`showForm
      ensures !showForm
    {
      showForm := false;
    }
  }

  /** Editing a playlist with a non-empty id and submitting a complete form
      updates that playlist; submitting straight after the new-playlist
      button sends nothing, since its form is empty. */
  method EditThenSubmit(screen: PlaylistScreen, p: PlaylistItem, response: Outcome<()>, refetch: Outcome<seq<PlaylistItem>>)
    returns (edited: Option<PlaylistWrite>, blank: Option<PlaylistWrite>)
    requires p.id != "" && Complete(PlaylistForm(p.name, p.description))
    modifies screen
    ensures edited == Some(Update(p.id, PlaylistForm(p.name, p.description)))
    ensures blank.None?
  {
    screen.StartEdit(p);
    edited := screen.HandleSubmit(response, refetch);
    screen.OpenNew();
    blank := screen.HandleSubmit(response, refetch);
  }
}
