/** src/api/collaborations/handler.js: adding and removing a collaborator.
    The playlist id comes from the path or, failing that, the payload; without
    one the handler answers 400 and calls no service. Otherwise the caller must
    own the playlist before the collaboration table is touched. Every failure
    is answered with a fixed message and the error's status code, or 500.

    The validator is the parameter `payloadError`, as in `PlaylistsApi`. */
module CollaborationsApi {
  import opened Common
  import opened Store
  import opened PgPlaylists
  import opened PgCollaborations
  import PlaylistsApi

  const AddFailed := "Gagal menambahkan kolaborasi"
  const DeleteFailed := "Gagal menghapus kolaborasi"
  const AddMissingPlaylistId := "Gagal menambahkan kolaborasi, playlistId tidak ditemukan"
  const DeleteMissingPlaylistId := "Gagal menghapus kolaborasi, playlistId tidak ditemukan"

  /** `request.params.id || request.payload.playlistId`. */
  function ResolvePlaylistId(paramsId: Option<string>, payloadId: Option<string>): (r: Option<string>)
    ensures Truthy(paramsId) ==> r == paramsId
    ensures !Truthy(paramsId) ==> r == payloadId
    ensures Truthy(r) <==> Truthy(paramsId) || Truthy(payloadId)
  {
    if Truthy(paramsId) then paramsId else payloadId
  }

  /** The `catch` branch: a fixed message, whatever was caught, with the
      caught error's status code, or 500 when it carries none. */
  function CaughtReply<T>(e: Error, message: string): (r: Reply<T>)
    ensures r.Failed? && r.message == Fixed(message)
    ensures r.status == Code(500) <==> !e.ClientError?
    ensures e.ClientError? ==> r.status == StatusCodeOf(e.kind)
  {
    Failed(ErrorStatus(e), Fixed(message))
  }

  class CollaborationsHandler {
    const collaborations: CollaborationsService
    const playlists: PlaylistsService

    /** Both services work on the one database. */
    predicate SharedStore() {
      collaborations.db == playlists.db
    }

    constructor (collaborations: CollaborationsService, playlists: PlaylistsService)
      requires collaborations.db == playlists.db
      ensures this.collaborations == collaborations && this.playlists == playlists
      ensures SharedStore()
    {
      this.collaborations := collaborations;
      this.playlists := playlists;
    }

    /** `postCollaborationHandler`: 201 with the new collaboration's id, when
        the caller owns the playlist and the pair is new. */
    method PostCollaborationHandler(payloadError: Option<string>, paramsId: Option<string>,
                                    payloadPlaylistId: Option<string>, userId: string,
                                    credentialId: string, nanoid: string, now: string)
      returns (r: Reply<string>)
      requires SharedStore()
      modifies collaborations.db`collaborations
      ensures payloadError.Some? ==> r == CaughtReply(ClientError(Invariant, payloadError.value), AddFailed)
      ensures payloadError.None? && !Truthy(ResolvePlaylistId(paramsId, payloadPlaylistId)) ==>
        r == Failed(Code(400), Fixed(AddMissingPlaylistId))
      ensures payloadError.None? && Truthy(ResolvePlaylistId(paramsId, payloadPlaylistId))
              && !PlaylistsApi.OwnedBy(playlists.db.playlists, ResolvePlaylistId(paramsId, payloadPlaylistId).value, credentialId) ==>
        r == CaughtReply(PlaylistsApi.OwnerError(playlists.db.playlists, ResolvePlaylistId(paramsId, payloadPlaylistId).value), AddFailed)
      ensures r.Succeeded? <==>
        && payloadError.None? && Truthy(ResolvePlaylistId(paramsId, payloadPlaylistId))
        && var playlistId := ResolvePlaylistId(paramsId, payloadPlaylistId).value;
           && PlaylistsApi.OwnedBy(playlists.db.playlists, playlistId, credentialId)
           && userId in collaborations.db.users
           && !HasCollaboration(old(collaborations.db.collaborations), playlistId, userId)
           && !CollaborationIdTaken(old(collaborations.db.collaborations), "collab-" + nanoid)
      ensures r.Succeeded? ==>
        && r.status == Code(201) && r.data == "collab-" + nanoid
        && collaborations.db.collaborations == old(collaborations.db.collaborations)
           + [CollaborationRow(r.data, ResolvePlaylistId(paramsId, payloadPlaylistId).value, userId, now)]
      ensures r.Failed? ==> collaborations.db.collaborations == old(collaborations.db.collaborations)
      ensures r.Failed? && r.message.Fixed? ==>
        r.message.text in {AddFailed, AddMissingPlaylistId}
    {
      var valid := PlaylistsApi.Validate(payloadError);
      if valid.Fail? {
        return CaughtReply(valid.error, AddFailed);
      }
      var playlistId := ResolvePlaylistId(paramsId, payloadPlaylistId);
      if !Truthy(playlistId) {
        return Failed(Code(400), Fixed(AddMissingPlaylistId));
      }
      var owner := playlists.VerifyPlaylistOwner(playlistId.value, credentialId);
      if owner.Fail? {
        return CaughtReply(owner.error, AddFailed);
      }
      var collaborationId := collaborations.AddCollaboration(playlistId.value, userId, nanoid, now);
      if collaborationId.Failure? {
        return CaughtReply(collaborationId.error, AddFailed);
      }
      return Succeeded(Code(201), collaborationId.value);
    }

    /** `deleteCollaborationHandler`: removes the pair when the caller owns
        the playlist and the pair exists. */
    method DeleteCollaborationHandler(payloadError: Option<string>, paramsId: Option<string>,
                                      payloadPlaylistId: Option<string>, userId: string,
                                      credentialId: string)
      returns (r: Reply<()>)
      requires SharedStore()
      modifies collaborations.db`collaborations
      ensures payloadError.Some? ==> r == CaughtReply(ClientError(Invariant, payloadError.value), DeleteFailed)
      ensures payloadError.None? && !Truthy(ResolvePlaylistId(paramsId, payloadPlaylistId)) ==>
        r == Failed(Code(400), Fixed(DeleteMissingPlaylistId))
      ensures payloadError.None? && Truthy(ResolvePlaylistId(paramsId, payloadPlaylistId))
              && !PlaylistsApi.OwnedBy(playlists.db.playlists, ResolvePlaylistId(paramsId, payloadPlaylistId).value, credentialId) ==>
        r == CaughtReply(PlaylistsApi.OwnerError(playlists.db.playlists, ResolvePlaylistId(paramsId, payloadPlaylistId).value), DeleteFailed)
      ensures r.Succeeded? <==>
        && payloadError.None? && Truthy(ResolvePlaylistId(paramsId, payloadPlaylistId))
        && var playlistId := ResolvePlaylistId(paramsId, payloadPlaylistId).value;
           && PlaylistsApi.OwnedBy(playlists.db.playlists, playlistId, credentialId)
           && HasCollaboration(old(collaborations.db.collaborations), playlistId, userId)
      ensures r.Succeeded? ==>
        && r.status == Code(200)
        && collaborations.db.collaborations == RemoveCollaborations(
             old(collaborations.db.collaborations), ResolvePlaylistId(paramsId, payloadPlaylistId).value, userId)
      ensures r.Failed? ==> collaborations.db.collaborations == old(collaborations.db.collaborations)
    {
      var valid := PlaylistsApi.Validate(payloadError);
      if valid.Fail? {
        return CaughtReply(valid.error, DeleteFailed);
      }
      var playlistId := ResolvePlaylistId(paramsId, payloadPlaylistId);
      if !Truthy(playlistId) {
        return Failed(Code(400), Fixed(DeleteMissingPlaylistId));
      }
      var owner := playlists.VerifyPlaylistOwner(playlistId.value, credentialId);
      if owner.Fail? {
        return CaughtReply(owner.error, DeleteFailed);
      }
      var deleted := collaborations.DeleteCollaboration(playlistId.value, userId);
      if deleted.Failure? {
        return CaughtReply(deleted.error, DeleteFailed);
      }
      return Succeeded(Code(200), ());
    }
  }

  /** A caller who does not own the playlist, named in the payload, is
      refused with the status of an AuthorizationError and the collaboration
      table stays empty. */
  method NonOwnerCannotAdd(playlist: PlaylistRow, user: UserRow, intruder: string)
    returns (r: Reply<string>, rows: nat)
    requires playlist.id != "" && intruder != playlist.owner
    ensures r == Failed(StatusCodeOf(Authorization), Fixed(AddFailed))
    ensures rows == 0
  {
    var db := new Database();
    db.users := map[user.id := user];
    db.playlists := map[playlist.id := playlist];
    var collaborations := new CollaborationsService(db);
    var playlists := new PlaylistsService(db);
    var handler := new CollaborationsHandler(collaborations, playlists);
    r := handler.PostCollaborationHandler(None, None, Some(playlist.id), user.id, intruder, "a", "t");
    rows := |db.collaborations|;
  }
}
