/** src/api/playlists/handler.js: each handler validates the payload, checks
    that the caller owns the playlist and only then changes it; whatever is
    thrown on the way is answered with the error's own message and its status
    code, or 500.

    The validators are parameters `payloadError`: `Some(m)` when Joi rejects
    the payload with message `m`, which the validator rethrows as an
    InvariantError. The caller's id is the authenticated credential id. */
module PlaylistsApi {
  import opened Common
  import opened Mappers
  import opened Store
  import opened PgPlaylists

  /** The `catch` branch of every handler. */
  function CaughtReply<T>(e: Error): (r: Reply<T>)
    ensures r.Failed? && r.status == ErrorStatus(e) && r.message == MessageOf(e)
    ensures r.status == Code(500) <==> !e.ClientError?
  {
    Failed(ErrorStatus(e), MessageOf(e))
  }

  /** `validate...Payload`: a rejected payload is an InvariantError. */
  function Validate(payloadError: Option<string>): (r: Check)
    ensures r == Pass <==> payloadError.None?
    ensures payloadError.Some? ==> r == Fail(ClientError(Invariant, payloadError.value))
  {
    if payloadError.Some? then Fail(ClientError(Invariant, payloadError.value)) else Pass
  }

  /** The caller owns the playlist. */
  predicate OwnedBy(playlists: map<string, PlaylistRow>, playlistId: string, credentialId: string) {
    playlistId in playlists && playlists[playlistId].owner == credentialId
  }

  /** The error `verifyPlaylistOwner` throws when the caller does not own the playlist. */
  function OwnerError(playlists: map<string, PlaylistRow>, playlistId: string): Error {
    if playlistId !in playlists then ClientError(NotFound, PlaylistNotFound)
    else ClientError(Authorization, NotEntitled)
  }

  class PlaylistsHandler {
    const service: PlaylistsService

    constructor (service: PlaylistsService)
      ensures this.service == service
    {
      this.service := service;
    }

    /** `postPlaylistHandler`: the new playlist belongs to the caller; 201. */
    method PostPlaylistHandler(payloadError: Option<string>, name: string, credentialId: string,
                               nanoid: string, now: string)
      returns (r: Reply<string>)
      requires service.db.Valid()
      modifies service.db`playlists
      ensures service.db.Valid()
      ensures payloadError.Some? ==> r == CaughtReply(ClientError(Invariant, payloadError.value))
      ensures payloadError.None? && credentialId !in service.db.users ==>
        r == CaughtReply(ClientError(Authentication, OwnerNotFound))
      ensures r.Succeeded? <==>
        payloadError.None? && credentialId in service.db.users && "playlist-" + nanoid !in old(service.db.playlists)
      ensures r.Succeeded? ==>
        && r.status == Code(201) && r.data == "playlist-" + nanoid
        && service.db.playlists == old(service.db.playlists)[r.data := PlaylistRow(r.data, name, credentialId, now, now)]
      ensures r.Failed? ==> service.db.playlists == old(service.db.playlists)
    {
      var valid := Validate(payloadError);
      if valid.Fail? {
        return CaughtReply(valid.error);
      }
      var playlistId := service.AddPlaylist(name, credentialId, nanoid, now);
      if playlistId.Failure? {
        return CaughtReply(playlistId.error);
      }
      return Succeeded(Code(201), playlistId.value);
    }

    /** `getPlaylistsHandler`: the caller's playlists; it cannot fail. */
    method GetPlaylistsHandler(credentialId: string) returns (r: Reply<set<PlaylistSummary>>)
      requires service.db.Valid()
      ensures r.Succeeded? && r.status == Code(200)
      ensures forall p :: p in r.data ==>
        && OwnedBy(service.db.playlists, p.id, credentialId)
        && p == PlaylistSummary(p.id, service.db.playlists[p.id].name, OwnerName(service.db.users, credentialId))
      ensures forall id :: OwnedBy(service.db.playlists, id, credentialId) ==>
        PlaylistSummary(id, service.db.playlists[id].name, OwnerName(service.db.users, credentialId)) in r.data
    {
      var playlists := service.GetPlaylists(credentialId);
      return Succeeded(Code(200), playlists);
    }

    /** `deletePlaylistByIdHandler`: only the owner deletes. */
    method DeletePlaylistByIdHandler(id: string, credentialId: string) returns (r: Reply<()>)
      requires service.db.Valid()
      modifies service.db`playlists
      ensures service.db.Valid()
      ensures !OwnedBy(old(service.db.playlists), id, credentialId) ==>
        r == CaughtReply(OwnerError(old(service.db.playlists), id)) && service.db.playlists == old(service.db.playlists)
      ensures OwnedBy(old(service.db.playlists), id, credentialId) ==>
        r == Succeeded(Code(200), ()) && service.db.playlists == old(service.db.playlists) - {id}
    {
      var owner := service.VerifyPlaylistOwner(id, credentialId);
      if owner.Fail? {
        return CaughtReply(owner.error);
      }
      var deleted := service.DeletePlaylistById(id);
      // the owner check has just read the playlist, so the delete finds it
      assert deleted.Success?;
      return Succeeded(Code(200), ());
    }

    /** `postSongToPlaylistHandler`: validate, check the owner, then link the
        song; 201. A caller who fails the check adds nothing. */
    method PostSongToPlaylistHandler(payloadError: Option<string>, playlistId: string, songId: string,
                                     credentialId: string, nanoid: string)
      returns (r: Reply<()>)
      modifies service.db`playlistSongs
      ensures payloadError.Some? ==> r == CaughtReply(ClientError(Invariant, payloadError.value))
      ensures payloadError.None? && !OwnedBy(service.db.playlists, playlistId, credentialId) ==>
        r == CaughtReply(OwnerError(service.db.playlists, playlistId))
      ensures payloadError.None? && OwnedBy(service.db.playlists, playlistId, credentialId)
              && songId !in service.db.songs ==>
        r == CaughtReply(ClientError(NotFound, SongNotFound))
      ensures r.Succeeded? <==>
        && payloadError.None? && OwnedBy(service.db.playlists, playlistId, credentialId)
        && songId in service.db.songs
        && !PlaylistSongIdTaken(old(service.db.playlistSongs), "playlist-song-" + nanoid)
      ensures r.Succeeded? ==>
        && r.status == Code(201)
        && service.db.playlistSongs
           == old(service.db.playlistSongs) + [PlaylistSongRow("playlist-song-" + nanoid, playlistId, songId)]
      ensures r.Failed? ==> service.db.playlistSongs == old(service.db.playlistSongs)
    {
      var valid := Validate(payloadError);
      if valid.Fail? {
        return CaughtReply(valid.error);
      }
      var owner := service.VerifyPlaylistOwner(playlistId, credentialId);
      if owner.Fail? {
        return CaughtReply(owner.error);
      }
      var added := service.AddSongToPlaylist(playlistId, songId, nanoid);
      if added.Failure? {
        return CaughtReply(added.error);
      }
      return Succeeded(Code(201), ());
    }

    /** `getPlaylistSongsHandler`: only the owner reads the playlist, which is
        answered whole: its id, name, owner's username and linked songs. */
    method GetPlaylistSongsHandler(playlistId: string, credentialId: string) returns (r: Reply<PlaylistDetail>)
      requires service.db.Valid()
      ensures !OwnedBy(service.db.playlists, playlistId, credentialId) ==>
        r == CaughtReply(OwnerError(service.db.playlists, playlistId))
      ensures OwnedBy(service.db.playlists, playlistId, credentialId) ==>
        r == Succeeded(Code(200), PlaylistDetail(
               playlistId, service.db.playlists[playlistId].name,
               OwnerName(service.db.users, credentialId),
               LinkedSongs(service.db.playlistSongs, service.db.songs, playlistId)))
    {
      var owner := service.VerifyPlaylistOwner(playlistId, credentialId);
      if owner.Fail? {
        return CaughtReply(owner.error);
      }
      var result := service.GetPlaylistSongs(playlistId);
      // the owner check has just read the playlist, so the query finds it
      assert result.Success?;
      return Succeeded(Code(200), result.value);
    }

    /** `deleteSongFromPlaylistHandler`: validate, check the owner, then unlink
        the song. A caller who fails the check leaves the playlist as it was. */
    method DeleteSongFromPlaylistHandler(payloadError: Option<string>, playlistId: string, songId: string,
                                         credentialId: string)
      returns (r: Reply<()>)
      requires service.db.Valid()
      modifies service.db`playlistSongs
      ensures payloadError.Some? ==> r == CaughtReply(ClientError(Invariant, payloadError.value))
      ensures payloadError.None? && !OwnedBy(service.db.playlists, playlistId, credentialId) ==>
        r == CaughtReply(OwnerError(service.db.playlists, playlistId))
      ensures payloadError.None? && OwnedBy(service.db.playlists, playlistId, credentialId)
              && !HasPlaylistSong(old(service.db.playlistSongs), playlistId, songId) ==>
        r == CaughtReply(ClientError(Invariant, SongNotRemoved))
      ensures r.Succeeded? <==>
        && payloadError.None? && OwnedBy(service.db.playlists, playlistId, credentialId)
        && HasPlaylistSong(old(service.db.playlistSongs), playlistId, songId)
      ensures r.Succeeded? ==>
        && r.status == Code(200)
        && service.db.playlistSongs == RemovePlaylistSongs(old(service.db.playlistSongs), playlistId, songId)
      ensures r.Failed? ==> service.db.playlistSongs == old(service.db.playlistSongs)
    {
      var valid := Validate(payloadError);
      if valid.Fail? {
        return CaughtReply(valid.error);
      }
      var owner := service.VerifyPlaylistOwner(playlistId, credentialId);
      if owner.Fail? {
        return CaughtReply(owner.error);
      }
      var deleted := service.DeleteSongFromPlaylist(playlistId, songId);
      if deleted.Failure? {
        return CaughtReply(deleted.error);
      }
      return Succeeded(Code(200), ());
    }
  }

  /** Only the owner passes the guard: a user recorded as a collaborator of
      the playlist is refused like any other non-owner, and adds no song. */
  method CollaboratorRefused(playlist: PlaylistRow, song: SongRow, collaborator: string)
    returns (r: Reply<()>, rows: nat)
    requires collaborator != playlist.owner
    ensures r == Failed(StatusCodeOf(Authorization), MessageOf(ClientError(Authorization, NotEntitled)))
    ensures rows == 0
  {
    var db := new Database();
    db.playlists := map[playlist.id := playlist];
    db.songs := map[song.id := song];
    db.collaborations := [CollaborationRow("collab-a", playlist.id, collaborator, "t")];
    var service := new PlaylistsService(db);
    var handler := new PlaylistsHandler(service);
    r := handler.PostSongToPlaylistHandler(None, playlist.id, song.id, collaborator, "a");
    rows := |db.playlistSongs|;
  }
}
