/** src/services/postgres/PlayslistsService.js: playlists, their owners and
    the songs linked to them through `playlist_songs`.

    Ids (`nanoid(16)`) and timestamps are parameters. An id that is already
    taken makes the INSERT fail with a unique violation of the primary key. */
module PgPlaylists {
  import opened Common
  import opened Mappers
  import opened Store

  const OwnerNotFound := "User tidak ditemukan"
  const PlaylistNotFound := "Playlist tidak ditemukan"
  const EditPlaylistNotFound := "Gagal memperbarui playlist. Id tidak ditemukan"
  const DeletePlaylistNotFound := "Playlist gagal dihapus. Id tidak ditemukan"
  const NotEntitled := "Anda tidak berhak mengakses resource ini"
  const SongNotFound := "Lagu tidak ditemukan"
  const SongNotRemoved := "Lagu gagal dihapus dari playlist"

  /** A row of `SELECT p.id, p.name, u.username FROM playlists p LEFT JOIN users u
      ON u.id = p.owner`: the username is NULL when the owner has no user row. */
  datatype PlaylistSummary = PlaylistSummary(id: string, name: string, username: Option<string>)

  /** `SELECT id, name, owner FROM playlists`. */
  datatype PlaylistInfo = PlaylistInfo(id: string, name: string, owner: string)

  /** The `playlist` object `getPlaylistSongs` answers. */
  datatype PlaylistDetail = PlaylistDetail(
    id: string, name: string, username: Option<string>, songs: multiset<SongSummary>)

  /** The username the LEFT JOIN finds for an owner. */
  function OwnerName(users: map<string, UserRow>, owner: string): (r: Option<string>)
    ensures r.Some? <==> owner in users
    ensures r.Some? ==> r.value == users[owner].username
  {
    if owner in users then Some(users[owner].username) else None
  }

  function SummaryOf(p: PlaylistRow, users: map<string, UserRow>): PlaylistSummary {
    PlaylistSummary(p.id, p.name, OwnerName(users, p.owner))
  }

  predicate PlaylistSongIdTaken(rows: seq<PlaylistSongRow>, id: string) {
    exists x :: x in rows && x.id == id
  }

  class PlaylistsService {
    const db: Database

    constructor (db: Database)
      ensures this.db == db
    {
      this.db := db;
    }

    /** `addPlaylist`: the owner must be a user; the new playlist is stamped
        `now` twice and its id is `playlist-` followed by the nanoid. */
    method AddPlaylist(name: string, owner: string, nanoid: string, now: string)
      returns (r: Fallible<string>)
      requires db.Valid()
      modifies db`playlists
      ensures db.Valid()
      ensures owner !in db.users ==> r == Failure(ClientError(Authentication, OwnerNotFound))
      ensures (owner in db.users && "playlist-" + nanoid in old(db.playlists)) ==>
        r == Failure(StoreError(UniqueViolation))
      ensures r.Success? <==> owner in db.users && "playlist-" + nanoid !in old(db.playlists)
      ensures r.Failure? ==> db.playlists == old(db.playlists)
      ensures r.Success? ==>
        && r.value == "playlist-" + nanoid && r.value[..9] == "playlist-"
        && db.playlists == old(db.playlists)[r.value := PlaylistRow(r.value, name, owner, now, now)]
    {
      var id := "playlist-" + nanoid;
      :- VerifyOwnerExists(owner);
      if id in db.playlists {
        return Failure(StoreError(UniqueViolation));
      }
      db.playlists := db.playlists[id := PlaylistRow(id, name, owner, now, now)];
      // INSERT ... RETURNING id returns the inserted row, so the check for an
      // empty result ('Playlist gagal ditambahkan') never fails
      return Success(id);
    }

    /** `verifyOwnerExists`: an unknown user is an authentication failure. */
    method VerifyOwnerExists(userId: string) returns (r: Check)
      ensures r == Pass <==> userId in db.users
      ensures r != Pass ==> r == Fail(ClientError(Authentication, OwnerNotFound))
    {
      if userId !in db.users {
        return Fail(ClientError(Authentication, OwnerNotFound));
      }
      return Pass;
    }

    /** `getPlaylists`: the playlists the user owns, each with the owner's username. */
    method GetPlaylists(owner: string) returns (r: set<PlaylistSummary>)
      requires db.Valid()
      ensures forall p :: p in r <==>
        exists id :: id in db.playlists && db.playlists[id].owner == owner
                     && p == PlaylistSummary(id, db.playlists[id].name, OwnerName(db.users, owner))
      ensures forall p :: p in r ==> p.username == OwnerName(db.users, owner)
    {
      r := set id | id in db.playlists && db.playlists[id].owner == owner :: SummaryOf(db.playlists[id], db.users);
    }

    /** `getPlaylistById`. */
    method GetPlaylistById(id: string) returns (r: Fallible<PlaylistInfo>)
      requires db.Valid()
      ensures id !in db.playlists ==> r == Failure(ClientError(NotFound, PlaylistNotFound))
      ensures id in db.playlists ==>
        r == Success(PlaylistInfo(id, db.playlists[id].name, db.playlists[id].owner))
    {
      if id !in db.playlists {
        return Failure(ClientError(NotFound, PlaylistNotFound));
      }
      var p := db.playlists[id];
      return Success(PlaylistInfo(p.id, p.name, p.owner));
    }

    /** `editPlaylistById`: renames the playlist and stamps `updated_at`;
        owner and `created_at` stay. */
    method EditPlaylistById(id: string, name: string, now: string) returns (r: Fallible<()>)
      requires db.Valid()
      modifies db`playlists
      ensures db.Valid()
      ensures id !in old(db.playlists) ==>
        r == Failure(ClientError(NotFound, EditPlaylistNotFound)) && db.playlists == old(db.playlists)
      ensures id in old(db.playlists) ==>
        r == Success(()) && db.playlists == old(db.playlists)[id := old(db.playlists)[id].(name := name, updated_at := now)]
      ensures id in old(db.playlists) ==>
        db.playlists[id].owner == old(db.playlists)[id].owner
        && db.playlists[id].created_at == old(db.playlists)[id].created_at
    {
      if id !in db.playlists {
        return Failure(ClientError(NotFound, EditPlaylistNotFound));
      }
      db.playlists := db.playlists[id := db.playlists[id].(name := name, updated_at := now)];
      return Success(());
    }

    /** `deletePlaylistById`. */
    method DeletePlaylistById(id: string) returns (r: Fallible<()>)
      requires db.Valid()
      modifies db`playlists
      ensures db.Valid()
      ensures id !in old(db.playlists) ==>
        r == Failure(ClientError(NotFound, DeletePlaylistNotFound)) && db.playlists == old(db.playlists)
      ensures id in old(db.playlists) ==> r == Success(()) && db.playlists == old(db.playlists) - {id}
      ensures id !in db.playlists
    {
      if id !in db.playlists {
        return Failure(ClientError(NotFound, DeletePlaylistNotFound));
      }
      db.playlists := db.playlists - {id};
      return Success(());
    }

    /** `verifyPlaylistOwner`: the playlist must exist and belong to `owner`. */
    method VerifyPlaylistOwner(id: string, owner: string) returns (r: Check)
      ensures id !in db.playlists ==> r == Fail(ClientError(NotFound, PlaylistNotFound))
      ensures id in db.playlists && db.playlists[id].owner != owner ==>
        r == Fail(ClientError(Authorization, NotEntitled))
      ensures r == Pass <==> id in db.playlists && db.playlists[id].owner == owner
    {
      if id !in db.playlists {
        return Fail(ClientError(NotFound, PlaylistNotFound));
      }
      var playlist := db.playlists[id];
      if playlist.owner != owner {
        return Fail(ClientError(Authorization, NotEntitled));
      }
      return Pass;
    }

    /** `verifySongExists`. */
    method VerifySongExists(songId: string) returns (r: Check)
      ensures r == Pass <==> songId in db.songs
      ensures r != Pass ==> r == Fail(ClientError(NotFound, SongNotFound))
    {
      if songId !in db.songs {
        return Fail(ClientError(NotFound, SongNotFound));
      }
      return Pass;
    }

    /** `addSongToPlaylist`: links an existing song to the playlist. The same
        song may be linked twice; the playlist then lists it twice. */
    method AddSongToPlaylist(playlistId: string, songId: string, nanoid: string) returns (r: Fallible<()>)
      modifies db`playlistSongs
      ensures songId !in db.songs ==> r == Failure(ClientError(NotFound, SongNotFound))
      ensures (songId in db.songs && PlaylistSongIdTaken(old(db.playlistSongs), "playlist-song-" + nanoid)) ==>
        r == Failure(StoreError(UniqueViolation))
      ensures r.Success? <==>
        songId in db.songs && !PlaylistSongIdTaken(old(db.playlistSongs), "playlist-song-" + nanoid)
      ensures r.Failure? ==> db.playlistSongs == old(db.playlistSongs)
      ensures r.Success? ==>
        && db.playlistSongs == old(db.playlistSongs) + [PlaylistSongRow("playlist-song-" + nanoid, playlistId, songId)]
        && LinkedSongs(db.playlistSongs, db.songs, playlistId)
           == LinkedSongs(old(db.playlistSongs), db.songs, playlistId) + multiset{Summary(db.songs[songId])}
    {
      var id := "playlist-song-" + nanoid;
      :- VerifySongExists(songId);
      if PlaylistSongIdTaken(db.playlistSongs, id) {
        return Failure(StoreError(UniqueViolation));
      }
      var row := PlaylistSongRow(id, playlistId, songId);
      LinkedSongsAppend(db.playlistSongs, db.songs, playlistId, row);
      db.playlistSongs := db.playlistSongs + [row];
      // INSERT ... RETURNING id returns the inserted row, so the check for an
      // empty result ('Lagu gagal ditambahkan ke playlist') never fails
      return Success(());
    }

    /** `getPlaylistSongs`: the playlist with its owner's username and the
        songs linked to it. */
    method GetPlaylistSongs(playlistId: string) returns (r: Fallible<PlaylistDetail>)
      requires db.Valid()
      ensures playlistId !in db.playlists ==> r == Failure(ClientError(NotFound, PlaylistNotFound))
      ensures playlistId in db.playlists ==>
        && r.Success?
        && r.value.id == playlistId && r.value.name == db.playlists[playlistId].name
        && r.value.username == OwnerName(db.users, db.playlists[playlistId].owner)
        && r.value.songs == LinkedSongs(db.playlistSongs, db.songs, playlistId)
      ensures r.Success? ==> forall s :: s in r.value.songs <==>
        exists x :: x in db.playlistSongs && x.playlist_id == playlistId && x.song_id in db.songs
                    && Summary(db.songs[x.song_id]) == s
    {
      if playlistId !in db.playlists {
        return Failure(ClientError(NotFound, PlaylistNotFound));
      }
      var summary := SummaryOf(db.playlists[playlistId], db.users);
      var songs := LinkedSongs(db.playlistSongs, db.songs, playlistId);
      forall s | true
        ensures s in songs <==>
          exists x :: x in db.playlistSongs && x.playlist_id == playlistId && x.song_id in db.songs
                      && Summary(db.songs[x.song_id]) == s
      {
        LinkedSongsMember(db.playlistSongs, db.songs, playlistId, s);
      }
      return Success(PlaylistDetail(summary.id, summary.name, summary.username, songs));
    }

    /** `deleteSongFromPlaylist`: removes every link of the pair, which must
        exist; the playlist then lists no copy of the song. */
    method DeleteSongFromPlaylist(playlistId: string, songId: string) returns (r: Fallible<()>)
      requires db.Valid()
      modifies db`playlistSongs
      ensures !HasPlaylistSong(old(db.playlistSongs), playlistId, songId) ==>
        r == Failure(ClientError(Invariant, SongNotRemoved)) && db.playlistSongs == old(db.playlistSongs)
      ensures HasPlaylistSong(old(db.playlistSongs), playlistId, songId) ==>
        r == Success(()) && db.playlistSongs == RemovePlaylistSongs(old(db.playlistSongs), playlistId, songId)
      ensures r.Success? ==>
        forall s :: s in LinkedSongs(db.playlistSongs, db.songs, playlistId) ==> s.id != songId
    {
      if !HasPlaylistSong(db.playlistSongs, playlistId, songId) {
        return Failure(ClientError(Invariant, SongNotRemoved));
      }
      var before := db.playlistSongs;
      db.playlistSongs := RemovePlaylistSongs(db.playlistSongs, playlistId, songId);
      forall s | s in LinkedSongs(db.playlistSongs, db.songs, playlistId)
        ensures s.id != songId
      {
        RemovedSongNotLinked(before, db.songs, playlistId, songId, s);
      }
      return Success(());
    }
  }
}
