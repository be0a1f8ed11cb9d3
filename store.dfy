/** The relational store behind the PostgreSQL services, as one object whose
    fields are the tables. Tables with a primary key that the services look
    rows up by are maps from that key to the row; the link tables
    (`album_likes`, `playlist_songs`, `playlist_collaborations`) are sequences
    of rows, because a DELETE on them removes every row that matches a
    (parent, child) pair and `playlist_songs` may hold the same pair twice.

    Besides the tables this module holds the functions the services' queries
    compute over them (COUNT, DELETE ... WHERE, joins) and their lemmas. */
module Store {
  import opened Common
  import opened Mappers

  datatype LikeRow = LikeRow(id: string, user_id: string, album_id: string, created_at: string)
  datatype UserRow = UserRow(id: string, username: string, password: string, fullname: string)
  datatype PlaylistRow = PlaylistRow(
    id: string, name: string, owner: string, created_at: string, updated_at: string)
  datatype PlaylistSongRow = PlaylistSongRow(id: string, playlist_id: string, song_id: string)
  datatype CollaborationRow = CollaborationRow(
    id: string, playlist_id: string, user_id: string, created_at: string)

  /** `SELECT id, title, performer FROM songs`. */
  datatype SongSummary = SongSummary(id: string, title: string, performer: string)

  function Summary(row: SongRow): SongSummary {
    SongSummary(row.id, row.title, row.performer)
  }

  class Database {
    var albums: map<string, AlbumRow>
    var songs: map<string, SongRow>
    var likes: seq<LikeRow>
    var users: map<string, UserRow>
    var playlists: map<string, PlaylistRow>
    var playlistSongs: seq<PlaylistSongRow>
    var collaborations: seq<CollaborationRow>

    /** Every keyed table stores each row under its own id. */
    ghost predicate Valid()
      reads this
    {
      && (forall k :: k in albums ==> albums[k].id == k)
      && SongsKeyed(songs)
      && (forall k :: k in users ==> users[k].id == k)
      && (forall k :: k in playlists ==> playlists[k].id == k)
    }

    constructor ()
      ensures Valid()
      ensures albums == map[] && songs == map[] && likes == [] && users == map[]
      ensures playlists == map[] && playlistSongs == [] && collaborations == []
    {
      albums, songs, likes, users := map[], map[], [], map[];
      playlists, playlistSongs, collaborations := map[], [], [];
    }
  }

  ghost predicate SongsKeyed(songs: map<string, SongRow>) {
    forall k :: k in songs ==> songs[k].id == k
  }

  // ---------------------------------------------------------------- album_likes

  predicate IsLike(l: LikeRow, userId: string, albumId: string) {
    l.user_id == userId && l.album_id == albumId
  }

  /** `SELECT id FROM album_likes WHERE user_id = $1 AND album_id = $2` is not empty. */
  predicate HasLike(likes: seq<LikeRow>, userId: string, albumId: string) {
    exists l :: l in likes && IsLike(l, userId, albumId)
  }

  /** No user likes the same album twice. */
  ghost predicate LikesUnique(likes: seq<LikeRow>) {
    forall i, j :: 0 <= i < j < |likes| ==>
      !IsLike(likes[j], likes[i].user_id, likes[i].album_id)
  }

  /** `SELECT COUNT(*) FROM album_likes WHERE album_id = $1`. */
  function CountLikes(likes: seq<LikeRow>, albumId: string): (n: nat)
    ensures n <= |likes|
    ensures n == 0 <==> forall i :: 0 <= i < |likes| ==> likes[i].album_id != albumId
  {
    if likes == [] then 0
    else (if likes[0].album_id == albumId then 1 else 0) + CountLikes(likes[1..], albumId)
  }

  /** What `DELETE FROM album_likes WHERE user_id = $1 AND album_id = $2` leaves. */
  function RemoveLikes(likes: seq<LikeRow>, userId: string, albumId: string): (r: seq<LikeRow>)
    ensures forall l :: l in r <==> l in likes && !IsLike(l, userId, albumId)
    ensures !HasLike(likes, userId, albumId) ==> r == likes
    ensures HasLike(likes, userId, albumId) ==> |r| < |likes|
  {
    if likes == [] then []
    else if IsLike(likes[0], userId, albumId) then RemoveLikes(likes[1..], userId, albumId)
    else [likes[0]] + RemoveLikes(likes[1..], userId, albumId)
  }

  /** The rows that DELETE removes, in table order (its RETURNING rows). */
  function MatchingLikes(likes: seq<LikeRow>, userId: string, albumId: string): (r: seq<LikeRow>)
    ensures forall l :: l in r <==> l in likes && IsLike(l, userId, albumId)
    ensures r == [] <==> !HasLike(likes, userId, albumId)
  {
    if likes == [] then []
    else if IsLike(likes[0], userId, albumId) then [likes[0]] + MatchingLikes(likes[1..], userId, albumId)
    else MatchingLikes(likes[1..], userId, albumId)
  }

  /** Inserting one like adds one to its album's count and to no other. */
  lemma {:induction false} CountLikesAppend(likes: seq<LikeRow>, l: LikeRow, albumId: string)
    ensures CountLikes(likes + [l], albumId)
         == CountLikes(likes, albumId) + (if l.album_id == albumId then 1 else 0)
  {
    if likes != [] {
      assert (likes + [l])[1..] == likes[1..] + [l];
      CountLikesAppend(likes[1..], l, albumId);
    }
  }

  lemma {:induction false} RemoveLikesAppend(likes: seq<LikeRow>, l: LikeRow, userId: string, albumId: string)
    ensures RemoveLikes(likes + [l], userId, albumId)
         == RemoveLikes(likes, userId, albumId) + (if IsLike(l, userId, albumId) then [] else [l])
  {
    if likes == [] {
      assert likes + [l] == [l];
    } else {
      assert (likes + [l])[1..] == likes[1..] + [l];
      RemoveLikesAppend(likes[1..], l, userId, albumId);
    }
  }

  /** Unlike undoes like: a like inserted where the user had none is exactly
      what the matching DELETE takes away again. */
  lemma LikeThenUnlike(likes: seq<LikeRow>, id: string, userId: string, albumId: string, now: string)
    requires !HasLike(likes, userId, albumId)
    ensures RemoveLikes(likes + [LikeRow(id, userId, albumId, now)], userId, albumId) == likes
  {
    RemoveLikesAppend(likes, LikeRow(id, userId, albumId, now), userId, albumId);
  }

  /** With unique likes an unlike lowers its album's count by exactly one. */
  lemma {:induction false} CountLikesAfterUnlike(likes: seq<LikeRow>, userId: string, albumId: string)
    requires LikesUnique(likes) && HasLike(likes, userId, albumId)
    ensures CountLikes(RemoveLikes(likes, userId, albumId), albumId) + 1 == CountLikes(likes, albumId)
  {
    var rest := likes[1..];
    assert forall l :: l in rest ==> l in likes;
    if !IsLike(likes[0], userId, albumId) {
      assert LikesUnique(rest) by {
        forall i, j | 0 <= i < j < |rest|
          ensures !IsLike(rest[j], rest[i].user_id, rest[i].album_id)
        {
          assert rest[i] == likes[i + 1] && rest[j] == likes[j + 1];
        }
      }
      var l :| l in likes && IsLike(l, userId, albumId);
      assert l in rest;
      CountLikesAfterUnlike(rest, userId, albumId);
      assert RemoveLikes(likes, userId, albumId) == [likes[0]] + RemoveLikes(rest, userId, albumId);
      assert ([likes[0]] + RemoveLikes(rest, userId, albumId))[1..] == RemoveLikes(rest, userId, albumId);
    }
  }

  lemma {:induction false} LikesUniqueCons(l: LikeRow, rest: seq<LikeRow>)
    requires LikesUnique(rest) && !HasLike(rest, l.user_id, l.album_id)
    ensures LikesUnique([l] + rest)
  {
    var s := [l] + rest;
    forall i, j | 0 <= i < j < |s|
      ensures !IsLike(s[j], s[i].user_id, s[i].album_id)
    {
      assert s[j] == rest[j - 1];
      if i > 0 {
        assert s[i] == rest[i - 1];
      } else {
        assert s[j] in rest;
      }
    }
  }

  /** A like inserted only when the user has none keeps likes unique. */
  lemma {:induction false} LikesUniqueAppend(likes: seq<LikeRow>, l: LikeRow)
    requires LikesUnique(likes) && !HasLike(likes, l.user_id, l.album_id)
    ensures LikesUnique(likes + [l])
  {
    var s := likes + [l];
    forall i, j | 0 <= i < j < |s|
      ensures !IsLike(s[j], s[i].user_id, s[i].album_id)
    {
      assert s[i] == likes[i];
      if j < |likes| {
        assert s[j] == likes[j];
      } else {
        assert s[i] in likes;
      }
    }
  }

  /** Deleting likes keeps the remaining likes unique. */
  lemma {:induction false} RemoveLikesKeepsUnique(likes: seq<LikeRow>, userId: string, albumId: string)
    requires LikesUnique(likes)
    ensures LikesUnique(RemoveLikes(likes, userId, albumId))
  {
    if likes != [] {
      var rest := likes[1..];
      assert LikesUnique(rest) by {
        forall i, j | 0 <= i < j < |rest|
          ensures !IsLike(rest[j], rest[i].user_id, rest[i].album_id)
        {
          assert rest[i] == likes[i + 1] && rest[j] == likes[j + 1];
        }
      }
      RemoveLikesKeepsUnique(rest, userId, albumId);
      if !IsLike(likes[0], userId, albumId) {
        LikesUniqueCons(likes[0], RemoveLikes(rest, userId, albumId));
      }
    }
  }

  // ---------------------------------------------------- playlist_collaborations

  predicate IsCollaboration(c: CollaborationRow, playlistId: string, userId: string) {
    c.playlist_id == playlistId && c.user_id == userId
  }

  predicate HasCollaboration(rows: seq<CollaborationRow>, playlistId: string, userId: string) {
    exists c :: c in rows && IsCollaboration(c, playlistId, userId)
  }

  /** The unique key on (playlist_id, user_id). */
  ghost predicate CollaborationsUnique(rows: seq<CollaborationRow>) {
    forall i, j :: 0 <= i < j < |rows| ==>
      !IsCollaboration(rows[j], rows[i].playlist_id, rows[i].user_id)
  }

  /** What `DELETE FROM playlist_collaborations WHERE playlist_id = $1 AND user_id = $2` leaves. */
  function RemoveCollaborations(rows: seq<CollaborationRow>, playlistId: string, userId: string)
    : (r: seq<CollaborationRow>)
    ensures forall c :: c in r <==> c in rows && !IsCollaboration(c, playlistId, userId)
    ensures !HasCollaboration(rows, playlistId, userId) ==> r == rows
  {
    if rows == [] then []
    else if IsCollaboration(rows[0], playlistId, userId) then RemoveCollaborations(rows[1..], playlistId, userId)
    else [rows[0]] + RemoveCollaborations(rows[1..], playlistId, userId)
  }

  // ------------------------------------------------------------- playlist_songs

  predicate IsPlaylistSong(r: PlaylistSongRow, playlistId: string, songId: string) {
    r.playlist_id == playlistId && r.song_id == songId
  }

  predicate HasPlaylistSong(rows: seq<PlaylistSongRow>, playlistId: string, songId: string) {
    exists r :: r in rows && IsPlaylistSong(r, playlistId, songId)
  }

  /** What `DELETE FROM playlist_songs WHERE playlist_id = $1 AND song_id = $2` leaves. */
  function RemovePlaylistSongs(rows: seq<PlaylistSongRow>, playlistId: string, songId: string)
    : (r: seq<PlaylistSongRow>)
    ensures forall x :: x in r <==> x in rows && !IsPlaylistSong(x, playlistId, songId)
    ensures !HasPlaylistSong(rows, playlistId, songId) ==> r == rows
  {
    if rows == [] then []
    else if IsPlaylistSong(rows[0], playlistId, songId) then RemovePlaylistSongs(rows[1..], playlistId, songId)
    else [rows[0]] + RemovePlaylistSongs(rows[1..], playlistId, songId)
  }

  /** `SELECT s.id, s.title, s.performer FROM songs s INNER JOIN playlist_songs ps
      ON ps.song_id = s.id WHERE ps.playlist_id = $1`, as a multiset since the
      query has no ORDER BY and a song linked twice comes back twice. */
  function LinkedSongs(rows: seq<PlaylistSongRow>, songs: map<string, SongRow>, playlistId: string)
    : multiset<SongSummary>
  {
    if rows == [] then multiset{}
    else
      (if rows[0].playlist_id == playlistId && rows[0].song_id in songs
       then multiset{Summary(songs[rows[0].song_id])} else multiset{})
      + LinkedSongs(rows[1..], songs, playlistId)
  }

  /** A song is listed exactly when some link row of the playlist names it. */
  lemma {:induction false} LinkedSongsMember(
    rows: seq<PlaylistSongRow>, songs: map<string, SongRow>, playlistId: string, s: SongSummary)
    ensures s in LinkedSongs(rows, songs, playlistId) <==>
      exists r :: r in rows && r.playlist_id == playlistId && r.song_id in songs && Summary(songs[r.song_id]) == s
  {
    if rows != [] {
      LinkedSongsMember(rows[1..], songs, playlistId, s);
      assert forall r :: r in rows <==> r == rows[0] || r in rows[1..];
    }
  }

  /** Appending a link row adds its song once, and nothing if the song does not exist. */
  lemma {:induction false} LinkedSongsAppend(
    rows: seq<PlaylistSongRow>, songs: map<string, SongRow>, playlistId: string, row: PlaylistSongRow)
    ensures LinkedSongs(rows + [row], songs, playlistId)
         == LinkedSongs(rows, songs, playlistId)
          + (if row.playlist_id == playlistId && row.song_id in songs
             then multiset{Summary(songs[row.song_id])} else multiset{})
  {
    if rows == [] {
      assert rows + [row] == [row];
    } else {
      assert (rows + [row])[1..] == rows[1..] + [row];
      LinkedSongsAppend(rows[1..], songs, playlistId, row);
    }
  }

  /** After the DELETE of a (playlist, song) pair the playlist lists no copy of that song. */
  lemma RemovedSongNotLinked(
    rows: seq<PlaylistSongRow>, songs: map<string, SongRow>, playlistId: string, songId: string, s: SongSummary)
    requires SongsKeyed(songs)
    requires s in LinkedSongs(RemovePlaylistSongs(rows, playlistId, songId), songs, playlistId)
    ensures s.id != songId
  {
    LinkedSongsMember(RemovePlaylistSongs(rows, playlistId, songId), songs, playlistId, s);
  }
}
