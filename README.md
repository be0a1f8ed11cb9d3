# OpenMusic API v3: a verified model of its data-access core

OpenMusic is a catalog-and-playlist backend. Its services read and write
albums, songs, users, playlists, playlist songs, collaborations and album
likes. The model covers those services, the Redis cache behind the album
like counter, the two in-memory stores, the row mappers, and the two HTTP
handlers that check playlist ownership before they change anything.

How the model is built:

- **One store.** `Store.Database` is a single object whose fields are the
  tables. Tables looked up by primary key are maps from id to row. The link
  tables (`album_likes`, `playlist_songs`, `playlist_collaborations`) are
  sequences of rows.
- **One service class per source service.** Each holds that store and
  changes only the fields it names in `modifies`.
- **Results instead of throws.** A thrown error is a `Failure` return value.
  A `verify...` check is an `Outcome` (`Pass` or `Fail`). The `:-` operator
  stops a method early, the way `await`-then-`throw` does in the source.
- **Parameters for the outside world.** Generated ids (`nanoid`), clock
  readings (`new Date()`, `NOW()`), the bcrypt function and the validators'
  verdicts are all parameters.
- **Constraint errors.** A primary-key clash, or a clash with the unique key
  on (playlist_id, user_id), is a `StoreError(UniqueViolation)` (23505). A
  missing row behind a foreign key is `StoreError(ForeignKeyViolation)`
  (23503).
- **Cache.** `Cache.CacheService` holds a map from key to value and expiry,
  plus a `connected` flag. A cache that is not connected fails every command.
  This is how the model states that cache faults never change what the album
  service answers.
- **Code over design.** The system's design describes playlist access as
  "owner or collaborator" and adds an activity log. The code has neither:
  every playlist guard calls only `verifyPlaylistOwner`, and no activity is
  recorded. The model follows the code. `PlaylistsApi.CollaboratorRefused`
  shows a recorded collaborator being refused.

## Model

| member | source | states |
|---|---|---|
| Common.ErrorStatus | src/api/playlists/handler.js:37 | a response status is the error's own status code for the four client error classes, and 500 exactly for driver and plain errors |
| Numerals.ParseInt | src/services/postgres/AlbumsService.js:144 | `parseInt(s, 10)` of a non-empty string of digits is the value of those digits, and of a string with no digit is `NaN` (`None`) |
| Numerals.NatToString | src/services/postgres/AlbumsService.js:166 | `toString()` of a count is a non-empty string of decimal digits with no leading zero |
| Numerals.ParseIntOfNatToString | src/services/postgres/AlbumsService.js:144-166 | `parseInt(n.toString(), 10)` gives back `n`, so a count written to the cache is read back unchanged |
| Numerals.NatToStringInjective | src/services/postgres/AlbumsService.js:166 | different counts are cached as different strings |
| Mappers.AlbumsMapDB | src/utils/index.js:1-15 | the record answered for an album row gives back that row |
| Mappers.SongsMapDB | src/utils/index.js:17-37 | the record answered for a song row gives back that row |
| Mappers.AlbumsMapDBRoundTrip | src/utils/index.js:1-15 | `AlbumsMapDB` keeps id, name and year, moves cover_url/created_at/updated_at to coverUrl/createdAt/updatedAt, and loses nothing (it has an inverse, both ways) |
| Mappers.SongsMapDBRoundTrip | src/utils/index.js:17-37 | `SongsMapDB` keeps id, title, year, performer, genre and duration, renames album_id/created_at/updated_at, and loses nothing (it has an inverse, both ways) |
| Mappers.MappersInjective | src/utils/index.js:1-37 | distinct rows map to distinct records |
| Store.CountLikes | src/services/postgres/AlbumsService.js:156 | the COUNT(*) of an album's likes is at most the table's size, and is 0 exactly when no row names the album |
| Store.RemoveLikes | src/services/postgres/AlbumsService.js:181-183 | the DELETE on album_likes keeps exactly the rows of other (user, album) pairs, and it removes at least one row when the pair is present |
| Store.MatchingLikes | src/services/postgres/AlbumsService.js:110-116 | the rows the like check or the DELETE ... RETURNING sees are exactly those of the (user, album) pair, and there are none exactly when the user does not like the album |
| Store.CountLikesAppend | src/services/postgres/AlbumsService.js:156 | a new like row adds one to its album's COUNT and nothing to any other album's |
| Store.LikeThenUnlike | src/services/postgres/AlbumsService.js:120-123 | deleting a like just added for a fresh pair gives back the table as it was before |
| Store.CountLikesAfterUnlike | src/services/postgres/AlbumsService.js:182 | while pairs are unique, an unlike lowers the album's COUNT by exactly one |
| Store.LikesUniqueAppend | src/services/postgres/AlbumsService.js:110-125 | inserting a pair only after checking it is absent keeps (user, album) pairs unique |
| Store.RemoveLikesKeepsUnique | src/services/postgres/AlbumsService.js:181-183 | deleting likes keeps (user, album) pairs unique |
| Store.RemoveCollaborations | src/services/postgres/CollaborationsService.js:38 | the DELETE on playlist_collaborations keeps exactly the rows of other pairs, and it changes nothing when the pair is absent |
| Store.RemovePlaylistSongs | src/services/postgres/PlayslistsService.js:165 | the DELETE on playlist_songs keeps exactly the rows of other (playlist, song) pairs, and it changes nothing when the pair is absent |
| Store.LinkedSongsMember | src/services/postgres/PlayslistsService.js:148-151 | the INNER JOIN lists a song exactly when some playlist_songs row of the playlist names an existing song with that summary |
| Store.LinkedSongsAppend | src/services/postgres/PlayslistsService.js:125-129 | a new link row adds its song to the playlist's listing once more, or adds nothing if the song does not exist |
| Store.RemovedSongNotLinked | src/services/postgres/PlayslistsService.js:163-173 | after the pair's rows are deleted, the playlist lists no copy of that song |
| Cache.CacheService.Set | src/services/redis/CacheService.js:21-25 | `set` stores the value under the key with the given expiry, 1800 seconds by default, and leaves every other key alone; an expiry that is not positive is refused by the server (`invalid expire time in 'set' command`) and stores nothing; a cache that is not connected fails |
| Cache.CacheService.Get | src/services/redis/CacheService.js:27-35 | `get` returns the stored value; for a missing key it fails with `Cache key "<key>" not found` and never returns null |
| Cache.CacheService.Delete | src/services/redis/CacheService.js:37-39 | `delete` removes exactly the key and answers how many keys it removed |
| Cache.SetGetDelete | src/services/redis/CacheService.js:21-39 | `get` after `set(k, v)` gives `v`; `get` after `delete(k)` fails; every other key reads the same before and after |
| PgAlbums.LikesCacheKey | src/services/postgres/AlbumsService.js:137 | every like count is cached under a key in the `album_likes:` name space, one prefix longer than the album id |
| PgAlbums.LikesCacheKeyInjective | src/services/postgres/AlbumsService.js:203 | each album has its own cache key `album_likes:<id>` |
| PgAlbums.AlbumSongs | src/services/postgres/AlbumsService.js:48-52 | the songs of an album are exactly the songs whose album_id is the album's id |
| PgAlbums.DetachFromAlbum | migrations/1752490904223_create-table-songs.js:37-42 | ON DELETE SET NULL clears album_id exactly on the deleted album's songs and changes no other column or song |
| PgAlbums.AlbumsService.AddAlbum | src/services/postgres/AlbumsService.js:16-31 | inserts the album under the new id with no cover, created and updated now; a taken id is a unique violation that changes nothing |
| PgAlbums.AlbumsService.GetAlbumById | src/services/postgres/AlbumsService.js:38-58 | fails with NotFound 'Album tidak ditemukan' exactly for an unknown id; otherwise returns the mapped album with exactly its songs |
| PgAlbums.AlbumsService.EditAlbumById | src/services/postgres/AlbumsService.js:60-73 | sets name, year and updated_at and returns the mapped row; an unknown id is NotFound and changes nothing |
| PgAlbums.AlbumsService.DeleteAlbumById | src/services/postgres/AlbumsService.js:75-88 | deletes the album and detaches its songs; an unknown id is NotFound and changes nothing |
| PgAlbums.AlbumsService.EditAlbumCoverById | src/services/postgres/AlbumsService.js:90-102 | sets cover_url and updated_at only; an unknown id is NotFound and changes nothing |
| PgAlbums.AlbumsService.PostLikeAlbum | src/services/postgres/AlbumsService.js:104-134 | a missing album is NotFound, an existing like is an InvariantError, and either leaves likes and cache unchanged; success appends exactly one like, raises the count by one, keeps pairs unique and only removes the album's cache key |
| PgAlbums.AlbumsService.GetLikesCountByAlbumId | src/services/postgres/AlbumsService.js:136-176 | a cache hit returns the parsed cached value from 'cache' without reading any table; on a miss, a missing cache or an unavailable cache, a missing album is NotFound, and otherwise the answer is the number of the album's likes from 'database', cached as its string for 1800 seconds when the cache is up |
| PgAlbums.AlbumsService.DeleteLikeAlbum | src/services/postgres/AlbumsService.js:178-195 | a missing album or a missing like is NotFound and changes nothing; success deletes the pair's rows, returns the deleted row's id, invalidates the cache key, keeps pairs unique and lowers the count by one |
| PgAlbums.AlbumsService.DeleteLikesCache | src/services/postgres/AlbumsService.js:198-209 | removes only the album's cache key; with no cache, or a cache that fails, nothing changes and nothing is raised |
| PgAlbums.LikeUnlikeThenCount | src/services/postgres/AlbumsService.js:104-195 | with a connected cache, a count cached before a like and an unlike is not served afterwards: the count is 0, read from the database |
| PgAlbums.CountTwice | src/services/postgres/AlbumsService.js:136-176 | a second count with no writes in between returns the same number, from the cache |
| PgAlbums.DuplicateLikeDegraded | src/services/postgres/AlbumsService.js:104-176 | with a failing cache or none, a second like by the same user is refused and the count stays 1 |
| PgCollaborations.InsertCollaborationError | src/services/postgres/CollaborationsService.js:22-33 | the INSERT fails with a unique violation exactly when the id or the (playlist, user) pair is taken, and succeeds exactly when neither is taken and the playlist exists |
| PgCollaborations.CollaborationsUniqueAppend | src/services/postgres/CollaborationsService.js:28-31 | inserting only absent pairs keeps (playlist, user) pairs unique |
| PgCollaborations.CollaborationsService.AddCollaboration | src/services/postgres/CollaborationsService.js:12-34 | an unknown user is NotFound, a taken pair or id (23505) is InvariantError 'Kolaborasi sudah ada', a missing playlist's driver error is rethrown as it is, and every failure leaves the table unchanged; success appends the pair under an id prefixed `collab-` and keeps pairs unique |
| PgCollaborations.CollaborationsService.DeleteCollaboration | src/services/postgres/CollaborationsService.js:36-46 | removes the pair, or fails with NotFound 'Kolaborasi tidak ditemukan' and changes nothing when it is absent |
| PgCollaborations.CollaborationsService.VerifyCollaborator | src/services/postgres/CollaborationsService.js:48-58 | passes exactly when the pair exists, else AuthorizationError; it changes nothing |
| PgCollaborations.CollaborationsService.VerifyUserExists | src/services/postgres/CollaborationsService.js:60-70 | passes exactly when the user exists, else NotFound 'User tidak ditemukan' |
| PgCollaborations.AddTwice | src/services/postgres/CollaborationsService.js:12-34 | adding the same pair twice: the second call is an InvariantError and the table keeps one row |
| PgPlaylists.OwnerName | src/services/postgres/PlayslistsService.js:46 | the LEFT JOIN gives the owner's username when the owner is a user, and NULL otherwise |
| PgPlaylists.PlaylistsService.AddPlaylist | src/services/postgres/PlayslistsService.js:13-30 | an unknown owner is AuthenticationError 'User tidak ditemukan'; success inserts the playlist with the given owner under an id prefixed `playlist-`; failures change nothing |
| PgPlaylists.PlaylistsService.VerifyOwnerExists | src/services/postgres/PlayslistsService.js:32-42 | passes exactly when the user exists, else AuthenticationError |
| PgPlaylists.PlaylistsService.GetPlaylists | src/services/postgres/PlayslistsService.js:44-52 | returns exactly the playlists whose owner is the caller, each with the owner's username |
| PgPlaylists.PlaylistsService.GetPlaylistById | src/services/postgres/PlayslistsService.js:54-65 | returns id, name and owner, or NotFound 'Playlist tidak ditemukan' |
| PgPlaylists.PlaylistsService.EditPlaylistById | src/services/postgres/PlayslistsService.js:67-79 | changes only name and updated_at; an unknown id is NotFound and changes nothing |
| PgPlaylists.PlaylistsService.DeletePlaylistById | src/services/postgres/PlayslistsService.js:81-91 | removes the playlist, or NotFound for an unknown id with nothing changed |
| PgPlaylists.PlaylistsService.VerifyPlaylistOwner | src/services/postgres/PlayslistsService.js:93-108 | NotFound for a missing playlist, AuthorizationError for another user's playlist, passes exactly when the caller is the stored owner; it changes nothing |
| PgPlaylists.PlaylistsService.VerifySongExists | src/services/postgres/PlayslistsService.js:110-120 | passes exactly when the song exists, else NotFound 'Lagu tidak ditemukan' |
| PgPlaylists.PlaylistsService.AddSongToPlaylist | src/services/postgres/PlayslistsService.js:122-135 | an unknown song is NotFound; otherwise one link row is appended without any duplicate check, so the playlist lists the song once more |
| PgPlaylists.PlaylistsService.GetPlaylistSongs | src/services/postgres/PlayslistsService.js:137-161 | NotFound for a missing playlist; otherwise the playlist with its owner's username and exactly the songs linked to it |
| PgPlaylists.PlaylistsService.DeleteSongFromPlaylist | src/services/postgres/PlayslistsService.js:163-173 | removes every row of the pair, after which the playlist lists no copy of the song; with no such row it fails with InvariantError and changes nothing |
| PgSongs.Join | src/services/postgres/SongsService.js:57 | `join` of no parts is empty, of one part is that part, and of two parts puts the separator between them |
| PgSongs.NumberError | migrations/1752490904223_create-table-songs.js:21-36 | a number binds to an INTEGER parameter exactly when it is signed 32-bit; from 10^21 in magnitude, where the driver sends exponent form, it is refused with 22P02, other numbers outside INTEGER with 22003 |
| PgSongs.FirstNumberError | migrations/1752490904223_create-table-songs.js:21-36 | the parameters bind exactly when every number is INTEGER; otherwise the error is that of the first number, in parameter order, that is not |
| PgSongs.Fit | migrations/1752490904223_create-table-songs.js:13-42 | a VARCHAR(n) column stores a prefix of at most n characters of an accepted text, the whole text when it fits, and cuts off only spaces |
| PgSongs.AnyOverflows | migrations/1752490904223_create-table-songs.js:13-42 | a list of texts is refused exactly when some entry has a character other than a space past its VARCHAR width |
| PgSongs.OverlongTitleRefused | migrations/1752490904223_create-table-songs.js:17-20 | a title with a character other than a space past 255 is refused by the INSERT and by the UPDATE with 22001, even when every other value fits |
| PgSongs.TrailingSpacesCut | migrations/1752490904223_create-table-songs.js:17-20 | a title that runs past 255 with spaces only is accepted by the INSERT and by the UPDATE and stored as its first 255 characters |
| PgSongs.ExponentYearRefused | migrations/1752490904223_create-table-songs.js:21-24 | a year of 10^21 or more is refused with 22P02 by the INSERT and by the UPDATE, whatever the texts are |
| PgSongs.SongsService.AddSong | src/services/postgres/SongsService.js:12-39 | a value its column cannot hold (a year or duration outside INTEGER first, then an id or album_id with a non-space past 50 characters or a text with one past 255) is a driver error; then a taken id, after cutting, is a unique violation, then an album_id naming no album a foreign key violation; every failure changes nothing; success stores the song, each text cut to its column, created and updated now, under the cut id it returns, and only when every value fits its column |
| PgSongs.SongsService.GetSongs | src/services/postgres/SongsService.js:41-62 | with no truthy filter the query has no WHERE and no values; each truthy filter adds one ILIKE condition on `%x%` numbered after the values before it, title before performer, joined with AND |
| PgSongs.SongsService.GetSongById | src/services/postgres/SongsService.js:64-75 | returns the mapped song, or NotFound 'Song tidak ditemukan' |
| PgSongs.SongsService.EditSongById | src/services/postgres/SongsService.js:77-92 | a value its column cannot hold is a driver error before the row is looked up; then an unknown id is NotFound; failures change nothing; success updates title, year, performer, genre (texts cut to their column), duration and updated_at, only when every value fits, keeps album_id and created_at, and returns the mapped row |
| PgSongs.SongsService.DeleteSongById | src/services/postgres/SongsService.js:94-104 | removes the song and returns its id, or NotFound with nothing changed |
| PgUsers.UsersService.AddUser | src/services/postgres/UsersService.js:12-29 | a taken username is InvariantError and inserts nothing; success stores the user under an id prefixed `user-` with password `hash(password)`; usernames stay unique |
| PgUsers.UsersService.VerifyUserNewUsername | src/services/postgres/UsersService.js:31-43 | passes exactly when no user has the username, else InvariantError 'Gagal menambahkan user. Username sudah digunakan' |
| PgUsers.UsersService.GetUserById | src/services/postgres/UsersService.js:45-56 | returns only id, username and fullname, or NotFound 'Gagal mendapatkan user. Id tidak ditemukan' |
| PgUsers.RegisterTwice | src/services/postgres/UsersService.js:12-56 | registering one username twice: the second attempt is refused whatever id it draws, and the first user reads back |
| MemoryAlbums.SpliceRemovesId | src/services/inMemory/AlbumsService.js:67 | splicing out the album with a unique id leaves no album with that id, and the other ids stay unique |
| MemoryAlbums.PushKeepsIdsUnique | src/services/inMemory/AlbumsService.js:23 | pushing an album with a fresh id keeps ids unique |
| MemoryAlbums.AlbumsService.FindIndex | src/services/inMemory/AlbumsService.js:45 | `findIndex` answers the first index holding the id, or -1 exactly when no album has it |
| MemoryAlbums.AlbumsService.Filter | src/services/inMemory/AlbumsService.js:37 | `filter` keeps only stored albums with the id, is empty exactly when none has it, and starts with the first of them |
| MemoryAlbums.AlbumsService.AddAlbum | src/services/inMemory/AlbumsService.js:10-30 | appends exactly one album with createdAt equal to updatedAt, keeps earlier entries, returns the id, never throws, and keeps ids unique when the id is fresh |
| MemoryAlbums.AlbumsService.GetAlbums | src/services/inMemory/AlbumsService.js:32-34 | returns every stored album in insertion order |
| MemoryAlbums.AlbumsService.GetAlbumById | src/services/inMemory/AlbumsService.js:36-42 | returns the first album with the id, or NotFound 'Album tidak ditemukan' |
| MemoryAlbums.AlbumsService.EditAlbumById | src/services/inMemory/AlbumsService.js:44-59 | replaces name, year and updatedAt at the first matching index, keeps id, createdAt and every other index, and returns the new album; NotFound with nothing changed when there is no match |
| MemoryAlbums.AlbumsService.DeleteAlbumById | src/services/inMemory/AlbumsService.js:61-69 | removes exactly the first match and keeps the order of the rest; NotFound with nothing changed when there is no match |
| MemoryAlbums.AlbumLifecycle | src/services/inMemory/AlbumsService.js:10-69 | an album added, read, edited and deleted reads back as added, then as edited, then is not found |
| MemorySongs.SongsService.Filter | src/services/inMemory/SongsService.js:27-28 | `filter` holds exactly the stored songs with the id |
| MemorySongs.SongsService.AddSong | src/services/inMemory/SongsService.js:8-32 | appends exactly one song storing the given fields, with createdAt equal to updatedAt, keeps existing songs, returns the id, and never throws |
| MemorySongs.AddTwo | src/services/inMemory/SongsService.js:8-32 | two songs added one after the other are both kept, in order |
| PlaylistsApi.CaughtReply | src/api/playlists/handler.js:32-39 | a caught error is answered with its own message and its status code, or 500 when it has none |
| PlaylistsApi.Validate | src/api/playlists/handler.js:90 | a rejected payload becomes an InvariantError carrying the validator's message |
| PlaylistsApi.PlaylistsHandler.PostPlaylistHandler | src/api/playlists/handler.js:12-41 | validates first; on success the playlist's owner is the credential id and the answer is 201 with its id; every failure leaves the playlists unchanged |
| PlaylistsApi.PlaylistsHandler.GetPlaylistsHandler | src/api/playlists/handler.js:43-63 | answers 200 with exactly the caller's playlists, each with its id, its name and the caller's username |
| PlaylistsApi.PlaylistsHandler.DeletePlaylistByIdHandler | src/api/playlists/handler.js:65-86 | deletes only when the owner check passes; otherwise it answers the check's error and nothing changes |
| PlaylistsApi.PlaylistsHandler.PostSongToPlaylistHandler | src/api/playlists/handler.js:88-113 | validation, then the owner check, then the insert: a caller who fails either adds nothing; success answers 201 |
| PlaylistsApi.PlaylistsHandler.GetPlaylistSongsHandler | src/api/playlists/handler.js:115-136 | a caller who is not the owner gets the owner check's error; the owner gets 200 with the whole playlist: its id, name, the owner's username and exactly its linked songs |
| PlaylistsApi.PlaylistsHandler.DeleteSongFromPlaylistHandler | src/api/playlists/handler.js:138-161 | validation, then the owner check, then the delete: a caller who fails either leaves the playlist unchanged |
| PlaylistsApi.CollaboratorRefused | src/api/playlists/handler.js:95 | a recorded collaborator who is not the owner is refused with AuthorizationError and adds no song |
| CollaborationsApi.ResolvePlaylistId | src/api/collaborations/handler.js:16 | the playlist id is `params.id` when truthy, else `payload.playlistId`; the result is truthy exactly when one of them is |
| CollaborationsApi.CaughtReply | src/api/collaborations/handler.js:48-55 | a caught error is answered with the fixed message, whatever the error said, and with the error's own status code, or 500 exactly when it carries none |
| CollaborationsApi.CollaborationsHandler.PostCollaborationHandler | src/api/collaborations/handler.js:12-56 | validates first; then, without a truthy playlist id, it answers 400 and calls no service; the owner check comes before the insert, so a non-owner never changes the collaboration table; every caught error is answered with the fixed message 'Gagal menambahkan kolaborasi' and its status; success happens exactly when the caller owns the playlist, the user exists and the pair is new, and answers 201 with the appended `collab-` id |
| CollaborationsApi.CollaborationsHandler.DeleteCollaborationHandler | src/api/collaborations/handler.js:58-93 | validates first; then, without a truthy playlist id, it answers 400 and calls no service; it succeeds exactly when the caller owns the playlist and the pair exists; every failure leaves the table unchanged |
| CollaborationsApi.NonOwnerCannotAdd | src/api/collaborations/handler.js:29-37 | a non-owner naming the playlist in the payload is refused with AuthorizationError's status, and the table stays empty |

## Left out

- The SQL text and the `pg` Pool: each query is modelled by its effect on the tables. The only query text modelled is the one `getSongs` builds.
- PgSongs.SongsService.GetSongs: returns the query text and the values, not the rows. What ILIKE matches depends on PostgreSQL's case folding, which is not modelled.
- `getAlbums` of the PostgreSQL albums service is not part of this model.
- `cleanupPlaylistsHandler` calls `cleanupPlaylistSongsDebug` and `cleanupPlaylistsDebug`, and the playlists service defines neither.
- Deleting a playlist, song, user or album does not cascade to link rows: `DeletePlaylistById`, `DeleteSongById` and `DeleteAlbumById` leave the playlist_songs, playlist_collaborations and album_likes rows that name the deleted row in place. Only the songs table's definition is available, and it defines only the album_id rule that `PgAlbums.DetachFromAlbum` models.
- The album_likes constraints are assumed to be a primary key on id and nothing else: no unique (user_id, album_id) and no foreign keys. `PostLikeAlbum` succeeds exactly when the album exists, the pair is absent and the id is free. The table's definition is not part of this model.
- The playlist_songs constraints are assumed to be a primary key on id and nothing else: no unique (playlist_id, song_id) and no foreign key to playlists or songs. `AddSongToPlaylist` appends a row for any playlist id once the song exists and the id is free. The table's definition is not part of this model.
- The widths of the albums, users, playlists and link tables' columns: their definitions are not part of this model, so only the songs table refuses values too wide for it.
- The playlist_collaborations constraints (primary key, unique (playlist_id, user_id), foreign key to playlists) are assumed from what the service relies on. Its table definition is not part of this model.
- The Redis client's connection, its error events and the clock that expires keys. A cache is connected or not for its whole life, and expiry is recorded but never applied.
- Concurrency: each call runs to completion before the next one starts. The race between the like check and the insert is not modelled.
- bcrypt's salt: `hash` is a deterministic parameter.
- Joi validation: each validator is reduced to its verdict, the parameter `payloadError`.
- The status numbers of the error classes: the model names them by class (`StatusCodeOf(kind)`), because the classes are not part of this model.
- The text of a driver error's message: a driver error is answered with `MessageOf(error)`.
- Response bodies beyond status, message and data, such as the `status` field and the success messages.
- Numerals.ParseInt: skips only ASCII white space, where JavaScript also skips Unicode spaces and line terminators. Counts are always written by `toString`, and the modelled properties do not depend on this.
- Numerals: `NatToString` and `ParseInt` work on unbounded integers. JavaScript numbers are exact only below 2^53, and `String(n)` switches to exponent form from 10^21. The round trip `ParseIntOfNatToString` therefore holds in JavaScript only for like counts below 2^53.
- MemoryAlbums.AlbumsService.GetAlbums: returns the contents of the array, not the array itself, so the caller's aliasing of `_albums` is not modelled.
- MemoryAlbums.AlbumsService.Filter: states which albums it keeps and what its first element is, not the whole filtered sequence, which the service never uses beyond those.
- Owner-or-collaborator access and the activity log of the system's design are absent from the code, and the model follows the code.
