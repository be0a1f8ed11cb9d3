/** src/services/postgres/AlbumsService.js: album CRUD over the `albums`
    table, and album likes over `album_likes` with a cache-aside like counter.

    The cache is optional (the server builds this service without one).
    Writers of likes only ever remove the cached count; readers fill it in on
    a miss. Every cache failure is swallowed. */
module PgAlbums {
  import opened Common
  import opened Numerals
  import opened Mappers
  import opened Store
  import opened Cache

  const AlbumNotFound := "Album tidak ditemukan"
  const EditAlbumNotFound := "Gagal memperbarui album. Id tidak ditemukan"
  const DeleteAlbumNotFound := "Album gagal dihapus. Id tidak ditemukan"
  const EditCoverNotFound := "Gagal memperbarui cover album. Id tidak ditemukan"
  const AlreadyLiked := "Album sudah disukai sebelumnya"
  const LikeNotFound := "Like tidak ditemukan"

  /** The expiry of a cached like count, in seconds. */
  const LikesCacheExpiration: nat := 1800

  /** `album_likes:<albumId>`: every like count is cached in the
      `album_likes:` name space, under a key one prefix longer than the id. */
  function LikesCacheKey(albumId: string): (key: string)
    ensures |key| == |"album_likes:"| + |albumId|
    ensures key[..|"album_likes:"|] == "album_likes:"
  {
    "album_likes:" + albumId
  }

  /** Each album has a cache key of its own, so invalidating one album's
      count leaves every other album's count in place. */
  lemma LikesCacheKeyInjective(a: string, b: string)
    requires LikesCacheKey(a) == LikesCacheKey(b)
    ensures a == b
  {
    var prefix := |"album_likes:"|;
    assert a == LikesCacheKey(a)[prefix..];
    assert b == LikesCacheKey(b)[prefix..];
  }

  /** Where a like count came from: `'cache'` or `'database'`. */
  datatype Source = FromCache | FromDatabase

  /** `{ count, source }`; a count of `None` stands for `NaN`, which
      `parseInt` gives for a cached value that is not a numeral. */
  datatype LikesCount = LikesCount(count: Option<int>, source: Source)

  /** An album with the songs that belong to it. */
  datatype AlbumDetail = AlbumDetail(album: Album, songs: set<SongSummary>)

  /** `SELECT id, title, performer FROM songs WHERE album_id = $1`. */
  function AlbumSongs(songs: map<string, SongRow>, albumId: string): (r: set<SongSummary>)
    ensures forall s :: s in r <==>
      exists k :: k in songs && songs[k].album_id == Some(albumId) && s == Summary(songs[k])
  {
    set k | k in songs && songs[k].album_id == Some(albumId) :: Summary(songs[k])
  }

  /** The songs table after `ON DELETE SET NULL` on `songs.album_id` for a deleted album. */
  function DetachFromAlbum(songs: map<string, SongRow>, albumId: string): (r: map<string, SongRow>)
    ensures r.Keys == songs.Keys
    ensures forall k :: k in r ==> r[k].album_id != Some(albumId)
    ensures forall k :: k in songs && songs[k].album_id != Some(albumId) ==> r[k] == songs[k]
    ensures forall k :: k in songs ==> r[k] == songs[k].(album_id := r[k].album_id)
  {
    map k | k in songs :: if songs[k].album_id == Some(albumId) then songs[k].(album_id := None) else songs[k]
  }

  /** Whether a like row already uses this id (the primary key of `album_likes`). */
  predicate LikeIdTaken(likes: seq<LikeRow>, id: string) {
    exists l :: l in likes && l.id == id
  }

  class AlbumsService {
    const db: Database
    const cache: CacheService?

    constructor (db: Database, cache: CacheService?)
      ensures this.db == db && this.cache == cache
    {
      this.db := db;
      this.cache := cache;
    }

    /** `addAlbum`: insert a row under the generated `id`, created and updated at `now`. */
    method AddAlbum(name: string, year: int, id: string, now: string) returns (r: Fallible<string>)
      requires db.Valid()
      modifies db`albums
      ensures db.Valid()
      ensures id in old(db.albums) ==> r == Failure(StoreError(UniqueViolation)) && db.albums == old(db.albums)
      ensures id !in old(db.albums) ==>
        r == Success(id) && db.albums == old(db.albums)[id := AlbumRow(id, name, year, None, now, now)]
    {
      if id in db.albums {
        return Failure(StoreError(UniqueViolation));
      }
      db.albums := db.albums[id := AlbumRow(id, name, year, None, now, now)];
      // INSERT ... RETURNING id returns the inserted row, so the check for an
      // empty result ('Album gagal ditambahkan') never fails
      return Success(id);
    }

    /** `getAlbumById`: the album and exactly the songs whose `album_id` is `id`. */
    method GetAlbumById(id: string) returns (r: Fallible<AlbumDetail>)
      requires db.Valid()
      ensures id !in db.albums <==> r == Failure(ClientError(NotFound, AlbumNotFound))
      ensures id in db.albums ==> r.Success? && r.value.album == AlbumsMapDB(db.albums[id])
      ensures r.Success? ==> r.value.album.id == id
      ensures r.Success? ==> forall s :: s in r.value.songs <==>
        exists k :: k in db.songs && db.songs[k].album_id == Some(id) && s == Summary(db.songs[k])
    {
      if id !in db.albums {
        return Failure(ClientError(NotFound, AlbumNotFound));
      }
      var album := AlbumsMapDB(db.albums[id]);
      return Success(AlbumDetail(album, AlbumSongs(db.songs, id)));
    }

    /** `editAlbumById`: set name, year and `updated_at`, keeping id, cover and `created_at`. */
    method EditAlbumById(id: string, name: string, year: int, now: string) returns (r: Fallible<Album>)
      requires db.Valid()
      modifies db`albums
      ensures db.Valid()
      ensures id !in old(db.albums) ==>
        r == Failure(ClientError(NotFound, EditAlbumNotFound)) && db.albums == old(db.albums)
      ensures id in old(db.albums) ==>
        var updated := old(db.albums)[id].(name := name, year := year, updated_at := now);
        db.albums == old(db.albums)[id := updated] && r == Success(AlbumsMapDB(updated))
    {
      if id !in db.albums {
        return Failure(ClientError(NotFound, EditAlbumNotFound));
      }
      var updated := db.albums[id].(name := name, year := year, updated_at := now);
      db.albums := db.albums[id := updated];
      return Success(AlbumsMapDB(updated));
    }

    /** `deleteAlbumById`; the store then clears `album_id` of the album's songs. */
    method DeleteAlbumById(id: string) returns (r: Fallible<()>)
      requires db.Valid()
      modifies db`albums, db`songs
      ensures db.Valid()
      ensures id !in old(db.albums) ==>
        r == Failure(ClientError(NotFound, DeleteAlbumNotFound))
        && db.albums == old(db.albums) && db.songs == old(db.songs)
      ensures id in old(db.albums) ==>
        r == Success(()) && db.albums == old(db.albums) - {id}
        && db.songs == DetachFromAlbum(old(db.songs), id)
    {
      if id !in db.albums {
        return Failure(ClientError(NotFound, DeleteAlbumNotFound));
      }
      db.albums := db.albums - {id};
      db.songs := DetachFromAlbum(db.songs, id);
      return Success(());
    }

    /** `editAlbumCoverById`: set `cover_url` and `updated_at`. */
    method EditAlbumCoverById(id: string, coverUrl: string, now: string) returns (r: Fallible<()>)
      requires db.Valid()
      modifies db`albums
      ensures db.Valid()
      ensures id !in old(db.albums) ==>
        r == Failure(ClientError(NotFound, EditCoverNotFound)) && db.albums == old(db.albums)
      ensures id in old(db.albums) ==>
        r == Success(())
        && db.albums == old(db.albums)[id := old(db.albums)[id].(cover_url := Some(coverUrl), updated_at := now)]
    {
      if id !in db.albums {
        return Failure(ClientError(NotFound, EditCoverNotFound));
      }
      db.albums := db.albums[id := db.albums[id].(cover_url := Some(coverUrl), updated_at := now)];
      return Success(());
    }

    /** `postLikeAlbum`: the album must exist and the user must not like it yet;
        the new like row gets the generated `id`, and the album's cached count
        is removed, never rewritten. */
    method PostLikeAlbum(albumId: string, userId: string, id: string, now: string) returns (r: Fallible<string>)
      requires db.Valid()
      modifies db`likes, cache
      ensures albumId !in db.albums ==> r == Failure(ClientError(NotFound, AlbumNotFound))
      ensures albumId in db.albums && HasLike(old(db.likes), userId, albumId) ==>
        r == Failure(ClientError(Invariant, AlreadyLiked))
      ensures albumId in db.albums && !HasLike(old(db.likes), userId, albumId) && LikeIdTaken(old(db.likes), id) ==>
        r == Failure(StoreError(UniqueViolation))
      ensures r.Success? <==>
        albumId in db.albums && !HasLike(old(db.likes), userId, albumId) && !LikeIdTaken(old(db.likes), id)
      ensures r.Failure? ==> db.likes == old(db.likes) && (cache != null ==> cache.entries == old(cache.entries))
      ensures r.Success? ==>
        && r.value == id
        && db.likes == old(db.likes) + [LikeRow(id, userId, albumId, now)]
        && CountLikes(db.likes, albumId) == old(CountLikes(db.likes, albumId)) + 1
        && (cache != null && cache.connected ==> cache.entries == old(cache.entries) - {LikesCacheKey(albumId)})
        && (cache != null && !cache.connected ==> cache.entries == old(cache.entries))
      ensures old(LikesUnique(db.likes)) ==> LikesUnique(db.likes)
    {
      var album :- GetAlbumById(albumId);
      if HasLike(db.likes, userId, albumId) {
        return Failure(ClientError(Invariant, AlreadyLiked));
      }
      if LikeIdTaken(db.likes, id) {
        return Failure(StoreError(UniqueViolation));
      }
      var row := LikeRow(id, userId, albumId, now);
      CountLikesAppend(db.likes, row, albumId);
      if LikesUnique(db.likes) {
        LikesUniqueAppend(db.likes, row);
      }
      db.likes := db.likes + [row];
      // INSERT ... RETURNING id returns the inserted row, so the check for an
      // empty result ('Gagal menambahkan like album') never fails
      DeleteLikesCache(albumId);
      return Success(id);
    }

    /** `getLikesCountByAlbumId`: a cached count is returned as it is parsed,
        without looking at any table, not even for the album; otherwise the
        album must exist, its likes are counted and the count is cached as a
        string for `LikesCacheExpiration` seconds. */
    method GetLikesCountByAlbumId(albumId: string) returns (r: Fallible<LikesCount>)
      requires db.Valid()
      modifies cache
      ensures var key := LikesCacheKey(albumId);
        cache != null && cache.connected && key in old(cache.entries) ==>
          r == Success(LikesCount(ParseInt(old(cache.entries)[key].value), FromCache))
          && cache.entries == old(cache.entries)
      ensures var key := LikesCacheKey(albumId);
        !(cache != null && cache.connected && key in old(cache.entries)) && albumId !in db.albums ==>
          r == Failure(ClientError(NotFound, AlbumNotFound))
          && (cache != null ==> cache.entries == old(cache.entries))
      ensures var key := LikesCacheKey(albumId);
        !(cache != null && cache.connected && key in old(cache.entries)) && albumId in db.albums ==>
        var count := CountLikes(db.likes, albumId);
          && r == Success(LikesCount(Some(count), FromDatabase))
          && (cache != null && cache.connected ==>
                cache.entries == old(cache.entries)[key := CacheEntry(NatToString(count), LikesCacheExpiration)])
          && (cache != null && !cache.connected ==> cache.entries == old(cache.entries))
    {
      var cacheKey := LikesCacheKey(albumId);
      if cache != null {
        var cachedLikes := cache.Get(cacheKey);
        if cachedLikes.Success? {
          return Success(LikesCount(ParseInt(cachedLikes.value), FromCache));
        }
        // a cache miss or an unavailable cache falls through to the database
      }
      var album :- GetAlbumById(albumId);
      // COUNT(*) is a bigint, which the driver returns as text
      var countText := NatToString(CountLikes(db.likes, albumId));
      var likesCount := ParseInt(countText);
      ParseIntOfNatToString(CountLikes(db.likes, albumId));
      var count: nat := CountLikes(db.likes, albumId);
      assert likesCount == Some(count);
      if cache != null {
        // a failure to fill the cache is logged and does not change the answer
        var stored := cache.Set(cacheKey, NatToString(count), LikesCacheExpiration);
      }
      return Success(LikesCount(likesCount, FromDatabase));
    }

    /** `deleteLikeAlbum`: the album must exist and the user must like it;
        the matching like is deleted and the album's cached count removed. */
    method DeleteLikeAlbum(albumId: string, userId: string) returns (r: Fallible<string>)
      requires db.Valid()
      modifies db`likes, cache
      ensures albumId !in db.albums ==> r == Failure(ClientError(NotFound, AlbumNotFound))
      ensures albumId in db.albums && !HasLike(old(db.likes), userId, albumId) ==>
        r == Failure(ClientError(NotFound, LikeNotFound))
      ensures r.Failure? ==> db.likes == old(db.likes) && (cache != null ==> cache.entries == old(cache.entries))
      ensures r.Success? <==> albumId in db.albums && HasLike(old(db.likes), userId, albumId)
      ensures r.Success? ==>
        && db.likes == RemoveLikes(old(db.likes), userId, albumId)
        && r.value == MatchingLikes(old(db.likes), userId, albumId)[0].id
        && (cache != null && cache.connected ==> cache.entries == old(cache.entries) - {LikesCacheKey(albumId)})
        && (cache != null && !cache.connected ==> cache.entries == old(cache.entries))
      ensures old(LikesUnique(db.likes)) ==> LikesUnique(db.likes)
      ensures r.Success? && old(LikesUnique(db.likes)) ==>
        CountLikes(db.likes, albumId) + 1 == old(CountLikes(db.likes, albumId))
    {
      var album :- GetAlbumById(albumId);
      var returned := MatchingLikes(db.likes, userId, albumId);
      if |returned| == 0 {
        return Failure(ClientError(NotFound, LikeNotFound));
      }
      if LikesUnique(db.likes) {
        RemoveLikesKeepsUnique(db.likes, userId, albumId);
        CountLikesAfterUnlike(db.likes, userId, albumId);
      }
      db.likes := RemoveLikes(db.likes, userId, albumId);
      DeleteLikesCache(albumId);
      return Success(returned[0].id);
    }

    /** `_deleteLikesCache`: remove the album's cached count if there is a
        cache; a failure of the cache is logged and swallowed. */
    method DeleteLikesCache(albumId: string)
      modifies cache
      ensures cache != null && cache.connected ==> cache.entries == old(cache.entries) - {LikesCacheKey(albumId)}
      ensures cache != null && !cache.connected ==> cache.entries == old(cache.entries)
    {
      if cache == null {
        return;
      }
      var cacheKey := LikesCacheKey(albumId);
      var deleted := cache.Delete(cacheKey);
    }
  }

  // ------------------------------------------------------------------ clients

  /** A store holding one album and no likes. */
  method OneAlbum(albumId: string) returns (db: Database)
    ensures fresh(db) && db.Valid()
    ensures db.albums == map[albumId := AlbumRow(albumId, "album", 2024, None, "t0", "t0")]
    ensures db.likes == []
  {
    db := new Database();
    db.albums := map[albumId := AlbumRow(albumId, "album", 2024, None, "t0", "t0")];
  }

  /** Like, then unlike, then count: the count is 0 and comes from the
      database, even though a count of 0 was cached before the like. */
  method LikeUnlikeThenCount(albumId: string, userId: string) returns (r: Fallible<LikesCount>)
    ensures r == Success(LikesCount(Some(0), FromDatabase))
  {
    var db := OneAlbum(albumId);
    var cache := new CacheService(true);
    var service := new AlbumsService(db, cache);
    var key := LikesCacheKey(albumId);
    var before := service.GetLikesCountByAlbumId(albumId);
    assert key in cache.entries;
    assert !HasLike(db.likes, userId, albumId) && !LikeIdTaken(db.likes, "like-1");
    var liked := service.PostLikeAlbum(albumId, userId, "like-1", "t1");
    assert liked.Success? && key !in cache.entries;
    assert HasLike(db.likes, userId, albumId) by {
      assert db.likes[0] in db.likes;
    }
    LikeThenUnlike([], "like-1", userId, albumId, "t1");
    var unliked := service.DeleteLikeAlbum(albumId, userId);
    assert db.likes == [] && key !in cache.entries;
    r := service.GetLikesCountByAlbumId(albumId);
  }

  /** Counting twice with no write in between: the first count is computed
      from the likes table and cached, the second is the same number read
      back from the cache. */
  method CountTwice(likes: seq<LikeRow>, albumId: string) returns (first: Fallible<LikesCount>, second: Fallible<LikesCount>)
    ensures first == Success(LikesCount(Some(CountLikes(likes, albumId)), FromDatabase))
    ensures second == Success(LikesCount(Some(CountLikes(likes, albumId)), FromCache))
  {
    var db := OneAlbum(albumId);
    db.likes := likes;
    var cache := new CacheService(true);
    var service := new AlbumsService(db, cache);
    first := service.GetLikesCountByAlbumId(albumId);
    ParseIntOfNatToString(CountLikes(likes, albumId));
    second := service.GetLikesCountByAlbumId(albumId);
  }

  /** A duplicate like is refused and the count stays 1, with a cache that
      fails every command and with no cache at all. */
  method DuplicateLikeDegraded(albumId: string, userId: string, withCache: bool)
    returns (second: Fallible<string>, count: Fallible<LikesCount>)
    ensures second == Failure(ClientError(Invariant, AlreadyLiked))
    ensures count == Success(LikesCount(Some(1), FromDatabase))
  {
    var db := OneAlbum(albumId);
    var cache: CacheService? := null;
    if withCache {
      cache := new CacheService(false);
    }
    var service := new AlbumsService(db, cache);
    assert !HasLike(db.likes, userId, albumId) && !LikeIdTaken(db.likes, "like-1");
    var first := service.PostLikeAlbum(albumId, userId, "like-1", "t1");
    assert HasLike(db.likes, userId, albumId) by {
      assert db.likes[0] in db.likes;
    }
    second := service.PostLikeAlbum(albumId, userId, "like-2", "t2");
    count := service.GetLikesCountByAlbumId(albumId);
  }
}
