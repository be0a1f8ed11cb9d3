/** src/services/inMemory/AlbumsService.js: albums kept in an array that the
    service pushes to, overwrites in place and splices.

    The array is the field `albums`; `filter` and `findIndex` over it are the
    loops `Filter` and `FindIndex`, each proved against the first-match
    predicates below. Ids and timestamps are parameters. */
module MemoryAlbums {
  import opened Common

  const AlbumNotAdded := "Album gagal ditambahkan"
  const AlbumNotFound := "Album tidak ditemukan"
  const EditAlbumNotFound := "Gagal memperbarui album. Id tidak ditemukan"
  const DeleteAlbumNotFound := "Album gagal dihapus. Id tidak ditemukan"
  const AlbumDeleted := "Album berhasil dihapus"

  datatype StoredAlbum = StoredAlbum(id: string, name: string, year: int, createdAt: string, updatedAt: string)

  /** `i` is the position `findIndex` answers for `id`: the first album with that id. */
  predicate IsFirstWithId(albums: seq<StoredAlbum>, id: string, i: int) {
    0 <= i < |albums| && albums[i].id == id && forall j :: 0 <= j < i ==> albums[j].id != id
  }

  predicate NoneWithId(albums: seq<StoredAlbum>, id: string) {
    forall j :: 0 <= j < |albums| ==> albums[j].id != id
  }

  /** No id is stored twice. */
  predicate IdsUnique(albums: seq<StoredAlbum>) {
    forall i, j :: 0 <= i < j < |albums| ==> albums[i].id != albums[j].id
  }

  /** Splicing out the album with a unique id leaves no album with it, and
      leaves the other ids unique. */
  lemma SpliceRemovesId(albums: seq<StoredAlbum>, id: string, i: int)
    requires IdsUnique(albums) && IsFirstWithId(albums, id, i)
    ensures NoneWithId(albums[..i] + albums[i + 1..], id)
    ensures IdsUnique(albums[..i] + albums[i + 1..])
  {
    var rest := albums[..i] + albums[i + 1..];
    forall j | 0 <= j < |rest|
      ensures rest[j] == albums[if j < i then j else j + 1]
    {
    }
  }

  /** Pushing an album with a fresh id keeps the ids unique. */
  lemma PushKeepsIdsUnique(albums: seq<StoredAlbum>, album: StoredAlbum)
    requires IdsUnique(albums) && NoneWithId(albums, album.id)
    ensures IdsUnique(albums + [album])
  {
  }

  class AlbumsService {
    var albums: seq<StoredAlbum>

    constructor ()
      ensures albums == []
    {
      albums := [];
    }

    /** `findIndex(album => album.id === id)`. */
    method FindIndex(id: string) returns (index: int)
      ensures index == -1 <==> NoneWithId(albums, id)
      ensures index != -1 ==> IsFirstWithId(albums, id, index)
    {
      index := 0;
      while index < |albums|
        invariant 0 <= index <= |albums|
        invariant forall j :: 0 <= j < index ==> albums[j].id != id
      {
        if albums[index].id == id {
          return;
        }
        index := index + 1;
      }
      return -1;
    }

    /** `filter(album => album.id === id)`: the albums with the id, the first
        of them the one `findIndex` finds. */
    method Filter(id: string) returns (matches: seq<StoredAlbum>)
      ensures forall a :: a in matches ==> a in albums && a.id == id
      ensures matches == [] <==> NoneWithId(albums, id)
      ensures matches != [] ==> exists i :: IsFirstWithId(albums, id, i) && matches[0] == albums[i]
    {
      matches := [];
      var k := 0;
      while k < |albums|
        invariant 0 <= k <= |albums|
        invariant forall a :: a in matches ==> a in albums && a.id == id
        invariant matches == [] <==> forall j :: 0 <= j < k ==> albums[j].id != id
        invariant matches != [] ==> exists i :: IsFirstWithId(albums, id, i) && i < k && matches[0] == albums[i]
      {
        if albums[k].id == id {
          if matches == [] {
            assert IsFirstWithId(albums, id, k);
          }
          matches := matches + [albums[k]];
        }
        k := k + 1;
      }
    }

    /** `addAlbum`: pushes the album, stamped `now` twice, and answers its id. */
    method AddAlbum(name: string, year: int, id: string, now: string) returns (r: Fallible<string>)
      modifies this
      ensures albums == old(albums) + [StoredAlbum(id, name, year, now, now)]
      ensures r == Success(id)
      ensures old(IdsUnique(albums) && NoneWithId(albums, id)) ==> IdsUnique(albums)
    {
      var newAlbum := StoredAlbum(id, name, year, now, now);
      if IdsUnique(albums) && NoneWithId(albums, id) {
        PushKeepsIdsUnique(albums, newAlbum);
      }
      albums := albums + [newAlbum];
      assert albums[|albums| - 1].id == id;
      var matches := Filter(id);
      var isSuccess := |matches| > 0;
      if !isSuccess {
        // the album was just pushed, so the filter finds it
        assert false;
        return Failure(ClientError(Invariant, AlbumNotAdded));
      }
      return Success(id);
    }

    /** `getAlbums`: every stored album, in the order they were added. */
    method GetAlbums() returns (r: seq<StoredAlbum>)
      ensures r == albums
    {
      return albums;
    }

    /** `getAlbumById`: the first album with the id. */
    method GetAlbumById(id: string) returns (r: Fallible<StoredAlbum>)
      ensures NoneWithId(albums, id) ==> r == Failure(ClientError(NotFound, AlbumNotFound))
      ensures !NoneWithId(albums, id) ==> exists i :: IsFirstWithId(albums, id, i) && r == Success(albums[i])
    {
      var matches := Filter(id);
      if matches == [] {
        return Failure(ClientError(NotFound, AlbumNotFound));
      }
      return Success(matches[0]);
    }

    /** `editAlbumById`: overwrites name, year and `updatedAt` of the first
        album with the id, in place, and answers the new album. */
    method EditAlbumById(id: string, name: string, year: int, now: string) returns (r: Fallible<StoredAlbum>)
      modifies this
      ensures NoneWithId(old(albums), id) ==>
        r == Failure(ClientError(NotFound, EditAlbumNotFound)) && albums == old(albums)
      ensures !NoneWithId(old(albums), id) ==> exists i ::
        && IsFirstWithId(old(albums), id, i)
        && albums == old(albums)[i := old(albums)[i].(name := name, year := year, updatedAt := now)]
        && r == Success(albums[i])
      ensures old(IdsUnique(albums)) ==> IdsUnique(albums)
    {
      var index := FindIndex(id);
      if index == -1 {
        return Failure(ClientError(NotFound, EditAlbumNotFound));
      }
      albums := albums[index := albums[index].(name := name, year := year, updatedAt := now)];
      return Success(albums[index]);
    }

    /** `deleteAlbumById`: splices out the first album with the id. */
    method DeleteAlbumById(id: string) returns (r: Fallible<string>)
      modifies this
      ensures NoneWithId(old(albums), id) ==>
        r == Failure(ClientError(NotFound, DeleteAlbumNotFound)) && albums == old(albums)
      ensures !NoneWithId(old(albums), id) ==>
        && r == Success(AlbumDeleted)
        && exists i :: IsFirstWithId(old(albums), id, i) && albums == old(albums)[..i] + old(albums)[i + 1..]
      ensures old(IdsUnique(albums)) ==> IdsUnique(albums) && NoneWithId(albums, id)
    {
      var index := FindIndex(id);
      if index == -1 {
        return Failure(ClientError(NotFound, DeleteAlbumNotFound));
      }
      if IdsUnique(albums) {
        SpliceRemovesId(albums, id, index);
      }
      albums := albums[..index] + albums[index + 1..];
      return Success(AlbumDeleted);
    }
  }

  /** An album's life in the store: added, read back, edited, deleted, gone. */
  method AlbumLifecycle(id: string, name: string, year: int)
    returns (added: Fallible<string>, read: Fallible<StoredAlbum>, edited: Fallible<StoredAlbum>,
             deleted: Fallible<string>, gone: Fallible<StoredAlbum>)
    ensures added == Success(id)
    ensures read == Success(StoredAlbum(id, name, year, "t0", "t0"))
    ensures edited == Success(StoredAlbum(id, "renamed", year + 1, "t0", "t1"))
    ensures deleted == Success(AlbumDeleted)
    ensures gone == Failure(ClientError(NotFound, AlbumNotFound))
  {
    var service := new AlbumsService();
    added := service.AddAlbum(name, year, id, "t0");
    assert service.albums[0].id == id;
    read := service.GetAlbumById(id);
    edited := service.EditAlbumById(id, "renamed", year + 1, "t1");
    deleted := service.DeleteAlbumById(id);
    gone := service.GetAlbumById(id);
  }
}
