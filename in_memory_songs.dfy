/** src/services/inMemory/SongsService.js: songs kept in an array that
    `addSong` pushes to. Ids and timestamps are parameters. */
module MemorySongs {
  import opened Common

  const SongNotAdded := "Song gagal ditambahkan"

  datatype StoredSong = StoredSong(
    id: string, title: string, year: int, genre: string, performer: string,
    duration: Option<int>, albumId: Option<string>, createdAt: string, updatedAt: string)

  class SongsService {
    var songs: seq<StoredSong>

    constructor ()
      ensures songs == []
    {
      songs := [];
    }

    /** `filter(song => song.id === id)`: exactly the songs with the id, in order. */
    method Filter(id: string) returns (matches: seq<StoredSong>)
      ensures forall s :: s in matches <==> s in songs && s.id == id
      ensures |matches| <= |songs|
    {
      matches := [];
      var k := 0;
      while k < |songs|
        invariant 0 <= k <= |songs|
        invariant |matches| <= k
        invariant forall s :: s in matches <==> s in songs[..k] && s.id == id
      {
        assert songs[..k + 1] == songs[..k] + [songs[k]];
        if songs[k].id == id {
          matches := matches + [songs[k]];
        }
        k := k + 1;
      }
      assert songs[..k] == songs;
    }

    /** `addSong`: pushes the song, stamped `now` twice, and answers its id;
        the plain Error it guards against cannot be thrown. */
    method AddSong(title: string, year: int, genre: string, performer: string,
                   duration: Option<int>, albumId: Option<string>, id: string, now: string)
      returns (r: Fallible<string>)
      modifies this
      ensures songs == old(songs) + [StoredSong(id, title, year, genre, performer, duration, albumId, now, now)]
      ensures r == Success(id)
    {
      var newSong := StoredSong(id, title, year, genre, performer, duration, albumId, now, now);
      songs := songs + [newSong];
      assert newSong in songs;
      var matches := Filter(id);
      var isSuccess := |matches| > 0;
      if !isSuccess {
        // the song was just pushed, so the filter finds it
        assert false;
        return Failure(PlainError(SongNotAdded));
      }
      return Success(id);
    }
  }

  /** Songs added one after another are all kept, in order. */
  method AddTwo(first: StoredSong, second: StoredSong) returns (a: Fallible<string>, b: Fallible<string>, kept: seq<StoredSong>)
    ensures a == Success(first.id) && b == Success(second.id)
    ensures kept == [first.(updatedAt := "t0", createdAt := "t0"), second.(updatedAt := "t1", createdAt := "t1")]
  {
    var service := new SongsService();
    a := service.AddSong(first.title, first.year, first.genre, first.performer, first.duration, first.albumId, first.id, "t0");
    b := service.AddSong(second.title, second.year, second.genre, second.performer, second.duration, second.albumId, second.id, "t1");
    kept := service.songs;
  }
}
