/** Rows of the `albums` and `songs` tables as the store returns them
    (snake_case column names), the records the API hands out (camelCase),
    and the two row mappers of src/utils/index.js.

    A row here has exactly the columns of its table and a record exactly the
    fields the mapper builds, so "every other column is dropped" is a matter
    of the types. */
module Mappers {
  import opened Common

  datatype AlbumRow = AlbumRow(
    id: string,
    name: string,
    year: int,
    cover_url: Option<string>,
    created_at: string,
    updated_at: string)

  /** `album_id` and `duration` are nullable columns. */
  datatype SongRow = SongRow(
    id: string,
    title: string,
    year: int,
    performer: string,
    genre: string,
    duration: Option<int>,
    album_id: Option<string>,
    created_at: string,
    updated_at: string)

  datatype Album = Album(
    id: string,
    name: string,
    year: int,
    coverUrl: Option<string>,
    createdAt: string,
    updatedAt: string)

  datatype Song = Song(
    id: string,
    title: string,
    year: int,
    performer: string,
    genre: string,
    duration: Option<int>,
    albumId: Option<string>,
    createdAt: string,
    updatedAt: string)

  /** `mapDBToModel`: the record the album service answers for a row; the
      row can be read back from it. */
  function AlbumsMapDB(row: AlbumRow): (album: Album)
    ensures AlbumRowOf(album) == row
  {
    Album(row.id, row.name, row.year, row.cover_url, row.created_at, row.updated_at)
  }

  /** `SongsMapDB`: the record the song service answers for a row; the row
      can be read back from it. */
  function SongsMapDB(row: SongRow): (song: Song)
    ensures SongRowOf(song) == row
  {
    Song(row.id, row.title, row.year, row.performer, row.genre, row.duration,
         row.album_id, row.created_at, row.updated_at)
  }

  /** The row a record was read from: the inverse of `AlbumsMapDB`. */
  function AlbumRowOf(album: Album): AlbumRow {
    AlbumRow(album.id, album.name, album.year, album.coverUrl, album.createdAt, album.updatedAt)
  }

  /** The row a record was read from: the inverse of `SongsMapDB`. */
  function SongRowOf(song: Song): SongRow {
    SongRow(song.id, song.title, song.year, song.performer, song.genre, song.duration,
            song.albumId, song.createdAt, song.updatedAt)
  }

  /** `AlbumsMapDB` loses nothing: it is undone by `AlbumRowOf`, both ways, and
      it keeps id, name and year while moving cover_url, created_at and
      updated_at to coverUrl, createdAt and updatedAt. */
  lemma AlbumsMapDBRoundTrip(row: AlbumRow, album: Album)
    ensures AlbumRowOf(AlbumsMapDB(row)) == row
    ensures AlbumsMapDB(AlbumRowOf(album)) == album
    ensures AlbumsMapDB(row).id == row.id && AlbumsMapDB(row).name == row.name
    ensures AlbumsMapDB(row).year == row.year && AlbumsMapDB(row).coverUrl == row.cover_url
    ensures AlbumsMapDB(row).createdAt == row.created_at
    ensures AlbumsMapDB(row).updatedAt == row.updated_at
  {
  }

  /** `SongsMapDB` loses nothing: it is undone by `SongRowOf`, both ways, and
      it keeps id, title, year, performer, genre and duration while moving
      album_id, created_at and updated_at to albumId, createdAt and updatedAt. */
  lemma SongsMapDBRoundTrip(row: SongRow, song: Song)
    ensures SongRowOf(SongsMapDB(row)) == row
    ensures SongsMapDB(SongRowOf(song)) == song
    ensures SongsMapDB(row).id == row.id && SongsMapDB(row).title == row.title
    ensures SongsMapDB(row).year == row.year && SongsMapDB(row).performer == row.performer
    ensures SongsMapDB(row).genre == row.genre && SongsMapDB(row).duration == row.duration
    ensures SongsMapDB(row).albumId == row.album_id
    ensures SongsMapDB(row).createdAt == row.created_at
    ensures SongsMapDB(row).updatedAt == row.updated_at
  {
  }

  /** Distinct rows give distinct records. */
  lemma MappersInjective(r1: AlbumRow, r2: AlbumRow, s1: SongRow, s2: SongRow)
    ensures AlbumsMapDB(r1) == AlbumsMapDB(r2) ==> r1 == r2
    ensures SongsMapDB(s1) == SongsMapDB(s2) ==> s1 == s2
  {
    AlbumsMapDBRoundTrip(r1, AlbumsMapDB(r1));
    AlbumsMapDBRoundTrip(r2, AlbumsMapDB(r2));
    SongsMapDBRoundTrip(s1, SongsMapDB(s1));
    SongsMapDBRoundTrip(s2, SongsMapDB(s2));
  }
}
