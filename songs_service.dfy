/** src/services/postgres/SongsService.js: the `songs` table.

    `songs.album_id` references `albums(id)` (ON DELETE SET NULL, which
    `PgAlbums` models), so a song naming an album that does not exist is
    refused with a foreign key violation. The ids are VARCHAR(50), the texts
    VARCHAR(255) and year and duration INTEGER. A value a column cannot hold
    is refused before any row is looked at; a text that runs past its width
    with spaces only is stored cut to the width. Ids and timestamps are
    parameters. */
module PgSongs {
  import opened Common
  import opened Mappers
  import opened Store
  import opened Numerals

  const SongNotFound := "Song tidak ditemukan"
  const EditSongNotFound := "Gagal memperbarui song. Id tidak ditemukan"
  const DeleteSongNotFound := "Song gagal dihapus. Id tidak ditemukan"
  const SongsBaseQuery := "SELECT id, title, performer FROM songs"

  const IdWidth: nat := 50
  const TextWidth: nat := 255

  /** 10^21: from here on `String(n)` writes a number in exponent form. */
  const ExponentForm: int := 1_000_000_000_000_000_000_000

  /** A value an INTEGER column can hold: a signed 32-bit number. */
  predicate IsInteger(n: int) {
    -0x8000_0000 <= n < 0x8000_0000
  }

  /** The error binding a number to an INTEGER parameter raises. The driver
      sends the number as `String(n)` writes it: from 10^21 on that is
      exponent form such as `1e+21`, which is not an integer literal; any
      other number outside INTEGER is out of range. */
  function NumberError(n: int): (r: Option<SqlState>)
    ensures r.None? <==> IsInteger(n)
    ensures r == Some(InvalidTextRepresentation) <==> n <= -ExponentForm || ExponentForm <= n
  {
    if n <= -ExponentForm || ExponentForm <= n then Some(InvalidTextRepresentation)
    else if !IsInteger(n) then Some(NumericValueOutOfRange)
    else None
  }

  /** The error of the first number, in parameter order, that cannot be bound. */
  function FirstNumberError(numbers: seq<int>): (r: Option<SqlState>)
    ensures r.None? <==> forall i :: 0 <= i < |numbers| ==> IsInteger(numbers[i])
    ensures r.Some? ==> exists i :: 0 <= i < |numbers| && r == NumberError(numbers[i])
                                   && forall k :: 0 <= k < i ==> IsInteger(numbers[k])
  {
    if numbers == [] then None
    else if NumberError(numbers[0]).Some? then NumberError(numbers[0])
    else FirstNumberError(numbers[1..])
  }

  /** A text a VARCHAR(width) column refuses: one with a character other than
      a space past the width. Spaces past the width are cut off silently. */
  predicate Overflows(t: string, width: nat) {
    exists j :: width <= j < |t| && t[j] != ' '
  }

  /** What a VARCHAR(width) column stores of a text it accepts. */
  function Fit(t: string, width: nat): (r: string)
    ensures |r| <= width && |r| <= |t| && r == t[..|r|]
    ensures |t| <= width ==> r == t
    ensures !Overflows(t, width) ==> forall j :: |r| <= j < |t| ==> t[j] == ' '
  {
    if |t| <= width then t else t[..width]
  }

  /** Some text overflows the width it is paired with. */
  function AnyOverflows(texts: seq<(string, nat)>): (r: bool)
    ensures r <==> exists i :: 0 <= i < |texts| && Overflows(texts[i].0, texts[i].1)
  {
    texts != [] && (Overflows(texts[0].0, texts[0].1) || AnyOverflows(texts[1..]))
  }

  /** The error PostgreSQL raises for values the columns cannot hold: the
      numbers are refused when the parameters are bound, before any text is
      cast to its VARCHAR column. */
  function ColumnsError(texts: seq<(string, nat)>, numbers: seq<int>): Option<SqlState> {
    if FirstNumberError(numbers).Some? then FirstNumberError(numbers)
    else if AnyOverflows(texts) then Some(StringDataRightTruncation)
    else None
  }

  /** The values of a nullable column that are not NULL. */
  function NonNull<T>(value: Option<T>): seq<T> {
    if value.Some? then [value.value] else []
  }

  /** The column error of the INSERT of `addSong`. */
  function InsertError(id: string, title: string, year: int, genre: string, performer: string,
                       duration: Option<int>, albumId: Option<string>): Option<SqlState>
  {
    ColumnsError([(id, IdWidth), (title, TextWidth), (genre, TextWidth), (performer, TextWidth)]
                 + (if albumId.Some? then [(albumId.value, IdWidth)] else []),
                 [year] + NonNull(duration))
  }

  /** The column error of the UPDATE of `editSongById`. */
  function UpdateError(title: string, year: int, genre: string, performer: string,
                       duration: Option<int>): Option<SqlState>
  {
    ColumnsError([(title, TextWidth), (performer, TextWidth), (genre, TextWidth)], [year] + NonNull(duration))
  }

  /** The album_id the INSERT stores. */
  function StoredAlbumId(albumId: Option<string>): Option<string> {
    if albumId.Some? then Some(Fit(albumId.value, IdWidth)) else None
  }

  /** The row the INSERT of `addSong` stores, every text cut to its column. */
  function InsertedRow(id: string, title: string, year: int, genre: string, performer: string,
                       duration: Option<int>, albumId: Option<string>, now: string): SongRow
  {
    SongRow(Fit(id, IdWidth), Fit(title, TextWidth), year, Fit(performer, TextWidth), Fit(genre, TextWidth),
            duration, StoredAlbumId(albumId), now, now)
  }

  /** `Array.prototype.join`. */
  function Join(parts: seq<string>, separator: string): (r: string)
    ensures parts == [] ==> r == ""
    ensures |parts| == 1 ==> r == parts[0]
    ensures |parts| == 2 ==> r == parts[0] + separator + parts[1]
  {
    if parts == [] then ""
    else if |parts| == 1 then parts[0]
    else parts[0] + separator + Join(parts[1..], separator)
  }

  /** The `ILIKE` pattern that matches any text containing `s`. */
  function Containing(s: string): string {
    "%" + s + "%"
  }

  /** The condition `<column> ILIKE $<n>` on the n-th parameter. */
  function Condition(column: string, n: nat): string {
    column + " ILIKE $" + NatToString(n)
  }

  /** The texts of the conditions `getSongs` can build. */
  lemma ConditionTexts()
    ensures Condition("title", 1) == "title ILIKE $1"
    ensures Condition("performer", 1) == "performer ILIKE $1"
    ensures Condition("performer", 2) == "performer ILIKE $2"
  {
    assert NatToString(1) == "1" && NatToString(2) == "2";
  }

  /** The texts of the queries `getSongs` can build, one per filter given.
      Each literal equality is proved on its own: together they are more
      than the solver finishes. */
  lemma TitleQueryText()
    ensures SongsBaseQuery + " WHERE " + "title ILIKE $1" == SongsBaseQuery + " WHERE title ILIKE $1"
  {
    OneConditionText("title ILIKE $1", " WHERE title ILIKE $1");
  }

  lemma PerformerQueryText()
    ensures SongsBaseQuery + " WHERE " + "performer ILIKE $1" == SongsBaseQuery + " WHERE performer ILIKE $1"
  {
    OneConditionText("performer ILIKE $1", " WHERE performer ILIKE $1");
  }

  lemma BothQueryText()
    ensures SongsBaseQuery + " WHERE " + Join(["title ILIKE $1", "performer ILIKE $2"], " AND ")
         == SongsBaseQuery + " WHERE title ILIKE $1 AND performer ILIKE $2"
  {
    BothConditionsText();
    OneConditionText("title ILIKE $1 AND performer ILIKE $2", " WHERE title ILIKE $1 AND performer ILIKE $2");
  }

  lemma BothConditionsText()
    ensures Join(["title ILIKE $1", "performer ILIKE $2"], " AND ") == "title ILIKE $1 AND performer ILIKE $2"
  {
    assert "title ILIKE $1" + " AND " + "performer ILIKE $2" == "title ILIKE $1 AND performer ILIKE $2";
  }

  lemma OneConditionText(where: string, clause: string)
    requires " WHERE " + where == clause
    ensures SongsBaseQuery + " WHERE " + where == SongsBaseQuery + clause
  {
    assert SongsBaseQuery + " WHERE " + where == SongsBaseQuery + (" WHERE " + where);
  }

  /** A title with a character other than a space past 255 is refused by
      both the INSERT and the UPDATE, even when every other value fits. */
  lemma OverlongTitleRefused(id: string, title: string, year: int, genre: string, performer: string)
    requires Overflows(title, TextWidth) && IsInteger(year)
    ensures InsertError(id, title, year, genre, performer, None, None) == Some(StringDataRightTruncation)
    ensures UpdateError(title, year, genre, performer, None) == Some(StringDataRightTruncation)
  {
    var inserted := [(id, IdWidth), (title, TextWidth), (genre, TextWidth), (performer, TextWidth)];
    assert inserted + [] == inserted && inserted[1].0 == title;
    var updated := [(title, TextWidth), (performer, TextWidth), (genre, TextWidth)];
    assert updated[0].0 == title;
    assert [year] + NonNull<int>(None) == [year];
  }

  /** A title that runs past 255 with spaces only is accepted by both the
      INSERT and the UPDATE, and stored cut to its first 255 characters. */
  lemma TrailingSpacesCut(id: string, title: string, year: int, genre: string, performer: string)
    requires |title| > TextWidth && forall j :: TextWidth <= j < |title| ==> title[j] == ' '
    requires |id| <= IdWidth && |genre| <= TextWidth && |performer| <= TextWidth && IsInteger(year)
    ensures InsertError(id, title, year, genre, performer, None, None) == None
    ensures UpdateError(title, year, genre, performer, None) == None
    ensures InsertedRow(id, title, year, genre, performer, None, None, "").title == title[..TextWidth]
  {
    var inserted := [(id, IdWidth), (title, TextWidth), (genre, TextWidth), (performer, TextWidth)];
    assert inserted + [] == inserted;
    assert [year] + NonNull<int>(None) == [year];
    forall i | 0 <= i < |inserted|
      ensures !Overflows(inserted[i].0, inserted[i].1)
    {
    }
  }

  /** A year of 10^21 or more reaches the database in exponent form and is
      refused as no integer at all, whatever the texts are. */
  lemma ExponentYearRefused(id: string, title: string, year: int, genre: string, performer: string)
    requires ExponentForm <= year
    ensures InsertError(id, title, year, genre, performer, None, None) == Some(InvalidTextRepresentation)
    ensures UpdateError(title, year, genre, performer, None) == Some(InvalidTextRepresentation)
  {
    assert [year] + NonNull<int>(None) == [year];
  }

  class SongsService {
    const db: Database

    constructor (db: Database)
      ensures this.db == db
    {
      this.db := db;
    }

    /** `addSong`: a new row stamped `now` twice and kept under its id, each
        text cut to its column. */
    method AddSong(title: string, year: int, genre: string, performer: string,
                   duration: Option<int>, albumId: Option<string>, id: string, now: string)
      returns (r: Fallible<string>)
      requires db.Valid()
      modifies db`songs
      ensures db.Valid()
      ensures var error := InsertError(id, title, year, genre, performer, duration, albumId);
        error.Some? ==> r == Failure(StoreError(error.value))
      ensures (InsertError(id, title, year, genre, performer, duration, albumId).None?
               && Fit(id, IdWidth) in old(db.songs)) ==>
        r == Failure(StoreError(UniqueViolation))
      ensures (InsertError(id, title, year, genre, performer, duration, albumId).None?
               && Fit(id, IdWidth) !in old(db.songs)
               && albumId.Some? && Fit(albumId.value, IdWidth) !in db.albums) ==>
        r == Failure(StoreError(ForeignKeyViolation))
      ensures r.Success? <==>
        && InsertError(id, title, year, genre, performer, duration, albumId).None?
        && Fit(id, IdWidth) !in old(db.songs) && (albumId.Some? ==> Fit(albumId.value, IdWidth) in db.albums)
      ensures r.Success? ==>
        && !Overflows(title, TextWidth) && !Overflows(genre, TextWidth) && !Overflows(performer, TextWidth)
        && IsInteger(year) && (duration.Some? ==> IsInteger(duration.value))
      ensures r.Failure? ==> db.songs == old(db.songs)
      ensures r.Success? ==>
        && r.value == Fit(id, IdWidth)
        && db.songs == old(db.songs)[r.value := InsertedRow(id, title, year, genre, performer, duration, albumId, now)]
    {
      var error := InsertError(id, title, year, genre, performer, duration, albumId);
      if error.Some? {
        return Failure(StoreError(error.value));
      }
      var texts := [(id, IdWidth), (title, TextWidth), (genre, TextWidth), (performer, TextWidth)]
                   + (if albumId.Some? then [(albumId.value, IdWidth)] else []);
      var numbers := [year] + NonNull(duration);
      assert texts[1].0 == title && texts[2].0 == genre && texts[3].0 == performer;
      assert numbers[0] == year && (duration.Some? ==> numbers[1] == duration.value);
      var row := InsertedRow(id, title, year, genre, performer, duration, albumId, now);
      if row.id in db.songs {
        return Failure(StoreError(UniqueViolation));
      }
      if row.album_id.Some? && row.album_id.value !in db.albums {
        return Failure(StoreError(ForeignKeyViolation));
      }
      db.songs := db.songs[row.id := row];
      // INSERT ... RETURNING id returns the inserted row, so the check for an
      // empty result ('Song gagal ditambahkan') never fails
      return Success(row.id);
    }

    /** `getSongs`: the query text and its parameter values. Each filter that is
        given and not empty adds one ILIKE condition whose placeholder is
        numbered after the values pushed before it. */
    method GetSongs(title: Option<string>, performer: Option<string>)
      returns (query: string, values: seq<string>)
      ensures !Truthy(title) && !Truthy(performer) ==> query == SongsBaseQuery && values == []
      ensures Truthy(title) && !Truthy(performer) ==>
        query == SongsBaseQuery + " WHERE title ILIKE $1"
        && values == [Containing(title.value)]
      ensures !Truthy(title) && Truthy(performer) ==>
        query == SongsBaseQuery + " WHERE performer ILIKE $1"
        && values == [Containing(performer.value)]
      ensures Truthy(title) && Truthy(performer) ==>
        query == SongsBaseQuery + " WHERE title ILIKE $1 AND performer ILIKE $2"
        && values == [Containing(title.value), Containing(performer.value)]
    {
      ConditionTexts();
      TitleQueryText();
      PerformerQueryText();
      BothQueryText();
      query := SongsBaseQuery;
      values := [];
      var conditions: seq<string> := [];
      if Truthy(title) {
        conditions := conditions + [Condition("title", |values| + 1)];
        values := values + [Containing(title.value)];
      }
      if Truthy(performer) {
        conditions := conditions + [Condition("performer", |values| + 1)];
        values := values + [Containing(performer.value)];
      }
      if |conditions| > 0 {
        query := query + " WHERE " + Join(conditions, " AND ");
      }
    }

    /** `getSongById`: the mapped row. */
    method GetSongById(id: string) returns (r: Fallible<Song>)
      requires db.Valid()
      ensures id !in db.songs ==> r == Failure(ClientError(NotFound, SongNotFound))
      ensures id in db.songs ==> r.Success? && r.value.id == id && SongRowOf(r.value) == db.songs[id]
    {
      if id !in db.songs {
        return Failure(ClientError(NotFound, SongNotFound));
      }
      return Success(SongsMapDB(db.songs[id]));
    }

    /** `editSongById`: replaces the descriptive columns and stamps
        `updated_at`; `album_id` and `created_at` stay. */
    method EditSongById(id: string, title: string, year: int, genre: string, performer: string,
                        duration: Option<int>, now: string)
      returns (r: Fallible<Song>)
      requires db.Valid()
      modifies db`songs
      ensures db.Valid()
      ensures var error := UpdateError(title, year, genre, performer, duration);
        error.Some? ==> r == Failure(StoreError(error.value)) && db.songs == old(db.songs)
      ensures UpdateError(title, year, genre, performer, duration).None? && id !in old(db.songs) ==>
        r == Failure(ClientError(NotFound, EditSongNotFound)) && db.songs == old(db.songs)
      ensures r.Success? ==>
        && !Overflows(title, TextWidth) && !Overflows(genre, TextWidth) && !Overflows(performer, TextWidth)
        && IsInteger(year) && (duration.Some? ==> IsInteger(duration.value))
      ensures UpdateError(title, year, genre, performer, duration).None? && id in old(db.songs) ==>
        && db.songs == old(db.songs)[id := old(db.songs)[id].(
             title := Fit(title, TextWidth), year := year, performer := Fit(performer, TextWidth),
             genre := Fit(genre, TextWidth), duration := duration, updated_at := now)]
        && r == Success(SongsMapDB(db.songs[id]))
        && r.value.albumId == old(db.songs)[id].album_id
        && r.value.createdAt == old(db.songs)[id].created_at
    {
      var error := UpdateError(title, year, genre, performer, duration);
      if error.Some? {
        return Failure(StoreError(error.value));
      }
      var texts := [(title, TextWidth), (performer, TextWidth), (genre, TextWidth)];
      var numbers := [year] + NonNull(duration);
      assert texts[0].0 == title && texts[1].0 == performer && texts[2].0 == genre;
      assert numbers[0] == year && (duration.Some? ==> numbers[1] == duration.value);
      if id !in db.songs {
        return Failure(ClientError(NotFound, EditSongNotFound));
      }
      var row := db.songs[id].(title := Fit(title, TextWidth), year := year, performer := Fit(performer, TextWidth),
                               genre := Fit(genre, TextWidth), duration := duration, updated_at := now);
      db.songs := db.songs[id := row];
      return Success(SongsMapDB(row));
    }

    /** `deleteSongById`: answers the id of the deleted song. */
    method DeleteSongById(id: string) returns (r: Fallible<string>)
      requires db.Valid()
      modifies db`songs
      ensures db.Valid()
      ensures id !in old(db.songs) ==>
        r == Failure(ClientError(NotFound, DeleteSongNotFound)) && db.songs == old(db.songs)
      ensures id in old(db.songs) ==> r == Success(id) && db.songs == old(db.songs) - {id}
      ensures id !in db.songs
    {
      if id !in db.songs {
        return Failure(ClientError(NotFound, DeleteSongNotFound));
      }
      db.songs := db.songs - {id};
      return Success(id);
    }
  }
}
