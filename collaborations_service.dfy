/** src/services/postgres/CollaborationsService.js: the
    `playlist_collaborations` table of (playlist, user) pairs.

    The table's definition is not part of this model. The model gives it the
    constraints its service relies on: the primary key `id`, a unique key on
    (playlist_id, user_id), and a foreign key from playlist_id to playlists. */
module PgCollaborations {
  import opened Common
  import opened Store

  const CollaborationExists := "Kolaborasi sudah ada"
  const CollaborationNotFound := "Kolaborasi tidak ditemukan"
  const NotEntitled := "Anda tidak berhak mengakses resource ini"
  const UserNotFound := "User tidak ditemukan"

  /** The constraint violation, if any, that inserting `row` raises. Unique
      keys are checked while the row is written and the foreign key after, so
      a row that breaks both is reported as a unique violation. */
  function InsertCollaborationError(
    rows: seq<CollaborationRow>, playlists: map<string, PlaylistRow>, row: CollaborationRow)
    : (r: Option<SqlState>)
    ensures r == Some(UniqueViolation) <==>
      exists c :: c in rows && (c.id == row.id || IsCollaboration(c, row.playlist_id, row.user_id))
    ensures r == None <==>
      (forall c :: c in rows ==> c.id != row.id && !IsCollaboration(c, row.playlist_id, row.user_id))
      && row.playlist_id in playlists
  {
    if exists c :: c in rows && (c.id == row.id || IsCollaboration(c, row.playlist_id, row.user_id)) then
      Some(UniqueViolation)
    else if row.playlist_id !in playlists then Some(ForeignKeyViolation)
    else None
  }

  predicate CollaborationIdTaken(rows: seq<CollaborationRow>, id: string) {
    exists c :: c in rows && c.id == id
  }

  /** A pair inserted only when it is absent keeps the pairs unique. */
  lemma {:induction false} CollaborationsUniqueAppend(rows: seq<CollaborationRow>, c: CollaborationRow)
    requires CollaborationsUnique(rows) && !HasCollaboration(rows, c.playlist_id, c.user_id)
    ensures CollaborationsUnique(rows + [c])
  {
    var s := rows + [c];
    forall i, j | 0 <= i < j < |s|
      ensures !IsCollaboration(s[j], s[i].playlist_id, s[i].user_id)
    {
      assert s[i] == rows[i];
      if j < |rows| {
        assert s[j] == rows[j];
      } else {
        assert s[i] in rows;
      }
    }
  }

  class CollaborationsService {
    const db: Database

    constructor (db: Database)
      ensures this.db == db
    {
      this.db := db;
    }

    /** `addCollaboration`: the user must exist; a clash with the unique keys
        is reported as an InvariantError, any other store error as it is. */
    method AddCollaboration(playlistId: string, userId: string, nanoid: string, now: string)
      returns (r: Fallible<string>)
      modifies db`collaborations
      ensures userId !in db.users ==> r == Failure(ClientError(NotFound, UserNotFound))
      ensures (userId in db.users
               && (HasCollaboration(old(db.collaborations), playlistId, userId)
                   || CollaborationIdTaken(old(db.collaborations), "collab-" + nanoid))) ==>
        r == Failure(ClientError(Invariant, CollaborationExists))
      ensures (userId in db.users
               && !HasCollaboration(old(db.collaborations), playlistId, userId)
               && !CollaborationIdTaken(old(db.collaborations), "collab-" + nanoid)
               && playlistId !in db.playlists) ==>
        r == Failure(StoreError(ForeignKeyViolation))
      ensures r.Success? <==>
        userId in db.users && playlistId in db.playlists
        && !HasCollaboration(old(db.collaborations), playlistId, userId)
        && !CollaborationIdTaken(old(db.collaborations), "collab-" + nanoid)
      ensures r.Failure? ==> db.collaborations == old(db.collaborations)
      ensures r.Success? ==>
        && r.value == "collab-" + nanoid && r.value[..7] == "collab-"
        && db.collaborations == old(db.collaborations) + [CollaborationRow(r.value, playlistId, userId, now)]
        && HasCollaboration(db.collaborations, playlistId, userId)
      ensures old(CollaborationsUnique(db.collaborations)) ==> CollaborationsUnique(db.collaborations)
    {
      var id := "collab-" + nanoid;
      :- VerifyUserExists(userId);
      var row := CollaborationRow(id, playlistId, userId, now);
      var error := InsertCollaborationError(db.collaborations, db.playlists, row);
      if error.Some? {
        if error.value == UniqueViolation {
          return Failure(ClientError(Invariant, CollaborationExists));
        }
        return Failure(StoreError(error.value));
      }
      if CollaborationsUnique(db.collaborations) {
        CollaborationsUniqueAppend(db.collaborations, row);
      }
      db.collaborations := db.collaborations + [row];
      assert row in db.collaborations;
      // INSERT ... RETURNING id returns the inserted row, so the check for an
      // empty result ('Kolaborasi gagal ditambahkan') never fails
      return Success(id);
    }

    /** `deleteCollaboration`: delete the pair, which must be there. */
    method DeleteCollaboration(playlistId: string, userId: string) returns (r: Fallible<()>)
      modifies db`collaborations
      ensures !HasCollaboration(old(db.collaborations), playlistId, userId) ==>
        r == Failure(ClientError(NotFound, CollaborationNotFound)) && db.collaborations == old(db.collaborations)
      ensures HasCollaboration(old(db.collaborations), playlistId, userId) ==>
        r == Success(()) && db.collaborations == RemoveCollaborations(old(db.collaborations), playlistId, userId)
      ensures !HasCollaboration(db.collaborations, playlistId, userId)
    {
      if !HasCollaboration(db.collaborations, playlistId, userId) {
        return Failure(ClientError(NotFound, CollaborationNotFound));
      }
      db.collaborations := RemoveCollaborations(db.collaborations, playlistId, userId);
      return Success(());
    }

    /** `verifyCollaborator`: passes exactly when the pair exists. */
    method VerifyCollaborator(playlistId: string, userId: string) returns (r: Check)
      ensures r == Pass <==> HasCollaboration(db.collaborations, playlistId, userId)
      ensures r != Pass ==> r == Fail(ClientError(Authorization, NotEntitled))
    {
      if !HasCollaboration(db.collaborations, playlistId, userId) {
        return Fail(ClientError(Authorization, NotEntitled));
      }
      return Pass;
    }

    /** `_verifyUserExists`. */
    method VerifyUserExists(userId: string) returns (r: Check)
      ensures r == Pass <==> userId in db.users
      ensures r != Pass ==> r == Fail(ClientError(NotFound, UserNotFound))
    {
      if userId !in db.users {
        return Fail(ClientError(NotFound, UserNotFound));
      }
      return Pass;
    }
  }

  /** Adding the same pair twice: the second attempt is an InvariantError and
      the table keeps the one row of the first. */
  method AddTwice(playlist: PlaylistRow, user: UserRow) returns (second: Fallible<string>, rows: nat)
    ensures second == Failure(ClientError(Invariant, CollaborationExists))
    ensures rows == 1
  {
    var db := new Database();
    db.users := map[user.id := user];
    db.playlists := map[playlist.id := playlist];
    var service := new CollaborationsService(db);
    var first := service.AddCollaboration(playlist.id, user.id, "a", "t1");
    second := service.AddCollaboration(playlist.id, user.id, "b", "t2");
    rows := |db.collaborations|;
  }
}
