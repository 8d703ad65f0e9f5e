/** The notebook and note handlers: create, list newest first, get with the owner in the query,
    and the one-note-per-notebook upsert and its read. */
module Notebooks {
  import opened Common
  import opened Schemas
  import opened Tables

  /** `create_notebook`: one row with the caller as owner and the payload's fields, returned as
      inserted; `newId` and `now` are the id and `created_at` the database assigns. */
  method CreateNotebook(db: Database, payload: NotebookCreate, userId: string, newId: string, now: int)
    returns (row: NotebookRow)
    requires db.Valid()
    requires forall j :: 0 <= j < |db.notebooks| ==> db.notebooks[j].id != newId
    modifies db`notebooks
    ensures row == NotebookRow(newId, userId, payload.title, payload.description, now)
    ensures db.notebooks == old(db.notebooks) + [row]
    ensures db.Valid()
  {
    row := NotebookRow(newId, userId, payload.title, payload.description, now);
    db.notebooks := db.notebooks + [row];
  }

  /** The caller's rows, in table order. */
  function OwnedBy(rows: seq<NotebookRow>, userId: string): (r: seq<NotebookRow>)
    ensures forall x :: multiset(r)[x] == if x.userId == userId then multiset(rows)[x] else 0
  {
    if |rows| == 0 then []
    else
      assert rows == [rows[0]] + rows[1..];
      (if rows[0].userId == userId then [rows[0]] else []) + OwnedBy(rows[1..], userId)
  }

  predicate NewestFirst(s: seq<NotebookRow>)
  {
    forall i, j :: 0 <= i < j < |s| ==> s[i].createdAt >= s[j].createdAt
  }

  /** Places a row in a newest-first sequence, ahead of the first row no newer than it. */
  function InsertByDate(x: NotebookRow, s: seq<NotebookRow>): seq<NotebookRow>
  {
    if |s| == 0 then [x]
    else if x.createdAt >= s[0].createdAt then [x] + s
    else [s[0]] + InsertByDate(x, s[1..])
  }

  lemma {:induction false} InsertByDateSorted(x: NotebookRow, s: seq<NotebookRow>)
    requires NewestFirst(s)
    ensures NewestFirst(InsertByDate(x, s))
  {
    if |s| > 0 && x.createdAt < s[0].createdAt {
      InsertByDateSorted(x, s[1..]);
      InsertByDateElements(x, s[1..]);
      var t := InsertByDate(x, s[1..]);
      forall k | 0 <= k < |t|
        ensures s[0].createdAt >= t[k].createdAt
      {
        assert t[k] in multiset(s[1..]) + multiset{x};
        if t[k] != x {
          assert t[k] in s[1..];
        }
      }
    }
  }

  lemma {:induction false} InsertByDateElements(x: NotebookRow, s: seq<NotebookRow>)
    ensures multiset(InsertByDate(x, s)) == multiset(s) + multiset{x}
  {
    if |s| > 0 && x.createdAt < s[0].createdAt {
      InsertByDateElements(x, s[1..]);
      assert s == [s[0]] + s[1..];
    }
  }

  /** `.order("created_at", desc=True)`. */
  function SortNewestFirst(s: seq<NotebookRow>): seq<NotebookRow>
  {
    if |s| == 0 then [] else InsertByDate(s[0], SortNewestFirst(s[1..]))
  }

  /** The ordering is newest first and a permutation of the rows. */
  lemma {:induction false} SortNewestFirstCorrect(s: seq<NotebookRow>)
    ensures NewestFirst(SortNewestFirst(s))
    ensures multiset(SortNewestFirst(s)) == multiset(s)
  {
    if |s| > 0 {
      var rest := SortNewestFirst(s[1..]);
      SortNewestFirstCorrect(s[1..]);
      InsertByDateSorted(s[0], rest);
      InsertByDateElements(s[0], rest);
      assert s == [s[0]] + s[1..];
    }
  }

  /** `list_notebooks`: exactly the caller's notebooks, each as often as in the table, newest first. */
  function ListNotebooks(rows: seq<NotebookRow>, userId: string): (r: seq<NotebookRow>)
    ensures NewestFirst(r)
    ensures forall x :: multiset(r)[x] == if x.userId == userId then multiset(rows)[x] else 0
  {
    SortNewestFirstCorrect(OwnedBy(rows, userId));
    SortNewestFirst(OwnedBy(rows, userId))
  }

  /** Another user's notebooks are never listed. */
  lemma ListNotebooksOnlyOwn(rows: seq<NotebookRow>, userId: string, x: NotebookRow)
    ensures x in ListNotebooks(rows, userId) <==> x in rows && x.userId == userId
  {
    var r := ListNotebooks(rows, userId);
    assert x in r <==> multiset(r)[x] > 0;
    assert x in rows <==> multiset(rows)[x] > 0;
  }

  /** The first row with this id and owner. */
  function FirstOwned(rows: seq<NotebookRow>, id: string, userId: string): (r: Option<NotebookRow>)
    ensures r.Some? ==> r.value in rows && r.value.id == id && r.value.userId == userId
    ensures r.None? <==> forall j :: 0 <= j < |rows| ==> !(rows[j].id == id && rows[j].userId == userId)
    ensures r.Some? ==> exists k :: (0 <= k < |rows| && rows[k] == r.value
      && forall j :: 0 <= j < k ==> !(rows[j].id == id && rows[j].userId == userId))
  {
    if |rows| == 0 then None
    else if rows[0].id == id && rows[0].userId == userId then Some(rows[0])
    else
      var r := FirstOwned(rows[1..], id, userId);
      if r.Some? then
        assert exists k :: (0 <= k < |rows| && rows[k] == r.value
          && forall j :: 0 <= j < k ==> !(rows[j].id == id && rows[j].userId == userId)) by {
          var k' :| 0 <= k' < |rows[1..]| && rows[1..][k'] == r.value
            && forall j :: 0 <= j < k' ==> !(rows[1..][j].id == id && rows[1..][j].userId == userId);
          assert rows[k' + 1] == r.value;
          assert forall j :: 0 <= j < k' + 1 ==> !(rows[j].id == id && rows[j].userId == userId) by {
            forall j | 0 <= j < k' + 1
              ensures !(rows[j].id == id && rows[j].userId == userId)
            {
              if j > 0 {
                assert rows[j] == rows[1..][j - 1];
              }
            }
          }
        }
        r
      else r
  }

  /** `get_notebook`: the id and the owner are both in the query, so another user's notebook and
      a missing one give the same 404. */
  function GetNotebook(rows: seq<NotebookRow>, id: string, userId: string): (r: Result<NotebookRow, HttpException>)
    ensures r.Ok? ==> r.value in rows && r.value.id == id && r.value.userId == userId
    ensures r.Err? <==> forall j :: 0 <= j < |rows| ==> !(rows[j].id == id && rows[j].userId == userId)
    ensures r.Err? ==> r.error == NotebookNotFound
  {
    match FirstOwned(rows, id, userId)
    case None => Err(NotebookNotFound)
    case Some(nb) => Ok(nb)
  }

  /** With unique ids, filtering on id and owner together agrees with the lookup by id followed
      by the owner comparison that the other handlers use. */
  lemma GetNotebookAgreesWithOwnership(rows: seq<NotebookRow>, id: string, userId: string)
    requires UniqueNotebookIds(rows)
    ensures GetNotebook(rows, id, userId) == OwnedNotebook(rows, id, userId)
  {
    OwnedNotebookIff(rows, id, userId);
    var g := GetNotebook(rows, id, userId);
    var k := NotebookIndex(rows, id);
    if g.Ok? {
      var k' :| 0 <= k' < |rows| && rows[k'] == g.value
        && forall j :: 0 <= j < k' ==> !(rows[j].id == id && rows[j].userId == userId);
      assert k == k';
    }
  }

  /** The notes table after `create_or_update_note` for an owned notebook: the first note of the
      notebook gets the new content, or a note is appended when it has none. */
  function UpsertNote(notes: seq<NoteRow>, notebookId: string, content: string, newId: string): (r: seq<NoteRow>)
    ensures FirstNoteOf(r, notebookId).Some?
    ensures FirstNoteOf(r, notebookId).value.content == content
    ensures FirstNoteOf(notes, notebookId).Some? ==> (|r| == |notes|
      && FirstNoteOf(r, notebookId).value == FirstNoteOf(notes, notebookId).value.(content := content))
    ensures FirstNoteOf(notes, notebookId).None? ==> r == notes + [NoteRow(newId, notebookId, content, None)]
    ensures forall j :: 0 <= j < |notes| && notes[j].notebookId != notebookId ==> r[j] == notes[j]
    ensures NoteIndex(notes, notebookId) >= 0 ==>
      r[NoteIndex(notes, notebookId)] == notes[NoteIndex(notes, notebookId)].(content := content)
      && forall j :: 0 <= j < |notes| && j != NoteIndex(notes, notebookId) ==> r[j] == notes[j]
  {
    var k := NoteIndex(notes, notebookId);
    if k == -1 then
      var r := notes + [NoteRow(newId, notebookId, content, None)];
      assert r[|notes|].notebookId == notebookId;
      assert forall j :: 0 <= j < |notes| ==> r[j] == notes[j];
      r
    else
      var r := notes[k := notes[k].(content := content)];
      assert r[k].notebookId == notebookId;
      assert forall j :: 0 <= j < k ==> r[j] == notes[j];
      r
  }

  /** The upsert keeps note ids unique when the new id is fresh. */
  lemma UpsertKeepsIdsUnique(notes: seq<NoteRow>, notebookId: string, content: string, newId: string)
    requires UniqueNoteIds(notes)
    requires forall j :: 0 <= j < |notes| ==> notes[j].id != newId
    ensures UniqueNoteIds(UpsertNote(notes, notebookId, content, newId))
  {
    var r := UpsertNote(notes, notebookId, content, newId);
    var k := NoteIndex(notes, notebookId);
    if k >= 0 {
      assert forall j :: 0 <= j < |r| ==> r[j].id == notes[j].id;
    } else {
      assert forall j :: 0 <= j < |notes| ==> r[j] == notes[j];
    }
  }

  /** The upsert never gives a notebook a second note. */
  lemma UpsertKeepsOneNote(notes: seq<NoteRow>, notebookId: string, content: string, newId: string)
    requires AtMostOneNotePerNotebook(notes)
    ensures AtMostOneNotePerNotebook(UpsertNote(notes, notebookId, content, newId))
  {
    var r := UpsertNote(notes, notebookId, content, newId);
    var k := NoteIndex(notes, notebookId);
    if k >= 0 {
      assert forall j :: 0 <= j < |r| ==> r[j].notebookId == notes[j].notebookId by {
        forall j | 0 <= j < |r|
          ensures r[j].notebookId == notes[j].notebookId
        {
          if notes[j].notebookId == notebookId {
            assert j == k;
          }
        }
      }
    }
  }

  /** Saving the same content twice leaves the table as one save does. */
  lemma UpsertIdempotent(notes: seq<NoteRow>, notebookId: string, content: string, id1: string, id2: string)
    ensures UpsertNote(UpsertNote(notes, notebookId, content, id1), notebookId, content, id2)
      == UpsertNote(notes, notebookId, content, id1)
  {
    var r1 := UpsertNote(notes, notebookId, content, id1);
    var k := NoteIndex(r1, notebookId);
    assert r1[k].content == content;
    assert r1[k := r1[k].(content := content)] == r1;
  }

  /** `create_or_update_note`: 404 with no write unless the caller owns the notebook; otherwise
      the upsert, returning the note as written. */
  method CreateOrUpdateNote(db: Database, payload: NoteCreate, userId: string, newId: string)
    returns (r: Result<NoteRow, HttpException>)
    requires db.Valid()
    requires forall j :: 0 <= j < |db.notes| ==> db.notes[j].id != newId
    modifies db`notes
    ensures db.Valid()
    ensures OwnedNotebook(db.notebooks, payload.notebookId, userId).Err? ==>
      r == Err(NotebookNotFound) && db.notes == old(db.notes)
    ensures OwnedNotebook(db.notebooks, payload.notebookId, userId).Ok? ==>
      db.notes == UpsertNote(old(db.notes), payload.notebookId, payload.content, newId)
      && r == Ok(FirstNoteOf(db.notes, payload.notebookId).value)
    ensures AtMostOneNotePerNotebook(old(db.notes)) ==> AtMostOneNotePerNotebook(db.notes)
  {
    if OwnedNotebook(db.notebooks, payload.notebookId, userId).Err? {
      return Err(NotebookNotFound);
    }
    if AtMostOneNotePerNotebook(db.notes) {
      UpsertKeepsOneNote(db.notes, payload.notebookId, payload.content, newId);
    }
    UpsertKeepsIdsUnique(db.notes, payload.notebookId, payload.content, newId);
    ghost var expected := UpsertNote(db.notes, payload.notebookId, payload.content, newId);
    var k := NoteIndex(db.notes, payload.notebookId);
    var updated;
    if k >= 0 {
      // `.eq("id", note_id)` matches exactly this row, since note ids are unique.
      updated := db.notes[k := db.notes[k].(content := payload.content)];
    } else {
      updated := db.notes + [NoteRow(newId, payload.notebookId, payload.content, None)];
    }
    assert updated == expected;
    db.notes := updated;
    r := Ok(FirstNoteOf(updated, payload.notebookId).value);
  }

  /** `get_note`: 404 on the ownership check, else the notebook's first note or none. */
  function GetNote(notebooks: seq<NotebookRow>, notes: seq<NoteRow>, notebookId: string, userId: string)
    : (r: Result<Option<NoteRow>, HttpException>)
    ensures r.Err? <==> OwnedNotebook(notebooks, notebookId, userId).Err?
    ensures r.Err? ==> r.error == NotebookNotFound
    ensures r.Ok? ==> (r.value.None? <==> forall j :: 0 <= j < |notes| ==> notes[j].notebookId != notebookId)
    ensures r.Ok? && r.value.Some? ==> r.value.value in notes && r.value.value.notebookId == notebookId
    ensures r.Ok? && r.value.Some? ==> exists k :: (0 <= k < |notes| && notes[k] == r.value.value
      && forall j :: 0 <= j < k ==> notes[j].notebookId != notebookId)
  {
    match OwnedNotebook(notebooks, notebookId, userId)
    case Err(e) => Err(e)
    case Ok(_) => Ok(FirstNoteOf(notes, notebookId))
  }

  /** What a save writes, a read of the same notebook returns. */
  lemma GetNoteAfterSave(notebooks: seq<NotebookRow>, notes: seq<NoteRow>, notebookId: string, userId: string,
                         content: string, newId: string)
    requires OwnedNotebook(notebooks, notebookId, userId).Ok?
    ensures var r := GetNote(notebooks, UpsertNote(notes, notebookId, content, newId), notebookId, userId);
      r.Ok? && r.value.Some? && r.value.value.content == content && r.value.value.notebookId == notebookId
  {
  }
}
