/** The Supabase tables and storage bucket the handlers read and write, as sequences of rows in
    insertion order, and the row queries the handlers share. A query that ends in `.limit(1)`
    takes the first matching row in that order. */
module Tables {
  import opened Common
  import opened Schemas

  datatype UserRow = UserRow(id: string, email: string, passwordHash: string)

  datatype NotebookRow = NotebookRow(id: string, userId: string, title: string, description: Option<string>, createdAt: int)

  datatype NoteRow = NoteRow(id: string, notebookId: string, content: string, aiSummary: Option<string>)

  datatype FileRow = FileRow(id: string, notebookId: string, storagePath: string, extractedText: string)

  datatype FlashcardRow = FlashcardRow(notebookId: string, front: string, back: string)

  datatype QuizRow = QuizRow(notebookId: string, data: string)

  datatype StudyPlanRow = StudyPlanRow(notebookId: string, examDate: Option<Date>, planJson: string)

  /** An object in a storage bucket. */
  datatype StoredObject = StoredObject(bucket: string, path: string, content: seq<bv8>)

  /** The 404 every ownership check raises. */
  const NotebookNotFound := HttpException(404, "Notebook not found")

  predicate UniqueUserIds(rows: seq<UserRow>)
  {
    forall i, j :: 0 <= i < j < |rows| ==> rows[i].id != rows[j].id
  }

  predicate UniqueNotebookIds(rows: seq<NotebookRow>)
  {
    forall i, j :: 0 <= i < j < |rows| ==> rows[i].id != rows[j].id
  }

  predicate UniqueNoteIds(rows: seq<NoteRow>)
  {
    forall i, j :: 0 <= i < j < |rows| ==> rows[i].id != rows[j].id
  }

  predicate UniqueFileIds(rows: seq<FileRow>)
  {
    forall i, j :: 0 <= i < j < |rows| ==> rows[i].id != rows[j].id
  }

  /** The project's database. Ids are primary keys the database generates, so they are unique. */
  class Database {
    var users: seq<UserRow>
    var notebooks: seq<NotebookRow>
    var notes: seq<NoteRow>
    var files: seq<FileRow>
    var flashcards: seq<FlashcardRow>
    var quizzes: seq<QuizRow>
    var studyPlans: seq<StudyPlanRow>
    var objects: seq<StoredObject>

    constructor ()
      ensures users == [] && notebooks == [] && notes == [] && files == []
      ensures flashcards == [] && quizzes == [] && studyPlans == [] && objects == []
    {
      users, notebooks, notes, files := [], [], [], [];
      flashcards, quizzes, studyPlans, objects := [], [], [], [];
    }

    ghost predicate Valid()
      reads this
    {
      UniqueUserIds(users) && UniqueNotebookIds(notebooks) && UniqueNoteIds(notes) && UniqueFileIds(files)
    }
  }

  /** `.eq("id", id).limit(1)` on the notebooks table: the index of the first row with that id. */
  function NotebookIndex(rows: seq<NotebookRow>, id: string): (k: int)
    ensures -1 <= k < |rows|
    ensures k >= 0 ==> rows[k].id == id && forall j :: 0 <= j < k ==> rows[j].id != id
    ensures k == -1 ==> forall j :: 0 <= j < |rows| ==> rows[j].id != id
  {
    if |rows| == 0 then -1
    else if rows[0].id == id then 0
    else
      var k := NotebookIndex(rows[1..], id);
      if k == -1 then -1 else k + 1
  }

  /** The ownership check of the note, upload and AI handlers: look the notebook up by id alone,
      then compare its owner; no row or another owner is the same 404. */
  function OwnedNotebook(rows: seq<NotebookRow>, id: string, userId: string): (r: Result<NotebookRow, HttpException>)
    ensures r.Err? ==> r.error == NotebookNotFound
    ensures r.Ok? ==> r.value in rows && r.value.id == id && r.value.userId == userId
  {
    var k := NotebookIndex(rows, id);
    if k == -1 || rows[k].userId != userId then Err(NotebookNotFound) else Ok(rows[k])
  }

  /** With unique ids the check passes exactly when the caller owns a notebook with that id. */
  lemma OwnedNotebookIff(rows: seq<NotebookRow>, id: string, userId: string)
    requires UniqueNotebookIds(rows)
    ensures OwnedNotebook(rows, id, userId).Ok? <==>
      exists j :: 0 <= j < |rows| && rows[j].id == id && rows[j].userId == userId
  {
    var k := NotebookIndex(rows, id);
    if j :| 0 <= j < |rows| && rows[j].id == id && rows[j].userId == userId {
      assert k == j;
    }
  }

  /** Rows added after the first row with an id do not change the check for that id. */
  lemma OwnedNotebookAfterAppend(rows: seq<NotebookRow>, extra: seq<NotebookRow>, id: string, userId: string)
    requires forall j :: 0 <= j < |extra| ==> extra[j].id != id
    ensures OwnedNotebook(rows + extra, id, userId) == OwnedNotebook(rows, id, userId)
  {
    var k := NotebookIndex(rows, id);
    var k2 := NotebookIndex(rows + extra, id);
    if k >= 0 {
      assert (rows + extra)[k] == rows[k];
      assert k2 == k;
    } else {
      assert forall j :: 0 <= j < |rows + extra| ==> (rows + extra)[j].id != id by {
        forall j | 0 <= j < |rows + extra|
          ensures (rows + extra)[j].id != id
        {
          if j >= |rows| {
            assert (rows + extra)[j] == extra[j - |rows|];
          }
        }
      }
    }
  }

  /** `.eq("notebook_id", id).limit(1)` on the notes table: the index of the notebook's first note. */
  function NoteIndex(notes: seq<NoteRow>, notebookId: string): (k: int)
    ensures -1 <= k < |notes|
    ensures k >= 0 ==> notes[k].notebookId == notebookId && forall j :: 0 <= j < k ==> notes[j].notebookId != notebookId
    ensures k == -1 ==> forall j :: 0 <= j < |notes| ==> notes[j].notebookId != notebookId
  {
    if |notes| == 0 then -1
    else if notes[0].notebookId == notebookId then 0
    else
      var k := NoteIndex(notes[1..], notebookId);
      if k == -1 then -1 else k + 1
  }

  /** The notebook's first note, if it has one. */
  function FirstNoteOf(notes: seq<NoteRow>, notebookId: string): (r: Option<NoteRow>)
    ensures r.Some? ==> r.value in notes && r.value.notebookId == notebookId
    ensures r.Some? ==> exists k :: (0 <= k < |notes| && notes[k] == r.value
      && forall j :: 0 <= j < k ==> notes[j].notebookId != notebookId)
    ensures r.None? <==> forall j :: 0 <= j < |notes| ==> notes[j].notebookId != notebookId
  {
    var k := NoteIndex(notes, notebookId);
    if k == -1 then None else Some(notes[k])
  }

  /** The invariant the note upsert keeps. */
  predicate AtMostOneNotePerNotebook(notes: seq<NoteRow>)
  {
    forall i, j :: 0 <= i < j < |notes| ==> notes[i].notebookId != notes[j].notebookId
  }
}
