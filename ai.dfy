/** The AI handlers: the notebook context they share, the four that store what the model
    answers, and the chat handler that only reads. The language model is the function `llm`
    from a system prompt and a user prompt to the answer. */
module Ai {
  import opened Common
  import opened Text
  import opened Schemas
  import opened Tables

  type Body = map<string, string>

  /** `notebook.get('description') or ''`. */
  function DescriptionText(d: Option<string>): (t: string)
    ensures d.Some? ==> t == d.value
    ensures d.None? ==> t == ""
  {
    match d
    case None => ""
    case Some(v) => v
  }

  /** The content of the notebook's first note, or "" without one. */
  function NoteText(notes: seq<NoteRow>, notebookId: string): (t: string)
    ensures FirstNoteOf(notes, notebookId).Some? ==> t == FirstNoteOf(notes, notebookId).value.content
    ensures FirstNoteOf(notes, notebookId).None? ==> t == ""
  {
    match FirstNoteOf(notes, notebookId)
    case None => ""
    case Some(n) => n.content
  }

  /** The extracted texts of the notebook's files, in table order: one per file of the
      notebook, and nothing from another notebook's files. */
  function FileTexts(files: seq<FileRow>, notebookId: string): (t: seq<string>)
    ensures |t| <= |files|
    ensures forall x :: x in t <==> exists j :: 0 <= j < |files| && OfNotebook(files[j], notebookId, x)
  {
    if |files| == 0 then []
    else (if files[0].notebookId == notebookId then [files[0].extractedText] else []) + FileTexts(files[1..], notebookId)
  }

  /** File row `f` belongs to the notebook and carries text `x`. */
  predicate OfNotebook(f: FileRow, notebookId: string, x: string)
  {
    f.notebookId == notebookId && f.extractedText == x
  }

  lemma {:induction false} FileTextsAppend(files: seq<FileRow>, f: FileRow, notebookId: string)
    ensures FileTexts(files + [f], notebookId)
      == FileTexts(files, notebookId) + (if f.notebookId == notebookId then [f.extractedText] else [])
  {
    if |files| > 0 {
      assert (files + [f])[1..] == files[1..] + [f];
      FileTextsAppend(files[1..], f, notebookId);
    } else {
      assert [f][1..] == [];
    }
  }

  /** The context text for a notebook row, its note text and its files' texts. */
  function ContextText(nb: NotebookRow, noteText: string, fileTexts: seq<string>): string
  {
    "Notebook: " + nb.title + "\nDescription: " + DescriptionText(nb.description)
      + "\n\nNotes:\n" + noteText + "\n\nFiles:\n" + Join(fileTexts, "\n\n")
  }

  /** `_build_notebook_context`: 404 unless the caller owns the notebook; otherwise the title,
      the description, the first note and every file's text. */
  function BuildNotebookContext(notebooks: seq<NotebookRow>, notes: seq<NoteRow>, files: seq<FileRow>,
                                notebookId: string, userId: string): (r: Result<string, HttpException>)
    ensures r.Err? <==> OwnedNotebook(notebooks, notebookId, userId).Err?
    ensures r.Err? ==> r.error == NotebookNotFound
  {
    match OwnedNotebook(notebooks, notebookId, userId)
    case Err(e) => Err(e)
    case Ok(nb) => Ok(ContextText(nb, NoteText(notes, notebookId), FileTexts(files, notebookId)))
  }

  /** The context opens with the notebook's title and description line, and a missing description
      reads as an empty one. */
  lemma ContextHeader(notebooks: seq<NotebookRow>, notes: seq<NoteRow>, files: seq<FileRow>,
                      notebookId: string, userId: string)
    requires OwnedNotebook(notebooks, notebookId, userId).Ok?
    ensures var nb := OwnedNotebook(notebooks, notebookId, userId).value;
      var header := "Notebook: " + nb.title + "\nDescription: " + DescriptionText(nb.description) + "\n\nNotes:\n";
      var c := BuildNotebookContext(notebooks, notes, files, notebookId, userId).value;
      |header| <= |c| && c[..|header|] == header
      && (nb.description.None? ==> DescriptionText(nb.description) == DescriptionText(Some("")))
  {
    var nb := OwnedNotebook(notebooks, notebookId, userId).value;
    var header := "Notebook: " + nb.title + "\nDescription: " + DescriptionText(nb.description) + "\n\nNotes:\n";
    var c := BuildNotebookContext(notebooks, notes, files, notebookId, userId).value;
    var rest := NoteText(notes, notebookId) + "\n\nFiles:\n" + Join(FileTexts(files, notebookId), "\n\n");
    assert c == header + rest;
    assert c[..|header|] == header;
  }

  /** A note or a file of another notebook does not change a notebook's context. */
  lemma ContextIgnoresOtherNotebooks(notebooks: seq<NotebookRow>, notes: seq<NoteRow>, files: seq<FileRow>,
                                     notebookId: string, userId: string, n: NoteRow, f: FileRow)
    requires n.notebookId != notebookId && f.notebookId != notebookId
    ensures BuildNotebookContext(notebooks, notes + [n], files + [f], notebookId, userId)
      == BuildNotebookContext(notebooks, notes, files, notebookId, userId)
  {
    FileTextsAppend(files, f, notebookId);
    assert FileTexts(files + [f], notebookId) == FileTexts(files, notebookId);
    assert FirstNoteOf(notes + [n], notebookId) == FirstNoteOf(notes, notebookId) by {
      var k := NoteIndex(notes, notebookId);
      var k2 := NoteIndex(notes + [n], notebookId);
      if k >= 0 {
        assert (notes + [n])[k] == notes[k];
        assert k2 == k;
      } else {
        assert forall j :: 0 <= j < |notes + [n]| ==> (notes + [n])[j].notebookId != notebookId by {
          forall j | 0 <= j < |notes + [n]|
            ensures (notes + [n])[j].notebookId != notebookId
          {
            if j < |notes| {
              assert (notes + [n])[j] == notes[j];
            }
          }
        }
      }
    }
    assert NoteText(notes + [n], notebookId) == NoteText(notes, notebookId);
  }

  /** An uploaded file's text becomes the last part of its notebook's context. */
  lemma UploadedTextReachesContext(notebooks: seq<NotebookRow>, notes: seq<NoteRow>, files: seq<FileRow>,
                                   f: FileRow, userId: string)
    requires OwnedNotebook(notebooks, f.notebookId, userId).Ok?
    ensures var nb := OwnedNotebook(notebooks, f.notebookId, userId).value;
      BuildNotebookContext(notebooks, notes, files + [f], f.notebookId, userId)
      == Ok(ContextText(nb, NoteText(notes, f.notebookId), FileTexts(files, f.notebookId) + [f.extractedText]))
    ensures EndsWith(BuildNotebookContext(notebooks, notes, files + [f], f.notebookId, userId).value, f.extractedText)
  {
    FileTextsAppend(files, f, f.notebookId);
    var nb := OwnedNotebook(notebooks, f.notebookId, userId).value;
    var texts := FileTexts(files, f.notebookId);
    JoinEndsWithLast(texts, f.extractedText, "\n\n");
    var head := "Notebook: " + nb.title + "\nDescription: " + DescriptionText(nb.description)
      + "\n\nNotes:\n" + NoteText(notes, f.notebookId) + "\n\nFiles:\n";
    assert ContextText(nb, NoteText(notes, f.notebookId), texts + [f.extractedText]) == head + Join(texts + [f.extractedText], "\n\n");
    EndsWithConcat(head, Join(texts + [f.extractedText], "\n\n"), f.extractedText);
  }

  /** The context of a request: built only when `notebook_id` is truthy, else "". */
  function RequestContext(notebooks: seq<NotebookRow>, notes: seq<NoteRow>, files: seq<FileRow>,
                          notebookId: Option<string>, userId: string): (r: Result<string, HttpException>)
    ensures !Truthy(notebookId) ==> r == Ok("")
    ensures Truthy(notebookId) ==> r == BuildNotebookContext(notebooks, notes, files, notebookId.value, userId)
  {
    if Truthy(notebookId) then BuildNotebookContext(notebooks, notes, files, notebookId.value, userId) else Ok("")
  }

  /** The prompt tail every generating handler ends with: the context, then the caller's text
      as its last part. */
  function ContextAndText(context: string, text: string): (t: string)
    ensures StartsWith(t, "Context:\n" + context)
    ensures EndsWith(t, "\n\nText:\n" + text)
  {
    "Context:\n" + context + "\n\nText:\n" + text
  }

  const SummarySystem := "Summarize study notes for exams."
  const FlashcardsSystem := "Create flashcards for spaced repetition."
  const QuizSystem := "Create practice exam questions."
  const StudyPlanSystem := "Plan an efficient exam study schedule."
  const ChatSystem := "You are an AI study assistant helping a university student prepare for exams. "
    + "Answer based only on the provided notebook context and conversation history when possible."

  function SummaryPrompt(context: string, text: string): (p: string)
    ensures EndsWith(p, ContextAndText(context, text))
  {
    "You are an AI study assistant. Create a concise, exam-focused summary of the following content.\n\n"
      + ContextAndText(context, text)
  }

  function FlashcardsPrompt(context: string, text: string): (p: string)
    ensures EndsWith(p, ContextAndText(context, text))
  {
    "Generate high-quality flashcards in JSON array format "
      + "[{\"front\": \"...\", \"back\": \"...\"}] from the following exam notes.\n\n"
      + ContextAndText(context, text)
  }

  const QuizPromptHead := "Generate a set of exam-style questions as JSON with fields "
    + "type, question, options (for MCQ), answer, explanation. "

  function QuizPrompt(context: string, text: string, level: Option<string>, qtype: Option<string>): (p: string)
    ensures StartsWith(p, QuizPromptHead + "Level: " + PyStr(level) + ". Type: " + PyStr(qtype) + ".")
    ensures EndsWith(p, ContextAndText(context, text))
  {
    QuizPromptHead
      + "Level: " + PyStr(level) + ". Type: " + PyStr(qtype) + ".\n\n"
      + ContextAndText(context, text)
  }

  /** A quiz request that leaves `level` and `qtype` out is prompted at level "medium" with
      type "mix". */
  lemma QuizDefaultsReachPrompt(context: string, notebookId: Option<string>, text: string)
    ensures var q := QuizRequestDefaults(notebookId, text);
      StartsWith(QuizPrompt(context, q.text, q.level, q.qtype), QuizPromptHead + "Level: medium. Type: mix.")
  {
    assert QuizPromptHead + "Level: " + "medium" + ". Type: " + "mix" + "."
      == QuizPromptHead + "Level: medium. Type: mix.";
  }

  /** One that sends explicit nulls is not: the prompt shows them as "None". */
  lemma NullQuizFieldsMissDefaults(context: string, text: string)
    ensures !StartsWith(QuizPrompt(context, text, None, None), QuizPromptHead + "Level: medium. Type: mix.")
  {
    QuizHeadLayout();
    DifferAfterHead(QuizPrompt(context, text, None, None), QuizPromptHead + "Level: ",
                    "None. Type: None.", "medium. Type: mix.");
  }

  /** The two quiz heads, each split after "Level: ". */
  lemma QuizHeadLayout()
    ensures QuizPromptHead + "Level: " + "None" + ". Type: " + "None" + "."
      == (QuizPromptHead + "Level: ") + "None. Type: None."
    ensures QuizPromptHead + "Level: medium. Type: mix." == (QuizPromptHead + "Level: ") + "medium. Type: mix."
  {
    SplitAfterLevel("None" + ". Type: " + "None" + ".");
    SplitAfterLevel("medium. Type: mix.");
    assert "None" + ". Type: " + "None" + "." == "None. Type: None.";
    assert "Level: " + "medium. Type: mix." == "Level: medium. Type: mix.";
  }

  lemma SplitAfterLevel(rest: string)
    ensures QuizPromptHead + "Level: " + rest == (QuizPromptHead + "Level: ") + rest
    ensures QuizPromptHead + ("Level: " + rest) == (QuizPromptHead + "Level: ") + rest
  {
  }

  /** Two texts that share a head and then differ cannot both begin a string. */
  lemma DifferAfterHead(p: string, h: string, a: string, b: string)
    requires StartsWith(p, h + a) && |a| > 0 && |b| > 0 && a[0] != b[0]
    ensures !StartsWith(p, h + b)
  {
    assert (h + a)[|h|] == a[0];
    assert (h + b)[|h|] == b[0];
    assert p[|h|] == p[..|h + a|][|h|];
  }

  const StudyPlanHead := "Create a detailed day-by-day study plan in JSON format for an upcoming university exam. "

  /** `exam_date.isoformat() if exam_date else "unknown"`; a date is always truthy. */
  function ExamDateText(d: Option<Date>): (t: string)
    ensures d.None? ==> t == "unknown"
    ensures d.Some? ==> t == IsoFormat(d.value)
  {
    match d
    case None => "unknown"
    case Some(v) => IsoFormat(v)
  }

  function StudyPlanPrompt(context: string, text: string, examDate: Option<Date>): (p: string)
    ensures StartsWith(p, StudyPlanHead + "Exam date: " + ExamDateText(examDate) + ".")
    ensures EndsWith(p, ContextAndText(context, text))
  {
    StudyPlanHead
      + "Exam date: " + ExamDateText(examDate) + ".\n"
      + "Return a JSON object with days and tasks."
      + "\n\n" + ContextAndText(context, text)
  }

  /** The notes table after a summary is stored on the notebook's first note, if it has one;
      every other row is left as it was. */
  function StoreSummary(notes: seq<NoteRow>, notebookId: string, summary: string): (r: seq<NoteRow>)
    ensures |r| == |notes|
    ensures forall j :: 0 <= j < |notes| && j != NoteIndex(notes, notebookId) ==> r[j] == notes[j]
    ensures NoteIndex(notes, notebookId) >= 0 ==> (var k := NoteIndex(notes, notebookId);
      r[k] == notes[k].(aiSummary := Some(summary)))
    ensures forall j :: 0 <= j < |notes| ==> (r[j].id == notes[j].id && r[j].notebookId == notes[j].notebookId
      && r[j].content == notes[j].content)
    ensures FirstNoteOf(notes, notebookId).None? ==> r == notes
    ensures FirstNoteOf(notes, notebookId).Some? ==> (FirstNoteOf(r, notebookId).Some?
      && FirstNoteOf(r, notebookId).value == FirstNoteOf(notes, notebookId).value.(aiSummary := Some(summary)))
  {
    var k := NoteIndex(notes, notebookId);
    if k == -1 then notes
    else
      var r := notes[k := notes[k].(aiSummary := Some(summary))];
      assert r[k].notebookId == notebookId;
      assert forall j :: 0 <= j < k ==> r[j] == notes[j];
      r
  }

  /** Storing a summary keeps note ids unique. */
  lemma SummaryKeepsIdsUnique(notes: seq<NoteRow>, notebookId: string, summary: string)
    requires UniqueNoteIds(notes)
    ensures UniqueNoteIds(StoreSummary(notes, notebookId, summary))
  {
  }

  /** `summarize`: the model's answer as `summary`; with a notebook, the answer is also stored
      as the first note's `ai_summary`. A failed ownership check answers nothing and writes nothing. */
  method Summarize(db: Database, req: AIRequest, userId: string, llm: (string, string) -> string)
    returns (r: Result<Body, HttpException>)
    requires db.Valid()
    modifies db`notes
    ensures db.Valid()
    ensures var ctx := RequestContext(old(db.notebooks), old(db.notes), old(db.files), req.notebookId, userId);
      (ctx.Err? ==> r == Err(ctx.error) && db.notes == old(db.notes))
      && (ctx.Ok? ==> (var answer := llm(SummarySystem, SummaryPrompt(ctx.value, req.text));
        r == Ok(map["summary" := answer])
        && db.notes == if Truthy(req.notebookId) then StoreSummary(old(db.notes), req.notebookId.value, answer) else old(db.notes)))
  {
    var ctx := RequestContext(db.notebooks, db.notes, db.files, req.notebookId, userId);
    if ctx.Err? {
      return Err(ctx.error);
    }
    var answer := llm(SummarySystem, SummaryPrompt(ctx.value, req.text));
    if Truthy(req.notebookId) {
      var k := NoteIndex(db.notes, req.notebookId.value);
      if k >= 0 {
        // `.eq("id", ...)` matches exactly this row, since note ids are unique.
        var updated := db.notes[k := db.notes[k].(aiSummary := Some(answer))];
        assert updated == StoreSummary(db.notes, req.notebookId.value, answer);
        SummaryKeepsIdsUnique(db.notes, req.notebookId.value, answer);
        db.notes := updated;
      }
    }
    r := Ok(map["summary" := answer]);
  }

  /** `flashcards`: the answer as `flashcards_raw`; with a notebook, one row with front
      "BULK_JSON" and the answer as back. */
  method Flashcards(db: Database, req: AIRequest, userId: string, llm: (string, string) -> string)
    returns (r: Result<Body, HttpException>)
    modifies db`flashcards
    ensures var ctx := RequestContext(db.notebooks, db.notes, db.files, req.notebookId, userId);
      (ctx.Err? ==> r == Err(ctx.error) && db.flashcards == old(db.flashcards))
      && (ctx.Ok? ==> (var answer := llm(FlashcardsSystem, FlashcardsPrompt(ctx.value, req.text));
        r == Ok(map["flashcards_raw" := answer])
        && db.flashcards == old(db.flashcards)
          + if Truthy(req.notebookId) then [FlashcardRow(req.notebookId.value, "BULK_JSON", answer)] else []))
  {
    var ctx := RequestContext(db.notebooks, db.notes, db.files, req.notebookId, userId);
    if ctx.Err? {
      return Err(ctx.error);
    }
    var answer := llm(FlashcardsSystem, FlashcardsPrompt(ctx.value, req.text));
    if Truthy(req.notebookId) {
      db.flashcards := db.flashcards + [FlashcardRow(req.notebookId.value, "BULK_JSON", answer)];
    }
    r := Ok(map["flashcards_raw" := answer]);
  }

  /** `quiz`: the answer as `quiz_raw`; with a notebook, one quizzes row holding the answer. */
  method Quiz(db: Database, req: QuizRequest, userId: string, llm: (string, string) -> string)
    returns (r: Result<Body, HttpException>)
    modifies db`quizzes
    ensures var ctx := RequestContext(db.notebooks, db.notes, db.files, req.notebookId, userId);
      (ctx.Err? ==> r == Err(ctx.error) && db.quizzes == old(db.quizzes))
      && (ctx.Ok? ==> (var answer := llm(QuizSystem, QuizPrompt(ctx.value, req.text, req.level, req.qtype));
        r == Ok(map["quiz_raw" := answer])
        && db.quizzes == old(db.quizzes) + if Truthy(req.notebookId) then [QuizRow(req.notebookId.value, answer)] else []))
  {
    var ctx := RequestContext(db.notebooks, db.notes, db.files, req.notebookId, userId);
    if ctx.Err? {
      return Err(ctx.error);
    }
    var answer := llm(QuizSystem, QuizPrompt(ctx.value, req.text, req.level, req.qtype));
    if Truthy(req.notebookId) {
      db.quizzes := db.quizzes + [QuizRow(req.notebookId.value, answer)];
    }
    r := Ok(map["quiz_raw" := answer]);
  }

  /** `study_plan`: the answer as `plan_raw`; with a notebook, one plan row with the request's
      exam date and the answer. */
  method StudyPlan(db: Database, req: StudyPlanRequest, userId: string, llm: (string, string) -> string)
    returns (r: Result<Body, HttpException>)
    modifies db`studyPlans
    ensures var ctx := RequestContext(db.notebooks, db.notes, db.files, req.notebookId, userId);
      (ctx.Err? ==> r == Err(ctx.error) && db.studyPlans == old(db.studyPlans))
      && (ctx.Ok? ==> (var answer := llm(StudyPlanSystem, StudyPlanPrompt(ctx.value, req.text, req.examDate));
        r == Ok(map["plan_raw" := answer])
        && db.studyPlans == old(db.studyPlans)
          + if Truthy(req.notebookId) then [StudyPlanRow(req.notebookId.value, req.examDate, answer)] else []))
  {
    var ctx := RequestContext(db.notebooks, db.notes, db.files, req.notebookId, userId);
    if ctx.Err? {
      return Err(ctx.error);
    }
    var answer := llm(StudyPlanSystem, StudyPlanPrompt(ctx.value, req.text, req.examDate));
    if Truthy(req.notebookId) {
      db.studyPlans := db.studyPlans + [StudyPlanRow(req.notebookId.value, req.examDate, answer)];
    }
    r := Ok(map["plan_raw" := answer]);
  }

  /** One history line: the role in upper case, a colon, the content and a newline. */
  function HistoryLine(m: ChatMessage): string
  {
    AsciiUpper(m.role) + ": " + m.content + "\n"
  }

  /** The conversation as the chat handler writes it, message after message. */
  function HistoryText(messages: seq<ChatMessage>): string
  {
    if |messages| == 0 then "" else HistoryText(messages[..|messages| - 1]) + HistoryLine(messages[|messages| - 1])
  }

  /** The history of two conversations in a row is the two histories in a row. */
  lemma {:induction false} HistoryTextConcat(a: seq<ChatMessage>, b: seq<ChatMessage>)
    ensures HistoryText(a + b) == HistoryText(a) + HistoryText(b)
  {
    if |b| > 0 {
      assert (a + b)[..|a + b| - 1] == a + b[..|b| - 1];
      HistoryTextConcat(a, b[..|b| - 1]);
    } else {
      assert a + b == a;
    }
  }

  /** A message's line starts with its upper-cased role. */
  lemma HistoryLineStartsWithRole(m: ChatMessage)
    ensures var line := HistoryLine(m);
      |AsciiUpper(m.role)| + 2 <= |line| && line[..|m.role| + 2] == AsciiUpper(m.role) + ": "
      && line[|line| - 1] == '\n'
      && line[|m.role| + 2 .. |line| - 1] == m.content
  {
    var line := HistoryLine(m);
    assert line == (AsciiUpper(m.role) + ": ") + (m.content + "\n");
  }

  /** The chat prompt: the notebook context first, the conversation as its last part. */
  function ChatUserMessage(context: string, history: string): (m: string)
    ensures StartsWith(m, "Notebook context:\n" + context)
    ensures EndsWith(m, "\n\nConversation:\n" + history)
  {
    "Notebook context:\n" + context + "\n\nConversation:\n" + history
  }

  /** `rag_chat`: reads the tables but writes nothing, and asks the model about the context and
      the whole conversation in order. */
  method RagChat(db: Database, req: ChatRequest, userId: string, llm: (string, string) -> string)
    returns (r: Result<Body, HttpException>)
    ensures var ctx := RequestContext(db.notebooks, db.notes, db.files, req.notebookId, userId);
      (ctx.Err? ==> r == Err(ctx.error))
      && (ctx.Ok? ==> r == Ok(map["answer" := llm(ChatSystem, ChatUserMessage(ctx.value, HistoryText(req.messages)))]))
  {
    var ctx := RequestContext(db.notebooks, db.notes, db.files, req.notebookId, userId);
    if ctx.Err? {
      return Err(ctx.error);
    }
    var history := "";
    var i := 0;
    while i < |req.messages|
      invariant 0 <= i <= |req.messages|
      invariant history == HistoryText(req.messages[..i])
    {
      assert req.messages[..i + 1][..i] == req.messages[..i];
      history := history + HistoryLine(req.messages[i]);
      i := i + 1;
    }
    assert req.messages[..i] == req.messages;
    var answer := llm(ChatSystem, ChatUserMessage(ctx.value, history));
    r := Ok(map["answer" := answer]);
  }
}
