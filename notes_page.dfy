/** The notes page: the notebook list, the active selection and its editor fields, the save
    sequence, and the AI panel's routing by action kind. */
module NotesPage {
  import opened Common
  import opened Wire

  const NewNotebookTitle := "New notebook"

  /** The request `createNotebook` sends: a fixed title and an empty description. */
  const CreateRequest := PostCreateNotebook(NewNotebookTitle, Some(""))

  /** The request `runAI` sends for an action kind: "explain" goes to the chat endpoint with a
      single user turn, "questions" to the quiz endpoint at level "medium" of type "mix", and
      every other kind to the summary endpoint; all carry the active notebook's id. */
  function AiRequest(kind: string, notebookId: string, content: string): (r: Request)
    ensures kind == "explain" ==> (Endpoint(r) == "/ai/chat"
      && r == PostChat(Some(notebookId), [Message("user", "Explain this content in simple terms:\n" + content)]))
    ensures kind == "questions" ==> (Endpoint(r) == "/ai/quiz"
      && r == PostQuiz(Some(notebookId), content, "medium", "mix"))
    ensures kind != "explain" && kind != "questions" ==> (Endpoint(r) == "/ai/summary"
      && r == PostSummary(Some(notebookId), content))
  {
    if kind == "explain" then
      PostChat(Some(notebookId), [Message("user", "Explain this content in simple terms:\n" + content)])
    else if kind == "questions" then PostQuiz(Some(notebookId), content, "medium", "mix")
    else PostSummary(Some(notebookId), content)
  }

  /** The response member the panel shows for each kind. */
  function AiResultField(kind: string): (f: string)
    ensures kind == "explain" ==> f == "answer"
    ensures kind == "questions" ==> f == "quiz_raw"
    ensures kind != "explain" && kind != "questions" ==> f == "summary"
  {
    if kind == "explain" then "answer" else if kind == "questions" then "quiz_raw" else "summary"
  }

  /** The field each endpoint's response carries, as the backend names it. */
  function ResponseField(endpoint: string): string
  {
    if endpoint == "/ai/chat" then "answer" else if endpoint == "/ai/quiz" then "quiz_raw" else "summary"
  }

  /** The panel reads the member that the endpoint it called returns. */
  lemma AiRoutingConsistent(kind: string, notebookId: string, content: string)
    ensures AiResultField(kind) == ResponseField(Endpoint(AiRequest(kind, notebookId, content)))
  {
  }

  /** The requests `saveNote` issues, in order, given how the title update settles: nothing
      without an active notebook; a /notebooks/create with the edited title first when the title
      was edited; then the note save with the active id and the current content, unless the title
      request failed. */
  function SaveRequests(active: Option<Notebook>, title: string, content: string,
                        titleRes: Outcome<Notebook>): (rs: seq<Request>)
    ensures active.None? ==> rs == []
    ensures active.Some? && title == active.value.title ==> rs == [PostSaveNote(active.value.id, content)]
    ensures active.Some? && title != active.value.title && titleRes.Success? ==> (rs ==
      [PostCreateNotebook(title, active.value.description), PostSaveNote(active.value.id, content)])
    ensures active.Some? && title != active.value.title && titleRes.Failure? ==> (rs ==
      [PostCreateNotebook(title, active.value.description)])
    ensures forall i :: 0 <= i < |rs| && rs[i].PostSaveNote? ==> i == |rs| - 1
  {
    match active
    case None => []
    case Some(nb) =>
      if title != nb.title then
        if titleRes.Failure? then [PostCreateNotebook(title, nb.description)]
        else [PostCreateNotebook(title, nb.description), PostSaveNote(nb.id, content)]
      else [PostSaveNote(nb.id, content)]
  }

  class NotesScreen {
    var notebooks: seq<Notebook>
    var activeNotebook: Option<Notebook>
    var title: string
    var content: string
    var aiResult: string
    var loadingAction: string

    constructor ()
      ensures notebooks == [] && activeNotebook == None
      ensures title == "" && content == "" && aiResult == "" && loadingAction == ""
    {
      notebooks, activeNotebook := [], None;
      title, content, aiResult, loadingAction := "", "", "", "";
    }

    /** The synchronous part of `selectNotebook`: the notebook and its title become current,
        and the note fetch for its id is issued. */
    method BeginSelect(nb: Notebook) returns (sent: Request)
      modifies this`activeNotebook, this`title
      ensures activeNotebook == Some(nb) && title == nb.title
      ensures sent == GetNoteOf(nb.id)
    {
      activeNotebook := Some(nb);
      title := nb.title;
      sent := GetNoteOf(nb.id);
    }

    /** The note fetch settling: a note fills the editor and the panel, no note clears both,
        and a failed fetch keeps both. */
    method CompleteSelect(res: Outcome<Option<NoteBody>>)
      modifies this`content, this`aiResult
      ensures res.Success? && res.data.Some? ==> (content == res.data.value.content
        && aiResult == (if Truthy(res.data.value.aiSummary) then res.data.value.aiSummary.value else ""))
      ensures res.Success? && res.data.None? ==> content == "" && aiResult == ""
      ensures res.Failure? ==> content == old(content) && aiResult == old(aiResult)
    {
      match res
      case Success(Some(note)) =>
        content := note.content;
        aiResult := if Truthy(note.aiSummary) then note.aiSummary.value else "";
      case Success(None) =>
        content, aiResult := "", "";
      case Failure(_) =>
    }

    /** The mount effect once GET /notebooks/list settles: the list replaces the local one and
        its first notebook is selected exactly when it is non-empty; a failure changes nothing. */
    method CompleteLoad(res: Outcome<seq<Notebook>>) returns (sent: Option<Request>)
      modifies this`notebooks, this`activeNotebook, this`title
      ensures res.Success? ==> notebooks == res.data
      ensures res.Success? && res.data != [] ==> (activeNotebook == Some(res.data[0])
        && title == res.data[0].title && sent == Some(GetNoteOf(res.data[0].id)))
      ensures (res.Success? && res.data == []) || res.Failure? ==> (sent == None
        && activeNotebook == old(activeNotebook) && title == old(title))
      ensures res.Failure? ==> notebooks == old(notebooks)
    {
      sent := None;
      if res.Success? {
        notebooks := res.data;
        if |res.data| > 0 {
          var fetch := BeginSelect(res.data[0]);
          sent := Some(fetch);
        }
      }
    }

    /** `createNotebook`, with `res` the outcome of its request: the fixed create request goes
        out; the new notebook is then put first and selected, which fetches its note; on failure
        the page alerts and nothing changes. */
    method CreateNotebook(res: Outcome<Notebook>) returns (sent: seq<Request>, alerted: bool)
      modifies this`notebooks, this`activeNotebook, this`title
      ensures |sent| >= 1 && sent[0] == CreateRequest
      ensures res.Success? ==> (notebooks == [res.data] + old(notebooks)
        && activeNotebook == Some(res.data) && title == res.data.title
        && sent == [CreateRequest, GetNoteOf(res.data.id)] && !alerted)
      ensures res.Failure? ==> (notebooks == old(notebooks) && activeNotebook == old(activeNotebook)
        && title == old(title) && sent == [CreateRequest] && alerted)
    {
      sent := [CreateRequest];
      match res
      case Success(nb) =>
        notebooks := [nb] + notebooks;
        var fetch := BeginSelect(nb);
        sent, alerted := sent + [fetch], false;
      case Failure(_) =>
        alerted := true;
    }

    /** `saveNote`: the requests it issues in order and whether it alerts. It writes no field of
        the page, so a failed save leaves the typed title and content as they are. */
    method SaveNote(titleRes: Outcome<Notebook>, saveRes: Outcome<Body>) returns (sent: seq<Request>, alerted: bool)
      ensures sent == SaveRequests(activeNotebook, title, content, titleRes)
      ensures activeNotebook.None? ==> !alerted
      ensures activeNotebook.Some? ==> (alerted <==>
        (title != activeNotebook.value.title && titleRes.Failure?) || (sent[|sent| - 1].PostSaveNote? && saveRes.Failure?))
    {
      sent, alerted := [], false;
      if activeNotebook.None? {
        return;
      }
      var nb := activeNotebook.value;
      if title != nb.title {
        sent := sent + [PostCreateNotebook(title, nb.description)];
        if titleRes.Failure? {
          alerted := true;
          return;
        }
      }
      sent := sent + [PostSaveNote(nb.id, content)];
      alerted := saveRes.Failure?;
    }

    /** An AI button is disabled while its own action is the one in flight. */
    function AiButtonDisabled(kind: string): (d: bool)
      reads this
      ensures d <==> loadingAction == kind
    {
      loadingAction == kind
    }

    /** The part of `runAI` before its await: no-op without an active notebook; otherwise the
        kind is marked in flight and the routed request is issued with the current content. */
    method BeginRunAi(kind: string) returns (sent: Option<Request>)
      modifies this`loadingAction
      ensures activeNotebook.None? ==> sent == None && loadingAction == old(loadingAction)
      ensures activeNotebook.Some? ==> (loadingAction == kind
        && sent == Some(AiRequest(kind, activeNotebook.value.id, content)))
      ensures activeNotebook.Some? ==> AiButtonDisabled(kind) && forall k :: k != kind ==> !AiButtonDisabled(k)
    {
      if activeNotebook.None? {
        sent := None;
        return;
      }
      loadingAction := kind;
      sent := Some(AiRequest(kind, activeNotebook.value.id, content));
    }

    /** The part after the await: the panel shows the routed member on success, the page alerts
        on failure, and the in-flight mark is always reset. */
    method CompleteRunAi(kind: string, res: Outcome<Body>) returns (alerted: bool)
      modifies this`aiResult, this`loadingAction
      ensures loadingAction == ""
      ensures forall k :: k != "" ==> !AiButtonDisabled(k)
      ensures res.Success? ==> aiResult == FieldText(res.data, AiResultField(kind)) && !alerted
      ensures res.Failure? ==> aiResult == old(aiResult) && alerted
    {
      alerted := false;
      match res {
        case Success(body) => aiResult := FieldText(body, AiResultField(kind));
        case Failure(_) => alerted := true;
      }
      loadingAction := "";
    }

    /** `handleExtracted`: uploaded text is appended after a blank line. */
    method HandleExtracted(text: string)
      modifies this`content
      ensures content == old(content) + "\n\n" + text
    {
      content := content + "\n\n" + text;
    }
  }
}
