/** The requests the client sends and the bodies it reads back: the HTTP contract between the
    React pages and the FastAPI routers. */
module Wire {
  import opened Common

  /** A chat turn, `{role, content}`. */
  datatype Message = Message(role: string, content: string)

  /** A notebook as the client holds it (`id`, `title`, `description` of the backend row). */
  datatype Notebook = Notebook(id: string, title: string, description: Option<string>)

  /** A note as `GET /notebooks/notes/{id}` returns it. */
  datatype NoteBody = NoteBody(content: string, aiSummary: Option<string>)

  /** A JSON object with string members: the login response and the AI endpoints' responses. */
  type Body = map<string, string>

  /** `res.data.<name>`: `None` stands for `undefined`. */
  function Lookup(body: Body, name: string): (r: Option<string>)
    ensures r.Some? <==> name in body
    ensures r.Some? ==> r.value == body[name]
  {
    if name in body then Some(body[name]) else None
  }

  /** `res.data.<name>` where the page only displays it: a missing member shows as empty text. */
  function FieldText(body: Body, name: string): (r: string)
    ensures name in body ==> r == body[name]
    ensures name !in body ==> r == ""
  {
    if name in body then body[name] else ""
  }

  /** One request the client issues, with its JSON payload. */
  datatype Request =
    | PostLogin(email: string, password: string)
    | PostSignup(email: string, password: string)
    | GetNotebookList
    | PostCreateNotebook(title: string, description: Option<string>)
    | GetNoteOf(notebookId: string)
    | PostSaveNote(notebookId: string, content: string)
    | PostChat(notebook: Option<string>, messages: seq<Message>)
    | PostSummary(notebook: Option<string>, text: string)
    | PostQuiz(notebook: Option<string>, text: string, level: string, qtype: string)
    | PostStudyPlan(notebook: Option<string>, text: string, examDate: string)

  /** The path each request is sent to. */
  function Endpoint(r: Request): string
  {
    match r
    case PostLogin(_, _) => "/auth/login"
    case PostSignup(_, _) => "/auth/signup"
    case GetNotebookList => "/notebooks/list"
    case PostCreateNotebook(_, _) => "/notebooks/create"
    case GetNoteOf(id) => "/notebooks/notes/" + id
    case PostSaveNote(_, _) => "/notebooks/notes"
    case PostChat(_, _) => "/ai/chat"
    case PostSummary(_, _) => "/ai/summary"
    case PostQuiz(_, _, _, _) => "/ai/quiz"
    case PostStudyPlan(_, _, _) => "/ai/study-plan"
  }
}
