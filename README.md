# studymate — a Dafny model of the study notebook's session, pages and handlers

The project has two halves.

The web client keeps a session in `localStorage` under `ai-study-auth`. It attaches the
session's bearer token to every request through an axios interceptor, and a 401 ends the
session. The route guard shows nothing while the session loads, sends anonymous visitors to
`/login`, and shows the app otherwise. The pages (login, chat, notes, question generator,
exam planner) are short sequential handlers that send one or two requests and set a few
fields from the outcome.

The backend is a set of FastAPI handlers over Supabase tables. Each handler checks that the
caller owns the notebook ("404 Notebook not found" otherwise). It keeps one note per notebook,
builds an LLM context from a notebook's note and uploaded files, stores what the model answers,
extracts text from uploads, and registers or authenticates users. The Supabase client is
created lazily, once, after two configuration checks.

## How the source is modelled

- A page or provider whose handlers update state is a `class` with those fields. A handler
  with an `await` becomes two methods: `Begin…` runs up to the request and returns it, and
  `Complete…` takes the request's outcome (`Outcome<T>`, as the caller sees it after the
  interceptors). `ChatSession.Send` and `LoginForm.Submit` chain the two.
- The browser's `localStorage` and `location` are fields of `Browser.Window`. A stored value
  is a parsed `AuthRecord`, or `Unparsable` text that `JSON.parse` rejects.
- The database tables are `seq` fields of `Tables.Database`, with rows in insertion order.
  A query ending in `.limit(1)` takes the first match in that order. Ids are primary keys
  generated by the database, so an insert takes the fresh id as a parameter, with the
  precondition that no row has it yet; `Database.Valid()` says that ids are unique.
- The pure parts (ownership check, list ordering, context text, suffix dispatch, prompt
  texts, settings checks) are functions with lemmas.
- Parameters stand for what the source gets from outside:
  - the language model is a function `llm(system, prompt)`;
  - password hashing, verification and token signing are the functions `hash`, `verify`
    and `createToken`;
  - what the PDF, DOCX and OCR libraries read out of a file is `LibraryOutput`;
  - a failing database call is `DbFault` (`Option<string>` in login);
  - `uuid4`, the temporary file's name, `Date.now` and `created_at` are plain inputs.

## Model

| member | source | states |
|---|---|---|
| Common.NullIfEmpty | frontend/src/pages/ChatPage.jsx:16 | `x \|\| null` on a text field is null exactly for "" and the text otherwise |
| Text.TrimBlankIff | frontend/src/components/ChatBox.jsx:10 | `s.trim()` is empty exactly when every character is ECMAScript white space or a line terminator |
| Text.TrimIdempotent | frontend/src/components/ChatBox.jsx:11 | trimming what `onSend` receives again changes nothing |
| Text.Trim | frontend/src/components/ChatBox.jsx:10 | `trim()` leaves the part of the text between a white-space prefix and a white-space suffix, and what it leaves starts and ends with a character that is not white space |
| Browser.GetItem | frontend/src/context/AuthContext.jsx:12 | `getItem` gives the stored value under a key, or nothing when the key is absent |
| Api.BearerFromStorage | frontend/src/utils/api.js:14-21 | a header value exists exactly when the record parses and has a truthy token, and it is "Bearer " + token |
| Api.WithAuthorization | frontend/src/utils/api.js:13-25 | only `Authorization` may change; it is set from the stored token when there is one, else the headers stay as they were |
| Api.InterceptRequest | frontend/src/utils/api.js:13-26 | the interceptor returns the same config, with headers as `WithAuthorization` computes from storage |
| Api.AfterRejection | frontend/src/utils/api.js:31-36 | a 401 removes exactly the session key and sets the location to "/login"; any other error changes nothing |
| Api.RejectionIdempotent | frontend/src/utils/api.js:31-35 | a second 401 after a first leaves the same browser state |
| Api.InterceptResponse | frontend/src/utils/api.js:29-38 | the outcome is passed on unchanged (a rejection stays a rejection); the browser state changes only as `AfterRejection` says |
| AuthContext.RestoreEffect | frontend/src/context/AuthContext.jsx:11-19 | after the restore effect `loading` is false; a parsed record sets user and token from it; anything else keeps them; it agrees with the as-written effect whenever that one completes |
| AuthContext.RestoreAsWritten | frontend/src/context/AuthContext.jsx:11-19 | the effect as written throws exactly on a truthy record that does not parse, so `loading` is never cleared then; otherwise it completes with `loading` false, a parsed record setting user and token and anything else keeping them |
| AuthContext.AuthProvider.Restore | frontend/src/context/AuthContext.jsx:11-19 | the provider's state after mount is `RestoreEffect` of the stored value, the corrected restore of the Findings row: on a truthy record that cannot be read it clears `loading`, where the source as written (`RestoreAsWritten`) throws; storage is not written |
| AuthContext.ErrorMessage | frontend/src/context/AuthContext.jsx:32 | the message is the response's truthy `detail`, else a non-empty `error.message`, else the fallback; it is never empty when the fallback is not |
| AuthContext.AuthProvider.Login | frontend/src/context/AuthContext.jsx:21-35 | success sets `user = {email}` and token to `access_token` and persists `{user, token}`; failure rejects with `ErrorMessage(…, "Login failed")` and changes neither state nor storage |
| AuthContext.AuthProvider.Signup | frontend/src/context/AuthContext.jsx:37-45 | signup posts /auth/signup and on success logs in with the same credentials; a failed login's message is the one rethrown; a failed signup sends no login |
| AuthContext.AuthProvider.Logout | frontend/src/context/AuthContext.jsx:47-51 | user and token become null and the session key is removed, whatever the state was |
| AuthContext.LogoutTwice | frontend/src/context/AuthContext.jsx:47-51 | two logouts leave the state one logout leaves |
| AuthContext.AuthHeader | frontend/src/context/AuthContext.jsx:62-65 | `{Authorization: "Bearer " + token}` for a truthy token, `{}` otherwise |
| AuthContext.InterceptorAgreesWithAuthHeader | frontend/src/context/AuthContext.jsx:27-30 | after login has persisted its record, the interceptor attaches exactly the header `useAuthHeader` gives |
| AppRouter.PrivateRoute | frontend/src/router/AppRouter.jsx:13-18 | nothing exactly while loading; a redirect to /login exactly when loaded without a user; the children exactly when loaded with a user |
| AppRouter.RouteScreen | frontend/src/router/AppRouter.jsx:22-42 | /login is unguarded; the six app paths are shown exactly to a loaded, signed-in user, blank while loading and redirected to /login without a user; every other path redirects to "/" |
| AppRouter.RedirectsSettle | frontend/src/router/AppRouter.jsx:22-42 | following the router's redirects ends after at most two, on a page or a blank screen |
| AppRouter.MalformedRecordLeavesAppBlank | frontend/src/context/AuthContext.jsx:13-18 | as written, a stored record that does not parse makes the effect throw, every guarded page stays blank, and the guarded restore reaches the login redirect instead |
| LoginPage.LoginForm.ToggleSignup | frontend/src/pages/LoginPage.jsx:123 | the toggle flips between sign-in and sign-up |
| LoginPage.LoginForm.SubmitDisabled | frontend/src/pages/LoginPage.jsx:107 | the submit button is disabled exactly while `loading`; `BeginSubmit` leaves it disabled and `FinishSubmit` and `Submit` leave it enabled, so it is disabled exactly while a submit is in flight |
| LoginPage.LoginForm.BeginSubmit | frontend/src/pages/LoginPage.jsx:17-18 | submitting sets `loading`, clears the error and disables the submit button |
| LoginPage.LoginForm.FinishSubmit | frontend/src/pages/LoginPage.jsx:25-31 | success navigates to "/"; failure shows the error's message, or the fixed fallback for an empty one; `loading` is cleared and the button enabled either way |
| LoginPage.LoginForm.Submit | frontend/src/pages/LoginPage.jsx:15-32 | sign-up mode starts with /auth/signup and sign-in mode sends only /auth/login; the form ends not loading, either navigated to "/" or showing a non-empty error |
| ChatBox.ChatInput.HandleInput | frontend/src/components/ChatBox.jsx:18-19 | typing replaces the input text |
| ChatBox.ChatInput.SubmitDisabled | frontend/src/components/ChatBox.jsx:83 | send is disabled exactly when the input is white space only |
| ChatBox.ChatInput.HandleSubmit | frontend/src/components/ChatBox.jsx:8-16 | blank input sends nothing and keeps the text; otherwise the trimmed text goes to `onSend` and the input clears |
| ChatPage.AssistantReply | frontend/src/pages/ChatPage.jsx:19-25 | the reply is an assistant turn holding `answer`, or the fixed apology when the request fails |
| ChatPage.QuickPrompt | frontend/src/pages/ChatPage.jsx:31-39 | "mcq", "summary" and "plan" map to their fixed prompts; any other kind sends nothing |
| ChatPage.QuickButtonsAllDispatch | frontend/src/components/ChatBox.jsx:64-66 | each of the three quick buttons passes a kind that `handleQuick` sends |
| ChatPage.ExchangeKeepsAlternation | frontend/src/pages/ChatPage.jsx:11-25 | a conversation alternating user/assistant from a user turn still alternates after one exchange |
| ChatPage.ChatSession.BeginSend | frontend/src/pages/ChatPage.jsx:10-18 | the user turn is appended and shown at once, loading is set, and the whole new history is posted with the notebook id or null |
| ChatPage.ChatSession.CompleteSend | frontend/src/pages/ChatPage.jsx:19-28 | the reply is appended to the history as sent, and loading is cleared |
| ChatPage.ChatSession.Send | frontend/src/pages/ChatPage.jsx:10-29 | one send adds exactly a user turn and its reply, keeps the earlier history as a prefix, keeps alternation, and ends not loading |
| ChatPage.ChatSession.HandleQuick | frontend/src/pages/ChatPage.jsx:31-39 | a known kind sends its fixed prompt exactly as `send` does, the request carrying the old transcript plus that prompt; an unknown kind changes nothing |
| NotesPage.AiRequest | frontend/src/pages/NotesPage.jsx:90-114 | "explain" posts one user turn to /ai/chat; "questions" posts to /ai/quiz at "medium"/"mix"; every other kind to /ai/summary; all carry the active id |
| NotesPage.AiResultField | frontend/src/pages/NotesPage.jsx:101-115 | the panel shows `answer`, `quiz_raw` or `summary` by kind |
| NotesPage.AiRoutingConsistent | frontend/src/pages/NotesPage.jsx:90-115 | the field the panel reads is the one the endpoint it called returns |
| NotesPage.SaveRequests | frontend/src/pages/NotesPage.jsx:66-84 | no active notebook sends nothing; an edited title first posts /notebooks/create with the new title; the note save carries the active id and content, comes last, and is skipped when the title request fails |
| NotesPage.NotesScreen.SaveNote | frontend/src/pages/NotesPage.jsx:66-84 | the save sends `SaveRequests` and alerts exactly when a request it sent failed; it writes no page field |
| NotesPage.NotesScreen.BeginSelect | frontend/src/pages/NotesPage.jsx:33-37 | selecting makes the notebook and its title current and fetches its note |
| NotesPage.NotesScreen.CompleteSelect | frontend/src/pages/NotesPage.jsx:38-47 | a note fills content and panel (`ai_summary` or ""); no note clears both; a failed fetch keeps both |
| NotesPage.NotesScreen.CompleteLoad | frontend/src/pages/NotesPage.jsx:17-31 | a loaded list replaces the local one and its first notebook is selected exactly when it is non-empty; a failure changes nothing |
| NotesPage.NotesScreen.CreateNotebook | frontend/src/pages/NotesPage.jsx:50-64 | the create request with title "New notebook" and an empty description goes first; a created notebook is then put first and selected, fetching its note; a failure alerts and changes nothing |
| NotesPage.NotesScreen.AiButtonDisabled | frontend/src/pages/NotesPage.jsx:211-226 | an AI button is disabled exactly while its own kind is in flight: `BeginRunAi` disables the started kind's button and no other, and `CompleteRunAi` enables them all |
| NotesPage.NotesScreen.BeginRunAi | frontend/src/pages/NotesPage.jsx:86-88 | without an active notebook nothing happens; otherwise the kind is marked in flight, only its button is disabled, and the routed request is sent |
| NotesPage.NotesScreen.CompleteRunAi | frontend/src/pages/NotesPage.jsx:101-122 | success shows the routed field, failure alerts and keeps the panel, and the in-flight mark is cleared, enabling every button, either way |
| NotesPage.NotesScreen.HandleExtracted | frontend/src/pages/NotesPage.jsx:125-127 | extracted text is appended after a blank line |
| ExamPlannerPage.CeilDiv | frontend/src/pages/ExamPlannerPage.jsx:19-22 | `Math.ceil(a / b)` is the least integer not below the quotient |
| ExamPlannerPage.CountdownDays | frontend/src/pages/ExamPlannerPage.jsx:19-22 | the count d is the distance rounded up to whole days: the exam lies more than d - 1 days and at most d days after today's midnight |
| ExamPlannerPage.CountdownWholeDays | frontend/src/pages/ExamPlannerPage.jsx:17-22 | an exam k whole days after today's midnight is k days away, and today is 0 |
| ExamPlannerPage.CountdownWithinDay | frontend/src/pages/ExamPlannerPage.jsx:17-22 | any instant in the k-th day after today's midnight counts as k days |
| ExamPlannerPage.CountdownTextReadsBack | frontend/src/pages/ExamPlannerPage.jsx:23 | the countdown line starts with the subject, and its number reads back as the day count |
| ExamPlannerPage.CountdownText | frontend/src/pages/ExamPlannerPage.jsx:23 | "<subject> exam in <diff> days"; `CountdownTextReadsBack` reads the subject and the number back |
| ExamPlannerPage.PlanPromptLines | frontend/src/pages/ExamPlannerPage.jsx:27 | the plan prompt is three lines, subject, difficulty and target grade, each read back whole |
| ExamPlannerPage.PlanPromptLayout | frontend/src/pages/ExamPlannerPage.jsx:27 | the prompt is the three labelled fields separated by single newlines, and no field holds a newline when the inputs hold none |
| ExamPlannerPage.PlanPrompt | frontend/src/pages/ExamPlannerPage.jsx:27 | the three-line prompt that `PlanPromptLines` splits back into its fields |
| ExamPlannerPage.DaysForCalendar | frontend/src/pages/ExamPlannerPage.jsx:42-46 | no date gives no day; a date gives its day of the month |
| ExamPlannerPage.CalendarCells | frontend/src/pages/ExamPlannerPage.jsx:179-203 | 30 cells numbered 1 to 30, each highlighted exactly when its number is in the list |
| ExamPlannerPage.CalendarHighlightsExamDay | frontend/src/pages/ExamPlannerPage.jsx:42-48 | with a date, exactly the exam's day of the month is highlighted when it is 1..30; without one, none is |
| ExamPlannerPage.ExamPlanner.AddExamDisabled | frontend/src/pages/ExamPlannerPage.jsx:134 | the button is enabled exactly when not loading and both subject and date are set; a click on an enabled button always sends the plan request (`BeginAddExam`), which disables it, and `CompleteAddExam` enables it again whenever subject and date are set |
| ExamPlannerPage.ExamPlanner.BeginAddExam | frontend/src/pages/ExamPlannerPage.jsx:15-32 | without subject or date nothing happens; otherwise the countdown is written, loading is set, and the plan request carries the three-line prompt, the date and the notebook id or null |
| ExamPlannerPage.ExamPlanner.CompleteAddExam | frontend/src/pages/ExamPlannerPage.jsx:33-39 | the plan is `plan_raw` or the fixed failure text, the countdown is untouched, and loading is cleared |
| QuestionGeneratorPage.QuestionGenerator.constructor | frontend/src/pages/QuestionGeneratorPage.jsx:6-11 | the form starts at level "medium" and type "mcq" |
| QuestionGeneratorPage.QuestionGenerator.GenerateDisabled | frontend/src/pages/QuestionGeneratorPage.jsx:113 | generate is disabled exactly while loading or while the topic is blank |
| QuestionGeneratorPage.QuestionGenerator.DownloadDisabled | frontend/src/pages/QuestionGeneratorPage.jsx:120 | download is disabled exactly while there is no result; after `CompleteGenerate` it is enabled on a failure (the failure text is shown) and on success exactly when `quiz_raw` is present and non-empty |
| QuestionGeneratorPage.QuestionGenerator.BeginGenerate | frontend/src/pages/QuestionGeneratorPage.jsx:13-22 | a blank topic sends nothing; otherwise loading is set and the untrimmed topic, level, type and notebook id or null are posted to /ai/quiz |
| QuestionGeneratorPage.QuestionGenerator.CompleteGenerate | frontend/src/pages/QuestionGeneratorPage.jsx:23-29 | the result is `quiz_raw` or the fixed failure text, loading is cleared so generate is enabled again for a non-blank topic, and download is enabled exactly when a non-empty text was stored |
| Schemas.QuizRequestDefaults | backend/models/schemas.py:57-61 | an omitted level and type default to "medium" and "mix", which `Ai.QuizDefaultsReachPrompt` carries into the quiz prompt |
| Ai.QuizDefaultsReachPrompt | backend/api/ai.py:109-113 | a request that omits level and type is prompted with "Level: medium. Type: mix." |
| Ai.NullQuizFieldsMissDefaults | backend/api/ai.py:109-113 | a request that sends explicit nulls is not prompted with the defaults: the f-string shows them as "None" |
| Schemas.PyStr | backend/api/ai.py:112 | an f-string shows a missing level or type as "None" |
| Schemas.IsoFormatReadsBack | backend/api/ai.py:130 | `isoformat()` is YYYY-MM-DD with dashes at 4 and 7, and each field reads back |
| Schemas.IsoFormatInjective | backend/api/ai.py:130 | distinct dates give distinct exam-date texts |
| Schemas.IsoFormat | backend/api/ai.py:130 | `date.isoformat()`; its layout and read-back are `IsoFormatReadsBack` and its injectivity `IsoFormatInjective` |
| Tables.NotebookIndex | backend/api/notebooks.py:57-63 | `.eq("id", …).limit(1)` finds the first row with the id, or none when no row has it |
| Tables.OwnedNotebook | backend/api/notebooks.py:64-65 | the check passes only with a row of that id owned by the caller; a missing or foreign notebook is the same 404 |
| Tables.OwnedNotebookIff | backend/api/notebooks.py:57-65 | with unique ids the check passes exactly when the caller owns a notebook with that id |
| Tables.OwnedNotebookAfterAppend | backend/api/notebooks.py:13-24 | creating other notebooks does not change the check for an existing id |
| Tables.NoteIndex | backend/api/notebooks.py:68-74 | `.eq("notebook_id", …).limit(1)` finds the notebook's first note, or none |
| Tables.FirstNoteOf | backend/api/notebooks.py:106-115 | the first note of the notebook in table order, and none exactly when it has no note |
| Notebooks.CreateNotebook | backend/api/notebooks.py:11-24 | one row is appended with the caller as owner and the payload's title and description, and that row is returned |
| Notebooks.OwnedBy | backend/api/notebooks.py:32 | the rows kept are exactly the caller's, each as often as in the table |
| Notebooks.InsertByDateSorted | backend/api/notebooks.py:33 | placing a row into a newest-first list keeps it newest first |
| Notebooks.InsertByDateElements | backend/api/notebooks.py:33 | placing a row adds exactly that row |
| Notebooks.SortNewestFirst | backend/api/notebooks.py:33 | ordering by `created_at` descending, by insertion; `SortNewestFirstCorrect` proves it newest first and a permutation |
| Notebooks.SortNewestFirstCorrect | backend/api/notebooks.py:33 | ordering by `created_at` descending is newest first and a permutation |
| Notebooks.ListNotebooks | backend/api/notebooks.py:27-36 | the list is newest first and a permutation of exactly the caller's notebooks |
| Notebooks.ListNotebooksOnlyOwn | backend/api/notebooks.py:27-36 | a row is listed exactly when it is in the table and belongs to the caller |
| Notebooks.FirstOwned | backend/api/notebooks.py:41-48 | the first row with that id and owner, or none exactly when there is no such row |
| Notebooks.GetNotebook | backend/api/notebooks.py:39-51 | a notebook with that id and owner is returned; a 404 exactly when there is none |
| Notebooks.GetNotebookAgreesWithOwnership | backend/api/notebooks.py:39-65 | with unique ids, the id-and-owner query agrees with the lookup-then-compare check |
| Notebooks.UpsertNote | backend/api/notebooks.py:67-90 | the notebook's first note ends with the new content; an existing first note keeps its id, summary and position, and every other row, of this notebook or another, is left as it was; otherwise one note with no summary is appended |
| Notebooks.UpsertKeepsOneNote | backend/api/notebooks.py:67-90 | the upsert never gives a notebook a second note |
| Notebooks.UpsertKeepsIdsUnique | backend/api/notebooks.py:67-90 | with a fresh id for an inserted note, the upsert keeps note ids unique |
| Notebooks.UpsertIdempotent | backend/api/notebooks.py:67-90 | saving the same content twice leaves the table as one save does |
| Notebooks.CreateOrUpdateNote | backend/api/notebooks.py:54-91 | a failed ownership check gives 404 and writes nothing; otherwise the table becomes `UpsertNote` of it and the written note is returned |
| Notebooks.GetNote | backend/api/notebooks.py:94-115 | 404 exactly on the ownership failure; otherwise none exactly when the notebook has no note, else its first note in table order |
| Notebooks.GetNoteAfterSave | backend/api/notebooks.py:54-115 | reading a notebook's note after a save returns the saved content |
| Ai.DescriptionText | backend/api/ai.py:49 | a missing description reads as "" |
| Ai.NoteText | backend/api/ai.py:32-39 | the first note's content, or "" without a note |
| Ai.FileTexts | backend/api/ai.py:41-47 | a text is listed exactly when some file of the notebook carries it, at most one per file; `FileTextsAppend` gives their table order |
| Ai.FileTextsAppend | backend/api/ai.py:41-47 | adding a file adds its text at the end for its own notebook and nothing for others |
| Ai.BuildNotebookContext | backend/api/ai.py:19-52 | 404 exactly when the ownership check fails |
| Ai.ContextText | backend/api/ai.py:49-51 | title, description, first note and the files' texts joined by blank lines; its parts are stated by `ContextHeader`, `ContextIgnoresOtherNotebooks` and `UploadedTextReachesContext` |
| Ai.ContextHeader | backend/api/ai.py:49 | the context opens with "Notebook: title\nDescription: d\n\nNotes:\n", and a missing description reads as an empty one |
| Ai.ContextIgnoresOtherNotebooks | backend/api/ai.py:32-47 | notes and files of other notebooks do not change a notebook's context |
| Ai.UploadedTextReachesContext | backend/api/ai.py:41-51 | an uploaded file's text is appended to the texts its notebook's context joins, and the context string ends with that text |
| Text.JoinAppend | backend/api/ai.py:49-51 | joining one more part puts it last, after exactly one separator when there were parts before, and alone otherwise |
| Ai.RequestContext | backend/api/ai.py:57-59 | the context is built only for a truthy `notebook_id`; otherwise it is "" and no table is read |
| Ai.ContextAndText | backend/api/ai.py:62 | every generating prompt's tail starts with the context and ends with the caller's text |
| Ai.SummaryPrompt | backend/api/ai.py:60-63 | the summary prompt ends with the context and the caller's text |
| Ai.FlashcardsPrompt | backend/api/ai.py:88-92 | the flashcards prompt ends with the context and the caller's text |
| Ai.QuizPrompt | backend/api/ai.py:109-114 | the quiz prompt starts with the instructions and the level and type as the f-string renders them, and ends with the context and the text |
| Ai.StudyPlanPrompt | backend/api/ai.py:129-136 | the study-plan prompt starts with the instructions and the exam date or "unknown", and ends with the context and the text |
| Ai.ExamDateText | backend/api/ai.py:129-130 | the exam date is its ISO text, or "unknown" without one |
| Ai.StoreSummary | backend/api/ai.py:66-78 | exactly the notebook's first note gets `ai_summary` and every other row is left as it was; ids, notebooks and contents are unchanged; without a note nothing changes |
| Ai.SummaryKeepsIdsUnique | backend/api/ai.py:66-78 | storing a summary keeps note ids unique |
| Ai.Summarize | backend/api/ai.py:55-80 | a failed check writes nothing; otherwise `{summary: answer}`, and with a notebook the answer is stored on its first note |
| Ai.Flashcards | backend/api/ai.py:83-101 | `{flashcards_raw: answer}`; with a notebook, one row with front "BULK_JSON" and the answer as back |
| Ai.Quiz | backend/api/ai.py:104-120 | `{quiz_raw: answer}` for the prompt with level and type; with a notebook, one quizzes row with the answer |
| Ai.StudyPlan | backend/api/ai.py:123-148 | `{plan_raw: answer}` for the prompt with the date or "unknown"; with a notebook, one plan row with date and answer |
| Ai.HistoryTextConcat | backend/api/ai.py:157-159 | the history of two conversations in a row is their histories in a row |
| Ai.HistoryText | backend/api/ai.py:157-159 | the history is each message's line in order; `HistoryTextConcat` splits it over concatenation and `RagChat`'s loop builds exactly it |
| Ai.HistoryLine | backend/api/ai.py:159 | one message's line, stated by `HistoryLineStartsWithRole` |
| Ai.HistoryLineStartsWithRole | backend/api/ai.py:159 | each line is the upper-cased role, ": ", the content and a newline, with the content read back from its place |
| Ai.RagChat | backend/api/ai.py:151-167 | chat writes nothing and asks the model about the context and the whole history in order |
| Ai.ChatUserMessage | backend/api/ai.py:165 | the chat prompt starts with the notebook context and ends with the conversation |
| Upload.LastIndex | backend/api/upload.py:53 | the last occurrence of a character, or none |
| Upload.Ext | backend/api/upload.py:53 | the extension is "" or a dot-led suffix of the name with no further dot or slash |
| Upload.ExtOfDottedName | backend/api/upload.py:53 | a name with a non-dot before its last dot has the text from that dot as extension |
| Upload.HiddenFileHasNoExt | backend/api/upload.py:53 | a hidden name such as ".pdf" has no extension |
| Upload.FileSuffix | backend/api/upload.py:53 | the suffix is the lower-cased extension, "" without a file name |
| Upload.Dispatch | backend/api/upload.py:61-68 | ".pdf", ".doc"/".docx" and ".png"/".jpg"/".jpeg" select their extractor, and any other suffix is the 400 "Unsupported file type" |
| Upload.UpperCaseExtensionDispatches | backend/api/upload.py:53-68 | an upper-cased file name selects the same extractor, or the same 400, as the name itself |
| Upload.NameCaseIgnored | backend/api/upload.py:53 | two file names that differ only in letter case get the same suffix, hence the same dispatch |
| Upload.ExtUpToCase | backend/api/upload.py:53 | `splitext` finds the extension in the same place whatever the case of the letters |
| Upload.ExtractTextFromPdf | backend/api/upload.py:19-24 | the PDF text is the page texts joined with newlines |
| Upload.PdfText | backend/api/upload.py:19-24 | the page texts, a missing one as "", joined with newlines; `ExtractTextFromPdf` computes it and `PdfTextSplitsIntoPages` reads the pages back |
| Upload.PdfTextSplitsIntoPages | backend/api/upload.py:19-24 | when no page text holds a newline, splitting the PDF text recovers the pages |
| Upload.ExtractTextFromDocx | backend/api/upload.py:27-28 | the DOCX text is what the library returns, or "" for nothing |
| Upload.Extract | backend/api/upload.py:61-66 | the extractor the suffix selected is run |
| Upload.ExtractedText | backend/api/upload.py:61-66 | the text of the extractor the suffix selected: the PDF pages, the DOCX text or the OCR text |
| Upload.StoragePath | backend/api/upload.py:71 | the path is "notebook_id/", then the uuid, then the suffix, each read back from its place |
| Upload.StoreUpload | backend/api/upload.py:72-87 | one storage object and one files row are appended |
| Upload.RemoveTemp | backend/api/upload.py:89-93 | the temporary file is gone afterwards, unless its removal fails, which leaves the directory unchanged and raises nothing |
| Upload.UploadFile | backend/api/upload.py:36-93 | a foreign or missing notebook writes nothing; an unsupported suffix writes no object or row; otherwise one object and one row with the extracted text; the temporary file is gone afterwards unless its removal failed, which is ignored |
| Auth.Signup | backend/api/auth.py:13-31 | a registered email gives 400 and inserts nothing; otherwise one row with the password's hash, and the reply has only id and email; other failures are 500 "Signup failed: …"; emails stay unique |
| Auth.FirstUserByEmail | backend/api/auth.py:37-43 | the first user with the email in table order, the only one when emails are unique, and none exactly when the email is not registered |
| Auth.Login | backend/api/auth.py:34-57 | every client error is 400 "Invalid credentials"; a login succeeds exactly when the first user with the email exists and the password verifies against its hash, and then gives a bearer token for the user's id with a 24-hour lifetime; other failures are 500 "Login failed: …" |
| Auth.WrongPasswordLooksUnregistered | backend/api/auth.py:44-48 | a wrong password and an unknown email give the same reply |
| Auth.LoginAfterSignup | backend/api/auth.py:20-53 | after a signup, logging in with the same password issues a token for the new id |
| SupabaseClient.CheckSettings | backend/utils/database.py:14-26 | the settings pass exactly when the URL and the key are both accepted; a bad URL is reported before the key |
| SupabaseClient.BadUrlMasksKey | backend/utils/database.py:14-19 | a bad URL gives the same error whatever the key, and the error names the URL |
| SupabaseClient.PlaceholdersRefused | backend/utils/database.py:14-21 | the placeholder URL and the placeholder key are both refused |
| SupabaseClient.SupabaseModule.GetSupabase | backend/utils/database.py:6-29 | a cached client is returned unchanged; otherwise a failed check leaves the cache empty, and a pass creates and caches the client, at most once |
| SupabaseClient.ProxyGetAttr | backend/utils/database.py:32-34 | every attribute read goes through `get_supabase` and reads from the client it returns |
| SupabaseClient.ProxyTwice | backend/utils/database.py:28-34 | two attribute reads create the client at most once and read from the same client |

## Left out

- Network, timing and concurrency: each `await` is a split point taking the settled outcome. Interleaved handlers are not modelled. In particular `selectNotebook` has no guard against stale replies, so this model claims no last-selection-wins.
- DOM and console effects: `console.error`, textarea resizing, the page markup, and `downloadPdf`'s blob and anchor element.
- Date parsing and time zones in the exam planner: the exam instant and today's midnight are integer milliseconds, and the day of the month is an input.
- ExamPlannerPage.CountdownDays: the division is exact integer ceiling. Floating-point rounding of `Math.ceil` on very large millisecond values is not modelled.
- react-router's case-insensitive matching and trailing slashes: paths are compared exactly.
- Text.AsciiUpper, Text.AsciiLower: Python's `upper()`/`lower()` are ASCII-only here, since Unicode case mapping is not modelled.
- JSON shapes: a response body is a map of string fields. A missing or null field reads as absent (`Lookup`) or as "" when displayed (`FieldText`).
- Supabase itself: the query builder, row order without `order` (taken as insertion order), and storage upload failures. A query on an unconfigured client raises ValueError; the handlers are modelled with a configured client.
- Exceptions from foreign libraries in upload (pypdf, docx2txt, pytesseract, reading the upload) and from the language model call: the model covers the paths the handlers themselves take.
- FastAPI's request validation, which runs before every handler: a body that does not match its pydantic model is answered with 422, and `EmailStr` normalises the address (pydantic v1 lower-cases its domain). Auth.Signup, Auth.Login: the email they receive is taken as already normalised.
- SupabaseClient.SupabaseModule.GetSupabase: `create_client` itself is taken to succeed once the two settings pass; its own failures are not modelled.
- Hashing, password verification, JWT signing and `get_current_user`: these are parameters, and the caller's id is an input.
- backend/services/ollama_service.py, backend/utils/local_db.py, backend/utils/config.py and backend/main.py are not part of this model; `Settings` carries only the two values the client checks.
- Stored session values that parse to a JSON value other than an object or `null` (a number, a string, an array): `.user` and `.token` then read as `undefined`. The model has only records, and text that cannot be read as one (which throws in the restore as written).
- Tokens stored in `localStorage` are modelled as parsed records; how `JSON.stringify` and `JSON.parse` round-trip them is assumed, not modelled.

## Findings

| source | as written | input that shows it | evidently intended | confidence | as-written member | corrected member |
|---|---|---|---|---|---|---|
| frontend/src/context/AuthContext.jsx:13-18 | `JSON.parse` of the stored record is unguarded, so a value that does not parse throws before `setLoading(false)` | `localStorage["ai-study-auth"] = "{"`: `loading` stays true and `PrivateRoute` renders nothing on every guarded page | a malformed record counts as no session, so the guard redirects to /login (api.js:16-23 already guards the same parse) | not executed | AppRouter.MalformedRecordLeavesAppBlank | AuthContext.RestoreEffect |
