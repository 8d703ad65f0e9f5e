/** The upload handler: the ownership check, the extension dispatch, the page join of PDF text,
    the storage object and the files row, and the temporary file that is removed afterwards.
    What the PDF, DOCX and OCR libraries read out of the bytes is given as `LibraryOutput`. */
module Upload {
  import opened Common
  import opened Text
  import opened Tables

  type Body = map<string, string>

  const Bucket := "notebook-files"

  const UnsupportedFileType := HttpException(400, "Unsupported file type")

  /** The index of the last `c` in `s`, or -1 (`str.rfind`). */
  function LastIndex(s: string, c: char): (k: int)
    ensures -1 <= k < |s|
    ensures k >= 0 ==> s[k] == c && forall j :: k < j < |s| ==> s[j] != c
    ensures k == -1 ==> forall j :: 0 <= j < |s| ==> s[j] != c
  {
    if |s| == 0 then -1
    else if s[|s| - 1] == c then |s| - 1
    else LastIndex(s[..|s| - 1], c)
  }

  predicate HasNonDot(s: string, lo: int, hi: int)
    requires 0 <= lo && hi <= |s|
  {
    exists i :: lo <= i < hi && s[i] != '.'
  }

  /** `os.path.splitext(p)[1]` on POSIX paths: from the last dot of the last path component,
      unless everything before that dot in the component is dots. */
  function Ext(p: string): (e: string)
    ensures e == "" || (|e| <= |p| && e == p[|p| - |e|..] && e[0] == '.' && '.' !in e[1..] && '/' !in e)
  {
    var sep := LastIndex(p, '/');
    var dot := LastIndex(p, '.');
    if dot > sep && HasNonDot(p, sep + 1, dot) then p[dot..] else ""
  }

  /** A name with a non-dot character before its last dot has the text from that dot as extension. */
  lemma ExtOfDottedName(base: string, e: string)
    requires '/' !in base && '.' !in e && '/' !in e
    requires exists i :: 0 <= i < |base| && base[i] != '.'
    ensures Ext(base + "." + e) == "." + e
  {
    var p := base + "." + e;
    assert forall j :: 0 <= j < |p| ==> p[j] != '/' by {
      forall j | 0 <= j < |p|
        ensures p[j] != '/'
      {
        if j < |base| {
          assert p[j] == base[j];
        } else if j > |base| {
          assert p[j] == e[j - |base| - 1];
        }
      }
    }
    assert p[|base|] == '.';
    assert forall j :: |base| < j < |p| ==> p[j] != '.' by {
      forall j | |base| < j < |p|
        ensures p[j] != '.'
      {
        assert p[j] == e[j - |base| - 1];
      }
    }
    assert LastIndex(p, '.') == |base|;
    var i :| 0 <= i < |base| && base[i] != '.';
    assert p[i] == base[i];
    assert p[|base|..] == "." + e;
  }

  /** A hidden file such as ".pdf" has no extension at all. */
  lemma HiddenFileHasNoExt(e: string)
    requires '.' !in e && '/' !in e
    ensures Ext("." + e) == ""
  {
    var p := "." + e;
    assert forall j :: 0 <= j < |p| ==> p[j] != '/' by {
      forall j | 0 <= j < |p|
        ensures p[j] != '/'
      {
        if j > 0 {
          assert p[j] == e[j - 1];
        }
      }
    }
    assert forall j :: 0 < j < |p| ==> p[j] != '.' by {
      forall j | 0 < j < |p|
        ensures p[j] != '.'
      {
        assert p[j] == e[j - 1];
      }
    }
    assert p[0] == '.';
    assert LastIndex(p, '.') == 0;
  }

  /** `os.path.splitext(file.filename or "")[1].lower()`. */
  function FileSuffix(filename: Option<string>): (s: string)
    ensures filename.None? ==> s == ""
    ensures filename.Some? ==> s == AsciiLower(Ext(filename.value))
  {
    match filename
    case None => ""
    case Some(name) => AsciiLower(Ext(name))
  }

  datatype Extractor = Pdf | Docx | Image

  /** Which extractor a suffix selects; any other suffix is rejected. */
  function Dispatch(suffix: string): (r: Result<Extractor, HttpException>)
    ensures r == Ok(Pdf) <==> suffix == ".pdf"
    ensures r == Ok(Docx) <==> suffix == ".doc" || suffix == ".docx"
    ensures r == Ok(Image) <==> suffix == ".png" || suffix == ".jpg" || suffix == ".jpeg"
    ensures r.Err? ==> r.error == UnsupportedFileType
  {
    if suffix == ".pdf" then Ok(Pdf)
    else if suffix == ".doc" || suffix == ".docx" then Ok(Docx)
    else if suffix == ".png" || suffix == ".jpg" || suffix == ".jpeg" then Ok(Image)
    else Err(UnsupportedFileType)
  }

  /** Two names that differ at most in the case of ASCII letters. */
  predicate SameUpToCase(a: string, b: string)
  {
    |a| == |b| && forall i :: 0 <= i < |a| ==> LowerChar(a[i]) == LowerChar(b[i])
  }

  lemma {:induction false} LastIndexUpToCase(a: string, b: string, c: char)
    requires SameUpToCase(a, b) && (c == '.' || c == '/')
    ensures LastIndex(a, c) == LastIndex(b, c)
  {
    assert forall j :: 0 <= j < |a| ==> (a[j] == c <==> b[j] == c);
  }

  lemma SliceUpToCase(a: string, b: string, k: nat)
    requires SameUpToCase(a, b) && k <= |a|
    ensures SameUpToCase(a[k..], b[k..])
  {
    assert forall i :: 0 <= i < |a| - k ==> a[k..][i] == a[k + i] && b[k..][i] == b[k + i];
  }

  /** The extension of a name depends on its letters' case only through that case. */
  lemma ExtUpToCase(a: string, b: string)
    requires SameUpToCase(a, b)
    ensures SameUpToCase(Ext(a), Ext(b))
  {
    LastIndexUpToCase(a, b, '/');
    LastIndexUpToCase(a, b, '.');
    var sep := LastIndex(a, '/');
    var dot := LastIndex(a, '.');
    if dot > sep {
      assert HasNonDot(a, sep + 1, dot) <==> HasNonDot(b, sep + 1, dot) by {
        assert forall i :: 0 <= i < |a| ==> (a[i] != '.' <==> b[i] != '.');
      }
      SliceUpToCase(a, b, dot);
    }
  }

  lemma LowerUpToCase(a: string, b: string)
    requires SameUpToCase(a, b)
    ensures AsciiLower(a) == AsciiLower(b)
  {
  }

  /** Upper-casing a name changes only the case of its letters. */
  lemma {:induction false} UpperSameUpToCase(name: string)
    ensures SameUpToCase(AsciiUpper(name), name)
  {
    var u := AsciiUpper(name);
    forall i | 0 <= i < |name|
      ensures LowerChar(u[i]) == LowerChar(name[i])
    {
      var c := name[i];
      if 'a' <= c <= 'z' {
        assert 'A' <= UpperChar(c) <= 'Z';
      }
    }
  }

  /** File names that differ only in letter case are dispatched alike: `.lower()` makes
      "Notes.PDF" a PDF just as "notes.pdf" is. */
  lemma NameCaseIgnored(a: string, b: string)
    requires SameUpToCase(a, b)
    ensures FileSuffix(Some(a)) == FileSuffix(Some(b))
    ensures Dispatch(FileSuffix(Some(a))) == Dispatch(FileSuffix(Some(b)))
  {
    ExtUpToCase(a, b);
    LowerUpToCase(Ext(a), Ext(b));
  }

  /** In particular an upper-cased name selects the extractor the name itself selects. */
  lemma UpperCaseExtensionDispatches(name: string)
    ensures Dispatch(FileSuffix(Some(AsciiUpper(name)))) == Dispatch(FileSuffix(Some(name)))
  {
    UpperSameUpToCase(name);
    NameCaseIgnored(AsciiUpper(name), name);
  }

  /** `page.extract_text() or ""`. */
  function PageText(page: Option<string>): string
  {
    match page
    case None => ""
    case Some(t) => t
  }

  function PageTexts(pages: seq<Option<string>>): (t: seq<string>)
    ensures |t| == |pages|
  {
    seq(|pages|, i requires 0 <= i < |pages| => PageText(pages[i]))
  }

  /** The page texts joined with newlines. */
  function PdfText(pages: seq<Option<string>>): string
  {
    Join(PageTexts(pages), "\n")
  }

  /** `_extract_text_from_pdf`, given what each page's `extract_text()` returns. */
  method ExtractTextFromPdf(pages: seq<Option<string>>) returns (text: string)
    ensures text == PdfText(pages)
  {
    var texts: seq<string> := [];
    for i := 0 to |pages|
      invariant |texts| == i
      invariant forall j :: 0 <= j < i ==> texts[j] == PageText(pages[j])
    {
      texts := texts + [PageText(pages[i])];
    }
    assert texts == PageTexts(pages);
    text := Join(texts, "\n");
  }

  /** When no page text holds a newline, splitting the PDF text on newlines gives the pages back,
      with "" for each page that had no text. */
  lemma PdfTextSplitsIntoPages(pages: seq<Option<string>>)
    requires |pages| >= 1
    requires forall i :: 0 <= i < |pages| ==> '\n' !in PageText(pages[i])
    ensures Split(PdfText(pages), '\n') == PageTexts(pages)
  {
    SplitJoin(PageTexts(pages), '\n');
  }

  /** `_extract_text_from_docx`: what `docx2txt.process` returns, or "" for nothing. */
  function ExtractTextFromDocx(processed: Option<string>): (t: string)
    ensures processed.None? ==> t == ""
    ensures processed.Some? ==> t == processed.value
  {
    match processed
    case None => ""
    case Some(t) => t
  }

  /** What the extraction libraries read out of the uploaded bytes. */
  datatype LibraryOutput = LibraryOutput(pdfPages: seq<Option<string>>, docx: Option<string>, ocr: string)

  function ExtractedText(kind: Extractor, lib: LibraryOutput): string
  {
    match kind
    case Pdf => PdfText(lib.pdfPages)
    case Docx => ExtractTextFromDocx(lib.docx)
    case Image => lib.ocr
  }

  /** Runs the extractor the suffix selected. */
  method Extract(kind: Extractor, lib: LibraryOutput) returns (text: string)
    ensures text == ExtractedText(kind, lib)
  {
    match kind {
      case Pdf => text := ExtractTextFromPdf(lib.pdfPages);
      case Docx => text := ExtractTextFromDocx(lib.docx);
      case Image => text := lib.ocr;
    }
  }

  /** `f"{notebook_id}/{uuid}{suffix}"`. */
  function StoragePath(notebookId: string, uuid: string, suffix: string): (p: string)
    ensures |p| == |notebookId| + 1 + |uuid| + |suffix|
    ensures p[..|notebookId| + 1] == notebookId + "/"
    ensures p[|p| - |suffix|..] == suffix
    ensures p[|notebookId| + 1 .. |p| - |suffix|] == uuid
  {
    var p := notebookId + "/" + uuid + suffix;
    assert p[..|notebookId| + 1] == notebookId + "/";
    assert p[|notebookId| + 1 .. |p| - |suffix|] == uuid;
    p
  }

  /** The server's temporary directory: file name to content. */
  class TempDir {
    var files: map<string, seq<bv8>>

    constructor (files: map<string, seq<bv8>>)
      ensures this.files == files
    {
      this.files := files;
    }
  }

  /** The storage upload and the files insert. */
  method StoreUpload(db: Database, obj: StoredObject, row: FileRow)
    requires db.Valid()
    requires forall j :: 0 <= j < |db.files| ==> db.files[j].id != row.id
    modifies db`files, db`objects
    ensures db.Valid()
    ensures db.objects == old(db.objects) + [obj]
    ensures db.files == old(db.files) + [row]
  {
    db.objects := db.objects + [obj];
    db.files := db.files + [row];
  }

  /** The `finally` block of `upload_file`: remove the temporary file; a failing removal is ignored. */
  method RemoveTemp(tmp: TempDir, name: string, fails: bool)
    modifies tmp
    ensures tmp.files == if fails then old(tmp.files) else old(tmp.files) - {name}
  {
    if !fails {
      tmp.files := tmp.files - {name};
    }
  }

  /** Writing a fresh temporary file and removing it again leaves the directory as it was. */
  lemma AddThenRemove(m: map<string, seq<bv8>>, k: string, v: seq<bv8>)
    requires k !in m
    ensures m[k := v] - {k} == m
  {
  }

  /** `upload_file`. `tmpName` is the fresh name `NamedTemporaryFile` picks, `uuid` the one
      `uuid4` draws, `newFileId` the row id the database assigns, and `unlinkFails` whether the
      final removal raises `OSError`, which is swallowed. */
  method UploadFile(db: Database, tmp: TempDir, notebookId: string, userId: string, filename: Option<string>,
                    content: seq<bv8>, lib: LibraryOutput, tmpName: string, uuid: string, newFileId: string,
                    unlinkFails: bool)
    returns (r: Result<Body, HttpException>)
    requires db.Valid()
    requires tmpName !in tmp.files
    requires forall j :: 0 <= j < |db.files| ==> db.files[j].id != newFileId
    modifies db`files, db`objects, tmp
    ensures db.Valid()
    ensures OwnedNotebook(db.notebooks, notebookId, userId).Err? ==>
      r == Err(NotebookNotFound) && db.files == old(db.files) && db.objects == old(db.objects)
      && tmp.files == old(tmp.files)
    ensures OwnedNotebook(db.notebooks, notebookId, userId).Ok? ==>
      tmp.files == if unlinkFails then old(tmp.files)[tmpName := content] else old(tmp.files)
    ensures OwnedNotebook(db.notebooks, notebookId, userId).Ok? && Dispatch(FileSuffix(filename)).Err? ==>
      r == Err(UnsupportedFileType) && db.files == old(db.files) && db.objects == old(db.objects)
    ensures OwnedNotebook(db.notebooks, notebookId, userId).Ok? && Dispatch(FileSuffix(filename)).Ok? ==>
      var suffix := FileSuffix(filename);
      var text := ExtractedText(Dispatch(suffix).value, lib);
      var path := StoragePath(notebookId, uuid, suffix);
      db.objects == old(db.objects) + [StoredObject(Bucket, path, content)]
      && db.files == old(db.files) + [FileRow(newFileId, notebookId, path, text)]
      && r == Ok(map["id" := newFileId, "extracted_text" := text])
  {
    if OwnedNotebook(db.notebooks, notebookId, userId).Err? {
      return Err(NotebookNotFound);
    }
    var suffix := FileSuffix(filename);
    tmp.files := tmp.files[tmpName := content];
    var kind := Dispatch(suffix);
    if kind.Ok? {
      var text := Extract(kind.value, lib);
      var path := StoragePath(notebookId, uuid, suffix);
      StoreUpload(db, StoredObject(Bucket, path, content), FileRow(newFileId, notebookId, path, text));
      r := Ok(map["id" := newFileId, "extracted_text" := text]);
    } else {
      r := Err(kind.error);
    }
    ghost var before := old(tmp.files);
    RemoveTemp(tmp, tmpName, unlinkFails);
    if !unlinkFails {
      AddThenRemove(before, tmpName, content);
    }
  }
}
