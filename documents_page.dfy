/**
 * The documents page's upload handler: the short type of an uploaded file, the 5 MiB preview
 * limit, the choice between reading the file as a data URL or as text, and the document the
 * reader's callback appends to the list.
 *
 * The id (`Date.now()`), the upload date and the text the file reader produces are inputs.
 */
module DocumentsPage {
  import opened Wrappers
  import opened JsString
  import opened DocumentModel
  import PreviewDispatch

  /** `5 * 1024 * 1024`: larger files are listed without content. */
  const MaxPreviewSize: int := 5 * 1024 * 1024

  /** The types read as data URLs. */
  const DataUrlTypes: seq<string> := PreviewDispatch.ImageTypes + ["pdf"]

  /** What the upload handler sees of a file. */
  datatype UploadFile = UploadFile(name: string, mimeType: string, size: int)

  /** How the file reader is asked to read a file. */
  datatype ReadMode = AsDataUrl | AsText

  /** `s.split(sep)[i]`, which is `undefined` past the last piece. */
  function PieceAt(s: string, sep: char, i: nat): (r: Option<string>)
    ensures r.Some? <==> i <= Count(s, sep)
    ensures r.Some? ==> sep !in r.value
  {
    var parts := Split(s, sep);
    if i < |parts| then Some(parts[i]) else None
  }

  /** `s.split(sep).pop()`: the last piece, which is all of `s` when `sep` does not occur. */
  function LastPiece(s: string, sep: char): (r: string)
    ensures sep !in r
  {
    var parts := Split(s, sep);
    parts[|parts| - 1]
  }

  /** `a || b` on optional strings. */
  function Or(a: Option<string>, b: string): string {
    if Truthy(a) then a.value else b
  }

  /** `file.type.split('/')[1] || file.name.split('.').pop() || fallback`. */
  function DerivedType(f: UploadFile, fallback: string): (r: string)
    ensures fallback != "" ==> r != ""
    ensures r == fallback || '/' !in r || '.' !in r
  {
    Or(PieceAt(f.mimeType, '/', 1), Or(Some(LastPiece(f.name, '.')), fallback))
  }

  /** The short type a new document is given. */
  function DocumentType(f: UploadFile): (r: string)
    ensures r != ""
  {
    DerivedType(f, "unknown")
  }

  predicate IsTooLarge(f: UploadFile) {
    f.size > MaxPreviewSize
  }

  function ReadModeOf(f: UploadFile): ReadMode {
    if DerivedType(f, "") in DataUrlTypes then AsDataUrl else AsText
  }

  // ---------------------------------------------------------------------------------------
  // The page

  class DocumentsPage {
    var documents: seq<Document>

    /** The four sample documents the page starts with. */
    constructor ()
      ensures |documents| == 4
      ensures forall i :: 0 <= i < 4 ==> documents[i].content.None? && documents[i].previewUrl.None?
      ensures documents[0].id == "1" && documents[0].name == "sample.pdf" && documents[0].fileType == "pdf"
      ensures documents[1].id == "2" && documents[1].name == "report.docx" && documents[1].fileType == "docx"
      ensures documents[2].id == "3" && documents[2].name == "data.xlsx" && documents[2].fileType == "xlsx"
      ensures documents[3].id == "4" && documents[3].name == "presentation.pptx"
      ensures documents[3].fileType == "pptx"
    {
      var d1 := new Document("1", "sample.pdf", "pdf", 1024000, "2025-01-15", None, None);
      var d2 := new Document("2", "report.docx", "docx", 512000, "2025-01-10", None, None);
      var d3 := new Document("3", "data.xlsx", "xlsx", 256000, "2025-01-05", None, None);
      var d4 := new Document("4", "presentation.pptx", "pptx", 2048000, "2025-01-01", None, None);
      documents := [d1, d2, d3, d4];
    }

    /** `handleFileUpload`: a file over the limit is listed at once with `null` content; any
     *  other file is handed to the reader in the returned mode. Only the first file counts. */
    method HandleFileUpload(files: seq<UploadFile>, id: string, date: string)
      returns (read: Option<ReadMode>)
      modifies this
      ensures files == [] ==> read == None && documents == old(documents)
      ensures files != [] && !IsTooLarge(files[0]) ==>
                read == Some(ReadModeOf(files[0])) && documents == old(documents)
      ensures files != [] && IsTooLarge(files[0]) ==>
                && read == None
                && |documents| == |old(documents)| + 1
                && documents[..|old(documents)|] == old(documents)
                && NewDocument(documents[|old(documents)|], files[0], id, date, Some(Null), None)
    {
      if |files| == 0 {
        return None;
      }
      var file := files[0];
      if file.size > MaxPreviewSize {
        var doc := new Document(id, file.name, DocumentType(file), file.size, date, Some(Null), None);
        documents := documents + [doc];
        return None;
      }
      return Some(ReadModeOf(file));
    }

    /** The reader's `onload`: the new document holds the text read and, for an image type,
     *  the same text as its preview URL. */
    method OnReaderLoad(file: UploadFile, id: string, date: string, result: string)
      modifies this
      ensures |documents| == |old(documents)| + 1
      ensures documents[..|old(documents)|] == old(documents)
      ensures fresh(documents[|old(documents)|])
      ensures NewDocument(documents[|old(documents)|], file, id, date, Some(Text(result)),
                          PreviewUrlFor(DocumentType(file), result))
    {
      var doc := new Document(id, file.name, DocumentType(file), file.size, date, Some(Text(result)), None);
      if doc.fileType in PreviewDispatch.ImageTypes {
        doc.previewUrl := Some(result);
      }
      documents := documents + [doc];
    }
  }

  /** `doc` is the record built for `file`. */
  ghost predicate NewDocument(doc: Document, file: UploadFile, id: string, date: string,
                              content: Option<Content>, previewUrl: Option<string>)
    reads doc
  {
    && doc.id == id && doc.name == file.name && doc.fileType == DocumentType(file)
    && doc.size == file.size && doc.uploadDate == date
    && doc.content == content && doc.previewUrl == previewUrl
  }

  /** Image documents preview their own data URL; others have no preview URL. */
  function PreviewUrlFor(t: string, result: string): (r: Option<string>)
    ensures r.Some? <==> t in PreviewDispatch.ImageTypes
    ensures r.Some? ==> r.value == result
  {
    if t in PreviewDispatch.ImageTypes then Some(result) else None
  }

  // ---------------------------------------------------------------------------------------
  // Properties

  /** The last piece of `a + [sep] + b` is `b` when `b` holds no separator. */
  lemma {:induction false} LastPieceAfterSeparator(a: string, b: string, sep: char)
    requires sep !in b
    ensures LastPiece(a + [sep] + b, sep) == b
    decreases |a|
  {
    var u := a + [sep] + b;
    if a == [] {
      SplitAfterPiece([], b, sep);
      SplitNoSeparator(b, sep);
    } else {
      assert u[1..] == a[1..] + [sep] + b;
      LastPieceAfterSeparator(a[1..], b, sep);
      assert sep in u[1..];
      CountPositive(u[1..], sep);
    }
  }

  /** A MIME type `a/b` with a non-empty subtype `b` gives the type `b`. */
  lemma SubtypeWins(f: UploadFile, a: string, b: string, fallback: string)
    requires f.mimeType == a + "/" + b && '/' !in a && '/' !in b && b != ""
    ensures DerivedType(f, fallback) == b
  {
    SplitAfterPiece(a, b, '/');
    SplitNoSeparator(b, '/');
  }

  /** `text/plain` gives `plain`. */
  lemma TextPlainGivesPlain(f: UploadFile, fallback: string)
    requires f.mimeType == "text/plain"
    ensures DerivedType(f, fallback) == "plain"
  {
    assert f.mimeType == "text" + "/" + "plain";
    SubtypeWins(f, "text", "plain", fallback);
  }

  /** Without a MIME subtype, a name `stem.ext` with a non-empty extension gives `ext`. */
  lemma ExtensionWhenNoSubtype(f: UploadFile, stem: string, ext: string, fallback: string)
    requires PieceAt(f.mimeType, '/', 1).None? || PieceAt(f.mimeType, '/', 1) == Some("")
    requires f.name == stem + "." + ext && '.' !in ext && ext != ""
    ensures DerivedType(f, fallback) == ext
  {
    LastPieceAfterSeparator(stem, ext, '.');
  }

  /** A name without any `'.'` is taken whole as the type when there is no MIME subtype. */
  lemma NameWithoutDotIsType(f: UploadFile, fallback: string)
    requires !Truthy(PieceAt(f.mimeType, '/', 1))
    requires '.' !in f.name && f.name != ""
    ensures DerivedType(f, fallback) == f.name
  {
    SplitNoSeparator(f.name, '.');
  }

  /** With neither a MIME subtype nor a name, the fallback is used. */
  lemma FallbackWhenNothingElse(f: UploadFile, fallback: string)
    requires !Truthy(PieceAt(f.mimeType, '/', 1)) && f.name == ""
    ensures DerivedType(f, fallback) == fallback
  {
    assert Split("", '.') == [""];
  }

  /** The two fallbacks the handler uses agree on every type that is not a fallback. */
  lemma FallbacksAgree(f: UploadFile)
    ensures DerivedType(f, "") == DocumentType(f) || (DerivedType(f, "") == "" && DocumentType(f) == "unknown")
  {
  }

  /** A file is read as a data URL exactly when its document type is an image type or `pdf`. */
  lemma ReadModeFollowsDocumentType(f: UploadFile)
    ensures ReadModeOf(f) == AsDataUrl <==> DocumentType(f) in DataUrlTypes
  {
    FallbacksAgree(f);
    assert "unknown" !in DataUrlTypes && "" !in DataUrlTypes;
  }

  /** The limit is 5 MiB, and a file of exactly that size is still previewed. */
  lemma LimitIsExclusive(f: UploadFile)
    ensures MaxPreviewSize == 5242880
    ensures IsTooLarge(f) <==> f.size >= 5242881
  {
  }
}
