/**
 * How a document preview chooses what to show (`renderPreview`, identical in both preview
 * components): first the visibility, error and no-content gates, then a normalisation of the
 * declared type and a chain of kind checks. Also the helpers it relies on: turning a base64
 * PDF string into bytes, copying a buffer, and hydrating a document from the content cache.
 *
 * Visibility, which an `IntersectionObserver` switches on once, is the input `visible`.
 */
module PreviewDispatch {
  import opened Wrappers
  import opened JsString
  import opened Base64
  import opened DocumentModel
  import opened ContentCache

  /** The RFC 2397 data-URL prefix of a base64 PDF. */
  const PdfDataUrlPrefix: string := "data:application/pdf;base64,"
  /** The first base64 characters of a PDF file, which begins `%PDF-`. */
  const PdfBase64Header: string := "JVBERi0"
  const PdfErrorPrefix: string := "Failed to process PDF data: "

  const ImageTypes: seq<string> := ["jpg", "jpeg", "png", "gif", "bmp", "webp"]
  const OfficeTypes: seq<string> := ["doc", "docx", "xls", "xlsx", "ppt", "pptx"]

  /** The MIME substrings tried in order, each with the short type it stands for. */
  const MimeTable: seq<(string, string)> := [
    ("vnd.openxmlformats-officedocument.wordprocessingml.document", "docx"),
    ("vnd.openxmlformats-officedocument.spreadsheetml.sheet", "xlsx"),
    ("vnd.openxmlformats-officedocument.presentationml.presentation", "pptx"),
    ("application/msword", "doc"),
    ("application/vnd.ms-excel", "xls"),
    ("application/vnd.ms-powerpoint", "ppt"),
    ("application/pdf", "pdf"),
    ("text/plain", "txt"),
    ("text/csv", "csv"),
    ("text/markdown", "md")
  ]

  /** What the preview shows. */
  datatype View =
    | Loading
    | ErrorView(message: string)
    | NoContent
    | ImageView(url: string)
    | PdfView(data: seq<Octet>)
    | TextView(text: string)
    | CsvView(text: string)
    | MarkdownView(text: string)
    | OfficeView(data: seq<Octet>, kind: string)
    | Unsupported

  /** One render: the view and the component's error state afterwards. */
  datatype Preview = Preview(view: View, error: Option<string>)

  /** The lower-cased declared type, with a known MIME type replaced by the short type of the
   *  first table row whose substring it contains. */
  function NormalizeType(fileType: string): string {
    var t := ToLower(fileType);
    var i := FirstMatch(MimeTable, t, 0);
    if i < |MimeTable| then MimeTable[i].1 else t
  }

  /** The normalisation is the chain of `includes` tests in the listed order: each MIME
   *  substring is tried only when no earlier one occurs, and a type matching none is only
   *  lower-cased. */
  lemma NormalizeTypeIsChain(fileType: string)
    ensures var t := ToLower(fileType);
      NormalizeType(fileType) ==
        if Includes(t, "vnd.openxmlformats-officedocument.wordprocessingml.document") then "docx"
        else if Includes(t, "vnd.openxmlformats-officedocument.spreadsheetml.sheet") then "xlsx"
        else if Includes(t, "vnd.openxmlformats-officedocument.presentationml.presentation") then "pptx"
        else if Includes(t, "application/msword") then "doc"
        else if Includes(t, "application/vnd.ms-excel") then "xls"
        else if Includes(t, "application/vnd.ms-powerpoint") then "ppt"
        else if Includes(t, "application/pdf") then "pdf"
        else if Includes(t, "text/plain") then "txt"
        else if Includes(t, "text/csv") then "csv"
        else if Includes(t, "text/markdown") then "md"
        else t
  {
    var t := ToLower(fileType);
    NormalizeMiddle(t);
    assert MimeTable[0] == ("vnd.openxmlformats-officedocument.wordprocessingml.document", "docx");
    assert MimeTable[1] == ("vnd.openxmlformats-officedocument.spreadsheetml.sheet", "xlsx");
    assert MimeTable[2] == ("vnd.openxmlformats-officedocument.presentationml.presentation", "pptx");
    assert FirstMatch(MimeTable, t, 0) == (if Includes(t, MimeTable[0].0) then 0 else FirstMatch(MimeTable, t, 1));
    assert FirstMatch(MimeTable, t, 1) == (if Includes(t, MimeTable[1].0) then 1 else FirstMatch(MimeTable, t, 2));
    assert FirstMatch(MimeTable, t, 2) == (if Includes(t, MimeTable[2].0) then 2 else FirstMatch(MimeTable, t, 3));
  }

  /** The chain from the legacy Office types on. */
  lemma NormalizeMiddle(t: string)
    ensures var i := FirstMatch(MimeTable, t, 3);
      (if i < |MimeTable| then MimeTable[i].1 else t) ==
        if Includes(t, "application/msword") then "doc"
        else if Includes(t, "application/vnd.ms-excel") then "xls"
        else if Includes(t, "application/vnd.ms-powerpoint") then "ppt"
        else if Includes(t, "application/pdf") then "pdf"
        else if Includes(t, "text/plain") then "txt"
        else if Includes(t, "text/csv") then "csv"
        else if Includes(t, "text/markdown") then "md"
        else t
  {
    NormalizeTail(t);
    assert MimeTable[3] == ("application/msword", "doc");
    assert MimeTable[4] == ("application/vnd.ms-excel", "xls");
    assert FirstMatch(MimeTable, t, 3) == (if Includes(t, MimeTable[3].0) then 3 else FirstMatch(MimeTable, t, 4));
    assert FirstMatch(MimeTable, t, 4) == (if Includes(t, MimeTable[4].0) then 4 else FirstMatch(MimeTable, t, 5));
  }

  /** The last five links of the chain. */
  lemma NormalizeTail(t: string)
    ensures var i := FirstMatch(MimeTable, t, 5);
      (if i < |MimeTable| then MimeTable[i].1 else t) ==
        if Includes(t, "application/vnd.ms-powerpoint") then "ppt"
        else if Includes(t, "application/pdf") then "pdf"
        else if Includes(t, "text/plain") then "txt"
        else if Includes(t, "text/csv") then "csv"
        else if Includes(t, "text/markdown") then "md"
        else t
  {
    assert MimeTable[5] == ("application/vnd.ms-powerpoint", "ppt");
    assert MimeTable[6] == ("application/pdf", "pdf");
    assert MimeTable[7] == ("text/plain", "txt");
    assert MimeTable[8] == ("text/csv", "csv");
    assert MimeTable[9] == ("text/markdown", "md");
    assert FirstMatch(MimeTable, t, 5) == (if Includes(t, MimeTable[5].0) then 5 else FirstMatch(MimeTable, t, 6));
    assert FirstMatch(MimeTable, t, 6) == (if Includes(t, MimeTable[6].0) then 6 else FirstMatch(MimeTable, t, 7));
    assert FirstMatch(MimeTable, t, 7) == (if Includes(t, MimeTable[7].0) then 7 else FirstMatch(MimeTable, t, 8));
    assert FirstMatch(MimeTable, t, 8) == (if Includes(t, MimeTable[8].0) then 8 else FirstMatch(MimeTable, t, 9));
    assert FirstMatch(MimeTable, t, 9) == (if Includes(t, MimeTable[9].0) then 9 else FirstMatch(MimeTable, t, 10));
  }

  /** The normalisation depends on the type only through its lower-cased form. */
  lemma NormalizeTypeCaseInsensitive(fileType: string)
    ensures NormalizeType(ToLower(fileType)) == NormalizeType(fileType)
  {
    ToLowerIdempotent(fileType);
  }

  /** Short types and unmatched types are fixed points: normalising twice is normalising once. */
  lemma NormalizeTypeIdempotent(fileType: string)
    ensures NormalizeType(NormalizeType(fileType)) == NormalizeType(fileType)
  {
    var t := ToLower(fileType);
    var n := NormalizeType(fileType);
    if n == t {
      ToLowerIdempotent(fileType);
    } else {
      var i := FirstMatch(MimeTable, t, 0);
      assert n == MimeTable[i].1;
      ShortTypesAreLower(i);
      ShortTypeMatchesNothing(n);
    }
  }

  lemma ShortTypesAreLower(i: nat)
    requires i < |MimeTable|
    ensures |MimeTable[i].1| <= 4 && ToLower(MimeTable[i].1) == MimeTable[i].1
  {
  }

  lemma ShortTypeMatchesNothing(n: string)
    requires |n| <= 4
    ensures forall i :: 0 <= i < |MimeTable| ==> !Includes(n, MimeTable[i].0)
  {
  }

  /** A PDF string the preview tries to decode. */
  predicate IsPdfString(s: string) {
    StartsWith(s, PdfDataUrlPrefix) || StartsWith(s, PdfBase64Header)
  }

  /** The base64 payload: the piece between the first and second comma when the data-URL
   *  prefix occurs anywhere in `s`, otherwise all of `s`. */
  function PdfPayload(s: string): (r: string)
    ensures Includes(s, PdfDataUrlPrefix) ==> ',' !in r
    ensures !Includes(s, PdfDataUrlPrefix) ==> r == s
  {
    if Includes(s, PdfDataUrlPrefix) then
      IncludesMember(s, PdfDataUrlPrefix, ',');
      CountPositive(s, ',');
      Split(s, ',')[1]
    else s
  }

  /** The prefix of a data URL is taken off its payload. */
  lemma PdfPayloadOfDataUrl(b64: string)
    requires ',' !in b64
    ensures PdfPayload(PdfDataUrlPrefix + b64) == b64
  {
    var head := "data:application/pdf;base64";
    assert PdfDataUrlPrefix + b64 == head + [','] + b64;
    assert StartsWith(PdfDataUrlPrefix + b64, PdfDataUrlPrefix);
    assert Includes(PdfDataUrlPrefix + b64, PdfDataUrlPrefix);
    SplitAfterPiece(head, b64, ',');
    SplitNoSeparator(b64, ',');
  }

  /** The octets of a binary string (`charCodeAt` of each character). */
  function BytesOf(bin: string): (r: seq<Octet>)
    requires forall i :: 0 <= i < |bin| ==> bin[i] as int < 256
    ensures |r| == |bin|
    ensures forall i :: 0 <= i < |bin| ==> r[i] == bin[i] as int
  {
    seq(|bin|, i requires 0 <= i < |bin| => bin[i] as int)
  }

  /** What `base64ToArrayBuffer` yields: `None` when `atob` throws. */
  function DecodePdfData(s: string): Option<seq<Octet>> {
    match Atob(PdfPayload(s))
    case None => None
    case Some(bin) => Some(BytesOf(bin))
  }

  /** A data URL built from the base64 of some octets decodes to exactly those octets. */
  lemma DecodeDataUrlOfBtoa(b: seq<Octet>)
    ensures DecodePdfData(PdfDataUrlPrefix + Btoa(b)) == Some(b)
  {
    var e := Btoa(b);
    BtoaHasNoComma(b);
    PdfPayloadOfDataUrl(e);
    AtobBtoa(b);
    assert Atob(PdfPayload(PdfDataUrlPrefix + e)) == Some(BinaryString(b));
    assert BytesOf(BinaryString(b)) == b;
  }

  lemma BtoaHasNoComma(b: seq<Octet>)
    ensures ',' !in Btoa(b)
  {
    var e := EncodeGroups(b);
    assert forall i :: 0 <= i < |e| ==> IsBase64Char(e[i]);
  }

  /** `base64ToArrayBuffer`: decode, then copy the character codes into a fresh buffer. */
  method Base64ToArrayBuffer(base64: string) returns (r: Option<array<Octet>>)
    ensures r.None? <==> DecodePdfData(base64).None?
    ensures r.Some? ==> fresh(r.value) && r.value[..] == DecodePdfData(base64).value
  {
    var binary := Atob(PdfPayload(base64));
    if binary.None? {
      return None;
    }
    var s := binary.value;
    var bytes := new Octet[|s|];
    for i := 0 to |s|
      invariant forall j :: 0 <= j < i ==> bytes[j] == s[j] as int
    {
      bytes[i] := s[i] as int;
    }
    assert bytes[..] == BytesOf(s);
    return Some(bytes);
  }

  /** `copyArrayBuffer`: a distinct buffer with the same contents. */
  method CopyArrayBuffer(buffer: array<Octet>) returns (copy: array<Octet>)
    ensures fresh(copy) && copy[..] == buffer[..]
  {
    copy := new Octet[buffer.Length](i reads buffer => if 0 <= i < buffer.Length then buffer[i] else 0);
  }

  /** The kind checks after the type is known and content is present. */
  function DispatchKind(t: string, c: Content, previewUrl: Option<string>, error: Option<string>,
                        atobMessage: string): Preview
  {
    if t in ImageTypes && Truthy(previewUrl) then Preview(ImageView(previewUrl.value), error)
    else if t == "pdf" && c.Bytes? then Preview(PdfView(c.bytes), error)
    else if t == "pdf" && c.Text? && IsPdfString(c.text) && DecodePdfData(c.text).Some? then
      Preview(PdfView(DecodePdfData(c.text).value), error)
    else
      var error' := if t == "pdf" && c.Text? && IsPdfString(c.text)
                    then Some(PdfErrorPrefix + atobMessage) else error;
      if t == "txt" && c.Text? then Preview(TextView(c.text), error')
      else if t == "csv" && c.Text? then Preview(CsvView(c.text), error')
      else if t == "md" && c.Text? then Preview(MarkdownView(c.text), error')
      else if t in OfficeTypes && c.Bytes? then Preview(OfficeView(c.bytes, t), error')
      else Preview(Unsupported, error')
  }

  /** `renderPreview`. `atobMessage` is the message of the exception `atob` throws. */
  function Dispatch(visible: bool, error: Option<string>, fileType: string, content: Option<Content>,
                    previewUrl: Option<string>, atobMessage: string): Preview
  {
    if !visible then Preview(Loading, error)
    else if Truthy(error) then Preview(ErrorView(error.value), error)
    else if content.None? || content.value.Null? then Preview(NoContent, error)
    else DispatchKind(NormalizeType(fileType), content.value, previewUrl, error, atobMessage)
  }

  /** Content is there and is not `null`. */
  predicate HasContent(content: Option<Content>) {
    content.Some? && !content.value.Null?
  }

  // ---------------------------------------------------------------------------------------
  // Properties of the dispatch

  /** Loading, then the error, then missing content are decided before the type is looked at. */
  lemma GatesComeFirst(visible: bool, error: Option<string>, fileType: string, content: Option<Content>,
                       previewUrl: Option<string>, m: string)
    ensures !visible ==> Dispatch(visible, error, fileType, content, previewUrl, m).view == Loading
    ensures visible && Truthy(error) ==>
              Dispatch(visible, error, fileType, content, previewUrl, m).view == ErrorView(error.value)
    ensures visible && !Truthy(error) && !HasContent(content) ==>
              Dispatch(visible, error, fileType, content, previewUrl, m).view == NoContent
    ensures (!visible || Truthy(error) || !HasContent(content)) ==>
              Dispatch(visible, error, fileType, content, previewUrl, m).error == error
    ensures (!visible || Truthy(error) || !HasContent(content)) ==>
              forall other :: Dispatch(visible, error, other, content, previewUrl, m)
                           == Dispatch(visible, error, fileType, content, previewUrl, m)
  {
  }

  /** The image view is chosen exactly for an image type with a truthy preview URL. */
  lemma ImageViewIff(visible: bool, error: Option<string>, fileType: string, content: Option<Content>,
                     previewUrl: Option<string>, m: string)
    ensures Dispatch(visible, error, fileType, content, previewUrl, m).view.ImageView?
        <==> visible && !Truthy(error) && HasContent(content)
             && NormalizeType(fileType) in ImageTypes && Truthy(previewUrl)
    ensures Dispatch(visible, error, fileType, content, previewUrl, m).view.ImageView? ==>
              Dispatch(visible, error, fileType, content, previewUrl, m).view.url == previewUrl.value
  {
    if visible && !Truthy(error) && HasContent(content) {
      KindImageIff(NormalizeType(fileType), content.value, previewUrl, error, m);
    }
  }

  lemma KindImageIff(t: string, c: Content, previewUrl: Option<string>, error: Option<string>, m: string)
    ensures DispatchKind(t, c, previewUrl, error, m).view.ImageView? <==> t in ImageTypes && Truthy(previewUrl)
    ensures DispatchKind(t, c, previewUrl, error, m).view.ImageView? ==>
              DispatchKind(t, c, previewUrl, error, m).view.url == previewUrl.value
  {
  }

  /** A PDF is shown from a byte buffer, or from a PDF string that decodes. */
  lemma PdfViewIff(visible: bool, error: Option<string>, fileType: string, content: Option<Content>,
                   previewUrl: Option<string>, m: string)
    ensures Dispatch(visible, error, fileType, content, previewUrl, m).view.PdfView?
        <==> visible && !Truthy(error) && HasContent(content) && NormalizeType(fileType) == "pdf"
             && (content.value.Bytes?
                 || (content.value.Text? && IsPdfString(content.value.text)
                     && DecodePdfData(content.value.text).Some?))
    ensures visible && !Truthy(error) && NormalizeType(fileType) == "pdf" && content.Some?
            && content.value.Bytes? ==>
              Dispatch(visible, error, fileType, content, previewUrl, m).view == PdfView(content.value.bytes)
  {
    assert "pdf" !in ImageTypes;
  }

  /** A PDF string that fails to decode records the error and falls through to the fallback;
   *  the next render then shows that error. */
  lemma PdfDecodeFailureShowsErrorNext(error: Option<string>, fileType: string, s: string,
                                       previewUrl: Option<string>, m: string)
    requires !Truthy(error) && NormalizeType(fileType) == "pdf"
    requires IsPdfString(s) && DecodePdfData(s).None?
    ensures Dispatch(true, error, fileType, Some(Text(s)), previewUrl, m)
         == Preview(Unsupported, Some(PdfErrorPrefix + m))
    ensures Dispatch(true, Some(PdfErrorPrefix + m), fileType, Some(Text(s)), previewUrl, m).view
         == ErrorView(PdfErrorPrefix + m)
  {
    assert "pdf" !in ImageTypes && "pdf" !in OfficeTypes;
    assert Dispatch(true, error, fileType, Some(Text(s)), previewUrl, m)
        == DispatchKind("pdf", Text(s), previewUrl, error, m);
    assert Truthy(Some(PdfErrorPrefix + m));
  }

  /** A PDF string with neither the data-URL prefix nor the PDF header is not supported. */
  lemma OtherPdfStringUnsupported(error: Option<string>, fileType: string, s: string,
                                  previewUrl: Option<string>, m: string)
    requires !Truthy(error) && NormalizeType(fileType) == "pdf" && !IsPdfString(s)
    ensures Dispatch(true, error, fileType, Some(Text(s)), previewUrl, m) == Preview(Unsupported, error)
  {
    assert "pdf" !in ImageTypes && "pdf" !in OfficeTypes;
  }

  /** Text, CSV and Markdown need string content; anything else falls back. */
  lemma TextKindsNeedString(error: Option<string>, fileType: string, c: Content,
                            previewUrl: Option<string>, m: string)
    requires !Truthy(error) && !c.Null?
    ensures NormalizeType(fileType) == "txt" ==>
              Dispatch(true, error, fileType, Some(c), previewUrl, m).view
              == (if c.Text? then TextView(c.text) else Unsupported)
    ensures NormalizeType(fileType) == "csv" ==>
              Dispatch(true, error, fileType, Some(c), previewUrl, m).view
              == (if c.Text? then CsvView(c.text) else Unsupported)
    ensures NormalizeType(fileType) == "md" ==>
              Dispatch(true, error, fileType, Some(c), previewUrl, m).view
              == (if c.Text? then MarkdownView(c.text) else Unsupported)
  {
    var t := NormalizeType(fileType);
    assert Dispatch(true, error, fileType, Some(c), previewUrl, m) == DispatchKind(t, c, previewUrl, error, m);
    KindText(t, c, previewUrl, error, m);
  }

  lemma KindText(t: string, c: Content, previewUrl: Option<string>, error: Option<string>, m: string)
    ensures t == "txt" ==> DispatchKind(t, c, previewUrl, error, m).view == (if c.Text? then TextView(c.text) else Unsupported)
    ensures t == "csv" ==> DispatchKind(t, c, previewUrl, error, m).view == (if c.Text? then CsvView(c.text) else Unsupported)
    ensures t == "md" ==> DispatchKind(t, c, previewUrl, error, m).view == (if c.Text? then MarkdownView(c.text) else Unsupported)
  {
    assert "txt" !in ImageTypes && "txt" !in OfficeTypes;
    assert "csv" !in ImageTypes && "csv" !in OfficeTypes;
    assert "md" !in ImageTypes && "md" !in OfficeTypes;
  }

  /** Office types need a byte buffer; office text (as read from disk) falls back. */
  lemma OfficeNeedsBytes(error: Option<string>, fileType: string, c: Content,
                         previewUrl: Option<string>, m: string)
    requires !Truthy(error) && !c.Null? && NormalizeType(fileType) in OfficeTypes
    ensures Dispatch(true, error, fileType, Some(c), previewUrl, m).view
         == (if c.Bytes? then OfficeView(c.bytes, NormalizeType(fileType)) else Unsupported)
  {
    var t := NormalizeType(fileType);
    assert t !in ImageTypes;
    assert t != "pdf" && t != "txt" && t != "csv" && t != "md";
  }

  /** A type in none of the lists gets the fallback, whatever the content. */
  lemma UnknownTypeUnsupported(error: Option<string>, fileType: string, c: Content,
                               previewUrl: Option<string>, m: string)
    requires !Truthy(error) && !c.Null?
    requires var t := NormalizeType(fileType);
             t !in ImageTypes && t !in OfficeTypes && t != "pdf" && t != "txt" && t != "csv" && t != "md"
    ensures Dispatch(true, error, fileType, Some(c), previewUrl, m) == Preview(Unsupported, error)
  {
  }

  /** The error state changes only when a PDF string fails to decode. */
  lemma ErrorChangesOnlyOnPdfFailure(visible: bool, error: Option<string>, fileType: string,
                                     content: Option<Content>, previewUrl: Option<string>, m: string)
    ensures Dispatch(visible, error, fileType, content, previewUrl, m).error != error ==>
              && visible && HasContent(content) && content.value.Text?
              && NormalizeType(fileType) == "pdf" && IsPdfString(content.value.text)
              && DecodePdfData(content.value.text).None?
              && Dispatch(visible, error, fileType, content, previewUrl, m).error == Some(PdfErrorPrefix + m)
  {
  }

  // ---------------------------------------------------------------------------------------
  // Hydration from the cache

  /** The hydration effect: any cached value, `null` included, replaces the document's content. */
  method Hydrate(doc: Document, cache: DocumentCache, now: int)
    requires cache.Valid()
    modifies doc, cache
    ensures cache.Valid()
    ensures cache.State() == AfterGet(old(cache.State()), doc.id, now)
    ensures doc.content == match Lookup(old(cache.State()), doc.id, now)
                           case Some(c) => Some(c)
                           case None => old(doc.content)
    ensures doc.previewUrl == old(doc.previewUrl)
  {
    var cached := cache.Get(doc.id, now);
    if cached.Some? {
      doc.content := Some(cached.value);
    }
  }
}
