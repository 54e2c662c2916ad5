/**
 * The document record shared by the document list, the preview components and the cache.
 * A document is a JavaScript object passed by reference; the preview hydrates its `content`
 * in place, so it is a class here.
 */
module DocumentModel {
  import opened Wrappers
  import opened Base64

  /** `string | ArrayBuffer | null`: what a document or a cache entry can hold. */
  datatype Content = Null | Text(text: string) | Bytes(bytes: seq<Octet>)

  class Document {
    const id: string
    const name: string
    /** The declared type: a MIME type or an extension, free-form. */
    const fileType: string
    const size: int
    const uploadDate: string
    /** `None` is `undefined`. */
    var content: Option<Content>
    var previewUrl: Option<string>

    constructor (id: string, name: string, fileType: string, size: int, uploadDate: string,
                 content: Option<Content>, previewUrl: Option<string>)
      ensures this.id == id && this.name == name && this.fileType == fileType
      ensures this.size == size && this.uploadDate == uploadDate
      ensures this.content == content && this.previewUrl == previewUrl
    {
      this.id := id;
      this.name := name;
      this.fileType := fileType;
      this.size := size;
      this.uploadDate := uploadDate;
      this.content := content;
      this.previewUrl := previewUrl;
    }
  }
}
