/** Glow documents: markdown content with a title and a version counter. */
module Documents {
  import opened Wrappers

  /** The title of a document created without one. */
  const UntitledTitle := "Untitled"

  /**
   * A document's metadata. Times are the wall-clock instants the caller
   * passes as `now`; `version` counts the edits since creation, starting at 1.
   */
  class DocumentMetadata {
    var title: string
    var createdAt: int
    var modifiedAt: int
    var version: nat

    constructor (title: string, now: int)
      ensures this.title == title && version == 1
      ensures createdAt == now && modifiedAt == now
    {
      this.title := title;
      createdAt := now;
      modifiedAt := now;
      version := 1;
    }

    /** `DocumentMetadata::default`: metadata titled "Untitled". */
    constructor Default(now: int)
      ensures title == UntitledTitle && version == 1
      ensures createdAt == now && modifiedAt == now
    {
      title := UntitledTitle;
      createdAt := now;
      modifiedAt := now;
      version := 1;
    }

    /** Records a modification at `now`: the version goes up by exactly one. */
    method Touch(now: int)
      modifies this
      ensures version == old(version) + 1 && modifiedAt == now
      ensures title == old(title) && createdAt == old(createdAt)
    {
      modifiedAt := now;
      version := version + 1;
    }
  }

  /**
   * A document; `id` is the random identifier drawn at creation, which the
   * caller passes in, and `crdtState` the synchronisation state, if any.
   */
  class Document {
    const id: string
    const metadata: DocumentMetadata
    var content: string
    var crdtState: Option<seq<bv8>>

    /** An empty, untitled document at version 1. */
    constructor (id: string, now: int)
      ensures this.id == id && content == [] && crdtState == None
      ensures fresh(metadata)
      ensures metadata.title == UntitledTitle && metadata.version == 1
      ensures metadata.createdAt == now && metadata.modifiedAt == now
    {
      this.id := id;
      metadata := new DocumentMetadata.Default(now);
      content := [];
      crdtState := None;
    }

    /** An empty document with the given title, at version 1. */
    constructor WithTitle(id: string, title: string, now: int)
      ensures this.id == id && content == [] && crdtState == None
      ensures fresh(metadata)
      ensures metadata.title == title && metadata.version == 1
      ensures metadata.createdAt == now && metadata.modifiedAt == now
    {
      this.id := id;
      metadata := new DocumentMetadata(title, now);
      content := [];
      crdtState := None;
    }

    /** Replaces the content; the title stays and the version goes up by one. */
    method SetContent(content: string, now: int)
      modifies this, metadata
      ensures this.content == content && crdtState == old(crdtState)
      ensures metadata.version == old(metadata.version) + 1 && metadata.modifiedAt == now
      ensures metadata.title == old(metadata.title) && metadata.createdAt == old(metadata.createdAt)
    {
      this.content := content;
      metadata.Touch(now);
    }

    /** Replaces the title; the content stays and the version goes up by one. */
    method SetTitle(title: string, now: int)
      modifies metadata
      ensures metadata.title == title
      ensures metadata.version == old(metadata.version) + 1 && metadata.modifiedAt == now
      ensures metadata.createdAt == old(metadata.createdAt)
    {
      metadata.title := title;
      metadata.Touch(now);
    }
  }

  /** The crate's own example: a new document is empty, untitled, at version 1, and one edit makes it version 2. */
  method NewDocumentThenEdit(id: string, t0: int, t1: int) returns (doc: Document)
    ensures fresh(doc) && fresh(doc.metadata)
    ensures doc.content == "Hello, world!" && doc.metadata.title == UntitledTitle
    ensures doc.metadata.version == 2
  {
    doc := new Document(id, t0);
    doc.SetContent("Hello, world!", t1);
  }
}
