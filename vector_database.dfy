/** The indexer: builds provenance-tagged documents from text chunks or image summaries and
    hands them to the vector store in one batch (vector_database.py). */
module VectorDatabase {
  import opened Wrappers
  import Paths

  /** The value of the "Type" field: the strings "Text" and "Image". */
  datatype DocType = Text | Image

  /** A document's metadata dictionary. Its keys are "Source", "PageNo" and "Type", plus
      "ImagePath" when `imagePath` is `Some`; `None` means the key is absent. */
  datatype Metadata = Metadata(source: string, pageNo: int, docType: DocType, imagePath: Option<string>)

  /** The unit the store holds: page content plus its metadata. */
  datatype Document = Document(pageContent: string, metadata: Metadata)

  /** Why an insertion was rejected. The first two are the source's `ValueError`s; the last is
      the exception that wraps a failure of the store. */
  datatype InsertError = EmptyBatch | PageNotPositive | StoreFailure

  /** Metadata attached to every image-summary document of one call. */
  function ImageMetadata(pdfName: string, pageNo: int, imagePath: string): Metadata
  {
    Metadata(Paths.Basename(pdfName), pageNo, Image, Some(imagePath))
  }

  /** Metadata attached to every text document of one call: no "ImagePath" key. */
  function TextMetadata(pdfName: string, pageNo: int): Metadata
  {
    Metadata(Paths.Basename(pdfName), pageNo, Text, None)
  }

  /** The shape every document the indexer stores has: a separator-free `Source`, a positive
      `PageNo`, and an "ImagePath" exactly for images. */
  ghost predicate WellFormedMetadata(m: Metadata)
  {
    && Paths.Separator !in m.source
    && m.pageNo >= 1
    && (m.imagePath.Some? <==> m.docType == Image)
  }

  /** `after` is `before` followed by one document per string of `contents`, in order, each
      carrying `metadata`. */
  ghost predicate AppendedBatch(before: seq<Document>, after: seq<Document>, contents: seq<string>, metadata: Metadata)
  {
    && |after| == |before| + |contents|
    && after[..|before|] == before
    && forall i :: 0 <= i < |contents| ==> after[|before| + i] == Document(contents[i], metadata)
  }

  /** Both kinds of metadata are well formed once the page number has passed validation, and
      their `Source` is a suffix of the name the caller passed in. */
  lemma MetadataWellFormed(pdfName: string, pageNo: int, imagePath: string)
    requires pageNo >= 1
    ensures WellFormedMetadata(ImageMetadata(pdfName, pageNo, imagePath))
    ensures WellFormedMetadata(TextMetadata(pdfName, pageNo))
    ensures var src := TextMetadata(pdfName, pageNo).source;
      src == ImageMetadata(pdfName, pageNo, imagePath).source &&
      |src| <= |pdfName| && pdfName[|pdfName| - |src|..] == src
  {
  }

  /** The external vector store. Documents are only ever appended; whether the store accepts a
      batch is decided outside the pipeline and is therefore an input. */
  class VectorStore {
    var documents: seq<Document>

    /** Every stored document was produced by the indexer. */
    ghost predicate Valid()
      reads this
    {
      forall i :: 0 <= i < |documents| ==> WellFormedMetadata(documents[i].metadata)
    }

    /** A new, empty collection: the invariant holds from the start. */
    constructor()
      ensures documents == [] && Valid()
    {
      documents := [];
    }

    /** `add_documents`: appends the whole batch when the store accepts it, otherwise changes
        nothing and reports the failure. */
    method AddDocuments(batch: seq<Document>, accepted: bool) returns (ok: bool)
      modifies this
      ensures ok == accepted
      ensures documents == if accepted then old(documents) + batch else old(documents)
    {
      ok := accepted;
      if accepted {
        documents := documents + batch;
      }
    }
  }

  /** The loop that builds the `documents` list: one document per input string, in order, all
      with the same metadata. */
  method BuildDocuments(contents: seq<string>, metadata: Metadata) returns (docs: seq<Document>)
    ensures |docs| == |contents|
    ensures forall i :: 0 <= i < |contents| ==> docs[i] == Document(contents[i], metadata)
  {
    docs := [];
    for i := 0 to |contents|
      invariant |docs| == i
      invariant forall j :: 0 <= j < i ==> docs[j] == Document(contents[j], metadata)
    {
      docs := docs + [Document(contents[i], metadata)];
    }
  }

  /** Concatenating the built documents onto the store's contents is an appended batch. */
  lemma ConcatIsAppendedBatch(before: seq<Document>, docs: seq<Document>, contents: seq<string>, metadata: Metadata)
    requires |docs| == |contents|
    requires forall i :: 0 <= i < |contents| ==> docs[i] == Document(contents[i], metadata)
    ensures AppendedBatch(before, before + docs, contents, metadata)
  {
  }

  /** Appending a batch that shares well-formed metadata keeps the store valid. */
  lemma AppendKeepsValid(before: seq<Document>, after: seq<Document>, contents: seq<string>, metadata: Metadata)
    requires forall i :: 0 <= i < |before| ==> WellFormedMetadata(before[i].metadata)
    requires WellFormedMetadata(metadata)
    requires AppendedBatch(before, after, contents, metadata)
    ensures forall i :: 0 <= i < |after| ==> WellFormedMetadata(after[i].metadata)
  {
    forall i | 0 <= i < |after|
      ensures WellFormedMetadata(after[i].metadata)
    {
      if i < |before| {
        assert after[i] == after[..|before|][i];
      } else {
        assert after[i] == Document(contents[i - |before|], metadata);
      }
    }
  }

  /** `image_db_insetter`: validates the batch, builds one Image document per summary and adds
      them to the store in a single call; a store failure becomes `StoreFailure`. */
  method InsertImageSummaries(store: VectorStore, summaries: seq<string>, imagePath: string,
                              pdfName: string, pageNo: int, storeAccepts: bool)
    returns (r: Outcome<InsertError>)
    requires store.Valid()
    modifies store
    ensures store.Valid()
    ensures |summaries| == 0 ==> r == Fail(EmptyBatch)
    ensures |summaries| > 0 && pageNo < 1 ==> r == Fail(PageNotPositive)
    ensures |summaries| > 0 && pageNo >= 1 ==> r == if storeAccepts then Pass else Fail(StoreFailure)
    ensures r.Pass? ==> AppendedBatch(old(store.documents), store.documents, summaries,
                                      ImageMetadata(pdfName, pageNo, imagePath))
    ensures r.Fail? ==> store.documents == old(store.documents)
  {
    if |summaries| == 0 {
      return Fail(EmptyBatch);
    }
    if pageNo < 1 {
      return Fail(PageNotPositive);
    }
    var metadata := ImageMetadata(pdfName, pageNo, imagePath);
    var documents := BuildDocuments(summaries, metadata);
    ghost var before := store.documents;
    var ok := store.AddDocuments(documents, storeAccepts);
    if !ok {
      return Fail(StoreFailure);
    }
    MetadataWellFormed(pdfName, pageNo, imagePath);
    ConcatIsAppendedBatch(before, documents, summaries, metadata);
    AppendKeepsValid(before, store.documents, summaries, metadata);
    r := Pass;
  }

  /** `text_db_insetter`: validates the batch, builds one Text document per chunk and adds
      them to the store in a single call; a store failure becomes `StoreFailure`. */
  method InsertTexts(store: VectorStore, texts: seq<string>, pdfName: string, pageNo: int, storeAccepts: bool)
    returns (r: Outcome<InsertError>)
    requires store.Valid()
    modifies store
    ensures store.Valid()
    ensures |texts| == 0 ==> r == Fail(EmptyBatch)
    ensures |texts| > 0 && pageNo < 1 ==> r == Fail(PageNotPositive)
    ensures |texts| > 0 && pageNo >= 1 ==> r == if storeAccepts then Pass else Fail(StoreFailure)
    ensures r.Pass? ==> AppendedBatch(old(store.documents), store.documents, texts, TextMetadata(pdfName, pageNo))
    ensures r.Fail? ==> store.documents == old(store.documents)
  {
    if |texts| == 0 {
      return Fail(EmptyBatch);
    }
    if pageNo < 1 {
      return Fail(PageNotPositive);
    }
    var metadata := TextMetadata(pdfName, pageNo);
    var documents := BuildDocuments(texts, metadata);
    ghost var before := store.documents;
    var ok := store.AddDocuments(documents, storeAccepts);
    if !ok {
      return Fail(StoreFailure);
    }
    MetadataWellFormed(pdfName, pageNo, "");
    ConcatIsAppendedBatch(before, documents, texts, metadata);
    AppendKeepsValid(before, store.documents, texts, metadata);
    r := Pass;
  }

  /** The argument passed as the question: a string, or a value of some other type. */
  datatype Question = StrQuestion(text: string) | NonStringQuestion

  /** The `ValueError` raised for an empty or non-string question. */
  datatype RetrieveError = InvalidQuestion

  /** `retrieve_documents`: rejects an empty or non-string question; otherwise returns what the
      retriever found (`invoked`), or the empty list when the retriever raised (`None`). */
  function RetrieveDocuments(question: Question, invoked: Option<seq<Document>>): (r: Result<seq<Document>, RetrieveError>)
    ensures r.Failure? <==> question.NonStringQuestion? || question.text == []
    ensures r.Success? && invoked.Some? ==> r.value == invoked.value
    ensures r.Success? && invoked.None? ==> r.value == []
  {
    if question.NonStringQuestion? || question.text == [] then Failure(InvalidQuestion)
    else match invoked
      case Some(results) => Success(results)
      case None => Success([])
  }
}
