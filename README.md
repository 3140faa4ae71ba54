# DocQA ingestion bookkeeping in Dafny

This project models the bookkeeping core of DocQA's document ingestion pipeline. Two pieces are covered.

- **The indexer** (`vector_database.py`). `image_db_insetter` and `text_db_insetter` check a batch: the list must be non-empty and the page number at least 1. They then build one document per input string, in order, with fixed provenance metadata: `Source` (the base name of the file name), `PageNo`, `Type`, and `ImagePath` for images only. The whole batch goes to the vector store in one `add_documents` call. A store failure is wrapped in a new exception. `retrieve_documents` rejects an empty or non-string question and returns an empty list when the retriever raises.
- **The orchestrator** (`file_processer.py`). `process_all_files` checks that the data folder exists. It creates the image folder inside it, then lists the folder. Each entry is classified by its lower-cased suffix (`.pdf`, `.txt`, `.docx`) and sent to one handler. An entry named like the configured image folder is skipped silently; any other entry is reported as unsupported. Each entry's work runs inside its own try/except.

Modules, one per file:

- `wrappers.dfy` (`Wrappers`): `Option`, `Result` and `Outcome`.
- `strings.dfy` (`Strings`): `str.lower()` restricted to ASCII, and `str.endswith`.
- `paths.dfy` (`Paths`): POSIX `os.path.basename` and `os.path.join`.
- `sequences.dfy` (`Sequences`): `FlatMap` and its structural lemmas.
- `vector_database.dfy` (`VectorDatabase`): documents, metadata, the store, and the two inserters.
- `file_processer.dfy` (`FileProcessor`): classification, the per-entry loop, and the whole run.

The vector store is a class whose `documents: seq<Document>` field only grows. Whether the store accepts a batch is an input. The orchestrator is a method that returns the sequence of events it reports: Processing, Processed, Unsupported, FileError, FolderMissing, NoFilesFound and AllProcessed. The filesystem enters as inputs: whether the folder exists, and its entries before the image folder is created. The opaque handlers enter as the set of entry names whose handler raises.

Behaviour of the code that the model keeps as written:

- Stored content may be empty. The inserters only check that the list is non-empty, so a batch `[""]` is stored.
- Both inserters raise the same message on a store error, so `StoreFailure` does not say whether text or images were being stored.
- An empty folder cannot give the "No files found" warning when the image folder name is plain: the image folder is created before the folder is listed (`NoFilesWarningUnreachable`).
- Entries are compared with the raw `image_directory_name` setting, not with the defaulted folder name. So the created image folder is not always skipped:
  - An empty setting makes the created `extracted_images` folder count as unsupported (`EmptySettingReportsImageFolder`).
  - A missing setting makes the lookup raise a `KeyError` for every entry without a handled suffix, including that folder. The per-entry guard then reports an error (`AbsentSettingReportsErrorForImageFolder`).

## Model

| member | source | states |
|---|---|---|
| `Paths.Basename` | vector_database.py:30 | The base name is a suffix of the path and has no `/`. When it is shorter than the path, the character before it is `/`, so it is the longest such suffix. |
| `Paths.BasenameOfJoin` | file_processer.py:40 | For a non-empty entry name with no `/`, the base name of `join(folder, name)` is `name`, whatever the folder. So if a handler passes `join(data_folder, name)` as `pdf_name`, the documents' `Source` is `name`. |
| `VectorDatabase.MetadataWellFormed` | vector_database.py:24-34 | Once `page_no >= 1`, image and text metadata are well formed: `Source` has no separator, `PageNo >= 1`, and `ImagePath` is present exactly for `Type` Image. `Source` is the same suffix of `pdf_name` in both. |
| `VectorDatabase.BuildDocuments` | vector_database.py:27-34 | The loop builds exactly one document per input string, in input order: document i has content `contents[i]` and the shared metadata. |
| `VectorDatabase.VectorStore.constructor` | main.py:43-47 | A newly created, empty collection holds no documents, so the store invariant holds before the first `add_documents`. |
| `VectorDatabase.VectorStore.AddDocuments` | vector_database.py:37 | An accepted batch is appended whole to the stored documents. A rejected batch leaves them unchanged and is reported as a failure. |
| `VectorDatabase.AppendKeepsValid` | vector_database.py:36-37 | Appending a batch with well-formed metadata keeps every stored document well formed. |
| `VectorDatabase.InsertImageSummaries` | vector_database.py:7-39 | An empty list gives `EmptyBatch`; otherwise `page_no < 1` gives `PageNotPositive`. In both cases the store is unchanged. A valid batch that the store rejects gives `StoreFailure`, store unchanged. On success, exactly one Image document per summary is appended in order, each with `Source`, `PageNo` and `ImagePath`, and earlier documents are kept. The store invariant is preserved. |
| `VectorDatabase.InsertTexts` | vector_database.py:41-71 | The same as for images, with Text documents whose metadata has no `ImagePath`. |
| `VectorDatabase.RetrieveDocuments` | vector_database.py:88-115 | The call fails exactly when the question is not a string or is empty. Otherwise it returns the retriever's results, or the empty list when the retriever raised. |
| `FileProcessor.ImageFolderName` | file_processer.py:28 | The image folder name is never empty. It is the configured value when that is present and non-empty, and `extracted_images` otherwise. |
| `FileProcessor.ClassifyBySuffix` | file_processer.py:43-57 | An entry goes to the PDF, text or Word handler exactly when its lower-cased name ends with `.pdf`, `.txt` or `.docx`. The three tests exclude each other, so at most one handler matches. |
| `FileProcessor.ClassifyIgnoresCase` | file_processer.py:43 | Classification depends only on the lower-cased name. |
| `FileProcessor.ProcessEntries` | file_processer.py:39-71 | The loop's report is the concatenation of each entry's report, in listing order. |
| `FileProcessor.ProcessAllFiles` | file_processer.py:9-74 | A missing folder gives only the missing-folder report and creates no output folder. Otherwise the output folder is `join(data_folder, image folder name)` and the report is the run's report. For a plain image folder name, "No files found" is never reported. |
| `FileProcessor.EntriesLogSplit` | file_processer.py:39-42 | Each entry is visited once, in listing order. Its report comes after every earlier entry's report and before every later one's, whatever happened to the others. |
| `FileProcessor.InEntriesLog` | file_processer.py:39-71 | An event is in the loop's report exactly when some listed entry's iteration reports it. |
| `FileProcessor.ProcessingInEntry` | file_processer.py:43-62 | One entry's iteration calls a handler of a given kind for a name exactly when the entry is that name and has that kind's suffix. |
| `FileProcessor.ProcessedInEntry` | file_processer.py:43-62 | One entry's iteration completes a handler for a name exactly when the entry is that name, has that kind's suffix, and its handler does not raise. |
| `FileProcessor.UnsupportedInEntry` | file_processer.py:64-67 | One entry's iteration reports a name unsupported exactly when the entry is that name, has no handled suffix, and differs from the raw setting. |
| `FileProcessor.FileErrorInEntry` | file_processer.py:64-71 | One entry's iteration reports an error for a name exactly when the entry is that name and its handler raises, or it has no handled suffix and the setting is missing. |
| `FileProcessor.DispatchedIff` | file_processer.py:43-62 | A handler of a given kind is called for an entry exactly when the entry is listed and has that kind's suffix, whichever handlers fail. |
| `FileProcessor.ProcessedIff` | file_processer.py:43-62 | A handler completes for an entry exactly when the entry is listed, has a handled suffix, and its handler does not raise. |
| `FileProcessor.UnsupportedIff` | file_processer.py:64-67 | An entry is reported unsupported exactly when it is listed, has no handled suffix, and differs from the raw setting. |
| `FileProcessor.FileErrorIff` | file_processer.py:64-71 | An error is caught and logged for an entry exactly when its handler raises, or when it has no handled suffix and the setting is missing. |
| `FileProcessor.EntryDispatches` | file_processer.py:43-67 | One iteration calls exactly the handler its suffix selects, and none for other names. |
| `FileProcessor.DispatchOrderIgnoresFailures` | file_processer.py:39-71 | The sequence of handler calls is exactly the handled entries, with their kinds, in listing order. It is the same whatever handlers raise and whatever the setting is. |
| `FileProcessor.NoFilesWarningUnreachable` | file_processer.py:29-36 | When the folder exists and the image folder name is plain, the listing contains that folder and "No files found" is never reported. |
| `FileProcessor.ConfiguredImageFolderSkipped` | file_processer.py:64-67 | A configured plain folder name without a handled suffix is listed and skipped silently: no handler call, no warning and no error. |
| `FileProcessor.EmptySettingReportsImageFolder` | file_processer.py:28-67 | With an empty setting, the created `extracted_images` folder is reported as unsupported. |
| `FileProcessor.AbsentSettingReportsErrorForImageFolder` | file_processer.py:28-71 | With no setting, the created `extracted_images` folder gets a caught-error report. |

## Left out

- `main.py`: the embedding and chat clients, the store's collection and persistence options (only an empty store is modelled, below), Excel logging, the interactive question loop and config loading. These are I/O, third-party setup or UI.
- The text chunker: langchain's `RecursiveCharacterTextSplitter`, a foreign library.
- `process_pdf`, `process_text` and `process_word_text` are not part of this model. They are opaque handlers that return or raise, given as the set of entry names whose handler raises. The documents they insert, and any partial insertion before they raise, are not modelled. What path they pass to the inserters as `pdf_name` is not modelled either; `BasenameOfJoin` covers the case where it is `join(data_folder, name)`.
- `create_retriever` and `retriever.invoke`: a thin wrapper over the store's search. What the retriever returns, or that it raised, is an input of `RetrieveDocuments`.
- Search and embedding semantics, exception message text, and the text of log and `print` lines. Log lines are events.
- `os.path.exists` is an input flag. `os.makedirs` and `os.listdir` are modelled as the entries before creation, plus the image folder appended when its name is plain and new.
  - `os.listdir` order is arbitrary; the model fixes the order.
  - For a folder name with `/`, or `.`/`..`, the listing is kept as it was. The first path component that `makedirs` may create is not modelled.
  - Errors raised by `makedirs` or `listdir`, such as a file already using the folder name, propagate out of the call and are not modelled.
- A missing `config["settings"]` section raises at line 28, outside the per-entry guard. Non-string setting values are not modelled.
- `VectorDatabase.VectorStore.constructor`: only an empty collection is modelled. A collection reopened from `persist_directory` starts with whatever an earlier run stored, which the model does not check against its invariant.
- `VectorDatabase.VectorStore.AddDocuments`: a failed `add_documents` is assumed to add nothing. The real store could have added part of the batch before raising.
- `Strings.Lower`: Python lower-cases all of Unicode; the model folds ASCII letters only. The two agree on the suffix tests unless a non-ASCII character lower-cases to one of the ASCII letters in `.pdf`, `.txt` or `.docx`. The model does not rule that out.
- Python's dynamic typing of the inserters' arguments: lists of strings and an integer page number are assumed. Only the question of `retrieve_documents` is checked for being a string, as the code does.
