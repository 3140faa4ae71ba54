/** The pipeline orchestrator: walks the data folder, dispatches each entry to the handler for
    its extension and isolates per-file failures (file_processer.py). */
module FileProcessor {
  import opened Wrappers
  import Strings
  import Paths
  import Sequences

  /** The three kinds of file that have a handler. */
  datatype FileKind = Pdf | PlainText | Word

  /** The `image_directory_name` setting: missing from the settings, or present with a value. */
  datatype Setting = Absent | Present(value: string)

  /** What the run reports, in order. */
  datatype Event =
    | FolderMissing(folder: string)            // the data folder does not exist
    | NoFilesFound                             // the listing is empty
    | Processing(kind: FileKind, name: string) // a handler is about to be called
    | Processed(kind: FileKind, name: string)  // the handler returned
    | Unsupported(name: string)                // no handler and not the image folder
    | FileError(name: string)                  // an exception was caught for this entry
    | AllProcessed                             // the loop finished

  const DefaultImageDirectoryName := "extracted_images"

  /** The image folder name: the configured value when present and non-empty, else the default. */
  function ImageFolderName(configured: Setting): (name: string)
    ensures name != []
    ensures configured.Present? && configured.value != [] ==> name == configured.value
    ensures configured.Absent? || configured.value == [] ==> name == DefaultImageDirectoryName
  {
    if configured.Present? && configured.value != [] then configured.value else DefaultImageDirectoryName
  }

  /** The handler an entry name is sent to, decided by its lower-cased suffix; `None` when
      there is none. */
  function Classify(name: string): Option<FileKind>
  {
    var lower := Strings.Lower(name);
    if Strings.EndsWith(lower, ".pdf") then Some(Pdf)
    else if Strings.EndsWith(lower, ".txt") then Some(PlainText)
    else if Strings.EndsWith(lower, ".docx") then Some(Word)
    else None
  }

  /** The listing of the data folder after the image folder has been created in it: a plain
      folder name that was not there yet becomes a new entry. */
  function Listing(before: seq<string>, folderName: string): seq<string>
  {
    if Paths.PlainName(folderName) && folderName !in before then before + [folderName] else before
  }

  /** What one loop iteration reports for entry `name`. `failing` holds the entries whose
      handler raises. The skip test reads the raw setting: when it is absent, the lookup
      raises inside the per-entry guard, which reports an error. */
  function EntryEvents(name: string, configured: Setting, failing: set<string>): seq<Event>
  {
    match Classify(name)
    case Some(kind) =>
      [Processing(kind, name)] + (if name in failing then [FileError(name)] else [Processed(kind, name)])
    case None =>
      if configured.Absent? then [FileError(name)]
      else if configured.value != name then [Unsupported(name)]
      else []
  }

  /** The reports of the loop over `entries`, entry after entry. */
  function EntriesLog(entries: seq<string>, configured: Setting, failing: set<string>): seq<Event>
  {
    Sequences.FlatMap((name: string) => EntryEvents(name, configured, failing), entries)
  }

  /** The reports of a whole run. */
  function RunLog(dataFolder: string, folderExists: bool, before: seq<string>, configured: Setting,
                  failing: set<string>): seq<Event>
  {
    if !folderExists then [FolderMissing(dataFolder)]
    else
      var files := Listing(before, ImageFolderName(configured));
      if files == [] then [NoFilesFound]
      else EntriesLog(files, configured, failing) + [AllProcessed]
  }

  /** The loop of `process_all_files`: every entry is visited once, in listing order, and an
      exception in one entry's work is caught so that the next entry is still processed. */
  method ProcessEntries(files: seq<string>, configured: Setting, failing: set<string>) returns (log: seq<Event>)
    ensures log == EntriesLog(files, configured, failing)
  {
    log := [];
    for i := 0 to |files|
      invariant log == EntriesLog(files[..i], configured, failing)
    {
      var filename := files[i];
      var events: seq<Event>;
      match Classify(filename) {
        case Some(kind) =>
          if filename in failing {
            events := [Processing(kind, filename), FileError(filename)];
          } else {
            events := [Processing(kind, filename), Processed(kind, filename)];
          }
        case None =>
          if configured.Absent? {
            events := [FileError(filename)];
          } else if configured.value != filename {
            events := [Unsupported(filename)];
          } else {
            events := [];
          }
      }
      log := log + events;
      assert files[..i + 1][..i] == files[..i];
    }
    assert files[..|files|] == files;
  }

  /** `process_all_files`. The filesystem is given as inputs: whether the data folder exists and
      its entries before the image folder is created. Returns what is reported and the output
      folder that was created, if any. */
  method ProcessAllFiles(dataFolder: string, folderExists: bool, before: seq<string>, configured: Setting,
                         failing: set<string>)
    returns (log: seq<Event>, outputFolder: Option<string>)
    ensures log == RunLog(dataFolder, folderExists, before, configured, failing)
    ensures !folderExists ==> outputFolder == None
    ensures folderExists ==> outputFolder == Some(Paths.Join(dataFolder, ImageFolderName(configured)))
    ensures !folderExists ==> log == [FolderMissing(dataFolder)]
    ensures folderExists && Paths.PlainName(ImageFolderName(configured)) ==> NoFilesFound !in log
  {
    if !folderExists {
      return [FolderMissing(dataFolder)], None;
    }
    var folderName := ImageFolderName(configured);
    outputFolder := Some(Paths.Join(dataFolder, folderName));
    var files := Listing(before, folderName);
    if files == [] {
      return [NoFilesFound], outputFolder;
    }
    log := ProcessEntries(files, configured, failing);
    log := log + [AllProcessed];
    if Paths.PlainName(folderName) {
      NoFilesWarningUnreachable(dataFolder, before, configured, failing);
    }
  }

  // Properties of the loop's reports

  /** Entry `i` is visited exactly once, in listing order: its reports come after those of every
      earlier entry and before those of every later one, whatever happened to the others. */
  lemma EntriesLogSplit(entries: seq<string>, i: nat, configured: Setting, failing: set<string>)
    requires i < |entries|
    ensures EntriesLog(entries, configured, failing)
         == EntriesLog(entries[..i], configured, failing)
          + EntryEvents(entries[i], configured, failing)
          + EntriesLog(entries[i + 1..], configured, failing)
  {
    Sequences.FlatMapSplit((name: string) => EntryEvents(name, configured, failing), entries, i);
  }

  /** An event is reported exactly when some listed entry's iteration reports it. */
  lemma InEntriesLog(e: Event, entries: seq<string>, configured: Setting, failing: set<string>)
    ensures e in EntriesLog(entries, configured, failing)
        <==> exists name :: name in entries && e in EntryEvents(name, configured, failing)
  {
    var g := (name: string) => EntryEvents(name, configured, failing);
    if e in EntriesLog(entries, configured, failing) {
      var j := Sequences.InFlatMapSome(g, entries, e);
      assert entries[j] in entries && e in EntryEvents(entries[j], configured, failing);
    }
    if name :| name in entries && e in EntryEvents(name, configured, failing) {
      var j :| 0 <= j < |entries| && entries[j] == name;
      Sequences.InFlatMapFrom(g, entries, j, e);
    }
  }

  // Which reports a single iteration gives, event kind by event kind

  /** Entry `n`'s iteration calls the `kind` handler for `name` exactly when `n` is `name` and
      has that kind's suffix. */
  lemma ProcessingInEntry(kind: FileKind, name: string, n: string, configured: Setting, failing: set<string>)
    ensures Processing(kind, name) in EntryEvents(n, configured, failing) <==> n == name && Classify(name) == Some(kind)
  {
  }

  /** Entry `n`'s iteration completes the `kind` handler for `name` exactly when `n` is `name`,
      has that kind's suffix, and its handler does not raise. */
  lemma ProcessedInEntry(kind: FileKind, name: string, n: string, configured: Setting, failing: set<string>)
    ensures Processed(kind, name) in EntryEvents(n, configured, failing)
        <==> n == name && Classify(name) == Some(kind) && name !in failing
  {
  }

  /** Entry `n`'s iteration reports `name` unsupported exactly when `n` is `name`, has no handled
      suffix and differs from the raw setting. */
  lemma UnsupportedInEntry(name: string, n: string, configured: Setting, failing: set<string>)
    ensures Unsupported(name) in EntryEvents(n, configured, failing)
        <==> n == name && Classify(name) == None && configured.Present? && configured.value != name
  {
  }

  /** Entry `n`'s iteration reports an error for `name` exactly when `n` is `name` and either its
      handler raises, or it has no handled suffix and the setting is missing. */
  lemma FileErrorInEntry(name: string, n: string, configured: Setting, failing: set<string>)
    ensures FileError(name) in EntryEvents(n, configured, failing)
        <==> n == name && ((Classify(name).Some? && name in failing) || (Classify(name) == None && configured.Absent?))
  {
  }

  /** A handler of kind `kind` is called for `name` exactly when `name` is listed and has that
      kind's suffix, whichever handlers fail and whatever the setting. */
  lemma DispatchedIff(kind: FileKind, name: string, entries: seq<string>, configured: Setting, failing: set<string>)
    ensures Processing(kind, name) in EntriesLog(entries, configured, failing)
        <==> name in entries && Classify(name) == Some(kind)
  {
    InEntriesLog(Processing(kind, name), entries, configured, failing);
    forall n | n in entries
      ensures Processing(kind, name) in EntryEvents(n, configured, failing) <==> n == name && Classify(name) == Some(kind)
    {
      ProcessingInEntry(kind, name, n, configured, failing);
    }
  }

  /** A handler returns normally for `name` exactly when `name` is listed, has a handled suffix,
      and its handler does not raise. */
  lemma ProcessedIff(kind: FileKind, name: string, entries: seq<string>, configured: Setting, failing: set<string>)
    ensures Processed(kind, name) in EntriesLog(entries, configured, failing)
        <==> name in entries && Classify(name) == Some(kind) && name !in failing
  {
    InEntriesLog(Processed(kind, name), entries, configured, failing);
    forall n | n in entries
      ensures Processed(kind, name) in EntryEvents(n, configured, failing)
          <==> n == name && Classify(name) == Some(kind) && name !in failing
    {
      ProcessedInEntry(kind, name, n, configured, failing);
    }
  }

  /** "Unsupported" is reported for `name` exactly when `name` is listed, has no handled suffix,
      and differs from the raw `image_directory_name` setting. */
  lemma UnsupportedIff(name: string, entries: seq<string>, configured: Setting, failing: set<string>)
    ensures Unsupported(name) in EntriesLog(entries, configured, failing)
        <==> name in entries && Classify(name) == None && configured.Present? && configured.value != name
  {
    InEntriesLog(Unsupported(name), entries, configured, failing);
    forall n | n in entries
      ensures Unsupported(name) in EntryEvents(n, configured, failing)
          <==> n == name && Classify(name) == None && configured.Present? && configured.value != name
    {
      UnsupportedInEntry(name, n, configured, failing);
    }
  }

  /** An error is caught and reported for `name` exactly when `name` is listed and either its
      handler raises, or it has no handled suffix and the setting lookup raises. */
  lemma FileErrorIff(name: string, entries: seq<string>, configured: Setting, failing: set<string>)
    ensures FileError(name) in EntriesLog(entries, configured, failing)
        <==> name in entries && ((Classify(name).Some? && name in failing) || (Classify(name) == None && configured.Absent?))
  {
    InEntriesLog(FileError(name), entries, configured, failing);
    forall n | n in entries
      ensures FileError(name) in EntryEvents(n, configured, failing)
          <==> n == name && ((Classify(name).Some? && name in failing) || (Classify(name) == None && configured.Absent?))
    {
      FileErrorInEntry(name, n, configured, failing);
    }
  }

  /** The handler calls in a report, in order. */
  function Dispatches(log: seq<Event>): seq<(FileKind, string)>
  {
    if log == [] then []
    else Dispatches(log[..|log| - 1]) + (if log[|log| - 1].Processing? then [(log[|log| - 1].kind, log[|log| - 1].name)] else [])
  }

  /** The handler call an entry calls for, if any. */
  function HandlerCall(name: string): seq<(FileKind, string)>
  {
    match Classify(name)
    case Some(kind) => [(kind, name)]
    case None => []
  }

  /** Handler calls of consecutive reports are those of each. */
  lemma {:induction false} DispatchesConcat(a: seq<Event>, b: seq<Event>)
    ensures Dispatches(a + b) == Dispatches(a) + Dispatches(b)
    decreases |b|
  {
    if b == [] {
      assert a + b == a;
    } else {
      assert (a + b)[..|a + b| - 1] == a + b[..|b| - 1];
      DispatchesConcat(a, b[..|b| - 1]);
    }
  }

  /** One iteration calls exactly the handler its entry's suffix selects. */
  lemma EntryDispatches(name: string, configured: Setting, failing: set<string>)
    ensures Dispatches(EntryEvents(name, configured, failing)) == HandlerCall(name)
  {
    var events := EntryEvents(name, configured, failing);
    match Classify(name)
    case Some(kind) =>
      assert |events| == 2 && !events[1].Processing?;
      assert events[..1] == [Processing(kind, name)] && events[..1][..0] == [];
      assert Dispatches(events[..1]) == [(kind, name)];
    case None =>
      if events != [] {
        assert events[..0] == [];
      }
  }

  /** Per-file failure isolation: the handlers are called for exactly the entries with a handled
      suffix, in listing order, however many handlers raise and whatever the setting is. */
  lemma {:induction false} DispatchOrderIgnoresFailures(entries: seq<string>, configured: Setting, failing: set<string>)
    ensures Dispatches(EntriesLog(entries, configured, failing)) == Sequences.FlatMap(HandlerCall, entries)
    decreases |entries|
  {
    if entries != [] {
      var init, last := entries[..|entries| - 1], entries[|entries| - 1];
      DispatchOrderIgnoresFailures(init, configured, failing);
      DispatchesConcat(EntriesLog(init, configured, failing), EntryEvents(last, configured, failing));
      EntryDispatches(last, configured, failing);
    }
  }

  // Properties of a whole run

  /** Once the data folder exists, the listing contains the image folder when its name is a
      plain entry name, so the "No files found" warning is never reported. */
  lemma NoFilesWarningUnreachable(dataFolder: string, before: seq<string>, configured: Setting, failing: set<string>)
    requires Paths.PlainName(ImageFolderName(configured))
    ensures ImageFolderName(configured) in Listing(before, ImageFolderName(configured))
    ensures NoFilesFound !in RunLog(dataFolder, true, before, configured, failing)
  {
    var files := Listing(before, ImageFolderName(configured));
    InEntriesLog(NoFilesFound, files, configured, failing);
    forall n | n in files
      ensures NoFilesFound !in EntryEvents(n, configured, failing)
    {
      match Classify(n)
      case Some(k) =>
      case None =>
    }
  }

  /** A configured image folder with a plain name and no handled suffix is listed and skipped
      silently: no handler, no warning, no error. */
  lemma ConfiguredImageFolderSkipped(dataFolder: string, before: seq<string>, name: string, failing: set<string>)
    requires Paths.PlainName(name) && Classify(name) == None
    ensures name in Listing(before, name)
    ensures var log := RunLog(dataFolder, true, before, Present(name), failing);
      Unsupported(name) !in log && FileError(name) !in log
      && forall kind :: Processing(kind, name) !in log
  {
    var files := Listing(before, name);
    UnsupportedIff(name, files, Present(name), failing);
    FileErrorIff(name, files, Present(name), failing);
    forall kind
      ensures Processing(kind, name) !in EntriesLog(files, Present(name), failing)
    {
      DispatchedIff(kind, name, files, Present(name), failing);
    }
  }

  /** The default image folder has no handled suffix. */
  lemma DefaultFolderUnhandled()
    ensures Classify(DefaultImageDirectoryName) == None
  {
    var lower := Strings.Lower(DefaultImageDirectoryName);
    assert lower[|lower| - 1] == 's';
  }

  /** With an empty `image_directory_name` the folder is created as "extracted_images", but the
      skip test compares entries with the empty string, so that folder is reported as
      unsupported. */
  lemma EmptySettingReportsImageFolder(dataFolder: string, before: seq<string>, failing: set<string>)
    ensures Unsupported(DefaultImageDirectoryName) in RunLog(dataFolder, true, before, Present(""), failing)
  {
    var files := Listing(before, DefaultImageDirectoryName);
    DefaultFolderUnhandled();
    assert DefaultImageDirectoryName in files;
    UnsupportedIff(DefaultImageDirectoryName, files, Present(""), failing);
  }

  /** With no `image_directory_name` key the folder is created as "extracted_images", but the
      skip test's lookup raises for every entry without a handled suffix, including that
      folder, and the per-entry guard reports an error for it. */
  lemma AbsentSettingReportsErrorForImageFolder(dataFolder: string, before: seq<string>, failing: set<string>)
    ensures FileError(DefaultImageDirectoryName) in RunLog(dataFolder, true, before, Absent, failing)
  {
    var files := Listing(before, DefaultImageDirectoryName);
    DefaultFolderUnhandled();
    assert DefaultImageDirectoryName in files;
    FileErrorIff(DefaultImageDirectoryName, files, Absent, failing);
  }

  /** Each handler is chosen by its own suffix alone: the three suffixes exclude each other, so
      at most one handler matches an entry. */
  lemma ClassifyBySuffix(name: string)
    ensures Classify(name) == Some(Pdf) <==> Strings.EndsWith(Strings.Lower(name), ".pdf")
    ensures Classify(name) == Some(PlainText) <==> Strings.EndsWith(Strings.Lower(name), ".txt")
    ensures Classify(name) == Some(Word) <==> Strings.EndsWith(Strings.Lower(name), ".docx")
  {
  }

  /** Classification ignores case. */
  lemma ClassifyIgnoresCase(name: string)
    ensures Classify(Strings.Lower(name)) == Classify(name)
  {
    Strings.LowerIdempotent(name);
  }
}
