/** POSIX path handling as used by the ingestion pipeline (`os.path.basename`, `os.path.join`). */
module Paths {

  const Separator: char := '/'

  /** `os.path.basename`: the text after the last separator (all of `p` when it has none). */
  function Basename(p: string): (r: string)
    ensures |r| <= |p| && r == p[|p| - |r|..]
    ensures Separator !in r
    ensures |r| < |p| ==> p[|p| - |r| - 1] == Separator
    decreases |p|
  {
    if p == [] || p[|p| - 1] == Separator then []
    else Basename(p[..|p| - 1]) + [p[|p| - 1]]
  }

  /** `os.path.join(a, b)` for two components. */
  function Join(a: string, b: string): string
  {
    if |b| > 0 && b[0] == Separator then b
    else if a == [] || a[|a| - 1] == Separator then a + b
    else a + [Separator] + b
  }

  /** A single directory entry name: non-empty, no separator, and not `.` or `..`. */
  predicate PlainName(n: string)
  {
    n != [] && Separator !in n && n != "." && n != ".."
  }

  /** Joining a folder with an entry name and taking the base name gives the entry name back,
      so a document's `Source` is the listed file name whatever the folder is. */
  lemma BasenameOfJoin(folder: string, name: string)
    requires name != [] && Separator !in name
    ensures Basename(Join(folder, name)) == name
  {
    var p := Join(folder, name);
    var r := Basename(p);
    assert |name| <= |p| && p[|p| - |name|..] == name;
    assert |p| > |name| ==> p[|p| - |name| - 1] == Separator;
  }
}
