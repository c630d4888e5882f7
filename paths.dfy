/** The parts of `std::path::Path` that the compiler uses to discover `.sql` files:
    `file_name`, `extension` and `file_stem`. */
module Paths {
  import opened Wrappers

  /** A path: the directory it lies in and its last component. */
  datatype Path = Path(dir: string, fileName: string)

  /** `Path::file_name`: the last component, absent when the path ends in `..` or has none. */
  function FileName(p: Path): Option<string> {
    if p.fileName == "" || p.fileName == ".." then None else Some(p.fileName)
  }

  /** The index of the last `.` of a file name. */
  function LastDot(s: string): (r: Option<nat>)
    ensures r.None? <==> '.' !in s
    ensures r.Some? ==> r.value < |s| && s[r.value] == '.' && '.' !in s[r.value + 1..]
  {
    if s == [] then None
    else if s[|s| - 1] == '.' then Some(|s| - 1)
    else
      var r := LastDot(s[..|s| - 1]);
      assert r.Some? ==> s[r.value + 1..] == s[..|s| - 1][r.value + 1..] + [s[|s| - 1]];
      assert s == s[..|s| - 1] + [s[|s| - 1]];
      r
  }

  /** `Path::extension`: the text after the last `.` of the file name, unless the name has
      no `.`, has its only `.` in front (a hidden file such as `.sql`) or is `..`. */
  function Extension(p: Path): Option<string> {
    match FileName(p)
    case None => None
    case Some(name) =>
      match LastDot(name)
      case None => None
      case Some(k) => if k == 0 then None else Some(name[k + 1..])
  }

  /** `Path::file_stem`: the file name without its extension. */
  function FileStem(p: Path): Option<string> {
    match FileName(p)
    case None => None
    case Some(name) =>
      match LastDot(name)
      case None => Some(name)
      case Some(k) => if k == 0 then Some(name) else Some(name[..k])
  }

  /** `stem.ext` splits into `stem` and `ext` when the extension is not empty and holds no
      `.`, and the stem is not empty. */
  lemma StemAndExtension(dir: string, stem: string, ext: string)
    requires stem != [] && ext != [] && '.' !in ext
    ensures Extension(Path(dir, stem + "." + ext)) == Some(ext)
    ensures FileStem(Path(dir, stem + "." + ext)) == Some(stem)
  {
    var name := stem + "." + ext;
    assert |name| > 2;
    var k := LastDot(name).value;
    assert name[|stem|] == '.' && name[|stem| + 1..] == ext;
    assert k <= |stem| by {
      assert forall j :: |stem| < j < |name| ==> name[j] == ext[j - |stem| - 1];
    }
    assert k >= |stem| by {
      assert forall j :: k < j < |name| ==> name[j] == name[k + 1..][j - k - 1];
    }
    assert name[k + 1..] == ext;
    assert name[..k] == stem;
  }

  /** A hidden file named `.sql` has no extension at all. */
  lemma HiddenFileHasNoExtension(dir: string)
    ensures Extension(Path(dir, ".sql")) == None
  {
    assert LastDot(".sql") == Some(0) by {
      assert ".sql"[0] == '.';
      assert '.' !in ".sql"[1..];
    }
  }

  /** Every path with an extension also has a stem (so the `expect`s on it never fire). */
  lemma ExtensionImpliesStem(p: Path)
    requires Extension(p).Some?
    ensures FileStem(p).Some?
  {
  }
}
