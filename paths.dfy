/**
 * The parts of Rust's `std::path::Path` the generators rely on, for
 * `/`-separated paths: the last component (`file_name`), and its split at the
 * last dot into `file_stem` and `extension`.
 */
module Paths {
  import opened Wrappers
  import Text

  /** The normal components of `p`: empty and `.` components are dropped. */
  function Components(p: string): seq<string>
    decreases |p|
  {
    var k := Text.LastIndexOf(p, '/');
    var seg := p[k + 1..];
    var kept := if seg == "" || seg == "." then [] else [seg];
    if k < 0 then kept else Components(p[..k]) + kept
  }

  /** `Path::file_name`: the last component, unless there is none or it is `..`. */
  function FileName(p: string): Option<string>
  {
    var cs := Components(p);
    if cs == [] || cs[|cs| - 1] == ".." then None else Some(cs[|cs| - 1])
  }

  /**
   * A file name split at its last dot into (stem, extension). A name without a
   * dot, or whose only dot leads it (".bashrc"), is all stem.
   */
  function SplitAtDot(name: string): (string, Option<string>)
  {
    var k := Text.LastIndexOf(name, '.');
    if k <= 0 then (name, None) else (name[..k], Some(name[k + 1..]))
  }

  /** `Path::file_stem`. */
  function FileStem(p: string): Option<string>
  {
    match FileName(p)
    case None => None
    case Some(name) => Some(SplitAtDot(name).0)
  }

  /** `Path::extension`. */
  function Extension(p: string): Option<string>
  {
    match FileName(p)
    case None => None
    case Some(name) => SplitAtDot(name).1
  }

  /** Why a path cannot be included as a Rust module. */
  datatype FileProblem =
    | NotRustFile     // it has a stem but its extension is missing or not `rs`
    | NotRegularFile  // it has no file stem at all

  /**
   * The check both generators make before naming a module after a file: the
   * stem, when the path has one and its extension is `rs`.
   */
  function RustStem(p: string): (r: Result<string, FileProblem>)
    ensures r.Ok? <==> FileStem(p).Some? && Extension(p) == Some("rs")
    ensures r.Ok? ==> FileStem(p) == Some(r.value)
    ensures r.Err? ==> r.error == (if FileStem(p).None? then NotRegularFile else NotRustFile)
  {
    match (FileStem(p), Extension(p))
    case (Some(stem), Some(ext)) => if ext == "rs" then Ok(stem) else Err(NotRustFile)
    case (Some(_), None) => Err(NotRustFile)
    case (None, _) => Err(NotRegularFile)
  }

  /** Appending one normal component to a path adds exactly that component. */
  lemma ComponentsPush(dir: string, x: string)
    requires '/' !in x && x != "" && x != "."
    ensures Components(dir + "/" + x) == Components(dir) + [x]
  {
    var p := dir + "/" + x;
    var k := Text.LastIndexOf(p, '/');
    assert p[|dir|] == '/';
    assert forall j :: |dir| < j < |p| ==> p[j] == x[j - |dir| - 1];
    assert k == |dir|;
    assert p[k + 1..] == x;
    assert p[..k] == dir;
  }

  /** A name `stem.ext` splits back into `stem` and `ext` when `ext` has no dot. */
  lemma SplitAtDotOf(stem: string, ext: string)
    requires stem != "" && '.' !in ext
    ensures SplitAtDot(stem + "." + ext) == (stem, Some(ext))
  {
    var name := stem + "." + ext;
    var k := Text.LastIndexOf(name, '.');
    assert name[|stem|] == '.';
    assert forall j :: |stem| < j < |name| ==> name[j] == ext[j - |stem| - 1];
    assert k == |stem|;
    assert name[..k] == stem;
    assert name[k + 1..] == ext;
  }

  /**
   * A path `dir/stem.ext` has file stem `stem` and extension `ext`, whatever
   * `dir` is, when `ext` has no dot and neither part has a separator.
   */
  lemma StemAndExtension(dir: string, stem: string, ext: string)
    requires stem != "" && '/' !in stem
    requires '/' !in ext && '.' !in ext
    requires stem != "." || ext != ""
    ensures FileStem(dir + "/" + stem + "." + ext) == Some(stem)
    ensures Extension(dir + "/" + stem + "." + ext) == Some(ext)
  {
    var name := stem + "." + ext;
    assert '/' !in name by {
      assert forall i :: 0 <= i < |stem| ==> name[i] == stem[i];
      assert forall i :: |stem| < i < |name| ==> name[i] == ext[i - |stem| - 1];
    }
    assert name != ".." by {
      if stem == "." { assert |name| > 2; } else { assert name[..|stem|] == stem; }
    }
    assert dir + "/" + stem + "." + ext == dir + "/" + name;
    ComponentsPush(dir, name);
    SplitAtDotOf(stem, ext);
  }

  /** `dir/stem.rs` is a Rust module named `stem`. */
  lemma RustFileStem(dir: string, stem: string)
    requires stem != "" && '/' !in stem
    ensures RustStem(dir + "/" + stem + ".rs") == Ok(stem)
  {
    StemAndExtension(dir, stem, "rs");
    assert dir + "/" + stem + "." + "rs" == dir + "/" + stem + ".rs";
  }

  /** `dir/stem.ext` with another extension is refused as not a Rust file. */
  lemma OtherExtensionStem(dir: string, stem: string, ext: string)
    requires stem != "" && '/' !in stem
    requires '/' !in ext && '.' !in ext && ext != "rs"
    requires stem != "." || ext != ""
    ensures RustStem(dir + "/" + stem + "." + ext) == Err(NotRustFile)
  {
    StemAndExtension(dir, stem, ext);
  }
}
