/**
 * The second, unfinished builder (proc_use_build): it only records file names,
 * and writing its output always panics with the target path.
 */
module ProcUseBuild {
  import Text

  /** The panic `write_to_file` raises: its message is the path in `Debug` form. */
  datatype Panic = Panic(message: string)

  /** The list after `add_file` has been called with each of `fs`, one after the other. */
  function AddedOneByOne(files: seq<string>, fs: seq<string>): seq<string>
    decreases |fs|
  {
    if fs == [] then files else AddedOneByOne(files + [fs[0]], fs[1..])
  }

  /** Adding files one by one is appending them all at once. */
  lemma {:induction false} OneByOneIsAppend(files: seq<string>, fs: seq<string>)
    ensures AddedOneByOne(files, fs) == files + fs
    decreases |fs|
  {
    if fs != [] {
      OneByOneIsAppend(files + [fs[0]], fs[1..]);
      assert files + [fs[0]] + fs[1..] == files + fs;
    }
  }

  class UseBuilder {
    var files: seq<string>

    constructor ()
      ensures files == []
    {
      files := [];
    }

    method AddFile(file: string)
      modifies this
      ensures files == old(files) + [file]
    {
      files := files + [file];
    }

    method AddFiles(fs: seq<string>)
      modifies this
      ensures files == old(files) + fs
      ensures files == AddedOneByOne(old(files), fs)
    {
      files := files + fs;
      OneByOneIsAppend(old(files), fs);
    }

    /** Never writes: whatever the state and the path, it panics with the quoted path. */
    method WriteToFile(path: string) returns (panic: Panic)
      ensures panic.message == "\"" + Text.EscapeDebug(path, true) + "\""
    {
      panic := Panic("\"" + Text.EscapeDebug(path, true) + "\"");
    }
  }
}
