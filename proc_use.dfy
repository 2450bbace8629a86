/**
 * The build-script builder of proc_use: an append-only accumulator of
 * `#[path = "..."] mod x;` statements and `use x::...;` statements, with an
 * `unused` flag that decides whether each `use` is preceded by
 * `#[allow(unused_imports)]`, and the three texts it writes out.
 *
 * Filesystem calls are inputs: a file arrives with the result of
 * `canonicalize`, a glob with the entries its iterator yields. Every panic of
 * the original is a `Panicked` outcome.
 */
module ProcUse {
  import opened Wrappers
  import Text
  import Paths

  /** A file handed to the builder, with what `canonicalize` made of it (None: it failed). */
  datatype FileRef = FileRef(given: string, canonical: Option<string>)

  /** One item of a glob iteration: a matched path, or an error reading an entry. */
  datatype GlobEntry = Matched(file: FileRef) | Unreadable(path: string)

  /** What `glob(pattern)` gives: a pattern error, or the entries in traversal order. */
  datatype Glob = PatternError | Entries(entries: seq<GlobEntry>)

  /** Why the builder panics. */
  datatype PanicReason =
    | CanonicalizeFailed(file: string)
    | InvalidFile(path: string, problem: Paths.FileProblem)
    | BadGlobPattern
    | GlobEntryFailed(path: string)

  datatype Outcome = Completed | Panicked(reason: PanicReason)

  /** The builder's two statement lists. */
  datatype Decls = Decls(mods: seq<string>, uses: seq<string>)

  /** The lists after an operation, and whether the operation completed. */
  datatype Run = Run(decls: Decls, outcome: Outcome)

  /** The line that allows an unused import. */
  const MarkerLine := "#[allow(unused_imports)]"

  /** What precedes each use statement when `unused` is set: the marker line and its newline. */
  const UnusedMarker := MarkerLine + "\n"

  /** The statement that includes the file at `canonical` as module `name`. */
  function ModStmt(canonical: string, name: string): string
  {
    "#[path = \"" + canonical + "\"]\nmod " + name + ";"
  }

  /** The import of `pattern` from the file module `name`. */
  function UseStmt(name: string, pattern: string): string
  {
    "use " + name + "::" + pattern + ";"
  }

  /** A bare import, as `use_crate` adds it. */
  function CrateUseStmt(pattern: string): string
  {
    "use " + pattern + ";"
  }

  /**
   * The effect of the `file` helper: on an `.rs` file with a stem, one module
   * statement and, when a pattern is given, one use statement are appended; on
   * any failure nothing is added.
   */
  function FileStep(d: Decls, file: FileRef, pattern: Option<string>): (r: Run)
    ensures r.outcome.Completed? <==> file.canonical.Some? && Paths.RustStem(file.canonical.value).Ok?
    ensures r.outcome.Panicked? ==> r.decls == d
    ensures file.canonical.None? ==> r.outcome == Panicked(CanonicalizeFailed(file.given))
    ensures file.canonical.Some? && r.outcome.Panicked? ==>
              r.outcome.reason == InvalidFile(file.canonical.value, Paths.RustStem(file.canonical.value).error)
    ensures d.mods <= r.decls.mods && d.uses <= r.decls.uses
    ensures |r.decls.mods| == |d.mods| + (if r.outcome.Completed? then 1 else 0)
    ensures |r.decls.uses| == |d.uses| + (if r.outcome.Completed? && pattern.Some? then 1 else 0)
    ensures r.outcome.Completed? ==>
              r.decls.mods[|d.mods|] == ModStmt(file.canonical.value, Paths.RustStem(file.canonical.value).value)
    ensures r.outcome.Completed? && pattern.Some? ==>
              r.decls.uses[|d.uses|] == UseStmt(Paths.RustStem(file.canonical.value).value, pattern.value)
  {
    match file.canonical
    case None => Run(d, Panicked(CanonicalizeFailed(file.given)))
    case Some(canonical) =>
      match Paths.RustStem(canonical)
      case Err(problem) => Run(d, Panicked(InvalidFile(canonical, problem)))
      case Ok(name) =>
        var uses := if pattern.Some? then d.uses + [UseStmt(name, pattern.value)] else d.uses;
        Run(Decls(d.mods + [ModStmt(canonical, name)], uses), Completed)
  }

  /**
   * The `for entry in glob(..)` loop: `file` on each matched entry in order;
   * the first unreadable entry or failing file stops it, keeping what the
   * entries before it added.
   */
  function EntriesStep(d: Decls, entries: seq<GlobEntry>, pattern: Option<string>): (r: Run)
    ensures d.mods <= r.decls.mods && d.uses <= r.decls.uses
    ensures r.outcome.Completed? ==> |r.decls.mods| == |d.mods| + |entries|
    ensures r.outcome.Completed? ==>
              |r.decls.uses| == |d.uses| + (if pattern.Some? then |entries| else 0)
    ensures r.outcome.Panicked? ==> |r.decls.mods| < |d.mods| + |entries|
    decreases |entries|
  {
    if entries == [] then Run(d, Completed)
    else
      match entries[0]
      case Unreadable(path) => Run(d, Panicked(GlobEntryFailed(path)))
      case Matched(file) =>
        var step := FileStep(d, file, pattern);
        if step.outcome.Panicked? then step else EntriesStep(step.decls, entries[1..], pattern)
  }

  /** `mod_glob` (no pattern) and `use_glob` (a pattern): a bad pattern panics before any entry. */
  function GlobStep(d: Decls, glob: Glob, pattern: Option<string>): (r: Run)
    ensures glob.PatternError? ==> r == Run(d, Panicked(BadGlobPattern))
  {
    match glob
    case PatternError => Run(d, Panicked(BadGlobPattern))
    case Entries(entries) => EntriesStep(d, entries, pattern)
  }

  /** Every use statement with the unused-imports marker in front of it. */
  function Marked(uses: seq<string>): seq<string>
  {
    seq(|uses|, i requires 0 <= i < |uses| => UnusedMarker + uses[i])
  }

  /** The text `write_to_file_use` writes. */
  function UseText(uses: seq<string>, unused: bool): string
  {
    if unused then Text.Join("\n", Marked(uses)) else Text.Join("\n", uses)
  }

  /** The text `write_to_file_mod` writes. */
  function ModText(mods: seq<string>): string
  {
    Text.Join("\n", mods)
  }

  /** The text `write_to_file_all` writes: the use block is one more element of the join. */
  function AllText(mods: seq<string>, uses: seq<string>, unused: bool): string
  {
    Text.Join("\n", mods + [UseText(uses, unused)])
  }

  /** The owner of the two statement lists and the `unused` flag. */
  class UseBuilder {
    var modStmts: seq<string>
    var useStmts: seq<string>
    var unused: bool

    /** The two lists as a value. */
    function State(): Decls
      reads this
    {
      Decls(modStmts, useStmts)
    }

    /** No statements yet, and imports marked as allowed to be unused. */
    constructor ()
      ensures modStmts == [] && useStmts == [] && unused
    {
      modStmts := [];
      useStmts := [];
      unused := true;
    }

    method ModFile(file: FileRef) returns (outcome: Outcome)
      modifies this
      ensures Run(State(), outcome) == FileStep(old(State()), file, None)
      ensures unused == old(unused)
    {
      outcome := File(file, None);
    }

    method UseFile(file: FileRef, pattern: string) returns (outcome: Outcome)
      modifies this
      ensures Run(State(), outcome) == FileStep(old(State()), file, Some(pattern))
      ensures unused == old(unused)
    {
      outcome := File(file, Some(pattern));
    }

    method UseCrate(pattern: string)
      modifies this
      ensures useStmts == old(useStmts) + [CrateUseStmt(pattern)]
      ensures modStmts == old(modStmts) && unused == old(unused)
    {
      useStmts := useStmts + [CrateUseStmt(pattern)];
    }

    method ModGlob(glob: Glob) returns (outcome: Outcome)
      modifies this
      ensures Run(State(), outcome) == GlobStep(old(State()), glob, None)
      ensures unused == old(unused)
    {
      outcome := GlobFiles(glob, None);
    }

    method UseGlob(glob: Glob, pattern: string) returns (outcome: Outcome)
      modifies this
      ensures Run(State(), outcome) == GlobStep(old(State()), glob, Some(pattern))
      ensures unused == old(unused)
    {
      outcome := GlobFiles(glob, Some(pattern));
    }

    method AllowUnused()
      modifies this
      ensures unused
      ensures modStmts == old(modStmts) && useStmts == old(useStmts)
    {
      unused := true;
    }

    method WarnUnused()
      modifies this
      ensures !unused
      ensures modStmts == old(modStmts) && useStmts == old(useStmts)
    {
      unused := false;
    }

    /** The contents `write_to_file_use` hands to the file. */
    function UseFileText(): string
      reads this
    {
      UseText(useStmts, unused)
    }

    /** The contents `write_to_file_mod` hands to the file. */
    function ModFileText(): string
      reads this
    {
      ModText(modStmts)
    }

    /** The contents `write_to_file_all` hands to the file. */
    function AllFileText(): string
      reads this
    {
      AllText(modStmts, useStmts, unused)
    }

    /** The `file` helper. */
    method File(file: FileRef, pattern: Option<string>) returns (outcome: Outcome)
      modifies this
      ensures Run(State(), outcome) == FileStep(old(State()), file, pattern)
      ensures unused == old(unused)
    {
      if file.canonical.None? {
        return Panicked(CanonicalizeFailed(file.given));
      }
      var canonical := file.canonical.value;
      match Paths.RustStem(canonical)
      case Err(problem) =>
        return Panicked(InvalidFile(canonical, problem));
      case Ok(name) =>
        modStmts := modStmts + [ModStmt(canonical, name)];
        if pattern.Some? {
          useStmts := useStmts + [UseStmt(name, pattern.value)];
        }
        return Completed;
    }

    /** The glob loop shared by `mod_glob` and `use_glob`. */
    method GlobFiles(glob: Glob, pattern: Option<string>) returns (outcome: Outcome)
      modifies this
      ensures Run(State(), outcome) == GlobStep(old(State()), glob, pattern)
      ensures unused == old(unused)
    {
      if glob.PatternError? {
        return Panicked(BadGlobPattern);
      }
      var entries := glob.entries;
      for i := 0 to |entries|
        invariant EntriesStep(old(State()), entries, pattern) == EntriesStep(State(), entries[i..], pattern)
        invariant unused == old(unused)
      {
        assert entries[i..][0] == entries[i] && entries[i..][1..] == entries[i + 1..];
        match entries[i]
        case Unreadable(path) =>
          return Panicked(GlobEntryFailed(path));
        case Matched(file) =>
          var o := File(file, pattern);
          if o.Panicked? {
            return o;
          }
      }
      assert entries[|entries|..] == [];
      return Completed;
    }
  }

  // Properties of the model

  /**
   * A canonical path `dir/stem.rs` becomes module `stem` included from that
   * path, followed, when a pattern is given, by `use stem::pattern;`.
   */
  lemma RustFileBecomesModule(d: Decls, given: string, dir: string, stem: string, pattern: Option<string>)
    requires stem != "" && '/' !in stem
    ensures var canonical := dir + "/" + stem + ".rs";
            FileStep(d, FileRef(given, Some(canonical)), pattern) ==
              Run(Decls(d.mods + [ModStmt(canonical, stem)],
                        d.uses + (if pattern.Some? then [UseStmt(stem, pattern.value)] else [])),
                  Completed)
  {
    Paths.RustFileStem(dir, stem);
  }

  /** A file whose extension is not `rs` panics as "not a rust file" and adds nothing. */
  lemma OtherExtensionRefused(d: Decls, given: string, dir: string, stem: string, ext: string, pattern: Option<string>)
    requires stem != "" && '/' !in stem
    requires '/' !in ext && '.' !in ext && ext != "rs"
    requires stem != "." || ext != ""
    ensures var canonical := dir + "/" + stem + "." + ext;
            FileStep(d, FileRef(given, Some(canonical)), pattern) ==
              Run(d, Panicked(InvalidFile(canonical, Paths.NotRustFile)))
  {
    Paths.OtherExtensionStem(dir, stem, ext);
  }

  /** Running the glob loop over two runs of entries is running it over the first, then the second. */
  lemma {:induction false} EntriesConcat(d: Decls, a: seq<GlobEntry>, b: seq<GlobEntry>, pattern: Option<string>)
    ensures EntriesStep(d, a + b, pattern) ==
              var r := EntriesStep(d, a, pattern);
              if r.outcome.Panicked? then r else EntriesStep(r.decls, b, pattern)
    decreases |a|
  {
    if a == [] {
      assert a + b == b;
    } else {
      assert (a + b)[0] == a[0];
      assert (a + b)[1..] == a[1..] + b;
      match a[0]
      case Unreadable(_) =>
      case Matched(file) =>
        var step := FileStep(d, file, pattern);
        if step.outcome.Completed? {
          EntriesConcat(step.decls, a[1..], b, pattern);
        }
    }
  }

  /**
   * A glob that completes matched only `.rs` files with stems, and added one
   * module statement per entry, in entry order, for that entry's file.
   */
  lemma {:induction false} CompletedGlobModules(d: Decls, entries: seq<GlobEntry>, pattern: Option<string>)
    requires EntriesStep(d, entries, pattern).outcome.Completed?
    ensures forall i :: 0 <= i < |entries| ==>
              entries[i].Matched? && entries[i].file.canonical.Some? &&
              Paths.RustStem(entries[i].file.canonical.value).Ok?
    ensures forall i :: 0 <= i < |entries| ==>
              EntriesStep(d, entries, pattern).decls.mods[|d.mods| + i] ==
                ModStmt(entries[i].file.canonical.value, Paths.RustStem(entries[i].file.canonical.value).value)
    decreases |entries|
  {
    if entries != [] {
      assert entries[0].Matched?;
      var file := entries[0].file;
      var step := FileStep(d, file, pattern);
      assert step.outcome.Completed?;
      var tail := entries[1..];
      CompletedGlobModules(step.decls, tail, pattern);
      var r := EntriesStep(d, entries, pattern);
      assert r == EntriesStep(step.decls, tail, pattern);
      assert step.decls.mods <= r.decls.mods;
      assert r.decls.mods[|d.mods|] == step.decls.mods[|d.mods|];
      forall i | 0 <= i < |entries|
        ensures entries[i].Matched? && entries[i].file.canonical.Some? &&
                Paths.RustStem(entries[i].file.canonical.value).Ok?
        ensures r.decls.mods[|d.mods| + i] ==
                ModStmt(entries[i].file.canonical.value, Paths.RustStem(entries[i].file.canonical.value).value)
      {
        if i > 0 {
          assert entries[i] == tail[i - 1];
          assert |d.mods| + i == |step.decls.mods| + (i - 1);
        }
      }
    }
  }

  /** The all-text is the mod-text, a newline when there is a module, then the use-text. */
  lemma AllTextIsModThenUse(mods: seq<string>, uses: seq<string>, unused: bool)
    ensures AllText(mods, uses, unused) ==
              ModText(mods) + (if mods == [] then "" else "\n") + UseText(uses, unused)
  {
    Text.JoinSnoc("\n", mods, UseText(uses, unused));
  }

  /** Marking costs exactly one marker per use statement; the statements are otherwise the same text. */
  lemma {:induction false} MarkerCost(uses: seq<string>)
    ensures |UseText(uses, true)| == |UseText(uses, false)| + |uses| * |UnusedMarker|
    decreases |uses|
  {
    if |uses| > 1 {
      MarkerCost(uses[1..]);
      assert Marked(uses)[1..] == Marked(uses[1..]);
    }
  }

  /** The marker line before each use statement, flattened. */
  function Interleaved(uses: seq<string>): seq<string>
    decreases |uses|
  {
    if uses == [] then [] else [MarkerLine, uses[0]] + Interleaved(uses[1..])
  }

  lemma {:induction false} MarkedJoin(uses: seq<string>)
    ensures Text.Join("\n", Marked(uses)) == Text.Join("\n", Interleaved(uses))
    decreases |uses|
  {
    if |uses| == 1 {
      assert Interleaved(uses) == [MarkerLine, uses[0]];
      assert [MarkerLine, uses[0]][1..] == [uses[0]];
    } else if |uses| > 1 {
      MarkedJoin(uses[1..]);
      assert Marked(uses)[1..] == Marked(uses[1..]);
      var rest := Interleaved(uses[1..]);
      assert rest != [];
      var il := Interleaved(uses);
      assert il == [MarkerLine, uses[0]] + rest;
      assert il[1..] == [uses[0]] + rest;
      assert il[1..][1..] == rest;
    }
  }

  /**
   * Read back line by line, the use-text is the use statements themselves
   * when `unused` is off, and each of them preceded by the marker line when it
   * is on (statements without newlines, at least one of them).
   */
  lemma UseTextLines(uses: seq<string>)
    requires uses != []
    requires forall i :: 0 <= i < |uses| ==> '\n' !in uses[i]
    ensures Text.Lines(UseText(uses, false)) == uses
    ensures Text.Lines(UseText(uses, true)) == Interleaved(uses)
  {
    Text.LinesOfJoin(uses);
    MarkedJoin(uses);
    InterleavedShape(uses);
    Text.LinesOfJoin(Interleaved(uses));
  }

  lemma {:induction false} InterleavedShape(uses: seq<string>)
    requires forall i :: 0 <= i < |uses| ==> '\n' !in uses[i]
    ensures |Interleaved(uses)| == 2 * |uses|
    ensures forall i :: 0 <= i < |Interleaved(uses)| ==> '\n' !in Interleaved(uses)[i]
    decreases |uses|
  {
    if uses != [] {
      InterleavedShape(uses[1..]);
      assert '\n' !in MarkerLine;
      var il := Interleaved(uses);
      var rest := Interleaved(uses[1..]);
      assert forall i :: 2 <= i < |il| ==> il[i] == rest[i - 2];
    }
  }

  /** A fresh builder writes nothing in any mode. */
  lemma EmptyBuilderWritesNothing(unused: bool)
    ensures UseText([], unused) == "" && ModText([]) == "" && AllText([], [], unused) == ""
  {
    assert [] + [UseText([], unused)] == [""];
  }
}
