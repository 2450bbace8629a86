# proc_use in Dafny

proc_use generates Rust `mod` and `use` declarations for files chosen at build
time. It has two front ends and one stub:

- **proc_use**: a `UseBuilder` for build scripts. It accumulates
  `#[path = "<canonical path>"]\nmod <stem>;` statements and
  `use <stem>::<pattern>;` statements from single files and from globs. An
  `unused` flag decides whether every `use` is preceded by
  `#[allow(unused_imports)]`. Three emitters turn the lists into text.
- **proc_use_inline**: the function-like macro `proc_use!`, in two passes.
  - `desugar` is an index loop over the token trees. It renames `mod` to
    `__mod` at the head of attributes and splices `mod("p")` into
    `const r#mod : _ = "p"`.
  - `expand` walks the parsed items. It emits one `mod` item per imported
    module, then the `use` items with their attributes cleared, or a single
    compile error.
- **proc_use_build**: an unfinished builder. It records file names, and
  `write_to_file` always panics with the target path.

The files:

- `proc_use.dfy` (module `ProcUse`). The builder is a class with `seq<string>`
  fields:
  - its methods are proved against the functions `FileStep`, `EntriesStep`
    and `GlobStep`;
  - the emitters are the functions `UseText`, `ModText` and `AllText`;
  - each panic is a `Panicked(reason)` outcome.
- `proc_use_inline.dfy` (module `ProcUseInline`). Tokens, attributes,
  use-trees and items are datatypes.
  - `Desugar` and `Expand` are loops, proved against `Desugared` and
    `Expanded`.
  - A `use` item records whether it starts with `::` (`leadingColon`), and
    the generated `use` item keeps it.
  - `ProcUse` composes them.
  - syn is passed in as two parameters:
    - `parse` turns the desugared tokens into items, or fails;
    - `parsesAsMod` says whether a text parses as a `mod` item.
  - Desugaring's index panics are `DesugarPanic` values.
- `proc_use_build.dfy` (module `ProcUseBuild`): the stub builder.
- `paths.dfy` (module `Paths`): the part of `std::path::Path` both generators
  use, for `/`-separated paths. That is `file_name`, `file_stem` and
  `extension`, and the shared `.rs` check `RustStem`.
- `text.dfy` (module `Text`): the `"\n"`-join, splitting into lines, decimal
  rendering of a count, and the escaping of ASCII text by `Debug` and
  `Literal::string`: the named backslash escapes, `\u{..}` for other control
  characters and DEL, and `\'` in the `Debug` form of a path only.
- `wrappers.dfy` (module `Wrappers`): `Option` and `Result`.

## Where the code and its documentation differ

The model follows the code. Where the project's prose and the code differ:

- A `use` item with **no** attribute still generates a module.
  `extract_path` returns `Ok(None)` for zero attributes, so the item goes
  through the same branch as `#[mod]`. See `MarkedUseModules`.
- `use a::{b, c}` generates the one module `a`. Only a top-level group
  `use {a::x, b::y}` generates one module per member. See `GroupModules`.
- In `#[...]`, a leading `mod` is renamed whatever follows it. Only `#![...]`
  requires `mod` to be the sole token. See `AttributeRenamed` and
  `InnerAttributeNeedsSoleMod`.
- A `mod(...)` group that does not hold exactly one token is not left alone:
  its delimiter becomes `[...]`. See `ModGroupRebracketed`.
- The all-text puts a single `"\n"` between the module block and the use
  block. No blank line is added. See `AllTextIsModThenUse`.
- The desugaring loop's bound is fixed at the original length minus one.
  Each splice adds four tokens, so the last four tokens per splice are never
  examined. In `mod("a.rs"); mod("b.rs");` the second `mod(...)` is left as
  written, and a trailing `#` or `mod` can likewise be skipped. The model
  keeps this behaviour. See `InlineModSpliced` and
  `SecondInlineModLeftAlone`.
- The path inside `mod("...")` is taken as written and quoted again by
  `Literal::string`, not read as a string literal first. A path written with
  an escape, such as `mod("a\\b.rs")`, therefore arrives with the escape's
  backslash doubled. See `SplicedLiteralKept` and `SplicedLiteralEscaped`.

## Model

| member | source | states |
|---|---|---|
| Paths.RustStem | proc_use/src/lib.rs:191-207 | the module name of a path is its stem exactly when it has one and its extension is `rs`; otherwise "not a rust file" when a stem exists, else "not a regular file" |
| Paths.ComponentsPush | proc_use/src/lib.rs:191 | appending a normal component `/x` to a path adds exactly that component |
| Paths.SplitAtDotOf | proc_use/src/lib.rs:191 | `stem.ext` splits at its last dot back into `stem` and `ext` when `ext` has no dot |
| Paths.StemAndExtension | proc_use/src/lib.rs:191 | `dir/stem.ext` has file stem `stem` and extension `ext`, for any directory part |
| Paths.RustFileStem | proc_use/src/lib.rs:192 | `dir/stem.rs` passes the check with module name `stem` |
| Paths.OtherExtensionStem | proc_use/src/lib.rs:202-204 | `dir/stem.ext` with `ext` other than `rs` is refused as not a Rust file |
| Text.JoinSnoc | proc_use/src/lib.rs:166-176 | joining one more part adds the separator only when there were parts before |
| Text.LinesOfJoin | proc_use/src/lib.rs:140-158 | splitting a newline-join of newline-free lines gives back the lines |
| Text.EscapePlain | proc_use_build/src/lib.rs:19-21 | text with no character to escape is its own `Debug` escape |
| Text.EscapeCharPlain | proc_use_build/src/lib.rs:19-21 | a character is written as itself exactly when it needs no escape; any other starts a backslash escape |
| Text.EscapeConcat | proc_use_build/src/lib.rs:19-21 | escaping works character by character: the escape of `a + b` is the escape of `a` followed by that of `b` |
| Text.EscapeLength | proc_use_build/src/lib.rs:19-21 | escaping never shortens text, and keeps its length exactly when no character needs an escape |
| Text.EscapeExamples | proc_use_build/src/lib.rs:19-21 | U+0001 is written `\u{1}`, DEL `\u{7f}`, and `'` is escaped in the `Debug` form of a path but not by `Literal::string` |
| ProcUse.FileStep | proc_use/src/lib.rs:185-208 | `file` completes exactly when the path canonicalised and passes the `.rs` check; it then appends one `#[path]` mod statement and, iff a pattern is given, one `use stem::pattern;`, keeping all earlier entries; on every panic nothing is added, with the panic's cause |
| ProcUse.EntriesStep | proc_use/src/lib.rs:92-97 | the glob loop only appends; on completion it added one module per entry and one use per entry iff a pattern is given; a panic comes before the last module |
| ProcUse.GlobStep | proc_use/src/lib.rs:92 | a bad glob pattern panics before any entry and adds nothing |
| ProcUse.ModStmt | proc_use/src/lib.rs:193-194 | no contract of its own: the `#[path = "canonical"]` line, a newline, then `mod stem;`; `RustFileBecomesModule` and `CompletedGlobModules` state where it is appended |
| ProcUse.UseStmt | proc_use/src/lib.rs:197-198 | no contract of its own: `use stem::pattern;`; `RustFileBecomesModule` states when it is appended |
| ProcUse.CrateUseStmt | proc_use/src/lib.rs:75 | no contract of its own: `use pattern;`; `UseBuilder.UseCrate` appends exactly it |
| ProcUse.UseText | proc_use/src/lib.rs:141-147 | no contract of its own: the use statements joined by `"\n"`, each after the marker when `unused` is set; `UseTextLines`, `MarkerCost` and `MarkedJoin` carry its properties |
| ProcUse.ModText | proc_use/src/lib.rs:157 | no contract of its own: the mod statements joined by `"\n"`; `LinesOfJoin` and `EmptyBuilderWritesNothing` carry its properties |
| ProcUse.AllText | proc_use/src/lib.rs:167-175 | no contract of its own: the use-text as one more element of the mod join; `AllTextIsModThenUse` and `EmptyBuilderWritesNothing` carry its properties |
| ProcUse.UseBuilder.constructor | proc_use/src/lib.rs:44-46 | a new builder has no statements and `unused` set |
| ProcUse.UseBuilder.ModFile | proc_use/src/lib.rs:53-56 | the new lists are `file` without a pattern applied to the old ones; `unused` is unchanged |
| ProcUse.UseBuilder.UseFile | proc_use/src/lib.rs:64-67 | the new lists are `file` with the pattern applied to the old ones; `unused` is unchanged |
| ProcUse.UseBuilder.UseCrate | proc_use/src/lib.rs:74-77 | appends exactly `use p;` to the use list; the module list and the flag are unchanged |
| ProcUse.UseBuilder.ModGlob | proc_use/src/lib.rs:91-99 | the new lists are the glob loop without a pattern applied to the old ones |
| ProcUse.UseBuilder.UseGlob | proc_use/src/lib.rs:113-121 | the new lists are the glob loop with the pattern applied to the old ones |
| ProcUse.UseBuilder.AllowUnused | proc_use/src/lib.rs:124-127 | sets `unused`, whatever it was, and leaves both lists unchanged |
| ProcUse.UseBuilder.WarnUnused | proc_use/src/lib.rs:130-133 | clears `unused`, whatever it was, and leaves both lists unchanged |
| ProcUse.UseBuilder.File | proc_use/src/lib.rs:185-208 | the pushes of the `file` helper have exactly the effect `FileStep` describes |
| ProcUse.UseBuilder.GlobFiles | proc_use/src/lib.rs:92-97 | the `for entry in glob(..)` loop has exactly the effect `GlobStep` describes |
| ProcUse.UseBuilder.UseFileText | proc_use/src/lib.rs:140-148 | no contract of its own: the bytes `write_to_file_use` writes are `UseText` of the builder's use list and flag |
| ProcUse.UseBuilder.ModFileText | proc_use/src/lib.rs:156-158 | no contract of its own: the bytes `write_to_file_mod` writes are `ModText` of the builder's mod list |
| ProcUse.UseBuilder.AllFileText | proc_use/src/lib.rs:166-176 | no contract of its own: the bytes `write_to_file_all` writes are `AllText` of both lists and the flag |
| ProcUse.RustFileBecomesModule | proc_use/src/lib.rs:191-201 | a canonical `dir/stem.rs` appends `#[path = "dir/stem.rs"]\nmod stem;` and, with a pattern, `use stem::pattern;` |
| ProcUse.OtherExtensionRefused | proc_use/src/lib.rs:202-204 | a file with another extension panics as not a Rust file and adds nothing |
| ProcUse.EntriesConcat | proc_use/src/lib.rs:92-97 | the glob loop over two runs of entries is the loop over the first, then, unless it panicked, over the second |
| ProcUse.CompletedGlobModules | proc_use/src/lib.rs:92-97 | a completed glob matched only `.rs` files, and added their module statements in entry order |
| ProcUse.AllTextIsModThenUse | proc_use/src/lib.rs:166-176 | the all-text is the mod-text, then `"\n"` when there is a module, then the use-text |
| ProcUse.MarkerCost | proc_use/src/lib.rs:140-148 | the marked use-text is longer than the plain one by one marker per statement |
| ProcUse.MarkedJoin | proc_use/src/lib.rs:142-144 | joining the marked statements is joining the marker line and each statement in turn |
| ProcUse.InterleavedShape | proc_use/src/lib.rs:142-144 | the marker lines and statements are twice as many lines as statements, none with a newline |
| ProcUse.UseTextLines | proc_use/src/lib.rs:140-148 | read back by lines, the plain use-text is the statements, and the marked one is each statement preceded by `#[allow(unused_imports)]` |
| ProcUse.EmptyBuilderWritesNothing | proc_use/src/lib.rs:140-176 | with no statements every emitter writes the empty text |
| ProcUseBuild.OneByOneIsAppend | proc_use_build/src/lib.rs:11-18 | adding files one at a time is appending them all in order |
| ProcUseBuild.UseBuilder.constructor | proc_use_build/src/lib.rs:8-10 | a new builder has no files |
| ProcUseBuild.UseBuilder.AddFile | proc_use_build/src/lib.rs:11-14 | appends exactly the file at the end |
| ProcUseBuild.UseBuilder.AddFiles | proc_use_build/src/lib.rs:15-18 | appends all files in order, the same as `add_file` on each in turn |
| ProcUseBuild.UseBuilder.WriteToFile | proc_use_build/src/lib.rs:19-21 | always panics, whatever the state, with the path in `Debug` form |
| ProcUseInline.RenameLeading | proc_use_inline/src/lib.rs:214-218 | in `#[...]` only the first token can change, it changes iff it is `mod`, and then it becomes `__mod` |
| ProcUseInline.RenameSole | proc_use_inline/src/lib.rs:223-227 | in `#![...]` the stream changes iff it is exactly `mod`, and then it becomes `__mod` |
| ProcUseInline.QuoteOf | proc_use_inline/src/lib.rs:240-242 | a token is quoted exactly when its text is `"` + inner + `"`, and then the inner text is what lies between; the empty text and a lone `"` are the two cases whose indexing or slicing panics; everything else, groups included, is left alone |
| ProcUseInline.ConstTokens | proc_use_inline/src/lib.rs:243-245 | no contract of its own: `const r#mod : _ =` and the inner text made a string literal by `Literal::string`; `SplicedLiteralKept`, `SplicedLiteralEscaped` and `InlineModSpliced` carry its properties |
| ProcUseInline.SplicedLiteralKept | proc_use_inline/src/lib.rs:240-245 | a path that needs no escaping is spliced back as the very literal it was read from |
| ProcUseInline.SplicedLiteralEscaped | proc_use_inline/src/lib.rs:240-245 | a path written with an escape is quoted again with that escape escaped, so the spliced literal differs from the one read |
| ProcUseInline.DesugarStep | proc_use_inline/src/lib.rs:210-256 | an iteration at a token other than `#` or `mod` changes nothing; otherwise nothing before the index changes; either the length stays and only the next two tokens may change, or `mod` and its group become `const r#mod ...` with the rest shifted by four; panics only at `#` or `mod` |
| ProcUseInline.DesugarLoop | proc_use_inline/src/lib.rs:209-257 | the loop never shrinks the tokens, and its panics are index panics |
| ProcUseInline.Desugared | proc_use_inline/src/lib.rs:207-209 | an empty input panics (the bound underflows), and only an empty one does |
| ProcUseInline.Desugar | proc_use_inline/src/lib.rs:207-260 | the in-place loop produces exactly `Desugared(input)` |
| ProcUseInline.LoopLeavesPlainTokens | proc_use_inline/src/lib.rs:209-257 | iterations over tokens that are neither `#` nor `mod` change nothing |
| ProcUseInline.PlainInputUnchanged | proc_use_inline/src/lib.rs:207-260 | a non-empty input without top-level `#` or `mod` comes out unchanged |
| ProcUseInline.LoopGrowsByFours | proc_use_inline/src/lib.rs:246 | the output is longer than the input by a multiple of four |
| ProcUseInline.AttributeRenamed | proc_use_inline/src/lib.rs:211-219 | `#[mod ...]` becomes `#[__mod ...]` whatever follows `mod`, and nothing else changes |
| ProcUseInline.InnerAttributeNeedsSoleMod | proc_use_inline/src/lib.rs:220-228 | `#![mod, x]` keeps its `mod` |
| ProcUseInline.InnerAttributeRenamed | proc_use_inline/src/lib.rs:220-228 | `#![mod]` becomes `#![__mod]`, and nothing else changes |
| ProcUseInline.InlineModSpliced | proc_use_inline/src/lib.rs:235-247 | `mod("p")` becomes `const r#mod : _ = "p"` followed by the rest, of which the last five tokens are never examined |
| ProcUseInline.SecondInlineModLeftAlone | proc_use_inline/src/lib.rs:209 | after one splice, a second `mod("b.rs")` at the end is left as written |
| ProcUseInline.ModGroupRebracketed | proc_use_inline/src/lib.rs:248-250 | `mod(...)` with other than one token keeps its tokens, re-delimited by brackets |
| ProcUseInline.TrailingHashBangPanics | proc_use_inline/src/lib.rs:220-221 | a `#!` at the very end panics for the index past the end |
| ProcUseInline.LoopStopsAtPanic | proc_use_inline/src/lib.rs:209-257 | a panic at one iteration is the loop's result |
| ProcUseInline.IdentMatch | proc_use_inline/src/lib.rs:23-32 | true iff the identifier is the term; an error otherwise; never false |
| ProcUseInline.ExtractPath | proc_use_inline/src/lib.rs:34-72 | no attribute gives none; more than one gives "expected 1 attribute but recieved N."; a path of other than one segment gives "expected 1 segment but recieved N."; another name is an error; `#[__mod]` gives none; `#[__mod("p")]` gives `p`, and no other input gives a path |
| ProcUseInline.TreePath | proc_use_inline/src/lib.rs:74-81 | no contract of its own: the leading identifier of a path tree, `err` for any other tree; `PathUseModule` and `GroupModules` carry its properties |
| ProcUseInline.TreePaths | proc_use_inline/src/lib.rs:83-90 | one name per member of a top-level group, else the one `tree_path`; so it names no module exactly for `use {};` |
| ProcUseInline.PlainMods | proc_use_inline/src/lib.rs:104-115 | one module without a path per name, in order, iff every `mod name;` parses; otherwise the parse failure of the first name that does not |
| ProcUseInline.PathMod | proc_use_inline/src/lib.rs:117-133 | the module named `name` with path `path` iff `mod name;` parses, otherwise syn's error for that text |
| ProcUseInline.ConstMod | proc_use_inline/src/lib.rs:143-188 | a desugared `mod("p")` gives a module with path `p` named after the stem of `p`; a wrong shape, a non-`.rs` file or a missing stem gives its own message |
| ProcUseInline.ItemStep | proc_use_inline/src/lib.rs:97-196 | a kept `use` item has its attributes cleared; a const item gives only its one module; any other item, or a const with attributes, visibility or another name, is the "Expected syn::ItemUse" error |
| ProcUseInline.PushPlainMods | proc_use_inline/src/lib.rs:104-115 | the inner loop appends exactly `PlainMods(names)` or stops with its error |
| ProcUseInline.Expanded | proc_use_inline/src/lib.rs:92-203 | no contract of its own: the reference for `Expand`; `ExpandedGenerated`, `ExpandedFirstError` and `ExpandedConcat` carry its properties |
| ProcUseInline.PrefixedTwice | proc_use_inline/src/lib.rs:199-202 | output built from earlier items, then later ones, is the concatenation |
| ProcUseInline.Expand | proc_use_inline/src/lib.rs:92-203 | the loop with early returns produces exactly `Expanded(items)` |
| ProcUseInline.ExpandedConcat | proc_use_inline/src/lib.rs:96-202 | expanding a concatenation gives the first part's modules, then the second's, and likewise for uses; an error in the first part is the whole output |
| ProcUseInline.ExpandedGenerated | proc_use_inline/src/lib.rs:96-202 | output is generated iff every item is accepted, and then its uses are the input's `use` items in order, attributes cleared |
| ProcUseInline.ExpandedFirstError | proc_use_inline/src/lib.rs:96-196 | a compile error is that of the first refused item |
| ProcUseInline.MarkedUseModules | proc_use_inline/src/lib.rs:98-116 | a `use` item with `#[__mod]`, or with no attribute, gives one module per `tree_paths` name and is kept without attributes |
| ProcUseInline.GroupModules | proc_use_inline/src/lib.rs:74-90 | `use {foo::*, bar::Baz}` gives modules `foo` and `bar`; `use a::{b, c}` gives only `a`; a tree that is not a path is named `err` |
| ProcUseInline.PathUseModule | proc_use_inline/src/lib.rs:117-133 | `#[__mod("p")]` gives the one module of the first segment, with path `p` |
| ProcUseInline.ForeignAttributesRefused | proc_use_inline/src/lib.rs:34-72 | another attribute name, a two-segment path, two attributes, and a non-string argument each give their message |
| ProcUseInline.ConstModuleFromRustFile | proc_use_inline/src/lib.rs:148-161 | `const r#mod: _ = "dir/stem.rs"` gives module `stem` with that path and no use |
| ProcUseInline.ConstModuleRefused | proc_use_inline/src/lib.rs:174-181 | a desugared path that fails the `.rs` check gives the "not a Rust file" or the "not a regular file" message, as the check says |
| ProcUseInline.ConstModuleOtherExtension | proc_use_inline/src/lib.rs:174-177 | a desugared path with another extension is refused as not a Rust file |
| ProcUseInline.MacroResult | proc_use_inline/src/lib.rs:274-277 | no contract of its own: the reference for `ProcUse`, a desugaring panic, a file-parse error or the expansion; `MarkedGlobUse` and `InlineModFile` evaluate it |
| ProcUseInline.ProcUse | proc_use_inline/src/lib.rs:274-277 | the macro desugars, parses as a file, then expands, exactly as `MacroResult` says |
| ProcUseInline.MarkedGlobUse | proc_use_inline/src/lib.rs:266-268 | `#[mod] use foo::*;` expands to `mod foo;` followed by `use foo::*;` |
| ProcUseInline.InlineModFile | proc_use_inline/src/lib.rs:205-206 | `mod("dir/stem.rs");` expands to module `stem` with that path and no use |

## Left out

- Writing files (proc_use/src/lib.rs:216-226) is left out, together with its panics. The model keeps the text each `write_to_file_*` would write: `UseFileText`, `ModFileText` and `AllFileText`.
- `canonicalize` and `glob` are filesystem calls. Their results are inputs: a `FileRef` carries the canonical path, or none when the call failed, and a `Glob` carries the pattern error or the entries.
- Panic messages: each builder panic is a `PanicReason` value, not the formatted text. The text includes an I/O error's `Display` form, which the model cannot see.
- The builder returns `&mut Self` for chaining. The methods here return the outcome instead.
- `to_string_lossy` (proc_use/src/lib.rs:189-198) and the UTF-8 check `to_str` (proc_use_inline/src/lib.rs:151-172): strings are sequences of characters, so the "Only UTF8 file names" error cannot occur.
- `Paths` handles `/`-separated paths only: no Windows prefixes or separators.
- syn, quote and proc_macro are left out:
  - `parse_macro_input!` is the parameter `parse`, and `parse_str::<ItemMod>` is the predicate `parsesAsMod`.
  - Spans, `to_compile_error` and the conversion of the output to a `TokenStream` are not modelled. A compile error is a `Diagnostic` value, and the output is `ModDecl` and `Item` values.
  - How `quote!` renders the `#[path = ...]` attribute is not modelled.
- ProcUseInline.ConstTokens: `Literal::string` escaping is modelled for ASCII only. Rust also writes non-ASCII characters that are not printable, or that extend a grapheme, as `\u{..}`; that depends on Unicode tables, and the model writes every non-ASCII character as itself.
- ProcUseBuild.UseBuilder.WriteToFile: the same gap. Non-ASCII characters in the path are written as themselves, although Rust writes unprintable and grapheme-extending ones as `\u{..}`. Path bytes that are not UTF-8 (`\x..` in Rust) cannot occur, because paths are character sequences.
- Text.EscapePlain: "plain" means an ASCII character that needs no escape, or any non-ASCII character. For a non-ASCII character that Rust escapes, the lemma states more than Rust does, for the reason given under `ProcUseInline.ConstTokens`.
- ProcUseInline.QuoteOf: a group without delimiters is treated as having no text. In proc_macro it prints as its contents, so a `mod(...)` holding such a group, or an attribute starting with one, is not modelled.
- ProcUseInline.ExtractPath: works on the attribute list as a value. The source pops the attribute from the item, but the caller clears all attributes right after, so the pop cannot be observed.
- Item kinds other than `use` and `const` are one `OtherItem` case. Const items keep only the fields the source inspects.
- The `examples/*/build.rs` driver scripts are not part of this model.
- No alias method is modelled: the builder has none.
