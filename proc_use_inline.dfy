/**
 * The `proc_use!` function-like macro: a token-level pass (`desugar`) that
 * renames the keyword `mod` to `__mod` at the head of attributes and turns
 * `mod("path")` into `const r#mod: _ = "path"`, and a pass over the parsed
 * items (`expand`) that generates one `mod` item per imported module, ahead of
 * the `use` items with their attributes removed.
 *
 * Token trees, items and use-trees are small datatypes; parsing with syn is a
 * parameter: `parse` turns the desugared tokens into items (or fails), and
 * `parsesAsMod` says whether a text is accepted as a `mod` item.
 */
module ProcUseInline {
  import opened Wrappers
  import Text
  import Paths

  // ---------------------------------------------------------------------------
  // Token trees and the desugaring pass

  datatype Delimiter = Parenthesis | Brace | Bracket | NoDelimiter

  /** A token tree as `proc_macro` gives it; `Literal` holds the literal's source text. */
  datatype Token =
    | Punct(ch: char)
    | Ident(name: string)
    | Literal(text: string)
    | Group(delim: Delimiter, stream: seq<Token>)

  const ModKeyword := Ident("mod")

  /** The identifier the attribute `#[mod]` is renamed to before parsing. */
  const Sentinel := "__mod"

  /** Why `desugar` panics. */
  datatype DesugarPanic =
    | EmptyInput                               // `tokens.len() - 1` underflows
    | IndexOutOfBounds(index: nat, len: nat)   // `tokens[i + 2]` after a trailing `#!`
    | MalformedQuote(text: string)             // a one-character `"` token: the slice `1..0`

  /** What `to_string` gives for a token that is not a group. */
  function TokenText(t: Token): Option<string>
  {
    match t
    case Punct(c) => Some([c])
    case Ident(name) => Some(name)
    case Literal(text) => Some(text)
    case Group(_, _) => None
  }

  /** The check on the single token of `mod(...)`: does its text start and end with `"`? */
  datatype Quote = NotQuoted | Quoted(inner: string) | Unsliceable(text: string)

  function QuoteOf(t: Token): (r: Quote)
    ensures r.Quoted? ==> TokenText(t) == Some("\"" + r.inner + "\"")
    ensures r.Unsliceable? <==> TokenText(t) == Some("") || TokenText(t) == Some("\"")
    ensures r.NotQuoted? <==>
              match TokenText(t)
              case None => true
              case Some(s) => |s| >= 1 && (s[0] != '"' || s[|s| - 1] != '"')
  {
    match TokenText(t)
    case None => NotQuoted
    case Some(s) =>
      if |s| == 0 then Unsliceable(s)
      else if s[0] != '"' || s[|s| - 1] != '"' then NotQuoted
      else if |s| == 1 then
        assert s == "\"";
        Unsliceable(s)
      else
        assert s == "\"" + s[1..|s| - 1] + "\"";
        Quoted(s[1..|s| - 1])
  }

  /** `const r#mod : _ = "inner"`, the six tokens `quote!` produces for `mod("inner")`. */
  function ConstTokens(inner: string): seq<Token>
  {
    [Ident("const"), Ident("r#mod"), Punct(':'), Ident("_"), Punct('='),
     Literal("\"" + Text.EscapeDebug(inner, false) + "\"")]
  }

  /**
   * The text between the quotes of `mod("p")` is taken as written and quoted
   * again: when it needs no escaping, the spliced literal is the one that was read.
   */
  lemma SplicedLiteralKept(p: string)
    requires forall i :: 0 <= i < |p| ==> Text.PlainChar(p[i], false)
    ensures QuoteOf(Literal("\"" + p + "\"")) == Quoted(p)
    ensures ConstTokens(p)[5] == Literal("\"" + p + "\"")
  {
    Text.EscapePlain(p, false);
    var s := "\"" + p + "\"";
    assert s[1..|s| - 1] == p;
  }

  /**
   * A literal written with an escape (`mod("a\\b.rs")`) is quoted again with
   * its backslash escaped, so the spliced literal differs from the one read.
   */
  lemma SplicedLiteralEscaped(p: string, k: nat)
    requires k < |p| && !Text.PlainChar(p[k], false)
    ensures QuoteOf(Literal("\"" + p + "\"")) == Quoted(p)
    ensures ConstTokens(p)[5] != Literal("\"" + p + "\"")
  {
    Text.EscapeLength(p, false);
    var s := "\"" + p + "\"";
    assert s[1..|s| - 1] == p;
  }

  /** In `#[...]`: a leading `mod` becomes `__mod`, whatever follows it. */
  function RenameLeading(stream: seq<Token>): (r: seq<Token>)
    ensures |r| == |stream|
    ensures forall k :: 1 <= k < |r| ==> r[k] == stream[k]
    ensures r != stream <==> |stream| >= 1 && stream[0] == ModKeyword
    ensures |stream| >= 1 && stream[0] == ModKeyword ==> r[0] == Ident(Sentinel)
  {
    if |stream| >= 1 && stream[0] == ModKeyword then stream[0 := Ident(Sentinel)] else stream
  }

  /** In `#![...]`: `mod` becomes `__mod` only when it is the sole token. */
  function RenameSole(stream: seq<Token>): (r: seq<Token>)
    ensures |r| == |stream|
    ensures r != stream <==> stream == [ModKeyword]
    ensures stream == [ModKeyword] ==> r == [Ident(Sentinel)]
  {
    if |stream| == 1 && stream[0] == ModKeyword then stream[0 := Ident(Sentinel)] else stream
  }

  /** A token that makes the loop body do something: `#` or the identifier `mod`. */
  predicate IsTrigger(t: Token)
  {
    t == Punct('#') || t == ModKeyword
  }

  /**
   * One iteration of the desugaring loop at index `i`. Only the groups right
   * after `#`, `#!` or `mod` are rebuilt, and only a `mod("...")` pair is
   * replaced (by six tokens); nothing before `i` changes.
   */
  function DesugarStep(tokens: seq<Token>, i: nat): (r: Result<seq<Token>, DesugarPanic>)
    requires i + 1 < |tokens|
    ensures !IsTrigger(tokens[i]) ==> r == Ok(tokens)
    ensures r.Err? ==> IsTrigger(tokens[i]) && r.error != EmptyInput
    ensures r.Ok? ==> |r.value| == |tokens| || |r.value| == |tokens| + 4
    ensures r.Ok? ==> r.value[..i] == tokens[..i]
    ensures r.Ok? && |r.value| == |tokens| ==>
              forall k :: 0 <= k < |tokens| && k != i + 1 && k != i + 2 ==> r.value[k] == tokens[k]
    ensures r.Ok? && |r.value| == |tokens| + 4 ==>
              tokens[i] == ModKeyword && r.value[i] == Ident("const") && r.value[i + 1] == Ident("r#mod") &&
              r.value[i + 6..] == tokens[i + 2..]
  {
    var t := tokens[i];
    if t == Punct('#') then
      var next := tokens[i + 1];
      if next.Group? && next.delim == Bracket then
        Ok(tokens[i + 1 := Group(Bracket, RenameLeading(next.stream))])
      else if next == Punct('!') then
        if i + 2 >= |tokens| then Err(IndexOutOfBounds(i + 2, |tokens|))
        else
          var g := tokens[i + 2];
          if g.Group? && g.delim == Bracket then Ok(tokens[i + 2 := Group(Bracket, RenameSole(g.stream))])
          else Ok(tokens)
      else Ok(tokens)
    else if t == ModKeyword then
      var next := tokens[i + 1];
      if next.Group? && next.delim == Parenthesis then
        if |next.stream| == 1 then
          match QuoteOf(next.stream[0])
          case NotQuoted => Ok(tokens)
          case Unsliceable(text) => Err(MalformedQuote(text))
          case Quoted(inner) =>
            var r := tokens[..i] + ConstTokens(inner) + tokens[i + 2..];
            assert r[i + 6..] == tokens[i + 2..];
            assert r[..i] == tokens[..i];
            Ok(r)
        else Ok(tokens[i + 1 := Group(Bracket, next.stream)])
      else Ok(tokens)
    else Ok(tokens)
  }

  /** The loop `for i in 0..bound`, where `bound` was fixed before the first iteration. */
  function DesugarLoop(tokens: seq<Token>, i: nat, bound: nat): (r: Result<seq<Token>, DesugarPanic>)
    requires i <= bound < |tokens|
    ensures r.Ok? ==> |r.value| >= |tokens|
    ensures r.Err? ==> r.error != EmptyInput
    decreases bound - i
  {
    if i == bound then Ok(tokens)
    else
      match DesugarStep(tokens, i)
      case Err(p) => Err(p)
      case Ok(next) => DesugarLoop(next, i + 1, bound)
  }

  /** What `desugar` turns the macro input into; the bound is the input length minus one. */
  function Desugared(input: seq<Token>): (r: Result<seq<Token>, DesugarPanic>)
    ensures input == [] <==> r == Err(EmptyInput)
    ensures r.Ok? ==> |r.value| >= |input|
  {
    if |input| == 0 then Err(EmptyInput) else DesugarLoop(input, 0, |input| - 1)
  }

  /** The `desugar` pass: an index loop that rewrites the token vector in place. */
  method Desugar(input: seq<Token>) returns (r: Result<seq<Token>, DesugarPanic>)
    ensures r == Desugared(input)
  {
    if |input| == 0 {
      return Err(EmptyInput);
    }
    var tokens := input;
    var bound := |input| - 1;
    for i := 0 to bound
      invariant |tokens| > bound
      invariant Desugared(input) == DesugarLoop(tokens, i, bound)
    {
      ghost var before := tokens;
      if tokens[i] == Punct('#') {
        var next := tokens[i + 1];
        if next.Group? && next.delim == Bracket {
          var stream := next.stream;
          if |stream| >= 1 && stream[0] == ModKeyword {
            stream := stream[0 := Ident(Sentinel)];
          }
          tokens := tokens[i + 1 := Group(Bracket, stream)];
        } else if next == Punct('!') {
          if i + 2 >= |tokens| {
            return Err(IndexOutOfBounds(i + 2, |tokens|));
          }
          var g := tokens[i + 2];
          if g.Group? && g.delim == Bracket {
            var stream := g.stream;
            if |stream| == 1 && stream[0] == ModKeyword {
              stream := stream[0 := Ident(Sentinel)];
            }
            tokens := tokens[i + 2 := Group(Bracket, stream)];
          }
        }
      } else if tokens[i] == ModKeyword {
        var next := tokens[i + 1];
        if next.Group? && next.delim == Parenthesis {
          var stream := next.stream;
          if |stream| == 1 {
            var q := QuoteOf(stream[0]);
            if q.Unsliceable? {
              return Err(MalformedQuote(q.text));
            }
            if q.Quoted? {
              tokens := tokens[..i] + ConstTokens(q.inner) + tokens[i + 2..];
            }
          } else {
            tokens := tokens[i + 1 := Group(Bracket, stream)];
          }
        }
      }
      assert DesugarStep(before, i) == Ok(tokens);
    }
    return Ok(tokens);
  }

  // Properties of desugaring

  /** Iterations over tokens that are neither `#` nor `mod` change nothing. */
  lemma {:induction false} LoopLeavesPlainTokens(tokens: seq<Token>, i: nat, bound: nat)
    requires i <= bound < |tokens|
    requires forall k :: i <= k < bound ==> !IsTrigger(tokens[k])
    ensures DesugarLoop(tokens, i, bound) == Ok(tokens)
    decreases bound - i
  {
    if i < bound {
      LoopLeavesPlainTokens(tokens, i + 1, bound);
    }
  }

  /** Input without `#` and `mod` tokens at the top level comes out unchanged. */
  lemma PlainInputUnchanged(input: seq<Token>)
    requires input != []
    requires forall k :: 0 <= k < |input| ==> !IsTrigger(input[k])
    ensures Desugared(input) == Ok(input)
  {
    LoopLeavesPlainTokens(input, 0, |input| - 1);
  }

  /** Every splice adds four tokens and nothing else changes the length. */
  lemma {:induction false} LoopGrowsByFours(tokens: seq<Token>, i: nat, bound: nat)
    requires i <= bound < |tokens|
    requires DesugarLoop(tokens, i, bound).Ok?
    ensures (|DesugarLoop(tokens, i, bound).value| - |tokens|) % 4 == 0
    decreases bound - i
  {
    if i < bound {
      var next := DesugarStep(tokens, i).value;
      LoopGrowsByFours(next, i + 1, bound);
    }
  }

  /**
   * `#[mod ...]` at the start of a plain input: the first token of the
   * attribute becomes `__mod`, and nothing else changes.
   */
  lemma AttributeRenamed(rest: seq<Token>, tail: seq<Token>)
    requires forall k :: 0 <= k < |tail| ==> !IsTrigger(tail[k])
    ensures Desugared([Punct('#'), Group(Bracket, [ModKeyword] + rest)] + tail) ==
              Ok([Punct('#'), Group(Bracket, [Ident(Sentinel)] + rest)] + tail)
  {
    var input := [Punct('#'), Group(Bracket, [ModKeyword] + rest)] + tail;
    var renamed := [Punct('#'), Group(Bracket, [Ident(Sentinel)] + rest)] + tail;
    assert ([ModKeyword] + rest)[0 := Ident(Sentinel)] == [Ident(Sentinel)] + rest;
    assert input[1 := Group(Bracket, RenameLeading([ModKeyword] + rest))] == renamed;
    assert DesugarStep(input, 0) == Ok(renamed);
    assert forall k :: 1 <= k < |renamed| ==> !IsTrigger(renamed[k]) by {
      assert forall k :: 2 <= k < |renamed| ==> renamed[k] == tail[k - 2];
    }
    LoopLeavesPlainTokens(renamed, 1, |input| - 1);
  }

  /**
   * `#![mod, ...]` with more than one token keeps its `mod`: only a sole `mod`
   * is renamed in an inner attribute.
   */
  lemma InnerAttributeNeedsSoleMod(second: Token, tail: seq<Token>)
    requires forall k :: 0 <= k < |tail| ==> !IsTrigger(tail[k])
    ensures Desugared([Punct('#'), Punct('!'), Group(Bracket, [ModKeyword, second])] + tail) ==
              Ok([Punct('#'), Punct('!'), Group(Bracket, [ModKeyword, second])] + tail)
  {
    var input := [Punct('#'), Punct('!'), Group(Bracket, [ModKeyword, second])] + tail;
    assert input[1] == Punct('!') && input[2] == Group(Bracket, [ModKeyword, second]);
    assert RenameSole([ModKeyword, second]) == [ModKeyword, second];
    assert input[2 := input[2]] == input;
    assert DesugarStep(input, 0) == Ok(input);
    assert forall k :: 3 <= k < |input| ==> input[k] == tail[k - 3];
    LoopLeavesPlainTokens(input, 1, |input| - 1);
  }

  /** `#![mod]` at the start of a plain input becomes `#![__mod]`, and nothing else changes. */
  lemma InnerAttributeRenamed(tail: seq<Token>)
    requires forall k :: 0 <= k < |tail| ==> !IsTrigger(tail[k])
    ensures Desugared([Punct('#'), Punct('!'), Group(Bracket, [ModKeyword])] + tail) ==
              Ok([Punct('#'), Punct('!'), Group(Bracket, [Ident(Sentinel)])] + tail)
  {
    var input := [Punct('#'), Punct('!'), Group(Bracket, [ModKeyword])] + tail;
    var renamed := [Punct('#'), Punct('!'), Group(Bracket, [Ident(Sentinel)])] + tail;
    assert input[1] == Punct('!') && input[2] == Group(Bracket, [ModKeyword]);
    assert input[2 := Group(Bracket, RenameSole([ModKeyword]))] == renamed;
    assert DesugarStep(input, 0) == Ok(renamed);
    assert forall k :: 3 <= k < |renamed| ==> renamed[k] == tail[k - 3];
    LoopLeavesPlainTokens(renamed, 1, |input| - 1);
  }

  /**
   * `mod("p")` at the start becomes `const r#mod : _ = "p"`. Because the loop
   * bound was fixed before the splice, the last five tokens of what follows
   * are never looked at: they may hold `#` or `mod` and still come out as
   * they went in.
   */
  lemma InlineModSpliced(inner: string, tail: seq<Token>)
    requires forall k :: 0 <= k < |tail| - 5 ==> !IsTrigger(tail[k])
    ensures Desugared([ModKeyword, Group(Parenthesis, [Literal("\"" + inner + "\"")])] + tail) ==
              Ok(ConstTokens(inner) + tail)
  {
    var quoted := "\"" + inner + "\"";
    var input := [ModKeyword, Group(Parenthesis, [Literal(quoted)])] + tail;
    var spliced := ConstTokens(inner) + tail;
    assert QuoteOf(Literal(quoted)) == Quoted(inner) by {
      assert quoted[1..|quoted| - 1] == inner;
    }
    assert input[2..] == tail;
    assert input[1].stream == [Literal(quoted)];
    assert input[..0] + ConstTokens(inner) + input[2..] == spliced;
    assert DesugarStep(input, 0) == Ok(spliced);
    assert forall k :: 1 <= k < |input| - 1 ==> !IsTrigger(spliced[k]) by {
      assert forall k :: 6 <= k < |spliced| ==> spliced[k] == tail[k - 6];
    }
    LoopLeavesPlainTokens(spliced, 1, |input| - 1);
  }

  /** `proc_use!{ mod("a.rs"); mod("b.rs"); }`: the second `mod(...)` is left as written. */
  lemma SecondInlineModLeftAlone()
    ensures var semi := Punct(';');
            Desugared([ModKeyword, Group(Parenthesis, [Literal("\"a.rs\"")]), semi,
                       ModKeyword, Group(Parenthesis, [Literal("\"b.rs\"")]), semi]) ==
              Ok(ConstTokens("a.rs") + [semi, ModKeyword, Group(Parenthesis, [Literal("\"b.rs\"")]), semi])
  {
    var semi := Punct(';');
    var tail := [semi, ModKeyword, Group(Parenthesis, [Literal("\"b.rs\"")]), semi];
    InlineModSpliced("a.rs", tail);
    assert "\"" + "a.rs" + "\"" == "\"a.rs\"";
    assert [ModKeyword, Group(Parenthesis, [Literal("\"a.rs\"")])] + tail ==
           [ModKeyword, Group(Parenthesis, [Literal("\"a.rs\"")]), semi,
            ModKeyword, Group(Parenthesis, [Literal("\"b.rs\"")]), semi];
  }

  /** `mod(...)` with other than one token keeps its contents but now in brackets. */
  lemma ModGroupRebracketed(stream: seq<Token>, tail: seq<Token>)
    requires |stream| != 1
    requires forall k :: 0 <= k < |tail| ==> !IsTrigger(tail[k])
    ensures Desugared([ModKeyword, Group(Parenthesis, stream)] + tail) ==
              Ok([ModKeyword, Group(Bracket, stream)] + tail)
  {
    var input := [ModKeyword, Group(Parenthesis, stream)] + tail;
    var out := [ModKeyword, Group(Bracket, stream)] + tail;
    assert input[1 := Group(Bracket, stream)] == out;
    assert DesugarStep(input, 0) == Ok(out);
    assert forall k :: 2 <= k < |out| ==> out[k] == tail[k - 2];
    LoopLeavesPlainTokens(out, 1, |input| - 1);
  }

  /** A trailing `#!` makes `desugar` index past the end. */
  lemma TrailingHashBangPanics(prefix: seq<Token>)
    requires forall k :: 0 <= k < |prefix| ==> !IsTrigger(prefix[k])
    ensures Desugared(prefix + [Punct('#'), Punct('!')]) == Err(IndexOutOfBounds(|prefix| + 2, |prefix| + 2))
  {
    var input := prefix + [Punct('#'), Punct('!')];
    var n := |prefix|;
    assert input[n] == Punct('#') && input[n + 1] == Punct('!');
    assert forall k :: 0 <= k < n ==> input[k] == prefix[k];
    LoopStopsAtPanic(input, 0, n, n + 1);
  }

  /** When the iterations before `j` change nothing, the loop's result is decided from `j` on. */
  lemma {:induction false} LoopStopsAtPanic(tokens: seq<Token>, i: nat, j: nat, bound: nat)
    requires i <= j < bound < |tokens|
    requires forall k :: i <= k < j ==> !IsTrigger(tokens[k])
    requires DesugarStep(tokens, j).Err?
    ensures DesugarLoop(tokens, i, bound) == Err(DesugarStep(tokens, j).error)
    decreases j - i
  {
    if i < j {
      LoopStopsAtPanic(tokens, i + 1, j, bound);
    }
  }

  // ---------------------------------------------------------------------------
  // Parsed items and the expansion pass

  datatype Visibility = Inherited | Public | Restricted

  datatype Lit = Str(value: string) | OtherLit

  /** An expression: a literal (with the number of attributes on it), or anything else. */
  datatype Expr = LitExpr(attrCount: nat, lit: Lit) | OtherExpr

  /**
   * The tokens after an attribute's path: none, tokens that parse as one
   * parenthesised expression, or tokens that do not (kept as their text).
   */
  datatype AttrArgs = NoArgs | Paren(expr: Expr) | NotParen(source: string)

  datatype Attribute = Attribute(segments: seq<string>, args: AttrArgs)

  datatype UseTree =
    | UsePath(ident: string, subtree: UseTree)
    | UseName(name: string)
    | UseRename(name: string, rename: string)
    | UseGlob
    | UseGroup(items: seq<UseTree>)

  datatype Type = Infer | OtherType

  datatype Item =
    | UseItem(attrs: seq<Attribute>, vis: Visibility, leadingColon: bool, tree: UseTree) // leadingColon: `use ::a`
    | ConstItem(attrs: seq<Attribute>, vis: Visibility, ident: string, ty: Type, expr: Expr)
    | OtherItem(kind: string)

  /** A generated `mod name;`, with `#[path = "..."]` when `path` is given. */
  datatype ModDecl = ModDecl(path: Option<string>, name: string)

  /** A compile error: one of the macro's messages, or syn failing to parse some input. */
  datatype Diagnostic =
    | Message(text: string)          // a message of the macro's own
    | SynParseFailure(input: string) // syn could not parse this text as the item it wanted
    | FileParseFailure               // the desugared tokens are not a sequence of items

  /** The macro output: generated modules, then the kept `use` items; or one compile error. */
  datatype Expansion = Generated(mods: seq<ModDecl>, uses: seq<Item>) | CompileError(diagnostic: Diagnostic)

  const NotUseMessage :=
    "Error: Expected syn::ItemUse. More info found at https://docs.rs/syn/1.0.30/syn/struct.ItemUse.html."
  const ConstSyntaxMessage := "Error: found const r#mod without proper syntax. Likely an internal error."
  const NotRustFileMessage := "Invalid file. Possible causes: file is not a Rust file."
  const NotRegularFileMessage := "Invalid file. Possible causes: does not exist, is not a regular file."
  const NotStringMessage := "Expected string literal for path"

  /** `ident_match`: true when the identifier is `term`, an error otherwise; never false. */
  function IdentMatch(term: string, ident: string): (r: Result<bool, Diagnostic>)
    ensures r.Ok? <==> ident == term
    ensures r.Ok? ==> r.value
    ensures r.Err? ==> r.error.Message?
  {
    if ident == term then Ok(true)
    else Err(Message("Error expected ident to say " + term + " and got " + ident + "."))
  }

  /**
   * `extract_path`: the path override the item's one attribute gives, None when
   * there is no attribute or it has no arguments, and an error for anything
   * else. (It pops the attribute it reads, but the caller clears them all.)
   */
  function ExtractPath(attrStr: string, attrs: seq<Attribute>): (r: Result<Option<string>, Diagnostic>)
    ensures |attrs| == 0 ==> r == Ok(None)
    ensures |attrs| > 1 ==>
              r == Err(Message("Error: expected 1 attribute but recieved " + Text.NatToString(|attrs|) + "."))
    ensures |attrs| == 1 && |attrs[0].segments| != 1 ==>
              r == Err(Message("Error: expected 1 segment but recieved " +
                               Text.NatToString(|attrs[0].segments|) + "."))
    ensures |attrs| == 1 && |attrs[0].segments| == 1 && attrs[0].segments[0] != attrStr ==> r.Err?
    ensures r == Ok(None) <==>
              |attrs| == 0 || (|attrs| == 1 && attrs[0].segments == [attrStr] && attrs[0].args == NoArgs)
    ensures r.Ok? && r.value.Some? <==>
              |attrs| == 1 && attrs[0].segments == [attrStr] &&
              attrs[0].args.Paren? && attrs[0].args.expr.LitExpr? && attrs[0].args.expr.lit.Str?
    ensures r.Ok? && r.value.Some? ==> r.value.value == attrs[0].args.expr.lit.value
  {
    if |attrs| == 1 then
      var attr := attrs[0];
      var n := |attr.segments|;
      if n < 1 || n > 1 then
        Err(Message("Error: expected 1 segment but recieved " + Text.NatToString(n) + "."))
      else
        match IdentMatch(attrStr, attr.segments[0])
        case Err(e) => Err(e)
        case Ok(matched) =>
          if matched && attr.args != NoArgs then
            match attr.args
            case Paren(LitExpr(_, Str(path))) => Ok(Some(path))
            case Paren(_) => Err(Message(NotStringMessage))
            case NotParen(source) => Err(SynParseFailure(source))
          else Ok(None)
    else if |attrs| > 1 then
      Err(Message("Error: expected 1 attribute but recieved " + Text.NatToString(|attrs|) + "."))
    else Ok(None)
  }

  /** `tree_path`: the leading identifier of a path tree, "err" for any other tree. */
  function TreePath(tree: UseTree): string
  {
    match tree
    case UsePath(ident, _) => ident
    case _ => "err"
  }

  /** `tree_paths`: one name per item of a top-level group, else the one `tree_path`. */
  function TreePaths(tree: UseTree): (r: seq<string>)
    ensures |r| == 0 <==> tree == UseGroup([])
    ensures tree.UseGroup? ==> |r| == |tree.items|
    ensures !tree.UseGroup? ==> r == [TreePath(tree)]
  {
    match tree
    case UseGroup(items) => seq(|items|, i requires 0 <= i < |items| => TreePath(items[i]))
    case _ => [TreePath(tree)]
  }

  /** The text handed to syn to build a module item. */
  function ModItemText(name: string): string
  {
    "mod " + name + ";"
  }

  /** `names[i]` is the first name whose `mod` item does not parse. */
  predicate FirstUnparsed(names: seq<string>, parsesAsMod: string -> bool, i: nat)
  {
    i < |names| && !parsesAsMod(ModItemText(names[i])) &&
    forall k :: 0 <= k < i ==> parsesAsMod(ModItemText(names[k]))
  }

  /**
   * The modules without a path override for `names`, in order; the first name
   * whose `mod` item does not parse is the error.
   */
  function PlainMods(names: seq<string>, parsesAsMod: string -> bool): (r: Result<seq<ModDecl>, Diagnostic>)
    ensures r.Ok? <==> forall i :: 0 <= i < |names| ==> parsesAsMod(ModItemText(names[i]))
    ensures r.Ok? ==> |r.value| == |names|
    ensures r.Ok? ==> forall i :: 0 <= i < |names| ==> r.value[i] == ModDecl(None, names[i])
    ensures r.Err? ==> exists i :: 0 <= i < |names| && FirstUnparsed(names, parsesAsMod, i) &&
                                   r.error == SynParseFailure(ModItemText(names[i]))
    decreases |names|
  {
    if names == [] then Ok([])
    else if !parsesAsMod(ModItemText(names[0])) then Err(SynParseFailure(ModItemText(names[0])))
    else
      match PlainMods(names[1..], parsesAsMod)
      case Err(e) => Err(e)
      case Ok(rest) => Ok([ModDecl(None, names[0])] + rest)
  }

  /** The module with a path override `path` named `name`, if its `mod` item parses. */
  function PathMod(name: string, path: string, parsesAsMod: string -> bool): (r: Result<ModDecl, Diagnostic>)
    ensures r.Ok? <==> parsesAsMod(ModItemText(name))
    ensures r.Ok? ==> r.value == ModDecl(Some(path), name)
    ensures r.Err? ==> r.error == SynParseFailure(ModItemText(name))
  {
    if parsesAsMod(ModItemText(name)) then Ok(ModDecl(Some(path), name))
    else Err(SynParseFailure(ModItemText(name)))
  }

  /**
   * The desugared `mod("path")` item: a module named after the stem of the
   * `.rs` file at `path`, with `path` as its path override.
   */
  function ConstMod(ty: Type, expr: Expr, parsesAsMod: string -> bool): (r: Result<ModDecl, Diagnostic>)
    ensures r.Ok? ==> r.value.path.Some? && ty == Infer && expr == LitExpr(0, Str(r.value.path.value))
    ensures r.Ok? ==> Paths.RustStem(r.value.path.value) == Ok(r.value.name)
    ensures !(ty == Infer && expr.LitExpr? && expr.attrCount == 0 && expr.lit.Str?) ==>
              r == Err(Message(ConstSyntaxMessage))
    ensures ty == Infer && expr.LitExpr? && expr.attrCount == 0 && expr.lit.Str? ==>
              var stem := Paths.RustStem(expr.lit.value);
              (stem == Err(Paths.NotRustFile) ==> r == Err(Message(NotRustFileMessage))) &&
              (stem == Err(Paths.NotRegularFile) ==> r == Err(Message(NotRegularFileMessage))) &&
              (stem.Ok? ==> (r.Ok? <==> parsesAsMod(ModItemText(stem.value))))
  {
    match (ty, expr)
    case (Infer, LitExpr(0, Str(path))) =>
      match Paths.RustStem(path) {
        case Ok(stem) => PathMod(stem, path, parsesAsMod)
        case Err(problem) =>
          Err(Message(if problem == Paths.NotRustFile then NotRustFileMessage else NotRegularFileMessage))
      }
    case _ => Err(Message(ConstSyntaxMessage))
  }

  /** A `use` item as it is emitted: its attributes cleared, the rest unchanged. */
  function Stripped(item: Item): Item
    requires item.UseItem?
  {
    UseItem([], item.vis, item.leadingColon, item.tree)
  }

  /**
   * What one item contributes: the modules it generates and the `use` items it
   * keeps, or the compile error that replaces the whole output.
   */
  function ItemStep(item: Item, parsesAsMod: string -> bool): (r: Result<(seq<ModDecl>, seq<Item>), Diagnostic>)
    ensures item.OtherItem? ==> r == Err(Message(NotUseMessage))
    ensures item.ConstItem? && !(|item.attrs| == 0 && item.vis == Inherited && item.ident == "r#mod") ==>
              r == Err(Message(NotUseMessage))
    ensures r.Ok? && item.UseItem? ==> r.value.1 == [Stripped(item)]
    ensures r.Ok? && item.ConstItem? ==>
              r.value.1 == [] && ConstMod(item.ty, item.expr, parsesAsMod).Ok? &&
              r.value.0 == [ConstMod(item.ty, item.expr, parsesAsMod).value]
  {
    match item
    case UseItem(attrs, vis, colon, tree) =>
      var kept := UseItem([], vis, colon, tree);
      match ExtractPath(Sentinel, attrs) {
        case Err(e) => Err(e)
        case Ok(None) =>
          match PlainMods(TreePaths(tree), parsesAsMod) {
            case Err(e) => Err(e)
            case Ok(mods) => Ok((mods, [kept]))
          }
        case Ok(Some(path)) =>
          match PathMod(TreePath(tree), path, parsesAsMod) {
            case Err(e) => Err(e)
            case Ok(m) => Ok(([m], [kept]))
          }
      }
    case ConstItem(attrs, vis, ident, ty, expr) =>
      if |attrs| == 0 && vis == Inherited && ident == "r#mod" then
        match ConstMod(ty, expr, parsesAsMod) {
          case Err(e) => Err(e)
          case Ok(m) => Ok(([m], []))
        }
      else Err(Message(NotUseMessage))
    case OtherItem(_) => Err(Message(NotUseMessage))
  }

  /** The contributions of earlier items in front of an expansion; an error stays the error. */
  function Prefixed(mods: seq<ModDecl>, uses: seq<Item>, e: Expansion): Expansion
  {
    match e
    case CompileError(_) => e
    case Generated(m, u) => Generated(mods + m, uses + u)
  }

  /** What `expand` produces for the parsed items. */
  function Expanded(items: seq<Item>, parsesAsMod: string -> bool): Expansion
    decreases |items|
  {
    if items == [] then Generated([], [])
    else
      match ItemStep(items[0], parsesAsMod)
      case Err(e) => CompileError(e)
      case Ok((mods, uses)) => Prefixed(mods, uses, Expanded(items[1..], parsesAsMod))
  }

  /** Earlier contributions in front of later ones add up. */
  lemma PrefixedTwice(mods: seq<ModDecl>, uses: seq<Item>, mods': seq<ModDecl>, uses': seq<Item>, e: Expansion)
    ensures Prefixed(mods, uses, Prefixed(mods', uses', e)) == Prefixed(mods + mods', uses + uses', e)
  {
    if e.Generated? {
      assert mods + (mods' + e.mods) == mods + mods' + e.mods;
      assert uses + (uses' + e.uses) == uses + uses' + e.uses;
    }
  }

  /**
   * The inner loop of `expand` for a `use` item without a path override: push
   * one module per name, stopping at the first name whose `mod` item does not parse.
   */
  method PushPlainMods(modStmts: seq<ModDecl>, names: seq<string>, parsesAsMod: string -> bool)
    returns (r: Result<seq<ModDecl>, Diagnostic>)
    ensures r.Ok? <==> PlainMods(names, parsesAsMod).Ok?
    ensures r.Ok? ==> r.value == modStmts + PlainMods(names, parsesAsMod).value
    ensures r.Err? ==> r.error == PlainMods(names, parsesAsMod).error
  {
    var pushed := modStmts;
    for j := 0 to |names|
      invariant forall k :: 0 <= k < j ==> parsesAsMod(ModItemText(names[k]))
      invariant |pushed| == |modStmts| + j
      invariant pushed[..|modStmts|] == modStmts
      invariant forall k :: 0 <= k < j ==> pushed[|modStmts| + k] == ModDecl(None, names[k])
    {
      var modStmt := ModItemText(names[j]);
      if !parsesAsMod(modStmt) {
        assert FirstUnparsed(names, parsesAsMod, j);
        return Err(SynParseFailure(modStmt));
      }
      pushed := pushed + [ModDecl(None, names[j])];
    }
    assert pushed == modStmts + PlainMods(names, parsesAsMod).value;
    return Ok(pushed);
  }

  /** The `expand` pass: a loop over the items pushing onto two vectors, with early returns. */
  method Expand(items: seq<Item>, parsesAsMod: string -> bool) returns (out: Expansion)
    ensures out == Expanded(items, parsesAsMod)
  {
    var modStmts: seq<ModDecl> := [];
    var useStmts: seq<Item> := [];
    for i := 0 to |items|
      invariant Expanded(items, parsesAsMod) == Prefixed(modStmts, useStmts, Expanded(items[i..], parsesAsMod))
    {
      assert items[i..][0] == items[i] && items[i..][1..] == items[i + 1..];
      ghost var mods0, uses0 := modStmts, useStmts;
      match items[i] {
        case UseItem(attrs, vis, colon, tree) =>
          var res := ExtractPath(Sentinel, attrs);
          var itemUse := UseItem([], vis, colon, tree);
          match res {
            case Err(e) =>
              return CompileError(e);
            case Ok(None) =>
              var pushed := PushPlainMods(modStmts, TreePaths(tree), parsesAsMod);
              if pushed.Err? {
                return CompileError(pushed.error);
              }
              modStmts := pushed.value;
            case Ok(Some(path)) =>
              var modName := TreePath(tree);
              var modStmt := ModItemText(modName);
              if !parsesAsMod(modStmt) {
                return CompileError(SynParseFailure(modStmt));
              }
              modStmts := modStmts + [ModDecl(Some(path), modName)];
          }
          useStmts := useStmts + [itemUse];
        case ConstItem(attrs, vis, ident, ty, expr) =>
          if !(|attrs| == 0 && vis == Inherited && ident == "r#mod") {
            return CompileError(Message(NotUseMessage));
          }
          var m := ConstMod(ty, expr, parsesAsMod);
          if m.Err? {
            return CompileError(m.error);
          }
          modStmts := modStmts + [m.value];
          assert useStmts == uses0 + [];
        case OtherItem(_) =>
          return CompileError(Message(NotUseMessage));
      }
      var (mods, uses) := ItemStep(items[i], parsesAsMod).value;
      PrefixedTwice(mods0, uses0, mods, uses, Expanded(items[i + 1..], parsesAsMod));
    }
    assert items[|items|..] == [];
    return Generated(modStmts, useStmts);
  }

  /** The `use` items among `items`, in order, with their attributes cleared. */
  function KeptUses(items: seq<Item>): seq<Item>
    decreases |items|
  {
    if items == [] then []
    else (if items[0].UseItem? then [Stripped(items[0])] else []) + KeptUses(items[1..])
  }

  /** Modules without a path override, one per name, in order. */
  function Unpathed(names: seq<string>): seq<ModDecl>
  {
    seq(|names|, i requires 0 <= i < |names| => ModDecl(None, names[i]))
  }

  /**
   * Expanding a concatenation expands the first part, then the second: the
   * modules and uses of earlier items come first, and an error in the first
   * part is the whole result.
   */
  lemma {:induction false} ExpandedConcat(a: seq<Item>, b: seq<Item>, parsesAsMod: string -> bool)
    ensures Expanded(a + b, parsesAsMod) ==
              match Expanded(a, parsesAsMod)
              case CompileError(_) => Expanded(a, parsesAsMod)
              case Generated(mods, uses) => Prefixed(mods, uses, Expanded(b, parsesAsMod))
    decreases |a|
  {
    if a == [] {
      assert a + b == b;
      var e := Expanded(b, parsesAsMod);
      if e.Generated? {
        assert [] + e.mods == e.mods && [] + e.uses == e.uses;
      }
    } else {
      assert (a + b)[0] == a[0] && (a + b)[1..] == a[1..] + b;
      ExpandedConcat(a[1..], b, parsesAsMod);
      var step := ItemStep(a[0], parsesAsMod);
      if step.Ok? {
        var rest := Expanded(a[1..], parsesAsMod);
        if rest.Generated? {
          PrefixedTwice(step.value.0, step.value.1, rest.mods, rest.uses, Expanded(b, parsesAsMod));
        }
      }
    }
  }

  /**
   * `expand` generates output exactly when every item is accepted, and the
   * `use` items it emits are the input's `use` items, in order, attributes cleared.
   */
  lemma {:induction false} ExpandedGenerated(items: seq<Item>, parsesAsMod: string -> bool)
    ensures Expanded(items, parsesAsMod).Generated? <==>
              forall i :: 0 <= i < |items| ==> ItemStep(items[i], parsesAsMod).Ok?
    ensures Expanded(items, parsesAsMod).Generated? ==> Expanded(items, parsesAsMod).uses == KeptUses(items)
    decreases |items|
  {
    if items != [] {
      ExpandedGenerated(items[1..], parsesAsMod);
      assert forall i :: 1 <= i < |items| ==> items[i] == items[1..][i - 1];
      var step := ItemStep(items[0], parsesAsMod);
      if step.Ok? {
        assert step.value.1 == if items[0].UseItem? then [Stripped(items[0])] else [];
      }
    }
  }

  /** `items[i]` is the first item `expand` refuses. */
  predicate FirstRefused(items: seq<Item>, parsesAsMod: string -> bool, i: nat)
  {
    i < |items| && ItemStep(items[i], parsesAsMod).Err? &&
    forall k :: 0 <= k < i ==> ItemStep(items[k], parsesAsMod).Ok?
  }

  /** A compile error from `expand` is the error of the first item it refuses. */
  lemma {:induction false} ExpandedFirstError(items: seq<Item>, parsesAsMod: string -> bool)
    ensures Expanded(items, parsesAsMod).CompileError? ==>
              exists i: nat :: FirstRefused(items, parsesAsMod, i) &&
                          Expanded(items, parsesAsMod).diagnostic == ItemStep(items[i], parsesAsMod).error
    decreases |items|
  {
    if items != [] && Expanded(items, parsesAsMod).CompileError? {
      if ItemStep(items[0], parsesAsMod).Err? {
        assert FirstRefused(items, parsesAsMod, 0);
      } else {
        ExpandedFirstError(items[1..], parsesAsMod);
        var j: nat :| FirstRefused(items[1..], parsesAsMod, j) &&
                 Expanded(items[1..], parsesAsMod).diagnostic == ItemStep(items[1..][j], parsesAsMod).error;
        assert forall k :: 1 <= k <= j + 1 ==> items[k] == items[1..][k - 1];
        assert FirstRefused(items, parsesAsMod, j + 1);
      }
    }
  }

  /**
   * A `use` item marked `#[mod]` (renamed `#[__mod]`), and also one with no
   * attribute at all, generates one module per leading path segment of its
   * tree, and is kept with its attributes cleared.
   */
  lemma MarkedUseModules(vis: Visibility, leadingColon: bool, tree: UseTree, parsesAsMod: string -> bool)
    requires forall i :: 0 <= i < |TreePaths(tree)| ==> parsesAsMod(ModItemText(TreePaths(tree)[i]))
    ensures ItemStep(UseItem([Attribute([Sentinel], NoArgs)], vis, leadingColon, tree), parsesAsMod) ==
              Ok((Unpathed(TreePaths(tree)), [UseItem([], vis, leadingColon, tree)]))
    ensures ItemStep(UseItem([], vis, leadingColon, tree), parsesAsMod) ==
              Ok((Unpathed(TreePaths(tree)), [UseItem([], vis, leadingColon, tree)]))
  {
    var names := TreePaths(tree);
    assert PlainMods(names, parsesAsMod).value == Unpathed(names);
  }

  /**
   * A top-level group names one module per member; a group below a path
   * segment names only that segment; anything but a path is named "err".
   */
  lemma GroupModules(parsesAsMod: string -> bool)
    requires parsesAsMod("mod foo;") && parsesAsMod("mod bar;") && parsesAsMod("mod a;")
    ensures var tree := UseGroup([UsePath("foo", UseGlob), UsePath("bar", UseName("Baz"))]);
            ItemStep(UseItem([], Inherited, false, tree), parsesAsMod) ==
              Ok(([ModDecl(None, "foo"), ModDecl(None, "bar")], [UseItem([], Inherited, false, tree)]))
    ensures var tree := UsePath("a", UseGroup([UseName("b"), UseName("c")]));
            ItemStep(UseItem([], Inherited, false, tree), parsesAsMod) ==
              Ok(([ModDecl(None, "a")], [UseItem([], Inherited, false, tree)]))
    ensures TreePaths(UseName("x")) == ["err"]
  {
    var group := UseGroup([UsePath("foo", UseGlob), UsePath("bar", UseName("Baz"))]);
    assert TreePaths(group) == ["foo", "bar"];
    assert ModItemText("foo") == "mod foo;" && ModItemText("bar") == "mod bar;" && ModItemText("a") == "mod a;";
    MarkedUseModules(Inherited, false, group, parsesAsMod);
    assert Unpathed(["foo", "bar"]) == [ModDecl(None, "foo"), ModDecl(None, "bar")];
    var nested := UsePath("a", UseGroup([UseName("b"), UseName("c")]));
    assert TreePaths(nested) == ["a"];
    MarkedUseModules(Inherited, false, nested, parsesAsMod);
    assert Unpathed(["a"]) == [ModDecl(None, "a")];
  }

  /** `#[mod("p")]` on a `use` item generates the one module of its first segment, with path `p`. */
  lemma PathUseModule(path: string, vis: Visibility, leadingColon: bool, tree: UseTree, parsesAsMod: string -> bool)
    requires parsesAsMod(ModItemText(TreePath(tree)))
    ensures ItemStep(UseItem([Attribute([Sentinel], Paren(LitExpr(0, Str(path))))], vis, leadingColon, tree), parsesAsMod) ==
              Ok(([ModDecl(Some(path), TreePath(tree))], [UseItem([], vis, leadingColon, tree)]))
  {
  }

  /** Any other attribute on a `use` item is refused with the message for it. */
  lemma ForeignAttributesRefused(vis: Visibility, leadingColon: bool, tree: UseTree, parsesAsMod: string -> bool)
    ensures ItemStep(UseItem([Attribute(["derive"], NoArgs)], vis, leadingColon, tree), parsesAsMod) ==
              Err(Message("Error expected ident to say __mod and got derive."))
    ensures ItemStep(UseItem([Attribute(["a", "b"], NoArgs)], vis, leadingColon, tree), parsesAsMod) ==
              Err(Message("Error: expected 1 segment but recieved 2."))
    ensures ItemStep(UseItem([Attribute([Sentinel], NoArgs), Attribute([Sentinel], NoArgs)], vis, leadingColon, tree), parsesAsMod) ==
              Err(Message("Error: expected 1 attribute but recieved 2."))
    ensures ItemStep(UseItem([Attribute([Sentinel], Paren(OtherExpr))], vis, leadingColon, tree), parsesAsMod) ==
              Err(Message(NotStringMessage))
  {
    assert "Error expected ident to say " + Sentinel + " and got " + "derive" + "." ==
           "Error expected ident to say __mod and got derive.";
    assert Text.NatToString(2) == "2";
    assert "Error: expected 1 segment but recieved " + "2" + "." == "Error: expected 1 segment but recieved 2.";
    assert "Error: expected 1 attribute but recieved " + "2" + "." == "Error: expected 1 attribute but recieved 2.";
  }

  /** The desugared `mod("dir/stem.rs")` generates module `stem` with that path, and no use. */
  lemma ConstModuleFromRustFile(dir: string, stem: string, parsesAsMod: string -> bool)
    requires stem != "" && '/' !in stem && parsesAsMod(ModItemText(stem))
    ensures var path := dir + "/" + stem + ".rs";
            ItemStep(ConstItem([], Inherited, "r#mod", Infer, LitExpr(0, Str(path))), parsesAsMod) ==
              Ok(([ModDecl(Some(path), stem)], []))
  {
    Paths.RustFileStem(dir, stem);
  }

  /** A desugared `mod("p")` whose path fails the `.rs` check is refused with the message for why. */
  lemma ConstModuleRefused(path: string, parsesAsMod: string -> bool)
    ensures Paths.RustStem(path) == Err(Paths.NotRustFile) ==>
              ItemStep(ConstItem([], Inherited, "r#mod", Infer, LitExpr(0, Str(path))), parsesAsMod) ==
                Err(Message(NotRustFileMessage))
    ensures Paths.RustStem(path) == Err(Paths.NotRegularFile) ==>
              ItemStep(ConstItem([], Inherited, "r#mod", Infer, LitExpr(0, Str(path))), parsesAsMod) ==
                Err(Message(NotRegularFileMessage))
  {
  }

  /** The desugared `mod("dir/stem.ext")` with another extension is refused as not a Rust file. */
  lemma ConstModuleOtherExtension(dir: string, stem: string, ext: string, parsesAsMod: string -> bool)
    requires stem != "" && '/' !in stem
    requires '/' !in ext && '.' !in ext && ext != "rs"
    requires stem != "." || ext != ""
    ensures ItemStep(ConstItem([], Inherited, "r#mod", Infer, LitExpr(0, Str(dir + "/" + stem + "." + ext))),
                     parsesAsMod) == Err(Message(NotRustFileMessage))
  {
    Paths.OtherExtensionStem(dir, stem, ext);
    ConstModuleRefused(dir + "/" + stem + "." + ext, parsesAsMod);
  }

  // ---------------------------------------------------------------------------
  // The macro: desugar, parse as a file, expand

  /** What `proc_use!` does with its input: a panic, or the tokens it expands to. */
  datatype MacroOutput = Expansion(expansion: Expansion) | Panic(reason: DesugarPanic)

  /**
   * The macro's behaviour, with syn's file parser as `parse`: a panic from
   * desugaring, a compile error when the desugared tokens are not items, or
   * the expansion of the items.
   */
  function MacroResult(input: seq<Token>, parse: seq<Token> -> Option<seq<Item>>, parsesAsMod: string -> bool): MacroOutput
  {
    match Desugared(input)
    case Err(p) => Panic(p)
    case Ok(tokens) =>
      match parse(tokens)
      case None => Expansion(CompileError(FileParseFailure))
      case Some(items) => Expansion(Expanded(items, parsesAsMod))
  }

  /** `proc_use`: desugar, parse, expand. */
  method ProcUse(input: seq<Token>, parse: seq<Token> -> Option<seq<Item>>, parsesAsMod: string -> bool)
    returns (out: MacroOutput)
    ensures out == MacroResult(input, parse, parsesAsMod)
  {
    var tokens := Desugar(input);
    if tokens.Err? {
      return Panic(tokens.error);
    }
    var items := parse(tokens.value);
    if items.None? {
      return Expansion(CompileError(FileParseFailure));
    }
    var expansion := Expand(items.value, parsesAsMod);
    return Expansion(expansion);
  }

  /** `proc_use!{ #[mod] use foo::*; }` declares `mod foo;` and keeps `use foo::*;`. */
  lemma MarkedGlobUse(parse: seq<Token> -> Option<seq<Item>>, parsesAsMod: string -> bool)
    requires var rest := [Ident("use"), Ident("foo"), Punct(':'), Punct(':'), Punct('*'), Punct(';')];
             parse([Punct('#'), Group(Bracket, [Ident(Sentinel)])] + rest) ==
               Some([UseItem([Attribute([Sentinel], NoArgs)], Inherited, false, UsePath("foo", UseGlob))])
    requires parsesAsMod("mod foo;")
    ensures MacroResult([Punct('#'), Group(Bracket, [ModKeyword]), Ident("use"), Ident("foo"),
                         Punct(':'), Punct(':'), Punct('*'), Punct(';')], parse, parsesAsMod) ==
              Expansion(Generated([ModDecl(None, "foo")], [UseItem([], Inherited, false, UsePath("foo", UseGlob))]))
  {
    var rest := [Ident("use"), Ident("foo"), Punct(':'), Punct(':'), Punct('*'), Punct(';')];
    AttributeRenamed([], rest);
    assert [ModKeyword] + [] == [ModKeyword] && [Ident(Sentinel)] + [] == [Ident(Sentinel)];
    assert [Punct('#'), Group(Bracket, [ModKeyword])] + rest ==
           [Punct('#'), Group(Bracket, [ModKeyword]), Ident("use"), Ident("foo"),
            Punct(':'), Punct(':'), Punct('*'), Punct(';')];
    var item := UseItem([Attribute([Sentinel], NoArgs)], Inherited, false, UsePath("foo", UseGlob));
    var kept := UseItem([], Inherited, false, UsePath("foo", UseGlob));
    assert ModItemText("foo") == "mod foo;";
    MarkedUseModules(Inherited, false, UsePath("foo", UseGlob), parsesAsMod);
    assert Unpathed(["foo"]) == [ModDecl(None, "foo")];
    assert ItemStep(item, parsesAsMod) == Ok(([ModDecl(None, "foo")], [kept]));
    assert [item][1..] == [];
    assert Expanded([item], parsesAsMod) == Prefixed([ModDecl(None, "foo")], [kept], Generated([], []));
    assert [ModDecl(None, "foo")] + [] == [ModDecl(None, "foo")] && [kept] + [] == [kept];
  }

  /** `proc_use!{ mod("dir/stem.rs"); }` declares module `stem` with that path, and no use. */
  lemma InlineModFile(dir: string, stem: string, parse: seq<Token> -> Option<seq<Item>>, parsesAsMod: string -> bool)
    requires stem != "" && '/' !in stem
    requires var path := dir + "/" + stem + ".rs";
             parse(ConstTokens(path) + [Punct(';')]) ==
               Some([ConstItem([], Inherited, "r#mod", Infer, LitExpr(0, Str(path)))])
    requires parsesAsMod(ModItemText(stem))
    ensures var path := dir + "/" + stem + ".rs";
            MacroResult([ModKeyword, Group(Parenthesis, [Literal("\"" + path + "\"")]), Punct(';')], parse, parsesAsMod) ==
              Expansion(Generated([ModDecl(Some(path), stem)], []))
  {
    var path := dir + "/" + stem + ".rs";
    InlineModSpliced(path, [Punct(';')]);
    assert [ModKeyword, Group(Parenthesis, [Literal("\"" + path + "\"")])] + [Punct(';')] ==
           [ModKeyword, Group(Parenthesis, [Literal("\"" + path + "\"")]), Punct(';')];
    ConstModuleFromRustFile(dir, stem, parsesAsMod);
    var item := ConstItem([], Inherited, "r#mod", Infer, LitExpr(0, Str(path)));
    var m := ModDecl(Some(path), stem);
    assert ItemStep(item, parsesAsMod) == Ok(([m], []));
    assert [item][1..] == [];
    assert Expanded([item], parsesAsMod) == Prefixed([m], [], Generated([], []));
    assert [m] + [] == [m];
  }
}
