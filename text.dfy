/**
 * String helpers shared by the models: the `join` of a list of strings with a
 * separator (as `Vec::join` and itertools' `join` produce it), the matching
 * split into lines, character search, decimal and hexadecimal rendering of a
 * number, and the escaping Rust's `Debug` form and `Literal::string` apply to
 * the text of a string.
 */
module Text {

  /** The parts with `sep` between neighbours; "" for no parts. */
  function Join(sep: string, parts: seq<string>): string
  {
    if |parts| == 0 then ""
    else if |parts| == 1 then parts[0]
    else parts[0] + sep + Join(sep, parts[1..])
  }

  /** Joining one more part adds a separator only when there was a part before. */
  lemma {:induction false} JoinSnoc(sep: string, parts: seq<string>, last: string)
    ensures Join(sep, parts + [last]) == Join(sep, parts) + (if parts == [] then "" else sep) + last
  {
    if |parts| == 0 {
      assert parts + [last] == [last];
    } else if |parts| == 1 {
      assert parts + [last] == [parts[0], last];
      assert [parts[0], last][1..] == [last];
    } else {
      assert (parts + [last])[1..] == parts[1..] + [last];
      JoinSnoc(sep, parts[1..], last);
    }
  }

  /** The first index of `c` in `s`, or -1 when `c` does not occur. */
  function IndexOf(s: string, c: char): (k: int)
    ensures -1 <= k < |s|
    ensures k >= 0 ==> s[k] == c
    ensures forall j :: 0 <= j < |s| && (k < 0 || j < k) ==> s[j] != c
  {
    if |s| == 0 then -1
    else if s[0] == c then 0
    else
      var k := IndexOf(s[1..], c);
      if k < 0 then -1 else k + 1
  }

  /** The last index of `c` in `s`, or -1 when `c` does not occur. */
  function LastIndexOf(s: string, c: char): (k: int)
    ensures -1 <= k < |s|
    ensures k >= 0 ==> s[k] == c
    ensures forall j :: k < j < |s| ==> s[j] != c
  {
    if |s| == 0 then -1
    else if s[|s| - 1] == c then |s| - 1
    else LastIndexOf(s[..|s| - 1], c)
  }

  /** `s` split at every newline, as `str::split('\n')` does: "" gives [""]. */
  function Lines(s: string): (r: seq<string>)
    ensures |r| >= 1
    decreases |s|
  {
    var k := IndexOf(s, '\n');
    if k < 0 then [s] else [s[..k]] + Lines(s[k + 1..])
  }

  /** Splitting a newline-join of newline-free lines gives the lines back. */
  lemma {:induction false} LinesOfJoin(xs: seq<string>)
    requires xs != []
    requires forall i :: 0 <= i < |xs| ==> '\n' !in xs[i]
    ensures Lines(Join("\n", xs)) == xs
  {
    var x := xs[0];
    if |xs| == 1 {
      var k := IndexOf(x, '\n');
      assert k < 0;
    } else {
      var rest := Join("\n", xs[1..]);
      var s := x + "\n" + rest;
      assert Join("\n", xs) == s;
      var k := IndexOf(s, '\n');
      assert s[|x|] == '\n';
      assert k == |x|;
      assert s[..k] == x;
      assert s[k + 1..] == rest;
      LinesOfJoin(xs[1..]);
      assert [x] + xs[1..] == xs;
    }
  }

  /** The decimal digit for `d`. */
  function DigitChar(d: nat): char
    requires d < 10
  {
    "0123456789"[d]
  }

  /** `n` in decimal, as Rust's `{}` formats an unsigned integer. */
  function NatToString(n: nat): string
    decreases n
  {
    if n < 10 then [DigitChar(n)] else NatToString(n / 10) + [DigitChar(n % 10)]
  }

  /** The lowercase hexadecimal digit for `d`. */
  function HexDigit(d: nat): char
    requires d < 16
  {
    "0123456789abcdef"[d]
  }

  /** `n` in lowercase hexadecimal without leading zeros, as `{:x}` formats it. */
  function HexString(n: nat): (r: string)
    ensures |r| >= 1
    ensures forall i :: 0 <= i < |r| ==> r[i] in "0123456789abcdef"
    decreases n
  {
    if n < 16 then [HexDigit(n)] else HexString(n / 16) + [HexDigit(n % 16)]
  }

  /** An ASCII control character or DEL: Rust's `escape_debug` writes it as `\u{..}`. */
  predicate AsciiControl(c: char)
  {
    (c as int) < 0x20 || (c as int) == 0x7f
  }

  /**
   * One character as Rust's `escape_debug` writes it inside a string in
   * `Debug` form: backslash, double quote and the usual control characters
   * get a backslash escape, other ASCII control characters and DEL become
   * `\u{hex}`, and the single quote is escaped only when `singleQuote` is set
   * (`char::escape_debug` does, the `Debug` form of `str` does not).
   */
  function EscapeChar(c: char, singleQuote: bool): string
  {
    if c == '\\' then "\\\\"
    else if c == '"' then "\\\""
    else if c == '\'' && singleQuote then "\\'"
    else if c == '\n' then "\\n"
    else if c == '\r' then "\\r"
    else if c == '\t' then "\\t"
    else if c == '\0' then "\\0"
    else if AsciiControl(c) then "\\u{" + HexString(c as int) + "}"
    else [c]
  }

  /**
   * The text between the quotes of the `Debug` form of a string: every
   * character escaped by `EscapeChar`. With `singleQuote` unset this is also
   * the text of a string literal made by `Literal::string`.
   */
  function EscapeDebug(s: string, singleQuote: bool): string
    decreases |s|
  {
    if s == [] then "" else EscapeChar(s[0], singleQuote) + EscapeDebug(s[1..], singleQuote)
  }

  /** A character `EscapeChar` leaves as it is. */
  predicate PlainChar(c: char, singleQuote: bool)
  {
    !AsciiControl(c) && c != '\\' && c != '"' && !(singleQuote && c == '\'')
  }

  /** Exactly the plain characters are written as themselves; every other one starts a backslash escape. */
  lemma EscapeCharPlain(c: char, singleQuote: bool)
    ensures PlainChar(c, singleQuote) ==> EscapeChar(c, singleQuote) == [c]
    ensures !PlainChar(c, singleQuote) ==> |EscapeChar(c, singleQuote)| >= 2 && EscapeChar(c, singleQuote)[0] == '\\'
  {
  }

  /** Text with no character to escape is its own escape. */
  lemma {:induction false} EscapePlain(s: string, singleQuote: bool)
    requires forall i :: 0 <= i < |s| ==> PlainChar(s[i], singleQuote)
    ensures EscapeDebug(s, singleQuote) == s
    decreases |s|
  {
    if s != [] {
      EscapeCharPlain(s[0], singleQuote);
      EscapePlain(s[1..], singleQuote);
      assert [s[0]] + s[1..] == s;
    }
  }

  /** Escaping never shortens text, and keeps its length exactly when no character needs an escape. */
  lemma {:induction false} EscapeLength(s: string, singleQuote: bool)
    ensures |EscapeDebug(s, singleQuote)| >= |s|
    ensures |EscapeDebug(s, singleQuote)| == |s| <==> forall i :: 0 <= i < |s| ==> PlainChar(s[i], singleQuote)
    decreases |s|
  {
    if s != [] {
      EscapeCharPlain(s[0], singleQuote);
      EscapeLength(s[1..], singleQuote);
      assert forall i :: 1 <= i < |s| ==> s[i] == s[1..][i - 1];
    }
  }

  /** Escaping works character by character: the escape of a concatenation is the concatenation of the escapes. */
  lemma {:induction false} EscapeConcat(a: string, b: string, singleQuote: bool)
    ensures EscapeDebug(a + b, singleQuote) == EscapeDebug(a, singleQuote) + EscapeDebug(b, singleQuote)
    decreases |a|
  {
    if a == [] {
      assert a + b == b;
    } else {
      assert (a + b)[0] == a[0] && (a + b)[1..] == a[1..] + b;
      EscapeConcat(a[1..], b, singleQuote);
    }
  }

  /** Examples: U+0001 is written `\u{1}`, DEL `\u{7f}`, and `'` is escaped only when asked. */
  lemma EscapeExamples()
    ensures EscapeDebug([1 as char], false) == "\\u{1}"
    ensures EscapeDebug([0x7f as char], true) == "\\u{7f}"
    ensures EscapeDebug("'", true) == "\\'" && EscapeDebug("'", false) == "'"
  {
    assert HexString(1) == "1";
    assert HexString(0x7f) == HexString(7) + [HexDigit(15)];
    assert EscapeDebug([1 as char], false) == EscapeChar(1 as char, false) + EscapeDebug([], false);
    assert EscapeDebug([0x7f as char], true) == EscapeChar(0x7f as char, true) + EscapeDebug([], true);
    assert "'"[1..] == [];
  }
}
