/**
 * The few JavaScript built-ins the application's logic relies on, stated over
 * Dafny values: truthiness of optional strings and numbers (`||`, `!!`),
 * `String.prototype.trim`, `String.prototype.replace` with a string pattern,
 * `Array.prototype.join`, and `toUpperCase` on one character.
 */
module JsBuiltins {
  import opened Wrappers

  /** `!!x` for a value that is a string or undefined: the empty string is falsy. */
  predicate Truthy(x: Option<string>) {
    x.Some? && x.value != ""
  }

  /** `!!x` for a value that is a number or undefined: zero is falsy. */
  predicate TruthyNum(x: Option<int>) {
    x.Some? && x.value != 0
  }

  /** `a || b` on optional strings. */
  function Or(a: Option<string>, b: Option<string>): (r: Option<string>)
    ensures Truthy(a) ==> r == a
    ensures !Truthy(a) ==> r == b
  {
    if Truthy(a) then a else b
  }

  /** `a || d` where `d` is a number literal that is itself truthy. */
  function OrNum(a: Option<int>, d: int): (r: int)
    ensures TruthyNum(a) ==> r == a.value
    ensures !TruthyNum(a) ==> r == d
  {
    if TruthyNum(a) then a.value else d
  }

  // ---------------------------------------------------------------------
  // String.prototype.trim

  /** The characters `trim` removes: ECMAScript WhiteSpace and LineTerminator. */
  predicate IsWhitespace(c: char) {
    || c == '\t' || c == '\n' || c == '\U{000B}' || c == '\U{000C}' || c == '\r'
    || c == ' ' || c == '\U{00A0}' || c == '\U{1680}'
    || ('\U{2000}' <= c <= '\U{200A}')
    || c == '\U{2028}' || c == '\U{2029}' || c == '\U{202F}' || c == '\U{205F}'
    || c == '\U{3000}' || c == '\U{FEFF}'
  }

  /** Every character of `s` is whitespace (true of the empty string). */
  predicate AllWhitespace(s: string) {
    forall i :: 0 <= i < |s| ==> IsWhitespace(s[i])
  }

  /** Length of the longest whitespace prefix of `s`. */
  function LeadingWhitespace(s: string): (n: nat)
    ensures n <= |s|
    ensures forall i :: 0 <= i < n ==> IsWhitespace(s[i])
    ensures n < |s| ==> !IsWhitespace(s[n])
  {
    if s != [] && IsWhitespace(s[0]) then 1 + LeadingWhitespace(s[1..]) else 0
  }

  /** Length of the longest whitespace suffix of `s`. */
  function TrailingWhitespace(s: string): (n: nat)
    ensures n <= |s|
    ensures forall i :: |s| - n <= i < |s| ==> IsWhitespace(s[i])
    ensures n < |s| ==> !IsWhitespace(s[|s| - 1 - n])
  {
    if s != [] && IsWhitespace(s[|s| - 1]) then 1 + TrailingWhitespace(s[..|s| - 1]) else 0
  }

  /** `s` is `r` with only whitespace before it (the first `i` characters) and after it. */
  predicate PaddedAt(s: string, r: string, i: int) {
    && 0 <= i && i + |r| <= |s|
    && s == s[..i] + r + s[i + |r|..]
    && AllWhitespace(s[..i]) && AllWhitespace(s[i + |r|..])
  }

  /** `s.trim()`: `s` without its leading and trailing whitespace. */
  function Trim(s: string): (r: string)
    ensures r == "" <==> AllWhitespace(s)
    ensures r != "" ==> !IsWhitespace(r[0]) && !IsWhitespace(r[|r| - 1])
    ensures exists i :: PaddedAt(s, r, i)
  {
    var a := LeadingWhitespace(s);
    var t := s[a..];
    var r := t[..|t| - TrailingWhitespace(t)];
    assert s == s[..a] + r + s[a + |r|..];
    assert s[a + |r|..] == t[|t| - TrailingWhitespace(t)..];
    assert PaddedAt(s, r, a);
    assert r == "" ==> a == |s| || TrailingWhitespace(t) == |t|;
    r
  }

  /** Trimming what is already trimmed changes nothing. */
  lemma TrimIdempotent(s: string)
    ensures Trim(Trim(s)) == Trim(s)
  {
  }

  // ---------------------------------------------------------------------
  // String.prototype.replace(pattern: string, replacement: string)

  /** `p` occurs in `s` starting at index `k`. */
  predicate OccursAt(s: string, p: string, k: int) {
    0 <= k && k + |p| <= |s| && s[k..k + |p|] == p
  }

  /** `s.indexOf(p)`, with `None` for -1: the first index at which `p` occurs. */
  function IndexOf(s: string, p: string): (r: Option<nat>)
    ensures r.Some? ==> OccursAt(s, p, r.value)
    ensures r.Some? ==> forall k :: 0 <= k < r.value ==> !OccursAt(s, p, k)
    ensures r.None? ==> forall k :: 0 <= k ==> !OccursAt(s, p, k)
    decreases |s|
  {
    if |p| > |s| then None
    else if s[..|p|] == p then Some(0)
    else
      match IndexOf(s[1..], p)
      case None =>
        assert forall k :: 1 <= k ==> (OccursAt(s, p, k) <==> OccursAt(s[1..], p, k - 1));
        None
      case Some(j) =>
        assert forall k :: 1 <= k ==> (OccursAt(s, p, k) <==> OccursAt(s[1..], p, k - 1));
        Some(j + 1)
  }

  /**
   * `s.replace(p, rep)` for a string pattern and a replacement without `$`:
   * only the first occurrence of `p` is replaced; without one, `s` is returned.
   */
  function ReplaceFirst(s: string, p: string, rep: string): (r: string)
    ensures IndexOf(s, p).None? ==> r == s
    ensures IndexOf(s, p).Some? ==>
              var k := IndexOf(s, p).value;
              r == s[..k] + rep + s[k + |p|..]
  {
    match IndexOf(s, p)
    case None => s
    case Some(k) => s[..k] + rep + s[k + |p|..]
  }

  // ---------------------------------------------------------------------
  // Array.prototype.join(sep)

  /** `lines.join(sep)`: the elements with `sep` between consecutive ones. */
  function Join(lines: seq<string>, sep: string): string
  {
    if |lines| == 0 then ""
    else if |lines| == 1 then lines[0]
    else lines[0] + sep + Join(lines[1..], sep)
  }

  /** Every element followed by `sep`, concatenated. */
  function Terminated(lines: seq<string>, sep: string): string
  {
    if lines == [] then "" else lines[0] + sep + Terminated(lines[1..], sep)
  }

  /** Four lines, each ended by `sep`. */
  lemma TerminatedFour(a: string, b: string, c: string, d: string, sep: string)
    ensures Terminated([a, b, c, d], sep) == a + sep + b + sep + c + sep + d + sep
  {
    calc {
      Terminated([a, b, c, d], sep);
    == { assert [a, b, c, d][1..] == [b, c, d]; }
      a + sep + Terminated([b, c, d], sep);
    == { assert [b, c, d][1..] == [c, d]; }
      a + sep + (b + sep + Terminated([c, d], sep));
    == { assert [c, d][1..] == [d]; }
      a + sep + (b + sep + (c + sep + Terminated([d], sep)));
    == { assert [d][1..] == []; }
      a + sep + (b + sep + (c + sep + (d + sep + "")));
    ==
      a + sep + b + sep + c + sep + d + sep;
    }
  }

  /** Joining `xs + ys` with a non-empty `ys` ends every element of `xs` with the separator. */
  lemma {:induction false} JoinSplit(xs: seq<string>, ys: seq<string>, sep: string)
    requires ys != []
    ensures Join(xs + ys, sep) == Terminated(xs, sep) + Join(ys, sep)
  {
    if xs == [] {
      assert xs + ys == ys;
    } else {
      assert (xs + ys)[1..] == xs[1..] + ys;
      JoinSplit(xs[1..], ys, sep);
    }
  }

  /** `Terminated` distributes over concatenation. */
  lemma {:induction false} TerminatedAppend(xs: seq<string>, ys: seq<string>, sep: string)
    ensures Terminated(xs + ys, sep) == Terminated(xs, sep) + Terminated(ys, sep)
  {
    if xs == [] {
      assert xs + ys == ys;
    } else {
      assert (xs + ys)[1..] == xs[1..] + ys;
      TerminatedAppend(xs[1..], ys, sep);
    }
  }

  // ---------------------------------------------------------------------
  // Upper-casing the first character

  /** `c.toUpperCase()` for an ASCII letter; every other character is kept. */
  function ToUpperAscii(c: char): (u: char)
    ensures 'a' <= c <= 'z' ==> 'A' <= u <= 'Z' && u as int == c as int - 32
    ensures !('a' <= c <= 'z') ==> u == c
  {
    if 'a' <= c <= 'z' then (c as int - 32) as char else c
  }

  /** `s.charAt(0).toUpperCase() + s.slice(1)`. */
  function Capitalize(s: string): (r: string)
    ensures |r| == |s|
    ensures s != [] ==> r[0] == ToUpperAscii(s[0]) && r[1..] == s[1..]
  {
    if s == [] then "" else [ToUpperAscii(s[0])] + s[1..]
  }
}
