/**
 * The pieces of JavaScript string semantics the bot relies on: the white-space class `\s`
 * (which is also what `String.prototype.trim` removes), the line terminators that `.` does
 * not match, `trim()` and `replace(/\s+/g, "")`.
 */
module JsString {

  /** A character of the ECMAScript WhiteSpace or LineTerminator productions, i.e. `\s`. */
  predicate IsSpace(c: char) {
    c == '\t' || c == '\n' || c == '\U{000B}' || c == '\U{000C}' || c == '\r' || c == ' '
    || c == '\U{00A0}' || c == '\U{1680}' || ('\U{2000}' <= c <= '\U{200A}')
    || c == '\U{2028}' || c == '\U{2029}' || c == '\U{202F}' || c == '\U{205F}'
    || c == '\U{3000}' || c == '\U{FEFF}'
  }

  /** The characters that `.` refuses to match, even under the `u` flag. */
  predicate IsLineTerminator(c: char) {
    c == '\n' || c == '\r' || c == '\U{2028}' || c == '\U{2029}'
  }

  predicate AllSpace(s: string) {
    forall i | 0 <= i < |s| :: IsSpace(s[i])
  }

  predicate NoSpace(s: string) {
    forall i | 0 <= i < |s| :: !IsSpace(s[i])
  }

  predicate NoLineTerminator(s: string) {
    forall i | 0 <= i < |s| :: !IsLineTerminator(s[i])
  }

  /** Neither the first nor the last character is white space. */
  predicate IsTrimmed(s: string) {
    s == [] || (!IsSpace(s[0]) && !IsSpace(s[|s| - 1]))
  }

  /** The number of white-space characters at the start of `s`. */
  function LeadingSpaces(s: string): (n: nat)
    ensures n <= |s| && AllSpace(s[..n])
    ensures n == |s| || !IsSpace(s[n])
  {
    if |s| > 0 && IsSpace(s[0]) then
      var n := LeadingSpaces(s[1..]);
      1 + n
    else 0
  }

  /** The number of white-space characters at the end of `s`. */
  function TrailingSpaces(s: string): (n: nat)
    ensures n <= |s| && AllSpace(s[|s| - n..])
    ensures n == |s| || !IsSpace(s[|s| - n - 1])
  {
    if |s| > 0 && IsSpace(s[|s| - 1]) then
      var p := s[..|s| - 1];
      var n := TrailingSpaces(p);
      assert s[|s| - 1 - n..] == p[|p| - n..] + [s[|s| - 1]];
      1 + n
    else 0
  }

  /** `s` without its leading white space (what a greedy `\s*` consumes). */
  function TrimStart(s: string): string {
    s[LeadingSpaces(s)..]
  }

  /** `s` without its trailing white space. */
  function TrimEnd(s: string): string {
    s[..|s| - TrailingSpaces(s)]
  }

  /** `String.prototype.trim`: `s` with white space removed from both ends. */
  function Trim(s: string): (r: string)
    ensures IsTrimmed(r)
    ensures exists i, j | 0 <= i <= j <= |s| :: r == s[i..j] && AllSpace(s[..i]) && AllSpace(s[j..])
  {
    var u := TrimStart(s);
    var t := TrimEnd(u);
    InfixOfSuffix(s, LeadingSpaces(s), u, TrailingSpaces(u), t);
    t
  }

  /** Dropping `i` characters at the front and then `n` at the back leaves `s[i..|s| - n]`. */
  lemma InfixOfSuffix(s: string, i: nat, u: string, n: nat, r: string)
    requires i <= |s| && u == s[i..] && n <= |u| && r == u[..|u| - n]
    requires AllSpace(u[|u| - n..])
    ensures i <= |s| - n && r == s[i..|s| - n] && AllSpace(s[|s| - n..])
  {
    SliceOfSuffix(s, i, |u| - n);
  }

  /** Slicing a suffix is slicing the whole. */
  lemma SliceOfSuffix(s: string, i: nat, m: nat)
    requires i + m <= |s|
    ensures s[i..][..m] == s[i..i + m] && s[i..][m..] == s[i + m..]
  {
  }

  /** `s.replace(/\s+/g, "")`: every white-space character removed, the rest kept in order. */
  function RemoveSpaces(s: string): (r: string)
    ensures NoSpace(r)
    ensures |r| <= |s|
  {
    if s == [] then []
    else if IsSpace(s[0]) then RemoveSpaces(s[1..])
    else
      var rest := RemoveSpaces(s[1..]);
      assert NoSpace(s) ==> NoSpace(s[1..]);
      [s[0]] + rest
  }

  /** A string without white space is left as it is. */
  lemma {:induction false} RemoveSpacesOfNoSpace(s: string)
    requires NoSpace(s)
    ensures RemoveSpaces(s) == s
  {
    if s != [] {
      assert NoSpace(s[1..]);
      RemoveSpacesOfNoSpace(s[1..]);
    }
  }

  /** On one character, `replace(/\s+/g, "")` drops it exactly when it is white space. */
  lemma RemoveSpacesChar(c: char)
    ensures RemoveSpaces([c]) == if IsSpace(c) then [] else [c]
  {
  }

  /** Removing white space from `[c] + s` treats `c` alone, then the rest. */
  lemma RemoveSpacesCons(c: char, s: string)
    ensures RemoveSpaces([c] + s) == (if IsSpace(c) then [] else [c]) + RemoveSpaces(s)
  {
    assert ([c] + s)[1..] == s;
  }

  /** Removing white space works piece by piece, so the other characters keep their order. */
  lemma {:induction false} RemoveSpacesConcat(x: string, y: string)
    ensures RemoveSpaces(x + y) == RemoveSpaces(x) + RemoveSpaces(y)
  {
    if x == [] {
      assert x + y == y;
    } else {
      var c, rest := x[0], x[1..];
      var h := if IsSpace(c) then [] else [c];
      assert x == [c] + rest;
      assert x + y == [c] + (rest + y);
      RemoveSpacesCons(c, rest + y);
      RemoveSpacesCons(c, rest);
      RemoveSpacesConcat(rest, y);
      assert h + (RemoveSpaces(rest) + RemoveSpaces(y)) == (h + RemoveSpaces(rest)) + RemoveSpaces(y);
    }
  }

  /** A string with no white space at either end is left alone by `trim()`. */
  lemma TrimOfTrimmed(s: string)
    requires IsTrimmed(s)
    ensures Trim(s) == s
  {
  }

  /** Trimming twice is trimming once: the text handed to the dialog is already trimmed. */
  lemma TrimIdempotent(s: string)
    ensures Trim(Trim(s)) == Trim(s)
  {
    TrimOfTrimmed(Trim(s));
  }
}
