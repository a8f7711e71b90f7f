/**
 * The string operations the search is built from: JavaScript's
 * `toLowerCase`, `trim` and `includes`, restricted to what the catalog
 * needs.  Lowering is ASCII-only (see `LowerChar`); the whitespace set of
 * `trim` is the exact ECMAScript one.
 */
module Text {

  /** ASCII lowering of one character; every other character is kept. */
  function LowerChar(c: char): char
  {
    if 'A' <= c <= 'Z' then (c as int + 32) as char else c
  }

  /** ASCII upper-casing, used only to name the two spellings of a letter. */
  function UpperChar(c: char): char
  {
    if 'a' <= c <= 'z' then (c as int - 32) as char else c
  }

  /** The only characters that lower to an ASCII letter, digit or sign `c` are `c` and its capital. */
  lemma {:induction false} LowerCharPreimage(x: char, c: char)
    requires LowerChar(x) == c
    ensures x == c || x == UpperChar(c)
  {
    if 'A' <= x <= 'Z' {
      assert 'a' <= c <= 'z';
      assert UpperChar(c) as int == c as int - 32 == x as int;
    }
  }

  /** `s.toLowerCase()`, character by character: no capital is left, and every other character is kept. */
  function Lower(s: string): (r: string)
    ensures |r| == |s|
    ensures forall i :: 0 <= i < |r| ==> !('A' <= r[i] <= 'Z')
    ensures forall i :: 0 <= i < |s| ==> r[i] == s[i] || UpperChar(r[i]) == s[i]
  {
    seq(|s|, i requires 0 <= i < |s| => LowerChar(s[i]))
  }

  /** Lowering commutes with taking a slice. */
  lemma LowerSlice(s: string, i: nat, j: nat)
    requires i <= j <= |s|
    ensures Lower(s)[i..j] == Lower(s[i..j])
  {
  }

  /** ECMAScript WhiteSpace and LineTerminator code points: what `trim` removes. */
  predicate IsWhitespace(c: char)
  {
    || c == '\t' || c == '\n' || c == '\U{000B}' || c == '\U{000C}' || c == '\r'
    || c == ' ' || c == '\U{00A0}' || c == '\U{1680}'
    || ('\U{2000}' <= c <= '\U{200A}')
    || c == '\U{2028}' || c == '\U{2029}' || c == '\U{202F}' || c == '\U{205F}'
    || c == '\U{3000}' || c == '\U{FEFF}'
  }

  ghost predicate AllWhitespace(s: string)
  {
    forall i :: 0 <= i < |s| ==> IsWhitespace(s[i])
  }

  /** Drops the leading whitespace: the result is the suffix that starts at the first other character. */
  function TrimStart(s: string): (r: string)
    ensures |r| <= |s| && r == s[|s| - |r|..]
    ensures AllWhitespace(s[..|s| - |r|])
    ensures r == [] || !IsWhitespace(r[0])
  {
    if s != [] && IsWhitespace(s[0]) then TrimStart(s[1..]) else s
  }

  /** Drops the trailing whitespace: the result is the prefix that ends at the last other character. */
  function TrimEnd(s: string): (r: string)
    ensures |r| <= |s| && r == s[..|r|]
    ensures AllWhitespace(s[|r|..])
    ensures r == [] || !IsWhitespace(r[|r| - 1])
  {
    if s != [] && IsWhitespace(s[|s| - 1]) then TrimEnd(s[..|s| - 1]) else s
  }

  /** `s.trim()`: what is kept neither starts nor ends with whitespace. */
  function Trim(s: string): (r: string)
    ensures exists i, j :: 0 <= i <= j <= |s| && r == s[i..j] && AllWhitespace(s[..i]) && AllWhitespace(s[j..])
    ensures r == [] || (!IsWhitespace(r[0]) && !IsWhitespace(r[|r| - 1]))
  {
    var t := TrimStart(s);
    var r := TrimEnd(t);
    assert r != [] ==> r[0] == t[0];
    assert r == s[|s| - |t|..|s| - |t| + |r|];
    assert s[|s| - |t| + |r|..] == t[|r|..];
    r
  }

  /** `s.trim()` is the empty string exactly when `s` consists of whitespace only. */
  lemma TrimEmptyIffBlank(s: string)
    ensures Trim(s) == [] <==> AllWhitespace(s)
  {
    var t := TrimStart(s);
    if Trim(s) == [] {
      assert t[0..] == t;
      assert s[..|s|] == s;
    }
  }

  /** `q` occurs in `s` starting at position `i`. */
  predicate OccursAt(s: string, q: string, i: nat)
  {
    i + |q| <= |s| && s[i..i + |q|] == q
  }

  /** Substring containment, stated by its witness position. */
  ghost predicate Contains(s: string, q: string)
  {
    exists i: nat :: OccursAt(s, q, i)
  }

  /** `s.includes(q)`: tries every start position from the left. */
  function Includes(s: string, q: string): (b: bool)
    ensures b <==> Contains(s, q)
    decreases |s|
  {
    if |s| < |q| then false
    else if s[..|q|] == q then (assert OccursAt(s, q, 0); true)
    else (ContainsStep(s, q); Includes(s[1..], q))
  }

  /** Where `q` does not start `s`, `q` occurs in `s` exactly when it occurs in `s` without its first character. */
  lemma ContainsStep(s: string, q: string)
    requires |q| <= |s| && s[..|q|] != q
    ensures Contains(s, q) <==> Contains(s[1..], q)
  {
    if Contains(s, q) {
      var i: nat :| OccursAt(s, q, i);
      assert i != 0 by {
        assert s[0..|q|] == s[..|q|];
      }
      ShiftLeft(s, q, i);
    }
    if Contains(s[1..], q) {
      var i: nat :| OccursAt(s[1..], q, i);
      assert s[i + 1..i + 1 + |q|] == s[1..][i..i + |q|];
      assert OccursAt(s, q, i + 1);
    }
  }

  lemma ShiftLeft(s: string, q: string, i: nat)
    requires 1 <= i && OccursAt(s, q, i)
    ensures OccursAt(s[1..], q, i - 1)
  {
    assert s[1..][i - 1..i - 1 + |q|] == s[i..i + |q|];
  }

  /** Case-insensitivity: a query that is a case variant of a slice of `s` is found in lowered `s`. */
  lemma CaseVariantFound(s: string, q: string, i: nat)
    requires i + |q| <= |s| && Lower(q) == Lower(s[i..i + |q|])
    ensures Contains(Lower(s), Lower(q))
  {
    LowerSlice(s, i, i + |q|);
    assert OccursAt(Lower(s), Lower(q), i);
  }

  /**
   * No match where a character `c` of the lowered query, written `C` as a
   * capital, does not occur in `s` in either spelling.
   */
  lemma AbsentChar(s: string, q: string, j: nat, c: char, C: char)
    requires j < |q| && q[j] == c && UpperChar(c) == C
    requires forall k :: 0 <= k < |s| ==> s[k] != c && s[k] != C
    ensures !Contains(Lower(s), q)
  {
    if i: nat :| OccursAt(Lower(s), q, i) {
      assert Lower(s)[i + j] == q[j];
      LowerCharPreimage(s[i + j], c);
    }
  }

  /**
   * No match where two adjacent characters `c`, `d` of the lowered query
   * (capitals `C`, `D`) never stand side by side in `s`, in any spelling.
   */
  lemma AbsentPair(s: string, q: string, j: nat, c: char, C: char, d: char, D: char)
    requires j + 1 < |q| && q[j] == c && q[j + 1] == d && UpperChar(c) == C && UpperChar(d) == D
    requires forall k :: 0 <= k < |s| - 1 ==> !((s[k] == c || s[k] == C) && (s[k + 1] == d || s[k + 1] == D))
    ensures !Contains(Lower(s), q)
  {
    if i: nat :| OccursAt(Lower(s), q, i) {
      LowerCharPreimage(s[i + j], c);
      LowerCharPreimage(s[i + j + 1], d);
    }
  }

  /** A match at a known position: from `i` on, `s` lowers to `q` character by character. */
  lemma FoundAt(s: string, q: string, i: nat)
    requires i + |q| <= |s|
    requires forall k :: 0 <= k < |q| ==> LowerChar(s[i + k]) == q[k]
    ensures Contains(Lower(s), q)
  {
    assert Lower(s)[i..i + |q|] == q;
    assert OccursAt(Lower(s), q, i);
  }
}
