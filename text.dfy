/** The three JavaScript string operations the chat widget relies on:
    `String.prototype.trim`, `String.prototype.toLowerCase` (ASCII letters
    only) and `String.prototype.includes`. */
module Text {

  /** The characters JavaScript's `trim` removes: the WhiteSpace and
      LineTerminator productions of ECMAScript (tab, vertical tab, form feed,
      space, no-break space, byte order mark, line feed, carriage return,
      line and paragraph separators, and the Unicode space separators). */
  predicate IsWhitespace(c: char)
  {
    c == ' ' || c == '\t' || c == '\n' || c == '\r' ||
    c == '\U{000B}' || c == '\U{000C}' || c == '\U{00A0}' || c == '\U{FEFF}' ||
    c == '\U{1680}' || ('\U{2000}' <= c <= '\U{200A}') ||
    c == '\U{2028}' || c == '\U{2029}' || c == '\U{202F}' ||
    c == '\U{205F}' || c == '\U{3000}'
  }

  /** The first index at or after `i` that does not hold whitespace, or
      `|s|`: the scan that drops leading whitespace. */
  function SkipForward(s: string, i: nat): (k: nat)
    requires i <= |s|
    ensures i <= k <= |s|
    ensures forall m :: i <= m < k ==> IsWhitespace(s[m])
    ensures k == |s| || !IsWhitespace(s[k])
    decreases |s| - i
  {
    if i < |s| && IsWhitespace(s[i]) then SkipForward(s, i + 1) else i
  }

  /** The end of `s[..j]` once its trailing whitespace is dropped. */
  function SkipBackward(s: string, j: nat): (k: nat)
    requires j <= |s|
    ensures k <= j
    ensures forall m :: k <= m < j ==> IsWhitespace(s[m])
    ensures k == 0 || !IsWhitespace(s[k - 1])
  {
    if j > 0 && IsWhitespace(s[j - 1]) then SkipBackward(s, j - 1) else j
  }

  /** No whitespace at either end. */
  predicate IsTrimmed(s: string)
  {
    s == [] || (!IsWhitespace(s[0]) && !IsWhitespace(s[|s| - 1]))
  }

  /** JavaScript `s.trim()`: the part of `s` between its leading and its
      trailing run of whitespace. */
  function Trim(s: string): (r: string)
    ensures IsTrimmed(r) && |r| <= |s|
  {
    var a := SkipForward(s, 0);
    if a == |s| then
      []
    else
      var b := SkipBackward(s, |s|);
      assert a < b by {
        assert !IsWhitespace(s[a]);
      }
      s[a..b]
  }

  /** `s` is `r` placed at offset `a` with only whitespace around it. */
  predicate PaddedAt(s: string, r: string, a: int)
  {
    0 <= a <= |s| - |r| && s[a..a + |r|] == r &&
    (forall i :: 0 <= i < a ==> IsWhitespace(s[i])) &&
    (forall i :: a + |r| <= i < |s| ==> IsWhitespace(s[i]))
  }

  /** What `trim` removes is whitespace and nothing else: the result is a
      contiguous part of `s` with only whitespace before and after it. */
  lemma TrimRemovesOnlyWhitespace(s: string)
    ensures exists a :: PaddedAt(s, Trim(s), a)
  {
    var a := SkipForward(s, 0);
    if a == |s| {
      assert PaddedAt(s, Trim(s), a);
    } else {
      var b := SkipBackward(s, |s|);
      assert a < b by {
        assert !IsWhitespace(s[a]);
      }
      assert PaddedAt(s, Trim(s), a);
    }
  }

  /** Trimming leaves nothing exactly when every character is whitespace, so
      `if (inputValue.trim())` is false exactly for blank input. */
  lemma TrimEmptyIff(s: string)
    ensures Trim(s) == [] <==> forall i :: 0 <= i < |s| ==> IsWhitespace(s[i])
  {
    var a := SkipForward(s, 0);
    if a < |s| {
      assert !IsWhitespace(s[a]);
      var b := SkipBackward(s, |s|);
      assert a < b;
    }
  }

  /** A string with no whitespace at either end is its own trim; in
      particular trimming is idempotent. */
  lemma TrimOfTrimmed(s: string)
    requires IsTrimmed(s)
    ensures Trim(s) == s
  {
    if s != [] {
      assert SkipForward(s, 0) == 0;
      assert SkipBackward(s, |s|) == |s|;
    }
  }

  /** ASCII `toLowerCase` of one character. */
  function LowerChar(c: char): char
  {
    if 'A' <= c <= 'Z' then (c as int + 32) as char else c
  }

  /** `toLowerCase`, restricted to the ASCII letters. */
  function Lower(s: string): (r: string)
    ensures |r| == |s|
    ensures forall i :: 0 <= i < |s| ==> r[i] == LowerChar(s[i])
  {
    seq(|s|, i requires 0 <= i < |s| => LowerChar(s[i]))
  }

  /** `p` occurs in `s` starting at index `i`. */
  predicate OccursAt(s: string, p: string, i: int)
  {
    0 <= i && i + |p| <= |s| && s[i..i + |p|] == p
  }

  /** JavaScript `s.includes(p)`: a left-to-right scan for `p`, true for the
      empty pattern. */
  function Contains(s: string, p: string): (b: bool)
    ensures b <==> exists i :: OccursAt(s, p, i)
  {
    if |p| > |s| then
      assert forall i :: !OccursAt(s, p, i);
      false
    else if s[..|p|] == p then
      assert OccursAt(s, p, 0);
      true
    else
      var b := Contains(s[1..], p);
      assert forall i :: OccursAt(s[1..], p, i) ==> OccursAt(s, p, i + 1) by {
        forall i | OccursAt(s[1..], p, i) ensures OccursAt(s, p, i + 1) {
          assert s[1..][i..i + |p|] == s[i + 1..i + 1 + |p|];
        }
      }
      assert forall i :: OccursAt(s, p, i) ==> i > 0 && OccursAt(s[1..], p, i - 1) by {
        forall i | OccursAt(s, p, i) ensures i > 0 && OccursAt(s[1..], p, i - 1) {
          assert i != 0;
          assert s[1..][i - 1..i - 1 + |p|] == s[i..i + |p|];
        }
      }
      b
  }

  /** The lower-case word `w` is written in `m` at index `i` in some mix of
      ASCII letter case. */
  predicate OccursAtIgnoringCase(m: string, w: string, i: int)
  {
    0 <= i && i + |w| <= |m| && forall j :: 0 <= j < |w| ==> LowerChar(m[i + j]) == w[j]
  }

  /** Searching the lower-cased message is a case-insensitive search: the
      word is found in `Lower(m)` exactly when `m` holds it in any ASCII
      letter case. */
  lemma ContainsLowerIff(m: string, w: string)
    ensures Contains(Lower(m), w) <==> exists i :: OccursAtIgnoringCase(m, w, i)
  {
    var l := Lower(m);
    forall i | OccursAt(l, w, i) ensures OccursAtIgnoringCase(m, w, i) {
      forall j | 0 <= j < |w| ensures LowerChar(m[i + j]) == w[j] {
        assert l[i..i + |w|][j] == l[i + j];
      }
    }
    forall i | OccursAtIgnoringCase(m, w, i) ensures OccursAt(l, w, i) {
      assert l[i..i + |w|] == w;
    }
  }

  /** A pattern with a character that `s` lacks does not occur in `s`. */
  lemma AbsentCharExcludes(s: string, p: string, j: nat)
    requires j < |p| && p[j] !in s
    ensures !Contains(s, p)
  {
    forall i | 0 <= i && i + |p| <= |s| ensures !OccursAt(s, p, i) {
      assert s[i + j] in s;
      assert s[i..i + |p|][j] == s[i + j];
    }
  }

  /** `s` contains `p` when `p` is written out at a known position. */
  lemma ContainsAt(s: string, p: string, i: nat)
    requires i + |p| <= |s| && s[i..i + |p|] == p
    ensures Contains(s, p)
  {
    assert OccursAt(s, p, i);
  }
}
