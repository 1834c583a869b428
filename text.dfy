/**
 * The Python string operations the bridge uses: `isspace`, `lower`,
 * `startswith`/`endswith`, `split(sep)`, `split()`, `strip()`, `rstrip(c)`,
 * `sep.join` and substring search.
 */
module Text {

  /** `c.isspace()` for the characters Python treats as whitespace. */
  predicate IsSpace(c: char) {
    var n := c as int;
    n == 0x20 || (0x09 <= n <= 0x0d) || (0x1c <= n <= 0x1f) || n == 0x85 || n == 0xa0
    || n == 0x1680 || (0x2000 <= n <= 0x200a) || n == 0x2028 || n == 0x2029
    || n == 0x202f || n == 0x205f || n == 0x3000
  }

  /** `str.lower` restricted to ASCII letters; other characters are unchanged. */
  function LowerChar(c: char): char {
    if 'A' <= c <= 'Z' then (c as int + 32) as char else c
  }

  function Lower(s: string): (r: string)
    ensures |r| == |s| && forall i :: 0 <= i < |s| ==> r[i] == LowerChar(s[i])
  {
    seq(|s|, i requires 0 <= i < |s| => LowerChar(s[i]))
  }

  predicate StartsWith(s: string, prefix: string) {
    |prefix| <= |s| && s[..|prefix|] == prefix
  }

  predicate EndsWith(s: string, suffix: string) {
    |suffix| <= |s| && s[|s| - |suffix|..] == suffix
  }

  /** `needle in haystack` for strings. */
  predicate IsSubstring(needle: string, haystack: string)
    decreases |haystack|
  {
    StartsWith(haystack, needle) || (haystack != [] && IsSubstring(needle, haystack[1..]))
  }

  /** Index of the first occurrence of `c`. */
  function IndexOf(s: string, c: char): (i: nat)
    requires c in s
    ensures i < |s| && s[i] == c && c !in s[..i]
  {
    if s[0] == c then 0 else 1 + IndexOf(s[1..], c)
  }

  lemma {:induction false} IndexOfIsFirst(s: string, c: char, j: nat)
    requires j < |s| && s[j] == c && c !in s[..j]
    ensures IndexOf(s, c) == j
    decreases j
  {
    if j > 0 {
      assert s[..j][0] == s[0];
      assert s[1..][..j - 1] == s[1..j];
      assert s[1..j] == s[..j][1..];
      IndexOfIsFirst(s[1..], c, j - 1);
    }
  }

  /** Length of the longest prefix of `s` whose characters all satisfy `p`. */
  function RunLength(s: string, p: char -> bool): (n: nat)
    ensures n <= |s|
    ensures forall i :: 0 <= i < n ==> p(s[i])
    ensures n < |s| ==> !p(s[n])
  {
    if s == [] || !p(s[0]) then 0 else 1 + RunLength(s[1..], p)
  }

  /** `s.split(sep)` for a one-character separator. */
  function Split(s: string, sep: char): (parts: seq<string>)
    ensures |parts| >= 1
    decreases |s|
  {
    if sep in s then
      var i := IndexOf(s, sep);
      [s[..i]] + Split(s[i + 1..], sep)
    else
      [s]
  }

  /** `sep.join(ws)`. */
  function Join(ws: seq<string>, sep: string): string
    decreases |ws|
  {
    if ws == [] then ""
    else if |ws| == 1 then ws[0]
    else ws[0] + sep + Join(ws[1..], sep)
  }

  /** Splitting on a separator and joining with it gives the string back, and no part holds the separator. */
  lemma {:induction false} SplitJoin(s: string, sep: char)
    ensures Join(Split(s, sep), [sep]) == s
    ensures forall k :: 0 <= k < |Split(s, sep)| ==> sep !in Split(s, sep)[k]
    decreases |s|
  {
    if sep in s {
      var i := IndexOf(s, sep);
      var rest := s[i + 1..];
      SplitJoin(rest, sep);
      assert Split(rest, sep) != [] by { if sep in rest { } }
      assert Split(s, sep) == [s[..i]] + Split(rest, sep);
      assert s == s[..i] + [sep] + rest;
    }
  }

  /** `s.split()`: the maximal runs of non-whitespace characters, in order. */
  function Words(s: string): seq<string>
    decreases |s|
  {
    if s == [] then []
    else if IsSpace(s[0]) then Words(s[1..])
    else
      var n := RunLength(s, c => !IsSpace(c));
      [s[..n]] + Words(s[n..])
  }

  /** `" ".join(s.split())`. */
  function Collapse(s: string): string {
    Join(Words(s), " ")
  }

  /** No whitespace at either end, every whitespace character is a plain space, and no two are adjacent. */
  predicate NormalSpacing(r: string) {
    && (r != [] ==> !IsSpace(r[0]) && !IsSpace(r[|r| - 1]))
    && (forall i :: 0 <= i < |r| && IsSpace(r[i]) ==> r[i] == ' ')
    && (forall i :: 0 <= i < |r| - 1 && IsSpace(r[i]) ==> !IsSpace(r[i + 1]))
  }

  predicate Spaceless(w: string) {
    forall i :: 0 <= i < |w| ==> !IsSpace(w[i])
  }

  lemma {:induction false} WordsAreSpaceless(s: string)
    ensures forall k :: 0 <= k < |Words(s)| ==> Words(s)[k] != [] && Spaceless(Words(s)[k])
    decreases |s|
  {
    if s == [] {
    } else if IsSpace(s[0]) {
      WordsAreSpaceless(s[1..]);
    } else {
      var n := RunLength(s, c => !IsSpace(c));
      WordsAreSpaceless(s[n..]);
      assert Words(s) == [s[..n]] + Words(s[n..]);
    }
  }

  lemma {:induction false} JoinOfWordsIsNormal(ws: seq<string>)
    requires forall k :: 0 <= k < |ws| ==> ws[k] != [] && Spaceless(ws[k])
    ensures NormalSpacing(Join(ws, " "))
    ensures ws != [] ==> Join(ws, " ") != [] && Join(ws, " ")[0] == ws[0][0]
    decreases |ws|
  {
    if |ws| >= 2 {
      JoinOfWordsIsNormal(ws[1..]);
      var w, rest := ws[0], Join(ws[1..], " ");
      var r := w + " " + rest;
      assert Join(ws, " ") == r;
      forall i | 0 <= i < |r|
        ensures IsSpace(r[i]) ==> r[i] == ' '
        ensures IsSpace(r[i]) && i < |r| - 1 ==> !IsSpace(r[i + 1])
      {
        if i < |w| {
          assert r[i] == w[i];
        } else if i == |w| {
          assert r[i + 1] == rest[0];
        } else {
          assert r[i] == rest[i - |w| - 1];
          if i < |r| - 1 { assert r[i + 1] == rest[i - |w|]; }
        }
      }
      assert r[|r| - 1] == rest[|rest| - 1];
    }
  }

  /** `" ".join(s.split())` never leaves leading, trailing, doubled or non-space whitespace. */
  lemma CollapseIsNormal(s: string)
    ensures NormalSpacing(Collapse(s))
  {
    WordsAreSpaceless(s);
    JoinOfWordsIsNormal(Words(s));
  }

  /** Every '@' in `s` is the last character or is followed by a character satisfying `q`. */
  predicate AtFollowedBy(s: string, q: char -> bool) {
    forall i :: 0 <= i < |s| - 1 && s[i] == '@' ==> q(s[i + 1])
  }

  lemma {:induction false} WordsKeepAtFollowedBy(s: string, q: char -> bool)
    requires AtFollowedBy(s, q)
    ensures forall k :: 0 <= k < |Words(s)| ==> AtFollowedBy(Words(s)[k], q)
    decreases |s|
  {
    if s == [] {
    } else if IsSpace(s[0]) {
      WordsKeepAtFollowedBy(s[1..], q);
    } else {
      var n := RunLength(s, c => !IsSpace(c));
      var w := s[..n];
      forall i | 0 <= i < |w| - 1 && w[i] == '@' ensures q(w[i + 1]) {
        assert s[i] == '@' && s[i + 1] == w[i + 1];
      }
      WordsKeepAtFollowedBy(s[n..], q);
      assert Words(s) == [w] + Words(s[n..]);
    }
  }

  lemma {:induction false} JoinKeepsAtFollowedBy(ws: seq<string>, q: char -> bool)
    requires q(' ')
    requires forall k :: 0 <= k < |ws| ==> ws[k] != [] && AtFollowedBy(ws[k], q)
    ensures AtFollowedBy(Join(ws, " "), q)
    decreases |ws|
  {
    if |ws| >= 2 {
      JoinKeepsAtFollowedBy(ws[1..], q);
      var w, rest := ws[0], Join(ws[1..], " ");
      var r := w + " " + rest;
      assert Join(ws, " ") == r;
      forall i | 0 <= i < |r| - 1 && r[i] == '@' ensures q(r[i + 1]) {
        if i < |w| - 1 {
          assert r[i] == w[i] && r[i + 1] == w[i + 1];
        } else if i == |w| - 1 {
          assert r[i + 1] == ' ';
        } else if i > |w| {
          assert r[i] == rest[i - |w| - 1] && r[i + 1] == rest[i - |w|];
        }
      }
    }
  }

  /** Collapsing whitespace keeps "every '@' is followed by a `q` character" when spaces satisfy `q`. */
  lemma CollapseKeepsAtFollowedBy(s: string, q: char -> bool)
    requires forall c :: IsSpace(c) ==> q(c)
    requires AtFollowedBy(s, q)
    ensures AtFollowedBy(Collapse(s), q)
  {
    WordsAreSpaceless(s);
    WordsKeepAtFollowedBy(s, q);
    JoinKeepsAtFollowedBy(Words(s), q);
  }

  /** `s.lstrip()`. */
  function LStrip(s: string): string
    decreases |s|
  {
    if s != [] && IsSpace(s[0]) then LStrip(s[1..]) else s
  }

  /** `s.rstrip()`. */
  function RStrip(s: string): string
    decreases |s|
  {
    if s != [] && IsSpace(s[|s| - 1]) then RStrip(s[..|s| - 1]) else s
  }

  /** `s.strip()`. */
  function Strip(s: string): string {
    RStrip(LStrip(s))
  }

  lemma {:induction false} LStripShape(s: string)
    ensures LStrip(s) == [] || !IsSpace(LStrip(s)[0])
    ensures exists k :: 0 <= k <= |s| && LStrip(s) == s[k..] && forall m :: 0 <= m < k ==> IsSpace(s[m])
    decreases |s|
  {
    if s != [] && IsSpace(s[0]) {
      LStripShape(s[1..]);
      var k :| 0 <= k <= |s[1..]| && LStrip(s[1..]) == s[1..][k..] && forall m :: 0 <= m < k ==> IsSpace(s[1..][m]);
      assert LStrip(s) == s[k + 1..];
      forall m | 0 <= m < k + 1 ensures IsSpace(s[m]) {
        if m > 0 {
          assert s[m] == s[1..][m - 1];
        }
      }
    } else {
      assert LStrip(s) == s[0..];
    }
  }

  lemma {:induction false} RStripShape(s: string)
    ensures RStrip(s) == [] || !IsSpace(RStrip(s)[|RStrip(s)| - 1])
    ensures exists k :: 0 <= k <= |s| && RStrip(s) == s[..k] && forall m :: k <= m < |s| ==> IsSpace(s[m])
    decreases |s|
  {
    if s != [] && IsSpace(s[|s| - 1]) {
      var init := s[..|s| - 1];
      RStripShape(init);
      var k :| 0 <= k <= |init| && RStrip(init) == init[..k] && forall m :: k <= m < |init| ==> IsSpace(init[m]);
      assert RStrip(s) == s[..k];
      forall m | k <= m < |s| ensures IsSpace(s[m]) {
        if m < |init| {
          assert s[m] == init[m];
        }
      }
    } else {
      assert RStrip(s) == s[..|s|];
    }
  }

  lemma StripBounds(s: string) returns (i: nat, j: nat)
    ensures i <= j <= |s| && Strip(s) == s[i..j]
    ensures forall m :: 0 <= m < i ==> IsSpace(s[m])
    ensures forall m :: j <= m < |s| ==> IsSpace(s[m])
  {
    LStripShape(s);
    var l := LStrip(s);
    var i0 :| 0 <= i0 <= |s| && l == s[i0..] && forall m :: 0 <= m < i0 ==> IsSpace(s[m]);
    RStripShape(l);
    var k :| 0 <= k <= |l| && RStrip(l) == l[..k] && forall m :: k <= m < |l| ==> IsSpace(l[m]);
    i, j := i0, i0 + k;
    assert Strip(s) == l[..k];
    assert l[..k] == s[i..j];
    SuffixSpaces(s, i, k);
  }

  lemma SuffixSpaces(s: string, i: nat, k: nat)
    requires i <= |s| && k <= |s| - i
    requires forall m :: k <= m < |s[i..]| ==> IsSpace(s[i..][m])
    ensures forall m :: i + k <= m < |s| ==> IsSpace(s[m])
  {
    forall m | i + k <= m < |s| ensures IsSpace(s[m]) {
      assert s[m] == s[i..][m - i];
    }
  }

  /** `s.strip()` is the part of `s` left once the whitespace at both ends is removed: it has no whitespace
      at either end, and everything before and after it is whitespace. */
  lemma StripShape(s: string)
    ensures var r := Strip(s); r == [] || (!IsSpace(r[0]) && !IsSpace(r[|r| - 1]))
    ensures exists i, j ::
              && 0 <= i <= j <= |s| && Strip(s) == s[i..j]
              && (forall m :: 0 <= m < i ==> IsSpace(s[m])) && (forall m :: j <= m < |s| ==> IsSpace(s[m]))
  {
    var i, j := StripBounds(s);
    LStripShape(s);
    RStripShape(LStrip(s));
    var r := Strip(s);
    if r != [] {
      assert r[0] == LStrip(s)[0];
    }
  }

  /** `s.rstrip(c)` for one character. */
  function RStripChar(s: string, c: char): (r: string)
    decreases |s|
  {
    if s != [] && s[|s| - 1] == c then RStripChar(s[..|s| - 1], c) else s
  }

  lemma {:induction false} RStripCharShape(s: string, c: char)
    ensures RStripChar(s, c) == [] || RStripChar(s, c)[|RStripChar(s, c)| - 1] != c
    ensures StartsWith(s, RStripChar(s, c))
    ensures forall i :: |RStripChar(s, c)| <= i < |s| ==> s[i] == c
    decreases |s|
  {
    if s != [] && s[|s| - 1] == c {
      RStripCharShape(s[..|s| - 1], c);
    }
  }
}
