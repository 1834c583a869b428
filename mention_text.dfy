/**
 * Hand-written left-to-right scanners for the two `re.sub` passes of
 * `strip_mention_text`: `<@[^>]+>` and `@` followed by a run of characters
 * from a class (`[^\s]` in the plugin utilities, `[\w\-]` in the adapter
 * utilities). Each match is replaced by one space, as `re.sub` does,
 * scanning on after the match.
 */
module MentionText {
  import Text

  /** `<@[^>]+>` matches at the start of `s`: "<@", at least one character other than '>', then the first '>'. */
  predicate AngleAtStart(s: string) {
    |s| >= 3 && s[0] == '<' && s[1] == '@' && s[2] != '>' && '>' in s
  }

  /** `re.sub(r"<@[^>]+>", " ", s)`. */
  function RemoveAngleMentions(s: string): string
    decreases |s|
  {
    if s == [] then []
    else if AngleAtStart(s) then
      var k := Text.IndexOf(s, '>');
      " " + RemoveAngleMentions(s[k + 1..])
    else [s[0]] + RemoveAngleMentions(s[1..])
  }

  /** A `<@...>` span starts at position i. */
  predicate AngleAt(s: string, i: nat) {
    i < |s| && AngleAtStart(s[i..])
  }

  lemma {:induction false} RemoveAngleShape(s: string)
    ensures RemoveAngleMentions(s) == [] <==> s == []
    ensures s != [] ==> RemoveAngleMentions(s)[0] == (if AngleAtStart(s) then ' ' else s[0])
    ensures '>' in RemoveAngleMentions(s) ==> '>' in s
    decreases |s|
  {
    if s != [] {
      if AngleAtStart(s) {
        var k := Text.IndexOf(s, '>');
        RemoveAngleShape(s[k + 1..]);
        if '>' in RemoveAngleMentions(s[k + 1..]) {
          var j :| 0 <= j < |s[k + 1..]| && s[k + 1..][j] == '>';
          assert s[k + 1 + j] == '>';
        }
      } else {
        RemoveAngleShape(s[1..]);
        if '>' in RemoveAngleMentions(s[1..]) {
          var j :| 0 <= j < |s[1..]| && s[1..][j] == '>';
          assert s[1 + j] == '>';
        }
      }
    }
  }

  /** The first pass leaves no `<@...>` span behind. */
  lemma {:induction false} RemoveAngleLeavesNone(s: string)
    ensures forall i :: !AngleAt(RemoveAngleMentions(s), i)
    decreases |s|
  {
    if s != [] {
      if AngleAtStart(s) {
        var k := Text.IndexOf(s, '>');
        RemoveAngleLeavesNone(s[k + 1..]);
        NoAngleAfterHead(' ', RemoveAngleMentions(s[k + 1..]));
      } else {
        RemoveAngleLeavesNone(s[1..]);
        if s[0] == '<' {
          NoAngleAtKeptStart(s);
        }
        NoAngleAfterHead(s[0], RemoveAngleMentions(s[1..]));
      }
    }
  }

  /** A character in front of span-free text adds no span unless one starts right at it. */
  lemma NoAngleAfterHead(c: char, rest: string)
    requires forall i :: !AngleAt(rest, i)
    requires !AngleAtStart([c] + rest)
    ensures forall i :: !AngleAt([c] + rest, i)
  {
    var r := [c] + rest;
    forall i: nat ensures !AngleAt(r, i) {
      if 0 < i < |r| {
        assert r[i..] == rest[i - 1..];
        assert !AngleAt(rest, i - 1);
      }
    }
  }

  lemma NoAngleAtKeptStart(s: string)
    requires s != [] && !AngleAtStart(s) && s[0] == '<'
    ensures !AngleAtStart(RemoveAngleMentions(s))
  {
    var r := RemoveAngleMentions(s);
    var t := s[1..];
    RemoveAngleShape(t);
    if |r| >= 3 && r[1] == '@' {
      // The second character survives only as '@' itself.
      assert r[1..] == RemoveAngleMentions(t);
      assert t != [] && t[0] == '@' by {
        if t == [] { } else if AngleAtStart(t) { }
      }
      assert !AngleAtStart(t);
      var u := t[1..];
      assert RemoveAngleMentions(t) == ['@'] + RemoveAngleMentions(u);
      RemoveAngleShape(u);
      assert r[2..] == RemoveAngleMentions(u);
      if u != [] && u[0] == '>' {
        assert !AngleAtStart(u);
        assert r[2] == '>';
      } else {
        // `s` does not start a span although it starts with "<@": no '>' follows.
        assert '>' !in s by {
          assert |s| >= 3 && s[2] != '>';
        }
        forall j | 0 <= j < |u| ensures u[j] != '>' {
          assert u[j] == s[2 + j];
        }
        forall j | 2 <= j < |r| ensures r[j] != '>' {
          assert r[j] == RemoveAngleMentions(u)[j - 2];
        }
        assert r[0] != '>' && r[1] != '>';
      }
    }
  }

  /** `re.sub("@" + run + "+", " ", s)`: an '@' followed by at least one run character, with the longest run. */
  function RemoveAtRuns(s: string, run: char -> bool): string
    decreases |s|
  {
    if s == [] then []
    else if s[0] == '@' && |s| > 1 && run(s[1]) then
      var n := 1 + Text.RunLength(s[1..], run);
      " " + RemoveAtRuns(s[n..], run)
    else [s[0]] + RemoveAtRuns(s[1..], run)
  }

  lemma {:induction false} RemoveAtRunsStart(s: string, run: char -> bool)
    ensures RemoveAtRuns(s, run) == [] <==> s == []
    ensures s != [] ==> RemoveAtRuns(s, run)[0] == (if s[0] == '@' && |s| > 1 && run(s[1]) then ' ' else s[0])
  {
  }

  /** After the second pass every remaining '@' is the last character or is followed by a character outside the run class. */
  lemma {:induction false} RemoveAtRunsLeavesNone(s: string, run: char -> bool)
    requires !run(' ')
    ensures Text.AtFollowedBy(RemoveAtRuns(s, run), c => !run(c))
    decreases |s|
  {
    if s != [] {
      var r := RemoveAtRuns(s, run);
      if s[0] == '@' && |s| > 1 && run(s[1]) {
        var n := 1 + Text.RunLength(s[1..], run);
        var rest := RemoveAtRuns(s[n..], run);
        RemoveAtRunsLeavesNone(s[n..], run);
        assert r == " " + rest;
        forall i | 0 <= i < |r| - 1 && r[i] == '@' ensures !run(r[i + 1]) {
          assert i > 0;
          assert r[i] == rest[i - 1] && r[i + 1] == rest[i];
        }
      } else {
        var rest := RemoveAtRuns(s[1..], run);
        RemoveAtRunsLeavesNone(s[1..], run);
        RemoveAtRunsStart(s[1..], run);
        assert r == [s[0]] + rest;
        forall i | 0 <= i < |r| - 1 && r[i] == '@' ensures !run(r[i + 1]) {
          if i > 0 {
            assert r[i] == rest[i - 1] && r[i + 1] == rest[i];
          } else {
            assert r[1] == rest[0];
          }
        }
      }
    }
  }

  /** `strip_mention_text` for a given run class: falsy text is returned as it is. */
  function StripMentions(text: string, run: char -> bool): string {
    if text == "" then text
    else Text.Collapse(RemoveAtRuns(RemoveAngleMentions(text), run))
  }

  /** The result has normal spacing, and no '@' in it is followed by a run character. */
  lemma StripMentionsClean(text: string, run: char -> bool)
    requires forall c :: Text.IsSpace(c) ==> !run(c)
    ensures Text.NormalSpacing(StripMentions(text, run))
    ensures Text.AtFollowedBy(StripMentions(text, run), c => !run(c))
  {
    if text != "" {
      var mid := RemoveAtRuns(RemoveAngleMentions(text), run);
      assert Text.IsSpace(' ');
      RemoveAtRunsLeavesNone(RemoveAngleMentions(text), run);
      Text.CollapseIsNormal(mid);
      Text.CollapseKeepsAtFollowedBy(mid, c => !run(c));
    }
  }

  /** Without a "<@" pair the first pass changes nothing. */
  lemma {:induction false} NoSpanUnchanged(s: string)
    requires forall i :: 0 <= i < |s| - 1 ==> !(s[i] == '<' && s[i + 1] == '@')
    ensures RemoveAngleMentions(s) == s
    decreases |s|
  {
    if s != [] {
      assert !AngleAtStart(s);
      var t := s[1..];
      forall i | 0 <= i < |t| - 1 ensures !(t[i] == '<' && t[i + 1] == '@') {
        assert t[i] == s[i + 1] && t[i + 1] == s[i + 2];
      }
      NoSpanUnchanged(t);
    }
  }

  /** Without an '@' followed by a run character the second pass changes nothing. */
  lemma {:induction false} NoRunUnchanged(s: string, run: char -> bool)
    requires forall i :: 0 <= i < |s| - 1 && s[i] == '@' ==> !run(s[i + 1])
    ensures RemoveAtRuns(s, run) == s
    decreases |s|
  {
    if s != [] {
      var t := s[1..];
      forall i | 0 <= i < |t| - 1 && t[i] == '@' ensures !run(t[i + 1]) {
        assert t[i] == s[i + 1] && t[i + 1] == s[i + 2];
      }
      NoRunUnchanged(t, run);
    }
  }

  /** Text before the first '@' passes through the second pass unchanged. */
  lemma {:induction false} RemoveAtRunsKeepsPrefix(a: string, b: string, run: char -> bool)
    requires '@' !in a
    ensures RemoveAtRuns(a + b, run) == a + RemoveAtRuns(b, run)
    decreases |a|
  {
    if a == [] {
      assert a + b == b;
    } else {
      assert (a + b)[0] == a[0];
      assert (a + b)[1..] == a[1..] + b;
      RemoveAtRunsKeepsPrefix(a[1..], b, run);
      assert [a[0]] + (a[1..] + RemoveAtRuns(b, run)) == a + RemoveAtRuns(b, run);
    }
  }

  lemma {:induction false} RunLengthOf(name: string, b: string, p: char -> bool)
    requires forall i :: 0 <= i < |name| ==> p(name[i])
    requires b == [] || !p(b[0])
    ensures Text.RunLength(name + b, p) == |name|
    decreases |name|
  {
    if name == [] {
      assert name + b == b;
    } else {
      assert (name + b)[1..] == name[1..] + b;
      RunLengthOf(name[1..], b, p);
    }
  }

  /** An '@' with the longest run after it is replaced by one space. */
  lemma RemoveOneRun(name: string, b: string, run: char -> bool)
    requires name != [] && forall i :: 0 <= i < |name| ==> run(name[i])
    requires b == [] || !run(b[0])
    ensures RemoveAtRuns("@" + name + b, run) == " " + RemoveAtRuns(b, run)
  {
    var s := "@" + name + b;
    assert s[0] == '@' && s[1] == name[0];
    assert s[1..] == name + b;
    RunLengthOf(name, b, run);
    assert s[1 + |name|..] == b;
    assert RemoveAtRuns(s, run) == " " + RemoveAtRuns(s[1 + |name|..], run);
  }

  /** Text without any '@' keeps every character; only its whitespace is collapsed. */
  lemma PlainTextCollapsed(text: string, run: char -> bool)
    requires '@' !in text
    ensures StripMentions(text, run) == Text.Collapse(text)
  {
    if text != "" {
      NoSpanUnchanged(text);
      NoRunUnchanged(text, run);
    } else {
      assert Text.Words(text) == [];
    }
  }

  lemma NoAngleAroundMention(a: string, name: string, b: string)
    requires '@' !in a && '@' !in name && '@' !in b
    requires a == [] || a[|a| - 1] != '<'
    ensures RemoveAngleMentions(a + ("@" + name + b)) == a + ("@" + name + b)
  {
    var m := "@" + name + b;
    var s := a + m;
    forall j | 0 <= j < |s| && j != |a| ensures s[j] != '@' {
      if j < |a| {
        assert s[j] == a[j];
      } else if j <= |a| + |name| {
        assert s[j] == m[j - |a|] == name[j - |a| - 1];
      } else {
        assert s[j] == m[j - |a|] == b[j - |a| - |name| - 1];
      }
    }
    forall i | 0 <= i < |s| - 1 ensures !(s[i] == '<' && s[i + 1] == '@') {
      if i + 1 == |a| {
        assert s[i] == a[|a| - 1];
      }
    }
    NoSpanUnchanged(s);
  }

  /** One mention inside plain text: the mention becomes a space and the text around it is kept, with its
      whitespace collapsed. */
  lemma ReplaceOneMention(a: string, name: string, b: string, run: char -> bool)
    requires '@' !in a && '@' !in name && '@' !in b
    requires a == [] || a[|a| - 1] != '<'
    requires name != [] && forall i :: 0 <= i < |name| ==> run(name[i])
    requires b == [] || !run(b[0])
    ensures StripMentions(a + "@" + name + b, run) == Text.Collapse(a + " " + b)
  {
    var m := "@" + name + b;
    assert a + "@" + name + b == a + m;
    NoAngleAroundMention(a, name, b);
    RemoveAtRunsKeepsPrefix(a, m, run);
    RemoveOneRun(name, b, run);
    NoRunUnchanged(b, run);
    assert RemoveAtRuns(a + m, run) == a + (" " + b);
    assert a + (" " + b) == a + " " + b;
  }
}
